/** The image manager on the product edit page: it lists a product's additional images and
    lets the admin edit a description, replace or delete an image, and upload several files at
    once. */
module ProductImageManager {
  import opened Wrappers
  import opened Text
  import opened Seqs
  import opened Forms

  /** An additional image as the backend lists it. */
  datatype ImageRow = ImageRow(id: int, imagePath: string, description: string, displayOrder: int)

  /** `file.name.split('.')[0] || "Image"`: the description a multi-uploaded file is sent with. */
  function DefaultDescription(name: string): (d: string)
    ensures d != "" && '.' !in d
  {
    var first := Split(name, '.')[0];
    if first != "" then first else "Image"
  }

  /** The default description is the file name up to its first '.', the whole name when it has
      none, and "Image" only when the name begins with '.' or is empty. */
  lemma DefaultDescriptionOfName(name: string)
    ensures var d := DefaultDescription(name);
      (d == "Image" && (name == "" || name[0] == '.')) ||
      (StartsWith(name, d) && (|d| == |name| || name[|d|] == '.'))
    ensures '.' !in name && name != "" ==> DefaultDescription(name) == name
  {
    SplitFirst(name, '.');
  }

  /** The test a file must pass to be uploaded in the multi-file picker. */
  predicate Uploadable(f: File) {
    CheckImageFile(f) == Accepted
  }

  datatype ImageRequest =
    | AddImage(file: File, description: string)
    | UpdateImage(imageId: int, description: string, displayOrder: int)
    | ReplaceImage(imageId: int, file: File, description: string)
    | DeleteImage(imageId: int)

  /** The add requests the multi-file picker sends for `files`, in order. */
  function Uploads(files: seq<File>): (r: seq<ImageRequest>)
    ensures |r| <= |files|
  {
    if files == [] then []
    else (if Uploadable(files[0]) then [AddImage(files[0], DefaultDescription(files[0].name))] else []) + Uploads(files[1..])
  }

  /** One add request per file, each with its default description. */
  function AddRequests(fs: seq<File>): (r: seq<ImageRequest>)
    ensures |r| == |fs| && forall k :: 0 <= k < |fs| ==> r[k] == AddImage(fs[k], DefaultDescription(fs[k].name))
  {
    seq(|fs|, k requires 0 <= k < |fs| => AddImage(fs[k], DefaultDescription(fs[k].name)))
  }

  /** Exactly the files that pass the type and size checks are sent, in their order, each with
      its default description. */
  lemma {:induction false} UploadsAreTheAcceptedFiles(files: seq<File>)
    ensures Uploads(files) == AddRequests(Filter(files, Uploadable))
  {
    if files != [] {
      UploadsAreTheAcceptedFiles(files[1..]);
      var rest := Filter(files[1..], Uploadable);
      if Uploadable(files[0]) {
        assert Filter(files, Uploadable) == [files[0]] + rest;
        AddRequestsCons(files[0], rest);
      } else {
        assert Filter(files, Uploadable) == rest;
      }
    }
  }

  /** The add requests of a list are those of its head followed by those of its tail. */
  lemma AddRequestsCons(f: File, fs: seq<File>)
    ensures AddRequests([f] + fs) == [AddImage(f, DefaultDescription(f.name))] + AddRequests(fs)
  {
    var l := AddRequests([f] + fs);
    var r := [AddImage(f, DefaultDescription(f.name))] + AddRequests(fs);
    assert |l| == |r|;
    forall k | 0 <= k < |l| ensures l[k] == r[k] {
      if k > 0 {
        assert ([f] + fs)[k] == fs[k - 1];
      }
    }
  }

  lemma {:induction false} UploadsAppend(a: seq<File>, b: seq<File>)
    ensures Uploads(a + b) == Uploads(a) + Uploads(b)
    decreases |a|
  {
    if a != [] {
      assert (a + b)[1..] == a[1..] + b;
      assert (a + b)[0] == a[0];
      UploadsAppend(a[1..], b);
      var head: seq<ImageRequest> := if Uploadable(a[0]) then [AddImage(a[0], DefaultDescription(a[0].name))] else [];
      assert Uploads(a + b) == head + Uploads(a[1..] + b);
      assert Uploads(a) == head + Uploads(a[1..]);
      assert head + (Uploads(a[1..]) + Uploads(b)) == (head + Uploads(a[1..])) + Uploads(b);
    } else {
      assert a + b == b;
    }
  }

  /** What `fetchImages` gets: the response's `images` (absent is `None`), or a failure. */
  datatype FetchReply = Loaded(images: Option<seq<ImageRow>>) | LoadFailed

  class ImageManager {
    var images: seq<ImageRow>
    var loading: bool
    var uploading: bool
    var message: Option<Notice>
    var editingId: Option<int>
    var editingDescription: string
    ghost var requests: seq<ImageRequest>

    constructor ()
      ensures images == [] && !loading && !uploading && message.None? && editingId.None?
      ensures editingDescription == "" && requests == []
    {
      images := [];
      loading := false;
      uploading := false;
      message := None;
      editingId := None;
      editingDescription := "";
      requests := [];
    }

    /** `fetchImages`: a reply replaces the list (`images || []`) and clears the message; a
        failure keeps the list and reports it. */
    method Fetch(reply: FetchReply)
      modifies this
      ensures reply.Loaded? ==> images == reply.images.GetOr([]) && message.None?
      ensures reply.LoadFailed? ==> images == old(images) && message == Some(Error("Failed to load images"))
      ensures !loading && uploading == old(uploading) && requests == old(requests)
      ensures editingId == old(editingId) && editingDescription == old(editingDescription)
    {
      loading := true;
      if reply.Loaded? {
        images := reply.images.GetOr([]);
        message := None;
      } else {
        message := Some(Error("Failed to load images"));
      }
      loading := false;
    }

    /** The edit button of `image`. */
    method StartEdit(image: ImageRow)
      modifies this
      ensures editingId == Some(image.id) && editingDescription == image.description
      ensures images == old(images) && message == old(message) && requests == old(requests)
      ensures loading == old(loading) && uploading == old(uploading)
    {
      editingId := Some(image.id);
      editingDescription := image.description;
    }

    method EditDescription(text: string)
      modifies this
      ensures editingDescription == text && editingId == old(editingId)
      ensures images == old(images) && message == old(message) && requests == old(requests)
      ensures loading == old(loading) && uploading == old(uploading)
    {
      editingDescription := text;
    }

    /** The cancel button: leaves edit mode but keeps the typed description. */
    method CancelEdit()
      modifies this
      ensures editingId.None? && editingDescription == old(editingDescription)
      ensures images == old(images) && message == old(message) && requests == old(requests)
      ensures loading == old(loading) && uploading == old(uploading)
    {
      editingId := None;
    }

    /** `handleUpdateDescription`: the typed description is sent with the image's own display
        order; success leaves edit mode and clears the typed text, a failure keeps both. */
    method UpdateDescription(imageId: int, image: ImageRow, reply: Reply)
      modifies this
      ensures requests == old(requests) + [UpdateImage(imageId, old(editingDescription), image.displayOrder)]
      ensures reply.Ok? ==> message == Some(Success("Image updated successfully!")) && editingId.None? && editingDescription == ""
      ensures reply.Failed? ==> message == Some(Error(ErrorText(reply.error, "Failed to update image")))
      ensures reply.Failed? ==> editingId == old(editingId) && editingDescription == old(editingDescription)
      ensures images == old(images) && uploading == old(uploading)
      ensures loading == old(loading)
    {
      requests := requests + [UpdateImage(imageId, editingDescription, image.displayOrder)];
      if reply.Ok? {
        message := Some(Success("Image updated successfully!"));
        editingId := None;
        editingDescription := "";
      } else {
        message := Some(Error(ErrorText(reply.error, "Failed to update image")));
      }
    }

    /** `handleDeleteImage`: nothing happens unless the admin confirms. */
    method Delete(imageId: int, confirmed: bool, reply: Reply)
      modifies this
      ensures !confirmed ==> requests == old(requests) && message == old(message)
      ensures confirmed ==> requests == old(requests) + [DeleteImage(imageId)]
      ensures confirmed && reply.Ok? ==> message == Some(Success("Image deleted successfully!"))
      ensures confirmed && reply.Failed? ==> message == Some(Error(ErrorText(reply.error, "Failed to delete image")))
      ensures images == old(images) && editingId == old(editingId) && editingDescription == old(editingDescription)
      ensures loading == old(loading) && uploading == old(uploading)
    {
      if !confirmed {
        return;
      }
      requests := requests + [DeleteImage(imageId)];
      if reply.Ok? {
        message := Some(Success("Image deleted successfully!"));
      } else {
        message := Some(Error(ErrorText(reply.error, "Failed to delete image")));
      }
    }

    /** `handleReplaceImage` once a file was picked (`None` when the picker was closed): the
        file must pass the image checks before it is sent with the image's description. */
    method Replace(imageId: int, image: ImageRow, file: Option<File>, reply: Reply)
      modifies this
      ensures file.None? ==> message == old(message) && requests == old(requests)
      ensures file.Some? && CheckImageFile(file.value) != Accepted ==>
        message == PickedFileNotice(file.value) && requests == old(requests)
      ensures file.Some? && CheckImageFile(file.value) == Accepted ==>
        requests == old(requests) + [ReplaceImage(imageId, file.value, image.description)]
      ensures file.Some? && CheckImageFile(file.value) == Accepted && reply.Ok? ==>
        message == Some(Success("Image replaced successfully!"))
      ensures file.Some? && CheckImageFile(file.value) == Accepted && reply.Failed? ==>
        message == Some(Error(ErrorText(reply.error, "Failed to replace image")))
      ensures file.Some? && CheckImageFile(file.value) == Accepted ==> !uploading
      ensures (file.None? || CheckImageFile(file.value) != Accepted) ==> uploading == old(uploading)
      ensures images == old(images) && editingId == old(editingId) && editingDescription == old(editingDescription)
      ensures loading == old(loading)
    {
      if file.None? {
        return;
      }
      var notice := PickedFileNotice(file.value);
      if notice.Some? {
        message := notice;
        return;
      }
      uploading := true;
      requests := requests + [ReplaceImage(imageId, file.value, image.description)];
      if reply.Ok? {
        message := Some(Success("Image replaced successfully!"));
      } else {
        message := Some(Error(ErrorText(reply.error, "Failed to replace image")));
      }
      uploading := false;
    }

    /** The multi-file picker: every file that passes the checks is sent on its own, in order;
        the others are skipped silently. */
    method UploadMany(files: seq<File>)
      modifies this
      ensures requests == old(requests) + Uploads(files)
      ensures uploading == (old(uploading) || Uploads(files) != [])
      ensures images == old(images) && message == old(message) && editingId == old(editingId)
      ensures loading == old(loading) && editingDescription == old(editingDescription)
    {
      var i := 0;
      while i < |files|
        invariant 0 <= i <= |files|
        invariant requests == old(requests) + Uploads(files[..i])
        invariant uploading == (old(uploading) || Uploads(files[..i]) != [])
        invariant images == old(images) && message == old(message) && editingId == old(editingId)
        invariant loading == old(loading) && editingDescription == old(editingDescription)
      {
        UploadsAppend(files[..i], [files[i]]);
        assert files[..i + 1] == files[..i] + [files[i]];
        if Uploadable(files[i]) {
          requests := requests + [AddImage(files[i], DefaultDescription(files[i].name))];
          uploading := true;
        }
        i := i + 1;
      }
      assert files[..i] == files;
    }

    /** One upload of the multi-file picker settles. */
    method UploadSettled(reply: Reply)
      modifies this
      ensures !uploading
      ensures reply.Ok? ==> message == Some(Success("Images uploaded!"))
      ensures reply.Failed? ==> message == Some(Error("Upload failed"))
      ensures images == old(images) && requests == old(requests) && editingId == old(editingId)
      ensures loading == old(loading) && editingDescription == old(editingDescription)
    {
      uploading := false;
      if reply.Ok? {
        message := Some(Success("Images uploaded!"));
      } else {
        message := Some(Error("Upload failed"));
      }
    }
  }
}

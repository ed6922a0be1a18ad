/** The admin form that creates a product: the text fields, a primary image, and a list of
    additional images each with an angle label. */
module ProductUploadForm {
  import opened Wrappers
  import opened Text
  import opened Seqs
  import opened Forms

  /** `{ name, price, description, category_id }` as typed text. */
  datatype ProductForm = ProductForm(name: string, price: string, description: string, categoryId: string)

  const EmptyForm := ProductForm("", "", "", "")

  /** An entry of `additionalImages`; `id` is the `Date.now() + Math.random()` it was given. */
  datatype PendingImage = PendingImage(id: int, file: File, angle: string)

  /** "Angle n" for the `n`-th entry. */
  function AngleLabel(n: nat): string {
    "Angle " + NatToString(n)
  }

  function FilesOf(imgs: seq<PendingImage>): (files: seq<File>)
    ensures |files| == |imgs| && forall k :: 0 <= k < |imgs| ==> files[k] == imgs[k].file
  {
    seq(|imgs|, k requires 0 <= k < |imgs| => imgs[k].file)
  }

  predicate Valid(f: File) {
    CheckImageFile(f) == Accepted
  }

  /** The entries that picking `files` adds to a list of `start` entries, the `i`-th file getting
      id `ids[i]`: the files that pass the type and size checks, in order, each labelled with
      its 1-based position in the list at that moment; the other files are skipped. */
  function NewEntries(start: nat, files: seq<File>, ids: seq<int>): (r: seq<PendingImage>)
    requires |ids| == |files|
    ensures |r| <= |files|
    decreases |files|
  {
    if files == [] then []
    else if Valid(files[0]) then
      [PendingImage(ids[0], files[0], AngleLabel(start + 1))] + NewEntries(start + 1, files[1..], ids[1..])
    else NewEntries(start, files[1..], ids[1..])
  }

  /** Every entry added holds a valid file and is labelled with its position, counting on from
      `start`. */
  lemma {:induction false} NewEntriesLabels(start: nat, files: seq<File>, ids: seq<int>)
    requires |ids| == |files|
    ensures forall k :: 0 <= k < |NewEntries(start, files, ids)| ==>
      NewEntries(start, files, ids)[k].angle == AngleLabel(start + k + 1) && Valid(NewEntries(start, files, ids)[k].file)
    decreases |files|
  {
    if files != [] {
      if Valid(files[0]) {
        NewEntriesLabels(start + 1, files[1..], ids[1..]);
        var rest := NewEntries(start + 1, files[1..], ids[1..]);
        var r := [PendingImage(ids[0], files[0], AngleLabel(start + 1))] + rest;
        assert NewEntries(start, files, ids) == r;
        forall k | 0 < k < |r| ensures r[k].angle == AngleLabel(start + k + 1) && Valid(r[k].file) {
          assert r[k] == rest[k - 1];
          assert rest[k - 1].angle == AngleLabel(start + 1 + (k - 1) + 1);
          assert start + 1 + (k - 1) + 1 == start + k + 1;
        }
      } else {
        NewEntriesLabels(start, files[1..], ids[1..]);
        assert NewEntries(start, files, ids) == NewEntries(start, files[1..], ids[1..]);
      }
    }
  }

  /** The files added are exactly the valid ones among those picked, in the order picked. */
  lemma {:induction false} NewEntriesFiles(start: nat, files: seq<File>, ids: seq<int>)
    requires |ids| == |files|
    ensures FilesOf(NewEntries(start, files, ids)) == Filter(files, Valid)
    decreases |files|
  {
    if files != [] {
      if Valid(files[0]) {
        NewEntriesFiles(start + 1, files[1..], ids[1..]);
        var entry := PendingImage(ids[0], files[0], AngleLabel(start + 1));
        var rest := NewEntries(start + 1, files[1..], ids[1..]);
        assert NewEntries(start, files, ids) == [entry] + rest;
        assert FilesOf([entry] + rest) == [files[0]] + FilesOf(rest);
        assert Filter(files, Valid) == [files[0]] + Filter(files[1..], Valid);
      } else {
        NewEntriesFiles(start, files[1..], ids[1..]);
        assert NewEntries(start, files, ids) == NewEntries(start, files[1..], ids[1..]);
        assert Filter(files, Valid) == Filter(files[1..], Valid);
      }
    }
  }

  /** `handleAdditionalImageChange` on `files`: the existing entries stay, followed by the new
      ones. */
  function AppendValid(prev: seq<PendingImage>, files: seq<File>, ids: seq<int>): (r: seq<PendingImage>)
    requires |ids| == |files|
    ensures |prev| <= |r| <= |prev| + |files| && r[..|prev|] == prev
  {
    var r := prev + NewEntries(|prev|, files, ids);
    assert r[..|prev|] == prev;
    r
  }

  /** Each new entry, at position `k` of the list, holds a valid file and is labelled
      `Angle k+1`. */
  lemma AppendValidLabels(prev: seq<PendingImage>, files: seq<File>, ids: seq<int>)
    requires |ids| == |files|
    ensures var r := AppendValid(prev, files, ids);
      forall k :: |prev| <= k < |r| ==> r[k].angle == AngleLabel(k + 1) && Valid(r[k].file)
  {
    var extra := NewEntries(|prev|, files, ids);
    NewEntriesLabels(|prev|, files, ids);
    var r := prev + extra;
    assert AppendValid(prev, files, ids) == r;
    forall k | |prev| <= k < |r| ensures r[k].angle == AngleLabel(k + 1) && Valid(r[k].file) {
      assert r[k] == extra[k - |prev|];
      assert extra[k - |prev|].angle == AngleLabel(|prev| + (k - |prev|) + 1);
    }
  }

  /** The message a single file leaves, given the one before it. */
  function NoticeAfter(f: File, current: Option<Notice>): Option<Notice> {
    match CheckImageFile(f)
    case WrongType => Some(Error("All files must be valid image files."))
    case TooLarge => Some(Error("Each image must be less than 5MB."))
    case Accepted => current
  }

  /** The message left after picking `files`: the last rejected file's, or `current` when every
      file passes. */
  function LastRejection(files: seq<File>, current: Option<Notice>): (n: Option<Notice>)
    ensures (forall k :: 0 <= k < |files| ==> Valid(files[k])) ==> n == current
    decreases |files|
  {
    if files == [] then current
    else
      LastRejection(files[1..], NoticeAfter(files[0], current))
  }

  /** One step of `NewEntries` from file `i`. */
  lemma NewEntriesAt(start: nat, files: seq<File>, ids: seq<int>, i: int)
    requires |ids| == |files| && 0 <= i < |files|
    ensures NewEntries(start, files[i..], ids[i..]) ==
      if Valid(files[i]) then [PendingImage(ids[i], files[i], AngleLabel(start + 1))] + NewEntries(start + 1, files[i + 1..], ids[i + 1..])
      else NewEntries(start, files[i + 1..], ids[i + 1..])
  {
    assert files[i..][1..] == files[i + 1..] && ids[i..][1..] == ids[i + 1..];
  }

  /** One step of `AppendValid` from file `i`: a valid file is appended to the list, any other
      is skipped. */
  lemma AppendValidAt(prev: seq<PendingImage>, files: seq<File>, ids: seq<int>, i: int)
    requires |ids| == |files| && 0 <= i < |files|
    ensures AppendValid(prev, files[i..], ids[i..]) ==
      if Valid(files[i]) then AppendValid(prev + [PendingImage(ids[i], files[i], AngleLabel(|prev| + 1))], files[i + 1..], ids[i + 1..])
      else AppendValid(prev, files[i + 1..], ids[i + 1..])
  {
    NewEntriesAt(|prev|, files, ids, i);
    if Valid(files[i]) {
      var entry := PendingImage(ids[i], files[i], AngleLabel(|prev| + 1));
      var rest := NewEntries(|prev| + 1, files[i + 1..], ids[i + 1..]);
      assert (prev + [entry]) + rest == prev + ([entry] + rest);
    }
  }

  /** One step of `LastRejection` from file `i`. */
  lemma LastRejectionAt(files: seq<File>, i: int, current: Option<Notice>)
    requires 0 <= i < |files|
    ensures LastRejection(files[i..], current) == LastRejection(files[i + 1..], NoticeAfter(files[i], current))
  {
    assert files[i..][1..] == files[i + 1..];
  }

  /** The `files.forEach` of the picker, with the file readers completing in file order. */
  method PickAdditional(prev: seq<PendingImage>, files: seq<File>, ids: seq<int>, current: Option<Notice>)
    returns (imgs: seq<PendingImage>, note: Option<Notice>)
    requires |ids| == |files|
    ensures imgs == AppendValid(prev, files, ids)
    ensures note == LastRejection(files, current)
  {
    imgs, note := prev, current;
    var i := 0;
    while i < |files|
      invariant 0 <= i <= |files|
      invariant AppendValid(imgs, files[i..], ids[i..]) == AppendValid(prev, files, ids)
      invariant LastRejection(files[i..], note) == LastRejection(files, current)
    {
      var f := files[i];
      var v := CheckImageFile(f);
      AppendValidAt(imgs, files, ids, i);
      LastRejectionAt(files, i, note);
      if v == WrongType {
        note := Some(Error("All files must be valid image files."));
      } else if v == TooLarge {
        note := Some(Error("Each image must be less than 5MB."));
      } else {
        imgs := imgs + [PendingImage(ids[i], f, AngleLabel(|imgs| + 1))];
      }
      i := i + 1;
    }
    assert files[i..] == [] && ids[i..] == [];
    assert AppendValid(imgs, [], []) == imgs + [];
  }

  /** `removeAdditionalImage(id)`. */
  function RemoveImage(imgs: seq<PendingImage>, id: int): (r: seq<PendingImage>)
    ensures forall x :: x in r <==> x in imgs && x.id != id
    ensures |r| <= |imgs|
  {
    var keep := (x: PendingImage) => x.id != id;
    FilterMembers(imgs, keep);
    Filter(imgs, keep)
  }

  /** Removing keeps the other entries in order. */
  lemma RemoveImageOrder(imgs: seq<PendingImage>, id: int)
    ensures IsSubsequence(RemoveImage(imgs, id), imgs)
  {
    FilterIsSubsequence(imgs, (x: PendingImage) => x.id != id);
  }

  /** `updateAngleDescription(id, angle)`: the entries keep their order, ids and files, and only
      those with that id take the new angle. */
  function Relabel(imgs: seq<PendingImage>, id: int, angle: string): (r: seq<PendingImage>)
    ensures |r| == |imgs|
    ensures forall k :: 0 <= k < |imgs| ==>
      r[k].id == imgs[k].id && r[k].file == imgs[k].file &&
      r[k].angle == (if imgs[k].id == id then angle else imgs[k].angle)
  {
    seq(|imgs|, k requires 0 <= k < |imgs| => if imgs[k].id == id then imgs[k].(angle := angle) else imgs[k])
  }

  /** The fields `additionalImages.forEach((img, index) => ...)` appends: per entry, its file
      under `additional_images` and then its angle under `angle_<index>`. */
  function ImageFields(imgs: seq<PendingImage>, from: nat): (fields: seq<Field>)
    ensures |fields| == 2 * |imgs|
    decreases |imgs|
  {
    if imgs == [] then []
    else
      [FileField("additional_images", imgs[0].file),
       TextField("angle_" + NatToString(from), imgs[0].angle)] + ImageFields(imgs[1..], from + 1)
  }

  /** The fields in order: entry `k` contributes fields `2k` and `2k + 1`, its file and then its
      angle numbered `from + k`. */
  lemma {:induction false} ImageFieldsAt(imgs: seq<PendingImage>, from: nat)
    ensures var fields := ImageFields(imgs, from);
      forall k :: 0 <= k < |imgs| ==>
        fields[2 * k] == FileField("additional_images", imgs[k].file) &&
        fields[2 * k + 1] == TextField("angle_" + NatToString(from + k), imgs[k].angle)
    decreases |imgs|
  {
    if imgs != [] {
      ImageFieldsAt(imgs[1..], from + 1);
      var fields := ImageFields(imgs, from);
      var rest := ImageFields(imgs[1..], from + 1);
      forall k | 1 <= k < |imgs|
        ensures fields[2 * k] == FileField("additional_images", imgs[k].file)
        ensures fields[2 * k + 1] == TextField("angle_" + NatToString(from + k), imgs[k].angle)
      {
        assert imgs[k] == imgs[1..][k - 1];
        assert fields[2 * k] == rest[2 * (k - 1)] && fields[2 * k + 1] == rest[2 * (k - 1) + 1];
      }
    }
  }

  /** The `forEach` loop itself. */
  method AppendImageFields(imgs: seq<PendingImage>) returns (fields: seq<Field>)
    ensures fields == ImageFields(imgs, 0)
  {
    fields := [];
    var index := 0;
    while index < |imgs|
      invariant 0 <= index <= |imgs|
      invariant fields + ImageFields(imgs[index..], index) == ImageFields(imgs, 0)
    {
      assert imgs[index..][1..] == imgs[index + 1..];
      fields := fields + [FileField("additional_images", imgs[index].file),
                          TextField("angle_" + NatToString(index), imgs[index].angle)];
      index := index + 1;
    }
    assert imgs[index..] == [];
  }

  /** Every field the request sends, given the fields of the additional images: name, the
      price as a number, the description, the category when set, the primary image when
      chosen, and then the additional images. */
  function Payload(form: ProductForm, image: Option<File>, imageFields: seq<Field>): (fields: seq<Field>)
    ensures |fields| == 3 + (if form.categoryId != "" then 1 else 0) + (if image.Some? then 1 else 0) + |imageFields|
    ensures fields[0] == TextField("name", form.name) && fields[1] == NumberField("price", ToNumber(form.price))
    ensures fields[2] == TextField("description", form.description)
    ensures form.categoryId != "" ==> fields[3] == TextField("category_id", form.categoryId)
    ensures image.Some? ==> fields[|fields| - |imageFields| - 1] == FileField("image", image.value)
    ensures fields[|fields| - |imageFields|..] == imageFields
  {
    [TextField("name", form.name), NumberField("price", ToNumber(form.price)), TextField("description", form.description)] +
    (if form.categoryId != "" then [TextField("category_id", form.categoryId)] else []) +
    (if image.Some? then [FileField("image", image.value)] else []) +
    imageFields
  }

  datatype UploadRequest = CreateProduct(fields: seq<Field>)

  class UploadForm {
    var form: ProductForm
    var imageFile: Option<File>
    var additional: seq<PendingImage>
    var message: Option<Notice>
    var loading: bool
    ghost var requests: seq<UploadRequest>

    constructor ()
      ensures form == EmptyForm && imageFile.None? && additional == [] && message.None? && !loading
      ensures requests == []
    {
      form := EmptyForm;
      imageFile := None;
      additional := [];
      message := None;
      loading := false;
      requests := [];
    }

    /** `handleChange` for one of the text inputs. */
    method Edit(update: ProductForm)
      modifies this
      ensures form == update
      ensures imageFile == old(imageFile) && additional == old(additional) && message == old(message)
      ensures requests == old(requests)
      ensures loading == old(loading)
    {
      form := update;
    }

    /** `handleFileChange`: no file changes nothing; a rejected file sets its message and keeps
        the previous file; an accepted one becomes the primary image and clears the message. */
    method PickPrimary(file: Option<File>)
      modifies this
      ensures file.None? ==> imageFile == old(imageFile) && message == old(message)
      ensures file.Some? && Valid(file.value) ==> imageFile == file && message.None?
      ensures file.Some? && !Valid(file.value) ==> imageFile == old(imageFile) && message == PickedFileNotice(file.value)
      ensures form == old(form) && additional == old(additional) && requests == old(requests)
      ensures loading == old(loading)
    {
      if file.Some? {
        var n := PickedFileNotice(file.value);
        if n.Some? {
          message := n;
          return;
        }
        imageFile := file;
        message := None;
      }
    }

    method PickMore(files: seq<File>, ids: seq<int>)
      requires |ids| == |files|
      modifies this
      ensures additional == AppendValid(old(additional), files, ids)
      ensures message == LastRejection(files, old(message))
      ensures form == old(form) && imageFile == old(imageFile) && requests == old(requests)
      ensures loading == old(loading)
    {
      additional, message := PickAdditional(additional, files, ids, message);
    }

    method Remove(id: int)
      modifies this
      ensures additional == RemoveImage(old(additional), id)
      ensures form == old(form) && imageFile == old(imageFile) && message == old(message)
      ensures requests == old(requests)
      ensures loading == old(loading)
    {
      additional := RemoveImage(additional, id);
    }

    method UpdateAngle(id: int, angle: string)
      modifies this
      ensures additional == Relabel(old(additional), id, angle)
      ensures form == old(form) && imageFile == old(imageFile) && message == old(message)
      ensures requests == old(requests)
      ensures loading == old(loading)
    {
      additional := Relabel(additional, id, angle);
    }

    /** `handleSubmit`: an empty name or price is refused before anything is sent; otherwise the
        product is created and, on success, the form, the primary image and the additional
        images are all reset. */
    method Submit(reply: Reply)
      modifies this
      ensures !loading
      ensures (old(form).name == "" || old(form).price == "") ==>
        message == Some(Error("Please provide product name and price.")) && requests == old(requests) &&
        form == old(form) && imageFile == old(imageFile) && additional == old(additional)
      ensures old(form).name != "" && old(form).price != "" ==>
        requests == old(requests) + [CreateProduct(Payload(old(form), old(imageFile), ImageFields(old(additional), 0)))]
      ensures old(form).name != "" && old(form).price != "" && reply.Ok? ==>
        message == Some(Success("Product uploaded successfully with all images!")) &&
        form == EmptyForm && imageFile.None? && additional == []
      ensures old(form).name != "" && old(form).price != "" && reply.Failed? ==>
        message == Some(Error(ErrorText(reply.error, "Upload failed"))) &&
        form == old(form) && imageFile == old(imageFile) && additional == old(additional)
    {
      message := None;
      if form.name == "" || form.price == "" {
        message := Some(Error("Please provide product name and price."));
        loading := false;
        return;
      }
      Send(reply);
    }

    /** The `try` block of `handleSubmit`, once the form has passed its check. */
    method Send(reply: Reply)
      modifies this
      ensures !loading
      ensures requests == old(requests) + [CreateProduct(Payload(old(form), old(imageFile), ImageFields(old(additional), 0)))]
      ensures reply.Ok? ==>
        message == Some(Success("Product uploaded successfully with all images!")) &&
        form == EmptyForm && imageFile.None? && additional == []
      ensures reply.Failed? ==>
        message == Some(Error(ErrorText(reply.error, "Upload failed"))) &&
        form == old(form) && imageFile == old(imageFile) && additional == old(additional)
    {
      loading := true;
      var more := AppendImageFields(additional);
      requests := requests + [CreateProduct(Payload(form, imageFile, more))];
      if reply.Ok? {
        message := Some(Success("Product uploaded successfully with all images!"));
        form := EmptyForm;
        imageFile := None;
        additional := [];
      } else {
        message := Some(Error(ErrorText(reply.error, "Upload failed")));
      }
      loading := false;
    }
  }
}

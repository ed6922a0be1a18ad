/** The admin panel's manager for a product's additional images: add with defaults, edit
    description and order, delete, and move an image up or down by swapping `display_order`
    with its neighbour. */
module AdminImageManager {
  import opened Wrappers
  import opened Text
  import opened Forms

  /** `angle_description || "Image " + (count + 1)` and `display_order = count`: what a new image
      is sent with when `count` images exist. */
  function NewImageFields(count: nat, description: string): (fields: (string, int))
    ensures description != "" ==> fields.0 == description
    ensures description == "" ==> fields.0 == "Image " + NatToString(count + 1)
    ensures fields.1 == count
  {
    (if description != "" then description else "Image " + NatToString(count + 1), count)
  }

  /** The default label numbers images from 1: its number reads back as `count + 1`. */
  lemma DefaultLabelNumber(count: nat)
    ensures var caption := NewImageFields(count, "").0;
      StartsWith(caption, "Image ") && ParseInt(caption[6..]) == Some(count + 1)
  {
    var caption := NewImageFields(count, "").0;
    assert caption[6..] == NatToString(count + 1);
    ParseIntOfIntToString(count + 1);
  }

  /** How the two `fetch` calls of a reorder end under `Promise.all`: both settle, with
      whatever HTTP status (`bothOk` says whether both were 2xx, which the page never reads),
      or one of them rejects. */
  datatype PutOutcome = Settled(bothOk: bool) | Rejected

  /** `s` with the entries at `i` and `j` exchanged. */
  function Swapped(s: seq<int>, i: nat, j: nat): (r: seq<int>)
    requires i < |s| && j < |s|
    ensures |r| == |s| && r[i] == s[j] && r[j] == s[i]
    ensures forall k :: 0 <= k < |s| && k != i && k != j ==> r[k] == s[k]
  {
    s[i := s[j]][j := s[i]]
  }

  /** A swap only reorders: the multiset of values is kept. */
  lemma SwappedPermutes(s: seq<int>, i: nat, j: nat)
    requires i < |s| && j < |s|
    ensures multiset(Swapped(s, i, j)) == multiset(s)
  {
    assert multiset(s[i := s[j]]) == multiset(s) - multiset{s[i]} + multiset{s[j]};
  }

  /** Swapping twice restores the order. */
  lemma SwapTwice(s: seq<int>, i: nat, j: nat)
    requires i < |s| && j < |s|
    ensures Swapped(Swapped(s, i, j), i, j) == s
  {
  }

  /** The `display_order` of each row, in list order. It reads only the rows, so a change to
      the manager's own fields leaves it alone. */
  ghost function OrdersOf(rows: seq<ImageEntry>): (orders: seq<int>)
    reads rows
    ensures |orders| == |rows|
  {
    seq(|rows|, k reads rows requires 0 <= k < |rows| => rows[k].displayOrder)
  }

  /** An image row; its fields are updated in place, and the manager's list shares them. */
  class ImageEntry {
    const id: int
    var description: string
    var displayOrder: int

    constructor (id: int, description: string, displayOrder: int)
      ensures this.id == id && this.description == description && this.displayOrder == displayOrder
    {
      this.id := id;
      this.description := description;
      this.displayOrder := displayOrder;
    }
  }

  /** `{ angle_description, display_order }` being edited. */
  datatype EditForm = EditForm(description: string, displayOrder: int)

  datatype ImageRequest =
    | AddImage(file: File, description: string, displayOrder: int)
    | UpdateImage(imageId: int, form: EditForm)
    | SetOrder(imageId: int, displayOrder: int)
    | DeleteImage(imageId: int)

  class ImageManager {
    var images: seq<ImageEntry>
    var message: Option<Notice>
    var editingId: Option<int>
    var editForm: EditForm
    var uploadMode: bool
    var uploadFile: Option<File>
    var uploadDescription: string
    ghost var requests: seq<ImageRequest>

    /** The rows are distinct objects. */
    ghost predicate Valid()
      reads this
    {
      forall i, j :: 0 <= i < j < |images| ==> images[i] != images[j]
    }

    ghost function Orders(): (orders: seq<int>)
      reads this, images
      ensures |orders| == |images|
    {
      OrdersOf(images)
    }

    constructor (rows: seq<ImageEntry>)
      requires forall i, j :: 0 <= i < j < |rows| ==> rows[i] != rows[j]
      ensures Valid() && images == rows && message.None? && editingId.None?
      ensures editForm == EditForm("", 0)
      ensures !uploadMode && uploadFile.None? && uploadDescription == "" && requests == []
    {
      images := rows;
      message := None;
      editingId := None;
      editForm := EditForm("", 0);
      uploadMode := false;
      uploadFile := None;
      uploadDescription := "";
      requests := [];
    }

    /** `handleAddImage`: without a file, an error and no request; otherwise the image is sent
        with its defaults and, on success, the upload form is reset. */
    method AddNew(reply: Reply)
      requires Valid()
      modifies this
      ensures Valid() && images == old(images) && editingId == old(editingId)
      ensures old(uploadFile).None? ==>
        message == Some(Error("Please select an image")) && requests == old(requests) &&
        uploadFile == old(uploadFile) && uploadDescription == old(uploadDescription) && uploadMode == old(uploadMode)
      ensures old(uploadFile).Some? ==>
        var fields := NewImageFields(|images|, old(uploadDescription));
        requests == old(requests) + [AddImage(old(uploadFile).value, fields.0, fields.1)]
      ensures old(uploadFile).Some? && reply.Ok? ==>
        message == Some(Success("Image added successfully!")) &&
        uploadFile.None? && uploadDescription == "" && !uploadMode
      ensures old(uploadFile).Some? && reply.Failed? ==>
        message == Some(Error("Failed to add image")) &&
        uploadFile == old(uploadFile) && uploadDescription == old(uploadDescription) && uploadMode == old(uploadMode)
      ensures editForm == old(editForm)
    {
      if uploadFile.None? {
        message := Some(Error("Please select an image"));
        return;
      }
      var fields := NewImageFields(|images|, uploadDescription);
      requests := requests + [AddImage(uploadFile.value, fields.0, fields.1)];
      if reply.Ok? {
        message := Some(Success("Image added successfully!"));
        uploadFile := None;
        uploadDescription := "";
        uploadMode := false;
      } else {
        message := Some(Error("Failed to add image"));
      }
    }

    /** `startEdit(image)`: the form takes the image's description and its order, a missing
        order being 0. */
    method StartEdit(image: ImageEntry)
      modifies this
      ensures editingId == Some(image.id)
      ensures editForm == EditForm(image.description, image.displayOrder)
      ensures images == old(images) && message == old(message) && requests == old(requests)
      ensures uploadMode == old(uploadMode) && uploadFile == old(uploadFile) &&
        uploadDescription == old(uploadDescription)
    {
      editingId := Some(image.id);
      editForm := EditForm(image.description, image.displayOrder);
    }

    /** `handleUpdateImage(imageId)`: sends the edit form; success leaves edit mode. */
    method SaveEdit(imageId: int, reply: Reply)
      requires Valid()
      modifies this
      ensures Valid() && images == old(images) && editForm == old(editForm)
      ensures requests == old(requests) + [UpdateImage(imageId, old(editForm))]
      ensures reply.Ok? ==> message == Some(Success("Image updated successfully!")) && editingId.None?
      ensures reply.Failed? ==> message == Some(Error("Failed to update image")) && editingId == old(editingId)
      ensures uploadMode == old(uploadMode) && uploadFile == old(uploadFile) &&
        uploadDescription == old(uploadDescription)
    {
      requests := requests + [UpdateImage(imageId, editForm)];
      if reply.Ok? {
        message := Some(Success("Image updated successfully!"));
        editingId := None;
      } else {
        message := Some(Error("Failed to update image"));
      }
    }

    /** `handleDeleteImage(imageId)`: nothing at all unless the user confirms. */
    method Delete(imageId: int, confirmed: bool, reply: Reply)
      requires Valid()
      modifies this
      ensures Valid() && images == old(images) && editingId == old(editingId)
      ensures !confirmed ==> message == old(message) && requests == old(requests)
      ensures confirmed ==> requests == old(requests) + [DeleteImage(imageId)]
      ensures confirmed ==> message == Some(if reply.Ok? then Success("Image deleted successfully!")
                                            else Error("Failed to delete image"))
      ensures editForm == old(editForm) && uploadMode == old(uploadMode) &&
        uploadFile == old(uploadFile) && uploadDescription == old(uploadDescription)
    {
      if !confirmed {
        return;
      }
      requests := requests + [DeleteImage(imageId)];
      message := Some(if reply.Ok? then Success("Image deleted successfully!") else Error("Failed to delete image"));
    }

    /** `handleMoveUp(index)`: the first image stays put; any other swaps `display_order` with
        the one above it. The swap writes the shared row objects before the two updates are
        sent, so it stays in place even when they fail. */
    method MoveUp(index: nat, outcome: PutOutcome)
      requires Valid() && index < |images|
      modifies this, images
      ensures Valid() && images == old(images) && editingId == old(editingId)
      ensures forall k :: 0 <= k < |images| ==> images[k].id == old(images[k].id) && images[k].description == old(images[k].description)
      ensures index == 0 ==> Orders() == old(Orders()) && requests == old(requests) && message == old(message)
      ensures index > 0 ==> Orders() == Swapped(old(Orders()), index, index - 1)
      ensures index > 0 ==> (requests == old(requests) +
        [SetOrder(images[index].id, images[index].displayOrder),
         SetOrder(images[index - 1].id, images[index - 1].displayOrder)])
      ensures index > 0 ==> message == Some(if outcome.Settled? then Success("Image order updated!")
                                            else Error("Failed to reorder images"))
      ensures editForm == old(editForm) && uploadMode == old(uploadMode) &&
        uploadFile == old(uploadFile) && uploadDescription == old(uploadDescription)
    {
      if index == 0 {
        return;
      }
      Exchange(index, index - 1, outcome);
    }

    /** `handleMoveDown(index)`: the last image stays put; any other swaps `display_order` with
        the one below it. */
    method MoveDown(index: nat, outcome: PutOutcome)
      requires Valid() && index < |images|
      modifies this, images
      ensures Valid() && images == old(images) && editingId == old(editingId)
      ensures forall k :: 0 <= k < |images| ==> images[k].id == old(images[k].id) && images[k].description == old(images[k].description)
      ensures index == |images| - 1 ==> Orders() == old(Orders()) && requests == old(requests) && message == old(message)
      ensures index < |images| - 1 ==> Orders() == Swapped(old(Orders()), index, index + 1)
      ensures index < |images| - 1 ==> (requests == old(requests) +
        [SetOrder(images[index].id, images[index].displayOrder),
         SetOrder(images[index + 1].id, images[index + 1].displayOrder)])
      ensures index < |images| - 1 ==> message == Some(if outcome.Settled? then Success("Image order updated!")
                                            else Error("Failed to reorder images"))
      ensures editForm == old(editForm) && uploadMode == old(uploadMode) &&
        uploadFile == old(uploadFile) && uploadDescription == old(uploadDescription)
    {
      if index == |images| - 1 {
        return;
      }
      Exchange(index, index + 1, outcome);
    }

    /** What both moves share once a neighbour exists: the two rows exchange `display_order`,
        both are sent with their new order (the moved row first), and the outcome is shown:
        success once both calls settle, whatever their status, and the error only when one is
        rejected. */
    method Exchange(moved: nat, neighbour: nat, outcome: PutOutcome)
      requires Valid() && moved < |images| && neighbour < |images| && moved != neighbour
      modifies this, images[moved], images[neighbour]
      ensures Valid() && images == old(images) && editingId == old(editingId)
      ensures forall k :: 0 <= k < |images| ==> images[k].description == old(images[k].description)
      ensures Orders() == Swapped(old(Orders()), moved, neighbour)
      ensures requests == old(requests) +
        [SetOrder(images[moved].id, images[moved].displayOrder),
         SetOrder(images[neighbour].id, images[neighbour].displayOrder)]
      ensures message == Some(if outcome.Settled? then Success("Image order updated!") else Error("Failed to reorder images"))
      ensures editForm == old(editForm) && uploadMode == old(uploadMode) &&
        uploadFile == old(uploadFile) && uploadDescription == old(uploadDescription)
    {
      message := Some(if outcome.Settled? then Success("Image order updated!") else Error("Failed to reorder images"));
      requests := requests + [SetOrder(images[moved].id, images[neighbour].displayOrder),
                              SetOrder(images[neighbour].id, images[moved].displayOrder)];
      SwapOrders(moved, neighbour);
    }

    /** The destructuring swap on two rows; the multiset of orders is kept. */
    method SwapOrders(i: nat, j: nat)
      requires Valid() && i < |images| && j < |images| && i != j
      modifies images[i], images[j]
      ensures images[i].displayOrder == old(images[j].displayOrder) && images[j].displayOrder == old(images[i].displayOrder)
      ensures Orders() == Swapped(old(Orders()), i, j)
      ensures forall k :: 0 <= k < |images| ==> images[k].description == old(images[k].description)
    {
      var a, b := images[i], images[j];
      a.displayOrder, b.displayOrder := b.displayOrder, a.displayOrder;
    }

    /** `fetchImages()` after a change: the list becomes the response's `additional_images`
        (or `[]`). */
    method Reload(rows: Option<seq<ImageEntry>>)
      requires forall i, j :: 0 <= i < j < |rows.GetOr([])| ==> rows.GetOr([])[i] != rows.GetOr([])[j]
      modifies this
      ensures Valid() && images == rows.GetOr([])
      ensures message == old(message) && editingId == old(editingId) && requests == old(requests)
      ensures editForm == old(editForm) && uploadMode == old(uploadMode) &&
        uploadFile == old(uploadFile) && uploadDescription == old(uploadDescription)
    {
      images := rows.GetOr([]);
    }
  }
}

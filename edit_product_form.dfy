/** The admin form that edits an existing product. */
module EditProductForm {
  import opened Wrappers
  import opened Text
  import opened Forms
  import opened Catalog

  /** `{ id, name, price, description, category_id }` as the inputs hold them. */
  datatype EditForm = EditForm(id: int, name: string, price: string, description: string, categoryId: string)

  /** The effect on a new `product`: every field falls back to "" when falsy. */
  function FormOf(p: Product): (f: EditForm)
    ensures f.id == p.id && f.name == p.name && f.description == p.description
    ensures f.price == (if p.price == 0 then "" else IntToString(p.price))
    ensures f.categoryId == (if p.categoryId.Some? && p.categoryId.value != 0 then IntToString(p.categoryId.value) else "")
  {
    EditForm(p.id, p.name,
             if p.price == 0 then "" else IntToString(p.price),
             p.description,
             if p.categoryId.Some? && p.categoryId.value != 0 then IntToString(p.categoryId.value) else "")
  }

  /** `!form.price || Number(form.price) <= 0`. */
  predicate PriceRefused(price: string) {
    price == "" || (ToNumber(price).Num? && ToNumber(price).digits <= 0)
  }

  /** The validation of `handleSubmit`: the name is tested first, then the price. */
  function Problem(f: EditForm): (p: Option<string>)
    ensures p.None? <==> Trim(f.name) != "" && !PriceRefused(f.price)
    ensures Trim(f.name) == "" ==> p == Some("Product name is required")
    ensures Trim(f.name) != "" && PriceRefused(f.price) ==> p == Some("Price must be a positive number")
  {
    if Trim(f.name) == "" then Some("Product name is required")
    else if PriceRefused(f.price) then Some("Price must be a positive number")
    else None
  }

  /** A whole-number price is accepted exactly when it is positive, and a product loaded from the
      catalogue with a positive price passes the price check unchanged. */
  lemma WholePriceAccepted(n: nat)
    ensures !PriceRefused(NatToString(n)) <==> n > 0
    ensures n > 0 ==> !PriceRefused(FormOf(Product(0, "", n, "", "", None, "")).price)
  {
    ToNumberOfNatToString(n);
  }

  /** The fields of the update request, from the values to send. */
  function Fields(name: string, price: JsNumber, description: string, categoryId: string, image: Option<File>)
    : (fields: seq<Field>)
    ensures |fields| == 3 + (if categoryId != "" then 1 else 0) + (if image.Some? then 1 else 0)
    ensures fields[0] == TextField("name", name) && fields[1] == NumberField("price", price)
    ensures fields[2] == TextField("description", description)
    ensures categoryId != "" ==> fields[3] == TextField("category_id", categoryId)
    ensures categoryId == "" ==> forall k :: 0 <= k < |fields| ==> fields[k].key != "category_id"
  {
    [TextField("name", name), NumberField("price", price), TextField("description", description)] +
    (if categoryId != "" then [TextField("category_id", categoryId)] else []) +
    (if image.Some? then [FileField("image", image.value)] else [])
  }

  /** What `handleSubmit` sends: the trimmed name, the price as a number, the trimmed
      description, the category only when set, and the new image when chosen. */
  function Payload(f: EditForm, image: Option<File>): (fields: seq<Field>)
    ensures |fields| == 3 + (if f.categoryId != "" then 1 else 0) + (if image.Some? then 1 else 0)
    ensures fields[0] == TextField("name", Trim(f.name)) && fields[2] == TextField("description", Trim(f.description))
    ensures fields[1] == NumberField("price", ToNumber(f.price))
    ensures f.categoryId != "" ==> fields[3] == TextField("category_id", f.categoryId)
    ensures f.categoryId == "" ==> forall k :: 0 <= k < |fields| ==> fields[k].key != "category_id"
    ensures image.Some? ==> fields[|fields| - 1] == FileField("image", image.value)
    ensures image.None? ==> forall k :: 0 <= k < |fields| ==> fields[k].key != "image"
  {
    Fields(Trim(f.name), ToNumber(f.price), Trim(f.description), f.categoryId, image)
  }

  /** The answer to `PUT /products/:id`: success, or a failure with the response's `error` and
      the exception's `message` ("" when absent). */
  datatype UpdateReply = Updated | Refused(error: string, message: string)

  datatype EditRequest = UpdateProduct(id: int, fields: seq<Field>)

  class Editor {
    var form: EditForm
    var imageFile: Option<File>
    var currentImage: string
    var msg: Option<Notice>
    var loading: bool
    ghost var requests: seq<EditRequest>

    constructor ()
      ensures form == EditForm(0, "", "", "", "") && imageFile.None? && msg.None? && !loading && requests == []
      ensures currentImage == ""
    {
      form := EditForm(0, "", "", "", "");
      imageFile := None;
      currentImage := "";
      msg := None;
      loading := false;
      requests := [];
    }

    /** The effect that runs whenever the `product` prop changes. */
    method Load(p: Product)
      modifies this
      ensures form == FormOf(p) && currentImage == p.image && imageFile.None? && msg.None?
      ensures requests == old(requests) && loading == old(loading)
    {
      form := FormOf(p);
      currentImage := p.image;
      imageFile := None;
      msg := None;
    }

    method Edit(update: EditForm)
      modifies this
      ensures form == update && imageFile == old(imageFile) && msg == old(msg) && requests == old(requests)
      ensures currentImage == old(currentImage) && loading == old(loading)
    {
      form := update;
    }

    /** `handleFileChange`, with the same rules as the upload form. */
    method PickFile(file: Option<File>)
      modifies this
      ensures file.None? ==> imageFile == old(imageFile) && msg == old(msg)
      ensures file.Some? && CheckImageFile(file.value) == Accepted ==> imageFile == file && msg.None?
      ensures file.Some? && CheckImageFile(file.value) != Accepted ==> imageFile == old(imageFile) && msg == PickedFileNotice(file.value)
      ensures form == old(form) && requests == old(requests)
      ensures currentImage == old(currentImage) && loading == old(loading)
    {
      if file.Some? {
        var n := PickedFileNotice(file.value);
        if n.Some? {
          msg := n;
          return;
        }
        imageFile := file;
        msg := None;
      }
    }

    /** `handleSubmit`: a refused form sets its message and sends nothing; otherwise the update
        is sent and the message reports the outcome. */
    method Submit(reply: UpdateReply)
      modifies this
      ensures !loading && form == old(form) && imageFile == old(imageFile)
      ensures Problem(old(form)).Some? ==> msg == Some(Error(Problem(old(form)).value)) && requests == old(requests)
      ensures Problem(old(form)).None? ==> requests == old(requests) + [UpdateProduct(old(form).id, Payload(old(form), old(imageFile)))]
      ensures Problem(old(form)).None? && reply.Updated? ==> msg == Some(Success("Product updated successfully!"))
      ensures Problem(old(form)).None? && reply.Refused? ==>
        msg == Some(Error(ErrorText(reply.error, ErrorText(reply.message, "Update failed"))))
      ensures currentImage == old(currentImage)
    {
      msg := None;
      var problem := Problem(form);
      if problem.Some? {
        msg := Some(Error(problem.value));
        loading := false;
        return;
      }
      loading := true;
      requests := requests + [UpdateProduct(form.id, Payload(form, imageFile))];
      if reply.Updated? {
        msg := Some(Success("Product updated successfully!"));
      } else {
        msg := Some(Error(ErrorText(reply.error, ErrorText(reply.message, "Update failed"))));
      }
      loading := false;
    }
  }
}

/** The admin panel's category manager: a form that creates or updates a category, the
    category list, and a panel with the products of the category clicked last. */
module CategoryManager {
  import opened Wrappers
  import opened Text
  import opened Forms
  import opened Catalog
  import ImageHelper

  /** A category as the backend lists it; "" stands for a missing text. */
  datatype Category = Category(id: int, name: string, description: string, slug: string, image: string, productCount: int)

  /** `{ name, description, slug, image }`: `image` is a newly picked file or nothing. */
  datatype CategoryForm = CategoryForm(name: string, description: string, slug: string, image: Option<File>)

  const EmptyForm := CategoryForm("", "", "", None)

  /** The multipart body of a save: name, description and slug as typed (the name is tested
      trimmed but sent as it is), then the image only when one was picked. */
  function SaveFields(f: CategoryForm): (fields: seq<Field>)
    ensures |fields| == if f.image.Some? then 4 else 3
    ensures fields[0] == TextField("name", f.name) && fields[1] == TextField("description", f.description)
    ensures fields[2] == TextField("slug", f.slug)
    ensures f.image.Some? ==> fields[3] == FileField("image", f.image.value)
    ensures f.image.None? ==> forall k :: 0 <= k < |fields| ==> !fields[k].FileField?
  {
    [TextField("name", f.name), TextField("description", f.description), TextField("slug", f.slug)] +
    (if f.image.Some? then [FileField("image", f.image.value)] else [])
  }

  /** `if (editingId)`: a save updates exactly when an id is being edited and that id is truthy. */
  predicate Updates(editingId: Option<int>) {
    editingId.Some? && editingId.value != 0
  }

  /** `{product_count || 0} product{... !== 1 ? "s" : ""}`. */
  function ProductCountLabel(count: int): (caption: string)
    ensures count == 1 ==> caption == "1 product"
    ensures count != 1 ==> caption == IntToString(count) + " products"
  {
    IntToString(count) + " " + Plural(count, "product")
  }

  datatype CategoryRequest =
    | CreateCategory(token: string, fields: seq<Field>)
    | UpdateCategory(token: string, id: int, fields: seq<Field>)
    | DeleteCategory(token: string, id: int)
    | FetchCategory(id: int)

  /** What `GET /categories/:id` answers: the category and its products, or a failure. */
  datatype CategoryReply = Found(category: Category, products: seq<Product>) | NotFound

  class CategoryPanel {
    var categories: seq<Category>
    var showForm: bool
    var editingId: Option<int>
    var form: CategoryForm
    var preview: Option<string>
    var error: Option<string>
    var success: Option<string>
    var selected: Option<Category>
    var products: seq<Product>
    var productsLoading: bool
    ghost var requests: seq<CategoryRequest>

    constructor ()
      ensures categories == [] && !showForm && editingId.None? && form == EmptyForm && preview.None?
      ensures error.None? && success.None? && selected.None? && products == [] && !productsLoading
      ensures requests == []
    {
      categories := [];
      showForm := false;
      editingId := None;
      form := EmptyForm;
      preview := None;
      error := None;
      success := None;
      selected := None;
      products := [];
      productsLoading := false;
      requests := [];
    }

    /** `fetchCategories` with the list it received, or `None` when the request failed. */
    method Fetch(reply: Option<seq<Category>>)
      modifies this
      ensures reply.Some? ==> categories == reply.value && error == old(error)
      ensures reply.None? ==> categories == old(categories) && error == Some("Failed to fetch categories")
      ensures form == old(form) && editingId == old(editingId) && requests == old(requests)
      ensures showForm == old(showForm) && preview == old(preview) && success == old(success) &&
        selected == old(selected) && products == old(products) &&
        productsLoading == old(productsLoading)
    {
      if reply.Some? {
        categories := reply.value;
      } else {
        error := Some("Failed to fetch categories");
      }
    }

    /** The "Add Category" button. */
    method OpenForm()
      modifies this
      ensures showForm && form == old(form) && editingId == old(editingId) && requests == old(requests)
      ensures categories == old(categories) && preview == old(preview) && error == old(error) &&
        success == old(success) && selected == old(selected) && products == old(products) &&
        productsLoading == old(productsLoading)
    {
      showForm := true;
    }

    /** Typing in the name, slug or description input keeps the picked image. */
    method EditText(name: string, description: string, slug: string)
      modifies this
      ensures form == CategoryForm(name, description, slug, old(form).image)
      ensures editingId == old(editingId) && error == old(error) && requests == old(requests)
      ensures categories == old(categories) && showForm == old(showForm) && preview == old(preview) &&
        success == old(success) && selected == old(selected) && products == old(products) &&
        productsLoading == old(productsLoading)
    {
      form := CategoryForm(name, description, slug, form.image);
    }

    /** `handleImageChange`: a picked file replaces the form's image; closing the picker
        changes nothing. */
    method PickImage(file: Option<File>)
      modifies this
      ensures file.Some? ==> form == old(form).(image := file)
      ensures file.None? ==> form == old(form)
      ensures editingId == old(editingId) && requests == old(requests)
      ensures categories == old(categories) && showForm == old(showForm) && preview == old(preview) &&
        error == old(error) && success == old(success) && selected == old(selected) &&
        products == old(products) && productsLoading == old(productsLoading)
    {
      if file.Some? {
        form := form.(image := file);
      }
    }

    /** `handleSubmit` with the bearer `token` and the reply to the save. A name that is blank
        after trimming is refused without a request; otherwise the edited category is updated
        or a new one created, and success resets the form and hides it. */
    method Submit(token: string, reply: Reply)
      modifies this
      ensures Trim(old(form).name) == "" ==>
        error == Some("Category name is required") && success.None? && requests == old(requests) &&
        form == old(form) && editingId == old(editingId) && showForm == old(showForm) &&
        preview == old(preview)
      ensures Trim(old(form).name) != "" && Updates(old(editingId)) ==>
        requests == old(requests) + [UpdateCategory(token, old(editingId).value, SaveFields(old(form)))]
      ensures Trim(old(form).name) != "" && !Updates(old(editingId)) ==>
        requests == old(requests) + [CreateCategory(token, SaveFields(old(form)))]
      ensures Trim(old(form).name) != "" && reply.Ok? ==>
        success == Some(if Updates(old(editingId)) then "Category updated successfully" else "Category created successfully") &&
        error.None? && form == EmptyForm && preview.None? && editingId.None? && !showForm
      ensures Trim(old(form).name) != "" && reply.Failed? ==>
        error == Some(ErrorText(reply.error, "Failed to save category")) && success.None? &&
        form == old(form) && editingId == old(editingId) && showForm == old(showForm) &&
        preview == old(preview)
      ensures categories == old(categories) && selected == old(selected)
      ensures products == old(products) && productsLoading == old(productsLoading)
    {
      error := None;
      success := None;
      if Trim(form.name) == "" {
        error := Some("Category name is required");
        return;
      }
      Save(token, reply);
    }

    /** The part of `handleSubmit` after the name check: the request, then the outcome. */
    method Save(token: string, reply: Reply)
      modifies this
      ensures Updates(old(editingId)) ==>
        requests == old(requests) + [UpdateCategory(token, old(editingId).value, SaveFields(old(form)))]
      ensures !Updates(old(editingId)) ==>
        requests == old(requests) + [CreateCategory(token, SaveFields(old(form)))]
      ensures reply.Ok? ==>
        success == Some(if Updates(old(editingId)) then "Category updated successfully" else "Category created successfully") &&
        error == old(error) && form == EmptyForm && preview.None? && editingId.None? && !showForm
      ensures reply.Failed? ==>
        error == Some(ErrorText(reply.error, "Failed to save category")) && success == old(success) &&
        form == old(form) && editingId == old(editingId) && showForm == old(showForm) &&
        preview == old(preview)
      ensures categories == old(categories) && selected == old(selected)
      ensures products == old(products) && productsLoading == old(productsLoading)
    {
      var fields := SaveFields(form);
      var updating := Updates(editingId);
      if updating {
        requests := requests + [UpdateCategory(token, editingId.value, fields)];
      } else {
        requests := requests + [CreateCategory(token, fields)];
      }
      if reply.Failed? {
        error := Some(ErrorText(reply.error, "Failed to save category"));
        return;
      }
      success := Some(if updating then "Category updated successfully" else "Category created successfully");
      form := EmptyForm;
      preview := None;
      editingId := None;
      showForm := false;
    }

    /** `handleEdit`: the form is loaded from `category` with no picked image, the preview
        shows its stored image, and the form opens in edit mode. */
    method Edit(category: Category, base: string)
      modifies this
      ensures form == CategoryForm(category.name, category.description, category.slug, None)
      ensures preview == ImageHelper.GetBackendImageUrl(base, category.image)
      ensures editingId == Some(category.id) && showForm
      ensures error == old(error) && requests == old(requests) && categories == old(categories)
      ensures success == old(success) && selected == old(selected) && products == old(products) &&
        productsLoading == old(productsLoading)
    {
      form := CategoryForm(category.name, category.description, category.slug, None);
      preview := if category.image != "" then ImageHelper.GetBackendImageUrl(base, category.image) else None;
      editingId := Some(category.id);
      showForm := true;
    }

    /** `handleDelete`: nothing happens unless the admin confirms. */
    method Delete(token: string, id: int, confirmed: bool, reply: Reply)
      modifies this
      ensures !confirmed ==> requests == old(requests) && error == old(error) && success == old(success)
      ensures confirmed ==> requests == old(requests) + [DeleteCategory(token, id)]
      ensures confirmed && reply.Ok? ==> success == Some("Category deleted successfully") && error == old(error)
      ensures confirmed && reply.Failed? ==> error == Some("Failed to delete category") && success == old(success)
      ensures form == old(form) && editingId == old(editingId) && categories == old(categories)
      ensures showForm == old(showForm) && preview == old(preview) && selected == old(selected) &&
        products == old(products) && productsLoading == old(productsLoading)
    {
      if !confirmed {
        return;
      }
      requests := requests + [DeleteCategory(token, id)];
      if reply.Ok? {
        success := Some("Category deleted successfully");
      } else {
        error := Some("Failed to delete category");
      }
    }

    /** `handleCancel`: the form is reset and hidden, and the error cleared. */
    method Cancel()
      modifies this
      ensures form == EmptyForm && preview.None? && editingId.None? && !showForm && error.None?
      ensures success == old(success) && requests == old(requests) && categories == old(categories)
      ensures selected == old(selected) && products == old(products) &&
        productsLoading == old(productsLoading)
    {
      form := EmptyForm;
      preview := None;
      editingId := None;
      showForm := false;
      error := None;
    }

    /** `handleCategoryClick`: clicking the category already shown closes its panel; any other
        category is fetched and shown. */
    method ClickCategory(category: Category, reply: CategoryReply)
      modifies this
      ensures old(selected).Some? && old(selected).value.id == category.id ==>
        selected.None? && products == [] && requests == old(requests) && error == old(error) &&
        productsLoading == old(productsLoading)
      ensures !(old(selected).Some? && old(selected).value.id == category.id) ==>
        requests == old(requests) + [FetchCategory(category.id)] && !productsLoading
      ensures !(old(selected).Some? && old(selected).value.id == category.id) && reply.Found? ==>
        selected == Some(reply.category) && products == reply.products && error == old(error)
      ensures !(old(selected).Some? && old(selected).value.id == category.id) && reply.NotFound? ==>
        selected == old(selected) && products == old(products) && error == Some("Failed to fetch products")
      ensures form == old(form) && editingId == old(editingId) && categories == old(categories)
      ensures showForm == old(showForm) && preview == old(preview) && success == old(success)
    {
      if selected.Some? && selected.value.id == category.id {
        selected := None;
        products := [];
        return;
      }
      productsLoading := true;
      requests := requests + [FetchCategory(category.id)];
      if reply.Found? {
        products := reply.products;
        selected := Some(reply.category);
      } else {
        error := Some("Failed to fetch products");
      }
      productsLoading := false;
    }

    /** `handleCloseProducts`. */
    method CloseProducts()
      modifies this
      ensures selected.None? && products == [] && requests == old(requests) && form == old(form)
      ensures categories == old(categories) && showForm == old(showForm) &&
        editingId == old(editingId) && preview == old(preview) && error == old(error) &&
        success == old(success) && productsLoading == old(productsLoading)
    {
      selected := None;
      products := [];
    }
  }
}

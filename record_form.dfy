/** The edit-mode form shared by the Product, Customer and Category pages: a
    form record, the id of the record being edited (none while adding), and
    the list the records are picked from. Submitting PUTs to the edited
    record's path or POSTs a new record; success resets the form. */
module RecordForm {
  import opened Common
  import opened Decimal
  import Patterns

  /** A record of the page's list: its id and its other properties. */
  datatype Listed = Listed(id: int, fields: Body)

  /** What distinguishes one page from another. */
  datatype Page = Page(
    endpoint: string,                        // POST target, and prefix of the PUT target
    listPath: string,                        // the list fetched after a change
    blank: Body,                             // the form after a reset
    toggle: Option<string>,                  // the field `handleChange` stores as `value === "true"`
    editOnly: set<string>,                   // fields whose control renders only while editing
    required: set<string>,                   // controls marked `required`
    patterns: map<string, Patterns.Pattern>  // controls with a `pattern` attribute
  )

  const ProductPage := Page(
    "api/products/", "api/products/all/",
    map["name" := Str(""), "costPrice" := Str(""), "sellingPrice" := Str(""), "description" := Str(""),
        "stockQuantity" := Str(""), "productCategory" := Str(""), "is_active" := Bool(true)],
    Some("is_active"), {"is_active"},
    {"name", "costPrice", "sellingPrice", "description", "stockQuantity", "productCategory"},
    map["costPrice" := Patterns.Price, "sellingPrice" := Patterns.Price, "stockQuantity" := Patterns.Count])

  const CustomerPage := Page(
    "api/customers/", "api/customers/",
    map["name" := Str(""), "phone" := Str(""), "email" := Str(""), "address" := Str("")],
    None, {}, {"name", "phone", "email", "address"},
    map["phone" := Patterns.Phone])

  const CategoryPage := Page(
    "api/categories/", "api/categories/",
    map["name" := Str("")],
    None, {}, {"name"}, map[])

  predicate WellFormed(page: Page)
  {
    && page.editOnly <= page.blank.Keys
    && (page.toggle.Some? ==> page.toggle.value in page.blank)
    && page.required <= page.blank.Keys
    && page.patterns.Keys <= page.blank.Keys
  }

  lemma PagesWellFormed()
    ensures WellFormed(ProductPage) && WellFormed(CustomerPage) && WellFormed(CategoryPage)
  {
  }

  /** The value `handleChange` stores for an input event. */
  function Coerce(page: Page, name: string, value: string): (v: Value)
    ensures page.toggle == Some(name) ==> v.Bool? && (v.b <==> value == "true")
    ensures page.toggle != Some(name) ==> v == Str(value)
  {
    if page.toggle == Some(name) then Bool(value == "true") else Str(value)
  }

  /** The form has exactly the page's fields, and while adding, every
      edit-only field holds its default (its control is not rendered). */
  predicate Consistent(page: Page, form: Body, editing: Option<int>)
  {
    && form.Keys == page.blank.Keys
    && (editing.None? ==> forall k :: k in page.editOnly && k in form && k in page.blank ==> form[k] == page.blank[k])
  }

  /** The `${id}` path of the record being edited. */
  function Target(page: Page, id: int): string
  {
    page.endpoint + ShowInt(id) + "/"
  }

  /** The request `handleSubmit` issues. */
  function Request(page: Page, form: Body, editing: Option<int>): (call: Call)
    ensures call.body == form
    ensures call.verb == Put <==> editing.Some?
    ensures call.verb == Post <==> editing.None?
    ensures editing.None? ==> call.path == page.endpoint
    ensures editing.Some? ==> call.path == Target(page, editing.value)
  {
    match editing
    case Some(id) => Call(Put, Target(page, id), form)
    case None => Call(Post, page.endpoint, form)
  }

  function ListCall(page: Page): Call
  {
    Call(Get, page.listPath, map[])
  }

  /** `list.find((r) => r.id === id)`. */
  function Selected(list: seq<Listed>, id: int): (r: Option<Listed>)
    ensures r.None? <==> forall i :: 0 <= i < |list| ==> list[i].id != id
    ensures r.Some? ==>
              r.value.id == id &&
              exists i :: 0 <= i < |list| && list[i] == r.value && forall j :: 0 <= j < i ==> list[j].id != id
  {
    Find(list, (r: Listed) => r.id == id)
  }

  /** The form `populateForm`/`startEdit` builds from a selected record: each
      field of the page copied from it, undefined where the record lacks it. */
  function Populate(page: Page, selected: Listed): (form: Body)
    ensures form.Keys == page.blank.Keys
    ensures forall k :: k in form && k in selected.fields ==> form[k] == selected.fields[k]
    ensures forall k :: k in form && k !in selected.fields ==> form[k] == Undefined
  {
    map k | k in page.blank :: if k in selected.fields then selected.fields[k] else Undefined
  }

  /** The text a control shows for a form value. */
  function Shown(v: Value): string
  {
    match v
    case Str(s) => s
    case Num(n) => ShowInt(n)
    case Bool(b) => if b then "true" else "false"
    case Undefined => ""
  }

  /** The browser fires `onSubmit` only when every control satisfies its
      constraints. */
  predicate Submittable(page: Page, form: Body)
  {
    forall k :: k in form && (k in page.required || k in page.patterns) ==>
      Patterns.Satisfies(k in page.required, if k in page.patterns then Some(page.patterns[k]) else None, Shown(form[k]))
  }

  class EditForm {
    const page: Page
    var form: Body
    var editingId: Option<int>
    var list: seq<Listed>
    var loading: bool

    ghost predicate Valid()
      reads this
    {
      WellFormed(page) && Consistent(page, form, editingId)
    }

    constructor (page: Page)
      requires WellFormed(page)
      ensures Valid()
      ensures this.page == page && form == page.blank && editingId == None && list == [] && !loading
    {
      this.page := page;
      form, editingId, list, loading := page.blank, None, [], false;
    }

    /** The list fetch: on mount, and after every successful change. */
    method Fetch(response: Response<seq<Listed>>) returns (sent: seq<Call>)
      modifies this`list, this`loading
      ensures sent == [ListCall(page)] && !loading
      ensures list == if response.Ok? then response.data else old(list)
    {
      loading := true;
      sent := [ListCall(page)];
      if response.Ok? {
        list := response.data;
      }
      loading := false;
    }

    /** `handleChange`/`handleInput` for the control named `name`; the
        edit-only controls exist only while editing. */
    method HandleChange(name: string, value: string)
      requires Valid()
      requires name in page.blank
      requires name in page.editOnly ==> editingId.Some?
      modifies this`form
      ensures Valid()
      ensures form == old(form)[name := Coerce(page, name, value)]
    {
      form := form[name := Coerce(page, name, value)];
    }

    method ResetForm()
      requires WellFormed(page)
      modifies this`form, this`editingId
      ensures Valid()
      ensures form == page.blank && editingId == None
    {
      form := page.blank;
      editingId := None;
    }

    /** `populateForm(id)`/`startEdit(id)`: a record missing from the list
        changes nothing. */
    method StartEdit(id: int)
      requires Valid()
      modifies this`form, this`editingId
      ensures Valid()
      ensures Selected(list, id).None? ==> form == old(form) && editingId == old(editingId)
      ensures Selected(list, id).Some? ==> form == Populate(page, Selected(list, id).value) && editingId == Some(id)
    {
      var selected := Selected(list, id);
      if selected.Some? {
        form := Populate(page, selected.value);
        editingId := Some(id);
      }
    }

    /** `handleSubmit` up to the request. */
    method Submit() returns (call: Call)
      modifies this`loading
      ensures loading
      ensures call == Request(page, form, editingId)
    {
      loading := true;
      call := Request(page, form, editingId);
    }

    /** `handleSubmit` after the request settles: success refetches the list
        and resets the form; failure leaves everything as it was. */
    method Settle(outcome: Response<Body>, refreshed: Response<seq<Listed>>) returns (sent: seq<Call>)
      requires Valid()
      modifies this`form, this`editingId, this`list, this`loading
      ensures Valid() && !loading
      ensures outcome.Ok? ==> sent == [ListCall(page)] && form == page.blank && editingId == None &&
                                list == (if refreshed.Ok? then refreshed.data else old(list))
      ensures outcome.Fail? ==> sent == [] && form == old(form) && editingId == old(editingId) && list == old(list)
    {
      sent := [];
      if outcome.Ok? {
        sent := Fetch(refreshed);
        ResetForm();
      }
      loading := false;
    }
  }

  /** The PUT path names the edited record: the endpoint, the id's decimal
      text, and a closing slash. */
  lemma TargetNamesRecord(page: Page, id: int)
    ensures var path := Target(page, id);
            && path[..|page.endpoint|] == page.endpoint
            && path[|path| - 1] == '/'
            && ParseInt(path[|page.endpoint|..|path| - 1]) == Some(id)
  {
    var path := Target(page, id);
    assert path[|page.endpoint|..|path| - 1] == ShowInt(id);
    ParseShowInt(id);
  }

  /** Two different records are never updated at the same path. */
  lemma TargetsDistinct(page: Page, a: int, b: int)
    requires Target(page, a) == Target(page, b)
    ensures a == b
  {
    var pa, pb := Target(page, a), Target(page, b);
    assert pa[|page.endpoint|..|pa| - 1] == ShowInt(a);
    assert pb[|page.endpoint|..|pb| - 1] == ShowInt(b);
    ShowIntInjective(a, b);
  }

  /** A product is always added as active: the status controls render only
      while editing, and leaving edit mode restores the default. */
  lemma NewProductsStartActive(form: Body)
    requires Consistent(ProductPage, form, None)
    ensures var call := Request(ProductPage, form, None);
            call.verb == Post && call.body["is_active"] == Bool(true)
  {
  }

  /** What the browser lets through on the product form: both prices match
      the price pattern whole and the stock is a run of digits. */
  lemma SubmittedProductIsNumeric(form: Body, editing: Option<int>)
    requires Consistent(ProductPage, form, editing)
    requires Submittable(ProductPage, form)
    ensures Patterns.MatchesPrice(Shown(form["costPrice"]))
    ensures Patterns.MatchesPrice(Shown(form["sellingPrice"]))
    ensures Patterns.Digits(Shown(form["stockQuantity"]))
    ensures Shown(form["productCategory"]) != ""
  {
    Patterns.RequiredPatternIsWholeMatch(Patterns.Price, Shown(form["costPrice"]));
    Patterns.RequiredPatternIsWholeMatch(Patterns.Price, Shown(form["sellingPrice"]));
    Patterns.RequiredPatternIsWholeMatch(Patterns.Count, Shown(form["stockQuantity"]));
  }

  /** What the browser lets through on the customer form: ten digits of phone
      and no empty field. */
  lemma SubmittedCustomerHasPhone(form: Body)
    requires Consistent(CustomerPage, form, None)
    requires Submittable(CustomerPage, form)
    ensures Patterns.PhoneLanguage(Shown(form["phone"]))
    ensures forall k :: k in form ==> Shown(form[k]) != ""
  {
    Patterns.RequiredPatternIsWholeMatch(Patterns.Phone, Shown(form["phone"]));
  }
}

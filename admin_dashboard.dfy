/**
 * The admin dashboard's list state: sellers with their enabled/disabled
 * status, the categories with their filtered view and multi-selection, and
 * the category form with its icon. Server answers and the confirmation
 * dialog are parameters of the handlers.
 */
module AdminDashboard {
  import opened Common

  type Id = string

  datatype Seller = Seller(id: Id, name: string, status: string)

  /** A stored category; icon is the stored icon's URL, "" when it has none. */
  datatype Category = Category(id: Id, name: string, description: string, icon: string)

  datatype CategoryForm = CategoryForm(name: string, description: string, icon: Option<UploadFile>)

  const BlankCategoryForm: CategoryForm := CategoryForm("", "", None)

  // --------------------------------------------------------------- selection

  /** `toggleCategorySelection`: drop every occurrence of a selected id, append an unselected one. */
  function ToggledSelection(sel: seq<Id>, id: Id): (r: seq<Id>)
    ensures id in sel ==> id !in r && forall x :: x in r <==> x in sel && x != id
    ensures id !in sel ==> r == sel + [id]
  {
    if id in sel then Filter(sel, (x: Id) => x != id) else sel + [id]
  }

  /** Toggling an id twice leaves every id's membership as it was. */
  lemma ToggleSelectionTwice(sel: seq<Id>, id: Id, x: Id)
    ensures x in ToggledSelection(ToggledSelection(sel, id), id) <==> x in sel
  {
  }

  /** From an unselected id, toggling twice restores the very same selection. */
  lemma ToggleSelectionTwiceFromAbsent(sel: seq<Id>, id: Id)
    requires id !in sel
    ensures ToggledSelection(ToggledSelection(sel, id), id) == sel
  {
    var keep := (x: Id) => x != id;
    FilterOfAppended(sel, id, keep);
    FilterKeepsAll(sel, keep);
  }

  /** Duplicates collapse: from ["a", "a"] two toggles of "a" give ["a"], not the start. */
  lemma ToggleSelectionDuplicates()
    ensures ToggledSelection(ToggledSelection(["a", "a"], "a"), "a") == ["a"]
  {
    assert ToggledSelection(["a", "a"], "a") == [];
  }

  // --------------------------------------------------------------- deletions

  /** `categories.filter(cat => cat._id !== id)` */
  function WithoutCategory(cats: seq<Category>, id: Id): (r: seq<Category>)
    ensures forall c :: c in r <==> c in cats && c.id != id
  {
    Filter(cats, (c: Category) => c.id != id)
  }

  /** `selectedCategories.filter(catId => catId !== id)` */
  function WithoutId(sel: seq<Id>, id: Id): (r: seq<Id>)
    ensures forall x :: x in r <==> x in sel && x != id
  {
    Filter(sel, (x: Id) => x != id)
  }

  /** `categories.filter(cat => !selectedCategories.includes(cat._id))` */
  function WithoutSelected(cats: seq<Category>, sel: seq<Id>): (r: seq<Category>)
    ensures forall c :: c in r <==> c in cats && c.id !in sel
  {
    Filter(cats, (c: Category) => c.id !in sel)
  }

  /** The categories kept by a bulk delete keep their order: the removal works piece by piece. */
  lemma WithoutSelectedSplits(a: seq<Category>, b: seq<Category>, sel: seq<Id>)
    ensures WithoutSelected(a + b, sel) == WithoutSelected(a, sel) + WithoutSelected(b, sel)
  {
    FilterConcat(a, b, (c: Category) => c.id !in sel);
  }

  /** A list with no selected category is left exactly as it is. */
  lemma WithoutSelectedKeepsUnselected(cats: seq<Category>, sel: seq<Id>)
    requires forall i :: 0 <= i < |cats| ==> cats[i].id !in sel
    ensures WithoutSelected(cats, sel) == cats
  {
    FilterKeepsAll(cats, (c: Category) => c.id !in sel);
  }

  /** A single delete keeps the other categories in their order. */
  lemma WithoutCategorySplits(a: seq<Category>, b: seq<Category>, id: Id)
    ensures WithoutCategory(a + b, id) == WithoutCategory(a, id) + WithoutCategory(b, id)
  {
    FilterConcat(a, b, (c: Category) => c.id != id);
  }

  /** A single delete is a bulk delete of that one id. */
  lemma SingleDeleteIsBulkOfOne(cats: seq<Category>, id: Id)
    ensures WithoutCategory(cats, id) == WithoutSelected(cats, [id])
  {
    if cats != [] {
      SingleDeleteIsBulkOfOne(cats[1..], id);
    }
  }

  // ---------------------------------------------------------- seller status

  /** The status `handleToggleSellerStatus` sends: "enabled" becomes "disabled", anything else "enabled". */
  function NextSellerStatus(current: string): (r: string)
    ensures r == "disabled" <==> current == "enabled"
    ensures r == "enabled" || r == "disabled"
  {
    if current == "enabled" then "disabled" else "enabled"
  }

  /** The status flip is an involution on the two statuses a seller can hold. */
  lemma SellerToggleTwice(s: string)
    requires s == "enabled" || s == "disabled"
    ensures NextSellerStatus(NextSellerStatus(s)) == s
  {
  }

  /** `sellers.map(s => s._id === id ? { ...s, status } : s)` */
  function SetSellerStatus(sellers: seq<Seller>, id: Id, status: string): (r: seq<Seller>)
    ensures |r| == |sellers|
    ensures forall i :: 0 <= i < |r| ==>
              r[i] == (if sellers[i].id == id then sellers[i].(status := status) else sellers[i])
  {
    if sellers == [] then []
    else [if sellers[0].id == id then sellers[0].(status := status) else sellers[0]]
         + SetSellerStatus(sellers[1..], id, status)
  }

  /** A second status write to the same seller overrides the first entirely. */
  lemma {:induction false} SetSellerStatusTwice(sellers: seq<Seller>, id: Id, s1: string, s2: string)
    ensures SetSellerStatus(SetSellerStatus(sellers, id, s1), id, s2) == SetSellerStatus(sellers, id, s2)
  {
    if sellers != [] {
      SetSellerStatusTwice(sellers[1..], id, s1, s2);
    }
  }

  // ---------------------------------------------------------- category form

  const MaxIconSize: nat := 2 * MiB

  /** What `handleCategoryFormChange` decides about the first picked icon file. */
  datatype IconDecision = NoIcon | WrongIconType | IconTooLarge | AcceptIcon(file: UploadFile)

  function DecideIcon(file: Option<UploadFile>): (d: IconDecision)
    ensures d.AcceptIcon? <==> file.Some? && IsImageType(file.value) && file.value.size <= MaxIconSize
    ensures d.AcceptIcon? ==> d.file == file.value
    ensures d == NoIcon <==> file.None?
  {
    if file.None? then NoIcon
    else if !IsImageType(file.value) then WrongIconType
    else if file.value.size > MaxIconSize then IconTooLarge
    else AcceptIcon(file.value)
  }

  /** The inputs of the category form. */
  datatype CategoryFormChange = NameInput(value: string) | DescriptionInput(value: string) | IconInput(file: Option<UploadFile>)

  datatype CategoryError = NameRequired | IconRequired

  /** The guards of `handleCategorySubmit`: a name always, an icon only when creating. */
  function CategorySubmitCheck(form: CategoryForm, editing: bool): (r: Option<CategoryError>)
    ensures r == Some(NameRequired) <==> form.name == ""
    ensures r == Some(IconRequired) <==> form.name != "" && !editing && form.icon.None?
    ensures r == None <==> form.name != "" && (editing || form.icon.Some?)
  {
    if form.name == "" then Some(NameRequired)
    else if !editing && form.icon.None? then Some(IconRequired)
    else None
  }

  /** An edit goes through with any named form, even one with no new icon. */
  lemma EditingNeedsNoIcon(form: CategoryForm)
    requires form.name != ""
    ensures CategorySubmitCheck(form, true) == None
    ensures CategorySubmitCheck(form, false) == None <==> form.icon.Some?
  {
  }

  /** A multipart part of the category body. */
  datatype CategoryPart = CategoryText(key: string, text: string) | CategoryIcon(file: UploadFile)

  /** The body: name, description, and the icon when one is picked. */
  function CategoryPayload(form: CategoryForm): (r: seq<CategoryPart>)
    ensures |r| == 2 + (if form.icon.Some? then 1 else 0)
    ensures r[0] == CategoryText("name", form.name) && r[1] == CategoryText("description", form.description)
    ensures CategoryIcon(form.icon.value) in r <== form.icon.Some?
  {
    [CategoryText("name", form.name), CategoryText("description", form.description)]
    + (if form.icon.Some? then [CategoryIcon(form.icon.value)] else [])
  }

  /** The key `cats.map(cat => cat._id === id ? updated : cat)` compares. */
  function CategoryId(c: Category): Id
  {
    c.id
  }

  // ------------------------------------------------------------------ search

  /** `!query.trim()`: the query is empty or only white space. */
  function IsBlank(query: string): (r: bool)
    ensures r <==> AllWhitespace(query)
  {
    TrimBlank(query);
    Trim(query) == ""
  }

  /** The server's answer to a search: failure, or a body whose `categories` may be missing. */
  datatype SearchResponse = SearchFailed | SearchAnswered(categories: Option<seq<Category>>)

  /** The filtered categories after `handleCategorySearch`. */
  function SearchResult(query: string, all: seq<Category>, filtered: seq<Category>, response: SearchResponse): (r: seq<Category>)
    ensures IsBlank(query) ==> r == all
    ensures !IsBlank(query) && response.SearchFailed? ==> r == filtered
    ensures !IsBlank(query) && response.SearchAnswered? ==>
              r == (if response.categories.Some? then response.categories.value else [])
  {
    if IsBlank(query) then all
    else match response
      case SearchFailed => filtered
      case SearchAnswered(cs) => if cs.Some? then cs.value else []
  }

  /** White space of any kind and length counts as blank. */
  lemma BlankQueries()
    ensures IsBlank("") && IsBlank("  \t\n") && !IsBlank(" a ")
  {
    assert " a "[1] == 'a';
  }

  // -------------------------------------------------------------- the view

  /** The preview beside the icon input: a stored icon's URL or an object URL for a picked file. */
  datatype IconPreview = StoredIcon(url: string) | PickedIcon(file: UploadFile)

  /** What a category submit ends in. */
  datatype SubmitOutcome = Refused(error: CategoryError) | Saved | SaveFailed

  class AdminDashboardView {
    var sellers: seq<Seller>
    var categories: seq<Category>
    var filteredCategories: seq<Category>
    var selectedCategories: seq<Id>
    var categoryForm: CategoryForm
    var iconPreview: Option<IconPreview>
    var editingCategory: Option<Category>
    var showCategoryForm: bool

    constructor ()
      ensures sellers == [] && categories == [] && filteredCategories == [] && selectedCategories == []
      ensures categoryForm == BlankCategoryForm && iconPreview == None && editingCategory == None && !showCategoryForm
    {
      sellers, categories, filteredCategories, selectedCategories := [], [], [], [];
      categoryForm, iconPreview, editingCategory, showCategoryForm := BlankCategoryForm, None, None, false;
    }

    method ToggleCategorySelection(id: Id)
      modifies this
      ensures selectedCategories == ToggledSelection(old(selectedCategories), id)
      ensures sellers == old(sellers) && categories == old(categories) && filteredCategories == old(filteredCategories)
      ensures categoryForm == old(categoryForm) && iconPreview == old(iconPreview)
      ensures editingCategory == old(editingCategory) && showCategoryForm == old(showCategoryForm)
    {
      selectedCategories := ToggledSelection(selectedCategories, id);
    }

    /**
     * `handleDeleteCategory`. confirmed is the dialog's answer, ok whether the
     * server accepted the delete. The id leaves the three category lists and
     * nothing else changes.
     */
    method HandleDeleteCategory(id: Id, confirmed: bool, ok: bool)
      modifies this
      ensures confirmed && ok ==>
                && categories == WithoutCategory(old(categories), id)
                && filteredCategories == WithoutCategory(old(filteredCategories), id)
                && selectedCategories == WithoutId(old(selectedCategories), id)
      ensures !(confirmed && ok) ==>
                categories == old(categories) && filteredCategories == old(filteredCategories)
                && selectedCategories == old(selectedCategories)
      ensures sellers == old(sellers) && categoryForm == old(categoryForm) && iconPreview == old(iconPreview)
      ensures editingCategory == old(editingCategory) && showCategoryForm == old(showCategoryForm)
    {
      if !confirmed || !ok {
        return;
      }
      categories := WithoutCategory(categories, id);
      filteredCategories := WithoutCategory(filteredCategories, id);
      selectedCategories := WithoutId(selectedCategories, id);
    }

    /**
     * `handleBulkDeleteCategories`: refused on an empty selection; otherwise,
     * once confirmed and accepted, the selected categories leave both lists
     * and the selection is emptied.
     */
    method HandleBulkDeleteCategories(confirmed: bool, ok: bool) returns (refused: bool)
      modifies this
      ensures refused <==> old(selectedCategories) == []
      ensures !refused && confirmed && ok ==>
                && categories == WithoutSelected(old(categories), old(selectedCategories))
                && filteredCategories == WithoutSelected(old(filteredCategories), old(selectedCategories))
                && selectedCategories == []
      ensures refused || !confirmed || !ok ==>
                categories == old(categories) && filteredCategories == old(filteredCategories)
                && selectedCategories == old(selectedCategories)
      ensures sellers == old(sellers) && categoryForm == old(categoryForm) && iconPreview == old(iconPreview)
      ensures editingCategory == old(editingCategory) && showCategoryForm == old(showCategoryForm)
    {
      if |selectedCategories| == 0 {
        return true;
      }
      refused := false;
      if !confirmed || !ok {
        return;
      }
      categories := WithoutSelected(categories, selectedCategories);
      filteredCategories := WithoutSelected(filteredCategories, selectedCategories);
      selectedCategories := [];
    }

    /** `handleToggleSellerStatus`; ok is whether the server accepted the new status. */
    method HandleToggleSellerStatus(id: Id, currentStatus: string, ok: bool) returns (newStatus: string)
      modifies this
      ensures newStatus == NextSellerStatus(currentStatus)
      ensures sellers == (if ok then SetSellerStatus(old(sellers), id, newStatus) else old(sellers))
      ensures categories == old(categories) && filteredCategories == old(filteredCategories)
      ensures selectedCategories == old(selectedCategories) && categoryForm == old(categoryForm)
      ensures iconPreview == old(iconPreview) && editingCategory == old(editingCategory)
      ensures showCategoryForm == old(showCategoryForm)
    {
      newStatus := if currentStatus == "enabled" then "disabled" else "enabled";
      if ok {
        sellers := SetSellerStatus(sellers, id, newStatus);
      }
    }

    /** `handleCategoryFormChange`: text inputs set their field; an icon must pass the checks. */
    method HandleCategoryFormChange(c: CategoryFormChange) returns (decision: Option<IconDecision>)
      modifies this
      ensures c.NameInput? ==> categoryForm == old(categoryForm).(name := c.value) && iconPreview == old(iconPreview)
      ensures c.DescriptionInput? ==> categoryForm == old(categoryForm).(description := c.value) && iconPreview == old(iconPreview)
      ensures c.IconInput? <==> decision.Some?
      ensures c.IconInput? ==> decision.value == DecideIcon(c.file)
      ensures c.IconInput? && decision.value.AcceptIcon? ==>
                categoryForm == old(categoryForm).(icon := Some(decision.value.file))
                && iconPreview == Some(PickedIcon(decision.value.file))
      ensures c.IconInput? && !decision.value.AcceptIcon? ==> categoryForm == old(categoryForm) && iconPreview == old(iconPreview)
      ensures sellers == old(sellers) && categories == old(categories) && filteredCategories == old(filteredCategories)
      ensures selectedCategories == old(selectedCategories) && editingCategory == old(editingCategory)
      ensures showCategoryForm == old(showCategoryForm)
    {
      match c
      case NameInput(v) =>
        categoryForm := categoryForm.(name := v);
        decision := None;
      case DescriptionInput(v) =>
        categoryForm := categoryForm.(description := v);
        decision := None;
      case IconInput(file) =>
        var d := DecideIcon(file);
        decision := Some(d);
        if d.AcceptIcon? {
          categoryForm := categoryForm.(icon := Some(d.file));
          iconPreview := Some(PickedIcon(d.file));
        }
    }

    /** `handleEditCategory`: the form takes the category's name and description, with no new icon. */
    method HandleEditCategory(category: Category)
      modifies this
      ensures editingCategory == Some(category) && showCategoryForm
      ensures categoryForm == CategoryForm(category.name, category.description, None)
      ensures iconPreview == (if category.icon != "" then Some(StoredIcon(category.icon)) else None)
      ensures sellers == old(sellers) && categories == old(categories) && filteredCategories == old(filteredCategories)
      ensures selectedCategories == old(selectedCategories)
    {
      editingCategory := Some(category);
      categoryForm := CategoryForm(category.name, category.description, None);
      iconPreview := if category.icon != "" then Some(StoredIcon(category.icon)) else None;
      showCategoryForm := true;
    }

    /**
     * `handleCategorySubmit`. response is the category the server returns,
     * None when the request fails; sent is the multipart body, None when a
     * guard refuses the form. An edit replaces the edited category in both
     * lists, a creation appends to both, and either resets the form.
     */
    method HandleCategorySubmit(response: Option<Category>) returns (outcome: SubmitOutcome, sent: Option<seq<CategoryPart>>)
      modifies this
      ensures var check := CategorySubmitCheck(old(categoryForm), old(editingCategory).Some?);
              outcome == (if check.Some? then Refused(check.value) else if response.Some? then Saved else SaveFailed)
      ensures sent == (if outcome.Refused? then None else Some(CategoryPayload(old(categoryForm))))
      ensures outcome != Saved ==>
                categories == old(categories) && filteredCategories == old(filteredCategories)
                && categoryForm == old(categoryForm) && iconPreview == old(iconPreview)
                && editingCategory == old(editingCategory) && showCategoryForm == old(showCategoryForm)
      ensures outcome == Saved && old(editingCategory).Some? ==>
                && categories == ReplaceById(old(categories), CategoryId, old(editingCategory).value.id, response.value)
                && filteredCategories == ReplaceById(old(filteredCategories), CategoryId, old(editingCategory).value.id, response.value)
      ensures outcome == Saved && old(editingCategory).None? ==>
                categories == old(categories) + [response.value]
                && filteredCategories == old(filteredCategories) + [response.value]
      ensures outcome == Saved ==>
                categoryForm == BlankCategoryForm && iconPreview == None && editingCategory == None && !showCategoryForm
      ensures sellers == old(sellers) && selectedCategories == old(selectedCategories)
    {
      if categoryForm.name == "" {
        return Refused(NameRequired), None;
      }
      if editingCategory.None? && categoryForm.icon.None? {
        return Refused(IconRequired), None;
      }
      sent := Some(CategoryPayload(categoryForm));
      if response.None? {
        return SaveFailed, sent;
      }
      var saved := response.value;
      if editingCategory.Some? {
        categories := ReplaceById(categories, CategoryId, editingCategory.value.id, saved);
        filteredCategories := ReplaceById(filteredCategories, CategoryId, editingCategory.value.id, saved);
      } else {
        categories := categories + [saved];
        filteredCategories := filteredCategories + [saved];
      }
      categoryForm := BlankCategoryForm;
      iconPreview := None;
      editingCategory := None;
      showCategoryForm := false;
      outcome := Saved;
    }

    /** `handleCategorySearch`: a blank query shows every category; otherwise the server's answer. */
    method HandleCategorySearch(query: string, response: SearchResponse)
      modifies this
      ensures filteredCategories == SearchResult(query, old(categories), old(filteredCategories), response)
      ensures IsBlank(query) ==> filteredCategories == categories
      ensures sellers == old(sellers) && categories == old(categories) && selectedCategories == old(selectedCategories)
      ensures categoryForm == old(categoryForm) && iconPreview == old(iconPreview)
      ensures editingCategory == old(editingCategory) && showCategoryForm == old(showCategoryForm)
    {
      if IsBlank(query) {
        filteredCategories := categories;
        return;
      }
      match response
      case SearchFailed =>
      case SearchAnswered(cs) =>
        filteredCategories := if cs.Some? then cs.value else [];
    }
  }
}

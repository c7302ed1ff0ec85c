/** The admin's category page (ManageCategory.jsx): the type filter over the category list, the
    empty-state rule, and the handlers that fire create and delete requests. */
module ManageCategory {

  /** A category as the categories endpoint returns it (`type` is a keyword here). */
  datatype Category = Category(id: string, name: string, categoryType: string)

  /** The payload `{ name, type }` of a create request. */
  datatype NewCategory = NewCategory(name: string, categoryType: string)

  /** The filter value that shows every category. */
  const AllTypes: string := "all"
  /** The first option of the type select, which a form reset restores. */
  const DefaultFormType: string := "expense"

  /** `categories.filter(cat => cat.type === t)`: only categories of type `t`, at most as many as
      there were. */
  function FilterByType(categories: seq<Category>, t: string): (r: seq<Category>)
    ensures |r| <= |categories|
    ensures forall i :: 0 <= i < |r| ==> r[i].categoryType == t
    ensures forall c :: c in r ==> c in categories
  {
    if categories == [] then []
    else if categories[0].categoryType == t then [categories[0]] + FilterByType(categories[1..], t)
    else FilterByType(categories[1..], t)
  }

  /** `filteredCategories`: the whole list under "all", otherwise the categories of that type. */
  function FilteredCategories(categories: seq<Category>, filterType: string): (r: seq<Category>)
    ensures filterType == AllTypes ==> r == categories
    ensures filterType != AllTypes ==> forall i :: 0 <= i < |r| ==> r[i].categoryType == filterType
    ensures |r| <= |categories|
  {
    if filterType == AllTypes then categories else FilterByType(categories, filterType)
  }

  /** `a` is `b` with some elements dropped, the rest in their original order. */
  predicate IsSubsequence(a: seq<Category>, b: seq<Category>)
    decreases |b|
  {
    if a == [] then true
    else if b == [] then false
    else if a[0] == b[0] then IsSubsequence(a[1..], b[1..])
    else IsSubsequence(a, b[1..])
  }

  /** Nothing of the right type is lost: every category of type `t` is in the filtered list. */
  lemma {:induction false} FilterComplete(categories: seq<Category>, t: string)
    ensures forall i :: 0 <= i < |categories| && categories[i].categoryType == t ==>
      categories[i] in FilterByType(categories, t)
  {
    if categories != [] {
      FilterComplete(categories[1..], t);
      forall i | 0 <= i < |categories| && categories[i].categoryType == t
        ensures categories[i] in FilterByType(categories, t)
      {
        if i > 0 {
          assert categories[i] == categories[1..][i - 1];
        }
      }
    }
  }

  /** The filtered list keeps the input order: it is a subsequence of the input. */
  lemma {:induction false} FilterIsSubsequence(categories: seq<Category>, t: string)
    ensures IsSubsequence(FilterByType(categories, t), categories)
  {
    if categories != [] {
      FilterIsSubsequence(categories[1..], t);
      var rest := FilterByType(categories[1..], t);
      if categories[0].categoryType == t {
        assert ([categories[0]] + rest)[1..] == rest;
      } else if rest != [] {
        assert rest[0] in categories[1..];
        assert rest[0].categoryType == t;
      }
    }
  }

  /** Filtering an already filtered list by the same type changes nothing. */
  lemma {:induction false} FilterIdempotent(categories: seq<Category>, filterType: string)
    ensures FilteredCategories(FilteredCategories(categories, filterType), filterType)
      == FilteredCategories(categories, filterType)
  {
    if filterType != AllTypes {
      FilterByTypeFixesMatching(FilterByType(categories, filterType), filterType);
    }
  }

  /** A list whose every element has type `t` passes the filter unchanged. */
  lemma {:induction false} FilterByTypeFixesMatching(categories: seq<Category>, t: string)
    requires forall i :: 0 <= i < |categories| ==> categories[i].categoryType == t
    ensures FilterByType(categories, t) == categories
  {
    if categories != [] {
      FilterByTypeFixesMatching(categories[1..], t);
      assert [categories[0]] + categories[1..] == categories;
    }
  }

  /** The "No categories found" panel: shown once loaded when the filtered list is empty. */
  function ShowsEmptyState(isLoading: bool, filtered: seq<Category>): (shown: bool)
    ensures shown ==> !isLoading
    ensures !isLoading ==> (shown <==> filtered == [])
  {
    !isLoading && |filtered| == 0
  }

  /** Under a type filter the empty panel appears, once loaded, exactly when no category has that
      type. */
  lemma EmptyStateIffNoneOfType(isLoading: bool, categories: seq<Category>, filterType: string)
    requires filterType != AllTypes
    ensures ShowsEmptyState(isLoading, FilteredCategories(categories, filterType))
      <==> !isLoading && forall i :: 0 <= i < |categories| ==> categories[i].categoryType != filterType
  {
    FilterComplete(categories, filterType);
    var r := FilterByType(categories, filterType);
    if r != [] {
      assert r[0] in categories;
    }
  }

  /** The page's own state: the filter, the values of the create form, and the create and delete
      requests it has fired (the requests themselves are not modelled). */
  class ManageCategoryPage {
    var filterType: string
    var formName: string
    var formType: string
    var created: seq<NewCategory>
    var deleted: seq<string>

    constructor ()
      ensures filterType == AllTypes && formName == "" && formType == DefaultFormType
      ensures created == [] && deleted == []
    {
      filterType := AllTypes;
      formName := "";
      formType := DefaultFormType;
      created := [];
      deleted := [];
    }

    /** One of the filter buttons. */
    method SetFilter(t: string)
      modifies this
      ensures filterType == t
      ensures formName == old(formName) && formType == old(formType)
      ensures created == old(created) && deleted == old(deleted)
    {
      filterType := t;
    }

    /** Typing into the create form. */
    method EditForm(name: string, t: string)
      modifies this
      ensures formName == name && formType == t
      ensures filterType == old(filterType) && created == old(created) && deleted == old(deleted)
    {
      formName := name;
      formType := t;
    }

    /** `handleAddCategory`: a create request with exactly the form's name and type, then the form
        is reset to an empty name and the first type option. */
    method HandleAddCategory()
      modifies this
      ensures created == old(created) + [NewCategory(old(formName), old(formType))]
      ensures formName == "" && formType == DefaultFormType
      ensures filterType == old(filterType) && deleted == old(deleted)
    {
      created := created + [NewCategory(formName, formType)];
      formName := "";
      formType := DefaultFormType;
    }

    /** `handleDelete` once its confirmation dialog has closed: a delete request only on
        confirmation. */
    method HandleDelete(id: string, confirmed: bool)
      modifies this
      ensures deleted == if confirmed then old(deleted) + [id] else old(deleted)
      ensures filterType == old(filterType) && formName == old(formName) && formType == old(formType)
      ensures created == old(created)
    {
      if confirmed {
        deleted := deleted + [id];
      }
    }
  }
}

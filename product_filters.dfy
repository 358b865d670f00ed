/** The catalogue filters of components/product/ProductFilters.tsx: the local
    search term, and the query string built by copying the current URL
    parameters and applying `set` or `delete` as section 6.2 of the WHATWG URL
    Standard defines them on a `URLSearchParams` list. The list of name-value
    pairs stands for the query string it serialises to. */
module ProductFiltersView {
  import opened Common

  type Param = (string, string)

  function Named(name: string): Param -> bool {
    (p: Param) => p.0 == name
  }

  function NotNamed(name: string): Param -> bool {
    (p: Param) => p.0 != name
  }

  /** The pairs named `name`, in order. */
  function Entries(list: seq<Param>, name: string): (r: seq<Param>)
    ensures forall p :: p in r <==> p in list && p.0 == name
  {
    Filter(list, Named(name))
  }

  /** The pairs with any other name, in order. */
  function Others(list: seq<Param>, name: string): (r: seq<Param>)
    ensures forall p :: p in r <==> p in list && p.0 != name
  {
    Filter(list, NotNamed(name))
  }

  /** The position of the first pair named `name`, or -1. */
  function FirstNamed(list: seq<Param>, name: string): (k: int)
    ensures -1 <= k < |list|
    ensures 0 <= k ==> list[k].0 == name && forall j :: 0 <= j < k ==> list[j].0 != name
    ensures k == -1 <==> forall j :: 0 <= j < |list| ==> list[j].0 != name
  {
    if list == [] then -1
    else if list[0].0 == name then 0
    else
      var k := FirstNamed(list[1..], name);
      assert forall j :: 1 <= j < |list| ==> list[j] == list[1..][j - 1];
      if k == -1 then -1 else k + 1
  }

  /** `delete(name)`: every pair named `name` removed. */
  function Deleted(list: seq<Param>, name: string): seq<Param> {
    Others(list, name)
  }

  /** `set(name, value)`: the first pair named `name` gets the value and the other
      pairs with that name are removed; without one, the pair is appended. */
  function SetParam(list: seq<Param>, name: string, value: string): seq<Param> {
    var k := FirstNamed(list, name);
    if k == -1 then list + [(name, value)]
    else list[..k] + [(name, value)] + Deleted(list[k + 1..], name)
  }

  lemma FilterNoneKept<T(!new)>(s: seq<T>, keep: T -> bool)
    requires forall x :: x in s ==> !keep(x)
    ensures Filter(s, keep) == []
  {
  }

  /** Deleting leaves no pair with the name and every other pair, in order. */
  lemma DeletedExactly(list: seq<Param>, name: string)
    ensures Entries(Deleted(list, name), name) == []
    ensures Others(Deleted(list, name), name) == Others(list, name)
  {
    var d := Deleted(list, name);
    FilterNoneKept(d, Named(name));
    FilterAllKept(d, NotNamed(name));
  }

  /** Setting leaves exactly one pair with the name, holding the value. */
  lemma SetLeavesOne(list: seq<Param>, name: string, value: string)
    ensures Entries(SetParam(list, name, value), name) == [(name, value)]
  {
    var isName := Named(name);
    var k := FirstNamed(list, name);
    var pair := [(name, value)];
    assert Filter(pair, isName) == pair;
    if k == -1 {
      FilterConcat(list, pair, isName);
      FilterNoneKept(list, isName);
    } else {
      var before := list[..k];
      var rest := Deleted(list[k + 1..], name);
      FilterNoneKept(before, isName);
      DeletedExactly(list[k + 1..], name);
      FilterConcat(before + pair, rest, isName);
      FilterConcat(before, pair, isName);
    }
  }

  /** Setting keeps every pair with another name, in order. */
  lemma SetKeepsOthers(list: seq<Param>, name: string, value: string)
    ensures Others(SetParam(list, name, value), name) == Others(list, name)
  {
    var k := FirstNamed(list, name);
    if k == -1 {
      FilterConcat(list, [(name, value)], NotNamed(name));
    } else {
      SetKeepsOthersAt(list, name, value, k);
    }
  }

  lemma SetKeepsOthersAt(list: seq<Param>, name: string, value: string, k: int)
    requires 0 <= k < |list| && k == FirstNamed(list, name)
    ensures Others(SetParam(list, name, value), name) == Others(list, name)
  {
    var after := list[k + 1..];
    DeletedExactly(after, name);
    var updated := SetParam(list, name, value);
    var keep := NotNamed(name);
    assert updated == list[..k] + [(name, value)] + Deleted(after, name);
    FilterReplace(list[..k], list[k], (name, value), after, Deleted(after, name), keep);
    assert list == list[..k] + [list[k]] + after;
    calc {
      Others(updated, name);
      Filter(list[..k] + [(name, value)] + Deleted(after, name), keep);
      Filter(list[..k] + [list[k]] + after, keep);
      Filter(list, keep);
    }
  }

  /** `URLSearchParams`: an ordered list of name-value pairs changed in place. */
  class SearchParams {
    var list: seq<Param>

    constructor (init: seq<Param>)
      ensures list == init
    {
      list := init;
    }

    method Set(name: string, value: string)
      modifies this
      ensures list == SetParam(old(list), name, value)
    {
      list := SetParam(list, name, value);
    }

    method Delete(name: string)
      modifies this
      ensures list == Deleted(old(list), name)
    {
      list := Deleted(list, name);
    }
  }

  /** The parameters `createQueryString(name, value)` produces from `current`. */
  function QueryAfter(current: seq<Param>, name: string, value: string): seq<Param> {
    if value != "" && value != "all" then SetParam(current, name, value) else Deleted(current, name)
  }

  /** `createQueryString`: a copy of the current parameters, with `name` set to a
      meaningful value or deleted for "" and "all". */
  method CreateQueryString(current: seq<Param>, name: string, value: string) returns (r: seq<Param>)
    ensures value != "" && value != "all" ==> Entries(r, name) == [(name, value)]
    ensures value == "" || value == "all" ==> Entries(r, name) == []
    ensures Others(r, name) == Others(current, name)
    ensures r == QueryAfter(current, name, value)
  {
    var params := new SearchParams(current);
    if value != "" && value != "all" {
      params.Set(name, value);
      SetLeavesOne(current, name, value);
      SetKeepsOthers(current, name, value);
    } else {
      params.Delete(name);
      DeletedExactly(current, name);
    }
    r := params.list;
  }

  /** Where a navigation goes: the path and the parameters of its query string. */
  datatype Navigation = Navigation(path: string, query: seq<Param>)

  /** The filter panel's state: the URL parameters it was rendered with and the
      search field's text. */
  class Panel {
    var searchParams: seq<Param>
    var currentSearchTerm: string

    constructor (params: seq<Param>, searchTerm: string)
      ensures searchParams == params && currentSearchTerm == searchTerm
    {
      searchParams := params;
      currentSearchTerm := searchTerm;
    }

    /** The effect that copies a new `searchTerm` prop into the field. */
    method SyncSearchTerm(searchTerm: string)
      modifies this
      ensures currentSearchTerm == searchTerm && searchParams == old(searchParams)
    {
      currentSearchTerm := searchTerm;
    }

    /** Typing in the search field. */
    method Type(text: string)
      modifies this
      ensures currentSearchTerm == text && searchParams == old(searchParams)
    {
      currentSearchTerm := text;
    }

    /** A category radio: only `categorie` changes in the target query. */
    method HandleCategoryChange(value: string) returns (nav: Navigation)
      ensures nav.path == "/produits"
      ensures nav.query == QueryAfter(searchParams, "categorie", value)
      ensures Others(nav.query, "categorie") == Others(searchParams, "categorie")
    {
      var q := CreateQueryString(searchParams, "categorie", value);
      nav := Navigation("/produits", q);
    }

    /** The search form: only `search` changes, to the field's current text. */
    method HandleSearchSubmit() returns (nav: Navigation)
      ensures nav.path == "/produits"
      ensures nav.query == QueryAfter(searchParams, "search", currentSearchTerm)
      ensures Others(nav.query, "search") == Others(searchParams, "search")
    {
      var q := CreateQueryString(searchParams, "search", currentSearchTerm);
      nav := Navigation("/produits", q);
    }
  }

  /** The category radio group's value: `selectedCategorySlug || "all"`. */
  function ShownCategory(selectedCategorySlug: string): (r: string)
    ensures selectedCategorySlug == "" ==> r == "all"
    ensures selectedCategorySlug != "" ==> r == selectedCategorySlug
  {
    if selectedCategorySlug != "" then selectedCategorySlug else "all"
  }

  /** Choosing the shown "all" entry removes the category from the query. */
  lemma AllClearsCategory(current: seq<Param>)
    ensures Entries(QueryAfter(current, "categorie", ShownCategory("")), "categorie") == []
  {
    DeletedExactly(current, "categorie");
  }
}

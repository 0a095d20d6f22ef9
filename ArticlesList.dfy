/**
 * The articles list page: the query string sent for the current filters, the delete guard,
 * the row selection, the search and select filters, the "Showing X to Y" summary and the
 * previous/next buttons.
 */
module ArticlesList {
  import opened JsText
  import UrlState

  /** A value of the filters object as `fetchPosts` meets it. */
  datatype ParamValue = Undefined | Text(s: string) | Number(i: int) | Flag(b: bool) | List(items: seq<string>)

  /** `String(value)` for a value that is not a list. */
  function Stringify(v: ParamValue): string
    requires !v.Undefined? && !v.List?
  {
    match v
    case Text(s) => s
    case Number(i) => IntToString(i)
    case Flag(b) => if b then "true" else "false"
  }

  /** The pairs one entry appends to the search parameters. */
  function EntryPairs(key: string, v: ParamValue): seq<(string, string)> {
    match v
    case Undefined => []
    case List(items) => seq(|items|, k requires 0 <= k < |items| => (key, items[k]))
    case _ => [(key, Stringify(v))]
  }

  /** The search parameters `fetchPosts` builds from the entries of the filters, in entry order. */
  function QueryPairs(params: seq<(string, ParamValue)>): seq<(string, string)>
    decreases |params|
  {
    if params == [] then [] else QueryPairs(params[..|params| - 1]) + EntryPairs(params[|params| - 1].0, params[|params| - 1].1)
  }

  /** `fetchPosts`'s loop over `Object.entries(params)`. */
  method BuildQuery(params: seq<(string, ParamValue)>) returns (pairs: seq<(string, string)>)
    ensures pairs == QueryPairs(params)
  {
    pairs := [];
    var i := 0;
    while i < |params|
      invariant i <= |params|
      invariant pairs == QueryPairs(params[..i])
    {
      var key := params[i].0;
      var value := params[i].1;
      assert params[..i + 1][..i] == params[..i];
      if !value.Undefined? {
        if value.List? {
          pairs := AppendEach(pairs, key, value.items);
        } else {
          pairs := pairs + [(key, Stringify(value))];
        }
      }
      i := i + 1;
    }
    assert params[..i] == params;
  }

  /** `value.forEach(v => searchParams.append(key, String(v)))` */
  method AppendEach(pairs: seq<(string, string)>, key: string, items: seq<string>) returns (r: seq<(string, string)>)
    ensures r == pairs + EntryPairs(key, List(items))
  {
    r := pairs;
    var j := 0;
    while j < |items|
      invariant j <= |items|
      invariant r == pairs + EntryPairs(key, List(items[..j]))
    {
      r := r + [(key, items[j])];
      j := j + 1;
    }
    assert items[..j] == items;
  }

  /** The query of a concatenation is the concatenation of the queries. */
  lemma {:induction false} QueryPairsAppend(a: seq<(string, ParamValue)>, b: seq<(string, ParamValue)>)
    ensures QueryPairs(a + b) == QueryPairs(a) + QueryPairs(b)
    decreases |b|
  {
    if b == [] {
      assert a + b == a;
    } else {
      var last := b[|b| - 1];
      var init := b[..|b| - 1];
      var tail := EntryPairs(last.0, last.1);
      assert (a + b)[..|a + b| - 1] == a + init;
      assert (a + b)[|a + b| - 1] == last;
      assert QueryPairs(a + b) == QueryPairs(a + init) + tail;
      assert QueryPairs(b) == QueryPairs(init) + tail;
      QueryPairsAppend(a, init);
      assert QueryPairs(a + init) + tail == QueryPairs(a) + (QueryPairs(init) + tail);
    }
  }

  /** Undefined entries send nothing, a list sends one pair per element in order, and any
      other value one pair under its key. */
  lemma EntryPairsShape(key: string, v: ParamValue)
    ensures v.Undefined? ==> EntryPairs(key, v) == []
    ensures v.List? ==> |EntryPairs(key, v)| == |v.items| &&
                        forall k :: 0 <= k < |v.items| ==> EntryPairs(key, v)[k] == (key, v.items[k])
    ensures !v.Undefined? && !v.List? ==> |EntryPairs(key, v)| == 1 && EntryPairs(key, v)[0].0 == key
  {
  }

  /** Every pair sent carries the key of a defined entry. */
  lemma {:induction false} QueryKeys(params: seq<(string, ParamValue)>, n: nat)
    requires n < |QueryPairs(params)|
    ensures exists j :: 0 <= j < |params| && !params[j].1.Undefined? && params[j].0 == QueryPairs(params)[n].0
    decreases |params|
  {
    var init := params[..|params| - 1];
    var last := params[|params| - 1];
    if n < |QueryPairs(init)| {
      QueryKeys(init, n);
      var j :| 0 <= j < |init| && !init[j].1.Undefined? && init[j].0 == QueryPairs(init)[n].0;
      assert params[j] == init[j];
    } else {
      assert QueryPairs(params)[n] in EntryPairs(last.0, last.1);
      assert params[|params| - 1] == last;
    }
  }

  // ----- deleting -----

  /** The argument of `handleDelete`: one id or a list of ids. */
  datatype Ids = One(id: int) | Many(ids: seq<int>)

  function AsList(ids: Ids): seq<int> {
    match ids
    case One(id) => [id]
    case Many(ids) => ids
  }

  /** The ids a `deleteArticles` call sends, or `None` when it returns without a request. */
  function DeleteRequest(ids: seq<int>): (r: Option<seq<int>>)
    ensures r.None? <==> ids == []
    ensures r.Some? ==> r.value == ids
  {
    if |ids| == 0 then None else Some(ids)
  }

  /** A single id is sent as a one-element list; an empty list sends nothing. */
  lemma DeleteGuard(id: int)
    ensures DeleteRequest(AsList(One(id))) == Some([id])
    ensures DeleteRequest(AsList(Many([]))) == None
  {
  }

  // ----- filters and paging -----

  /** The filters kept in the URL. `search` holds what `defaultDeserialize` read back, which
      is a number or a boolean for a search that looks like one. */
  datatype Filters = Filters(page: int, limit: int, search: UrlState.Value, category: Option<string>, generatedBy: Option<string>)

  const DefaultFilters := Filters(1, 10, UrlState.StringValue(""), None, None)

  /** `filters.search || ""`: the search itself, or the empty string for a falsy one. */
  function SearchOrEmpty(v: UrlState.Value): (r: UrlState.Value)
    ensures r == v || r == UrlState.StringValue("")
    ensures UrlState.Truthy(r) <==> UrlState.Truthy(v)
    ensures !UrlState.Truthy(r) ==> r == UrlState.StringValue("")
  {
    if UrlState.Truthy(v) then v else UrlState.StringValue("")
  }

  /** The search box after a reload: a search read back as text shows as itself, and one read
      back as a truthy number or boolean shows as that value, not as text. */
  lemma ReloadedSearch(text: string)
    ensures UrlState.ParseValue(text).StringValue? ==> SearchOrEmpty(UrlState.ParseValue(text)) == UrlState.StringValue(text)
    ensures SearchOrEmpty(UrlState.ParseValue(text)).StringValue? <==>
      UrlState.ParseValue(text).StringValue? || !UrlState.Truthy(UrlState.ParseValue(text))
  {
  }

  /** A year searched for comes back from the URL as a number. */
  lemma YearSearchReadsAsNumber()
    ensures SearchOrEmpty(UrlState.ParseValue("2024")) == UrlState.IntValue(2024)
  {
    var s := "2024";
    assert IsIntegerLiteral(s) && LiteralBody(s) == s;
    assert DigitsValue(s) == 2024 by {
      assert "2"[..0] == [] && DigitsValue("2") == 2;
      assert "20"[..1] == "2" && DigitsValue("20") == 20;
      assert "202"[..2] == "20" && DigitsValue("202") == 202;
      assert s[..3] == "202";
    }
    UrlState.IntegerTextReadsAsInteger(s);
  }

  /** Leading zeros are lost: `007` comes back as the number 7. */
  lemma LeadingZerosLost()
    ensures SearchOrEmpty(UrlState.ParseValue("007")) == UrlState.IntValue(7)
  {
    var s := "007";
    assert IsIntegerLiteral(s) && LiteralBody(s) == s;
    assert DigitsValue(s) == 7 by {
      assert s[..2] == "00" && s[..2][..1] == "0" && "0"[..0] == [];
    }
    UrlState.IntegerTextReadsAsInteger(s);
  }

  /** `1e3` comes back as the number 1. */
  lemma ExponentSearchReadsAsOne()
    ensures SearchOrEmpty(UrlState.ParseValue("1e3")) == UrlState.IntValue(1)
  {
    UrlState.ExponentReadsAsLeadingDigits();
  }

  /** `0` and `Infinity` come back falsy, as 0 and `NaN`, and the box shows empty. */
  lemma FalsySearchesEmpty()
    ensures SearchOrEmpty(UrlState.ParseValue("0")) == UrlState.StringValue("")
    ensures SearchOrEmpty(UrlState.ParseValue("Infinity")) == UrlState.StringValue("")
  {
    var s := "0";
    assert IsIntegerLiteral(s) && LiteralBody(s) == s;
    assert DigitsValue(s) == 0 by {
      assert s[..0] == [];
    }
    UrlState.IntegerTextReadsAsInteger(s);
    UrlState.InfinityReadsAsNaN();
  }

  /** A select's value: `all` clears the filter. */
  function SelectValue(value: string): (r: Option<string>)
    ensures r.None? <==> value == "all"
    ensures r.Some? ==> r.value == value
  {
    if value == "all" then None else Some(value)
  }

  /** The first row number of the summary. */
  function ShowingFrom(f: Filters): int {
    (f.page - 1) * f.limit + 1
  }

  /** The last row number of the summary; a missing total reads as 0. */
  function ShowingTo(f: Filters, total: Option<int>): int {
    var t := if total.Some? then total.value else 0;
    if f.page * f.limit < t then f.page * f.limit else t
  }

  /** On a page that starts before the end, the summary names at most `limit` rows, from the
      first row of the page; on an empty result it reads "1 to 0". */
  lemma SummaryRange(f: Filters, total: nat)
    requires f.page >= 1 && f.limit > 0
    ensures (f.page - 1) * f.limit < total ==>
      ShowingFrom(f) <= ShowingTo(f, Some(total)) && ShowingTo(f, Some(total)) - ShowingFrom(f) + 1 <= f.limit
    ensures f.page == 1 && total == 0 ==> ShowingFrom(f) == 1 && ShowingTo(f, None) == 0
  {
    assert f.page * f.limit == (f.page - 1) * f.limit + f.limit;
  }

  /** The page's state; `filters` lives in the URL. */
  class ArticlesListPage {
    var selected: set<int>
    var filters: Filters
    var inputValue: UrlState.Value

    /** The search box starts as `filters.search || ""`. */
    constructor(filters: Filters)
      ensures selected == {} && this.filters == filters && inputValue == SearchOrEmpty(filters.search)
    {
      selected := {};
      this.filters := filters;
      inputValue := SearchOrEmpty(filters.search);
    }

    /** `handleInput(value)`: the search box holds what was typed. */
    method HandleInput(value: string)
      modifies this
      ensures inputValue == UrlState.StringValue(value)
      ensures selected == old(selected) && filters == old(filters)
    {
      inputValue := UrlState.StringValue(value);
    }

    /** `handleSelectAll(checked)` on the listed ids. */
    method SelectAll(listed: seq<int>, checked: bool)
      modifies this
      ensures selected == if checked then set k | 0 <= k < |listed| :: listed[k] else {}
      ensures filters == old(filters) && inputValue == old(inputValue)
    {
      if checked {
        selected := set k | 0 <= k < |listed| :: listed[k];
      } else {
        selected := {};
      }
    }

    /** `handleSelectArticle(id, checked)` */
    method SelectArticle(id: int, checked: bool)
      modifies this
      ensures selected == if checked then old(selected) + {id} else old(selected) - {id}
      ensures filters == old(filters) && inputValue == old(inputValue)
    {
      var newSelected := selected;
      if checked {
        newSelected := newSelected + {id};
      } else {
        newSelected := newSelected - {id};
      }
      selected := newSelected;
    }

    /** The delete mutation succeeded. */
    method DeleteSucceeded()
      modifies this
      ensures selected == {} && filters == old(filters) && inputValue == old(inputValue)
    {
      selected := {};
    }

    /** `handleSearch`: the trimmed input becomes the search, and the page goes back to 1
        except on the first render. An input that is not a string has no `trim`: the update
        throws a `TypeError` (`threw`) and the filters stay as they were. */
    method HandleSearch(isFirstRender: bool) returns (threw: bool)
      modifies this
      ensures threw <==> !old(inputValue).StringValue?
      ensures threw ==> filters == old(filters)
      ensures !threw ==> filters == old(filters).(search := UrlState.StringValue(Trim(old(inputValue).s)),
                                                  page := if isFirstRender then old(filters).page else 1)
      ensures selected == old(selected) && inputValue == old(inputValue)
    {
      var page := filters.page;
      if !isFirstRender {
        page := 1;
      }
      if !inputValue.StringValue? {
        return true;
      }
      filters := filters.(search := UrlState.StringValue(Trim(inputValue.s)), page := page);
      threw := false;
    }

    /** The category select. */
    method SetCategory(value: string)
      modifies this
      ensures filters == old(filters).(category := SelectValue(value), page := 1)
      ensures selected == old(selected) && inputValue == old(inputValue)
    {
      filters := filters.(category := SelectValue(value), page := 1);
    }

    /** The generated-by select. */
    method SetGeneratedBy(value: string)
      modifies this
      ensures filters == old(filters).(generatedBy := SelectValue(value), page := 1)
      ensures selected == old(selected) && inputValue == old(inputValue)
    {
      filters := filters.(generatedBy := SelectValue(value), page := 1);
    }

    /** The previous button: nothing on page 1. */
    method Previous()
      modifies this
      ensures filters == if old(filters).page == 1 then old(filters) else old(filters).(page := old(filters).page - 1)
      ensures selected == old(selected) && inputValue == old(inputValue)
    {
      if filters.page == 1 {
        return;
      }
      filters := filters.(page := filters.page - 1);
    }

    /** The next button: nothing when the server reports no more pages. */
    method Next(hasMore: bool)
      modifies this
      ensures filters == if !hasMore then old(filters) else old(filters).(page := old(filters).page + 1)
      ensures selected == old(selected) && inputValue == old(inputValue)
    {
      if !hasMore {
        return;
      }
      filters := filters.(page := filters.page + 1);
    }
  }
}

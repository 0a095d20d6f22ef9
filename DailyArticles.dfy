/**
 * The daily-articles page: today's articles minus the ones removed today (kept in local
 * storage under the date), a selection of ids, removal of one or many, and a CSV export whose
 * title field is quoted as section 2, rule 7 of RFC 4180 describes.
 */
module DailyArticles {
  import opened JsText

  datatype Article = Article(id: string, title: string, slug: string)

  const PostUrlPrefix := "https://zealnews.africa/en/post/"

  /** `removedArticles[today]?.includes(id)` */
  predicate IsRemoved(removed: map<string, seq<string>>, today: string, id: string) {
    today in removed && id in removed[today]
  }

  /** `visibleArticles`: the fetched articles not removed today, in fetched order. */
  function Visible(articles: seq<Article>, removed: map<string, seq<string>>, today: string): (r: seq<Article>)
    ensures |r| <= |articles|
    ensures forall k :: 0 <= k < |r| ==> !IsRemoved(removed, today, r[k].id)
  {
    Filter(articles, (a: Article) => !IsRemoved(removed, today, a.id))
  }

  /** `articles.map(a => a._id)` */
  function Ids(articles: seq<Article>): (r: seq<string>)
    ensures |r| == |articles|
    ensures forall k :: 0 <= k < |articles| ==> r[k] == articles[k].id
  {
    seq(|articles|, k requires 0 <= k < |articles| => articles[k].id)
  }

  /** `new Set(articles.map(a => a._id))` */
  function IdSet(articles: seq<Article>): set<string> {
    set k | 0 <= k < |articles| :: articles[k].id
  }

  /** The articles an export or a bulk removal works on: the selected visible ones in visible
      order when something is selected, and all visible ones otherwise. */
  function Target(visible: seq<Article>, selected: set<string>): seq<Article> {
    if |selected| > 0 then Filter(visible, (a: Article) => a.id in selected) else visible
  }

  lemma VisibleMembers(articles: seq<Article>, removed: map<string, seq<string>>, today: string, a: Article)
    ensures a in Visible(articles, removed, today) <==> a in articles && !IsRemoved(removed, today, a.id)
  {
    FilterMembers(articles, (a: Article) => !IsRemoved(removed, today, a.id), a);
  }

  /** After an id is appended to today's list, no article with that id is visible. */
  lemma RemovedIsHidden(articles: seq<Article>, removed: map<string, seq<string>>, today: string,
                        earlier: seq<string>, id: string)
    ensures forall a :: a in Visible(articles, removed[today := earlier + [id]], today) ==> a.id != id
  {
    forall a | a in Visible(articles, removed[today := earlier + [id]], today)
      ensures a.id != id
    {
      VisibleMembers(articles, removed[today := earlier + [id]], today, a);
    }
  }

  /** The target holds visible articles only; with a selection it holds exactly the visible
      articles whose id is selected, and without one every visible article. */
  lemma TargetMembers(visible: seq<Article>, selected: set<string>, a: Article)
    ensures |selected| > 0 ==> (a in Target(visible, selected) <==> a in visible && a.id in selected)
    ensures |selected| == 0 ==> Target(visible, selected) == visible
  {
    FilterMembers(visible, (a: Article) => a.id in selected, a);
  }

  /** After a bulk removal no target article is visible any more. */
  lemma RemoveAllHidesTarget(articles: seq<Article>, removed: map<string, seq<string>>, today: string,
                             earlier: seq<string>, selected: set<string>)
    ensures var target := Target(Visible(articles, removed, today), selected);
      var after := removed[today := earlier + Ids(target)];
      forall a :: a in target ==> a !in Visible(articles, after, today)
  {
    var target := Target(Visible(articles, removed, today), selected);
    var after := removed[today := earlier + Ids(target)];
    forall a | a in target
      ensures a !in Visible(articles, after, today)
    {
      var k :| 0 <= k < |target| && target[k] == a;
      assert Ids(target)[k] == a.id;
      assert a.id in earlier + Ids(target);
      VisibleMembers(articles, after, today, a);
    }
  }

  lemma {:induction false} IdSetSize(articles: seq<Article>)
    requires NoDuplicates(Ids(articles))
    ensures |IdSet(articles)| == |articles|
  {
    if articles != [] {
      var rest := articles[1..];
      assert NoDuplicates(Ids(rest)) by {
        assert forall k :: 0 <= k < |rest| ==> Ids(rest)[k] == Ids(articles)[k + 1];
      }
      IdSetSize(rest);
      assert IdSet(articles) == {articles[0].id} + IdSet(rest) by {
        forall x | x in IdSet(articles)
          ensures x in {articles[0].id} + IdSet(rest)
        {
          var k :| 0 <= k < |articles| && articles[k].id == x;
          if k > 0 {
            assert rest[k - 1].id == x;
          }
        }
      }
      assert articles[0].id !in IdSet(rest) by {
        forall k | 0 <= k < |rest|
          ensures rest[k].id != articles[0].id
        {
          assert Ids(articles)[k + 1] != Ids(articles)[0];
        }
      }
    }
  }

  /** The header checkbox shows checked when the selection has as many ids as there are visible
      articles, which select-all achieves when the visible ids are distinct. */
  predicate HeaderChecked(visible: seq<Article>, selected: set<string>) {
    |selected| == |visible|
  }

  lemma SelectAllChecksHeader(visible: seq<Article>)
    requires NoDuplicates(Ids(visible))
    ensures HeaderChecked(visible, IdSet(visible))
  {
    IdSetSize(visible);
  }

  // ----- export -----

  /** `s.replace(/"/g, '""')` */
  function EscapeQuotes(s: string): (r: string)
    ensures forall c :: c != '"' ==> (c in r <==> c in s)
  {
    if s == [] then []
    else (if s[0] == '"' then "\"\"" else [s[0]]) + EscapeQuotes(s[1..])
  }

  /** The title as a quoted CSV field. */
  function QuoteField(s: string): string {
    "\"" + EscapeQuotes(s) + "\""
  }

  /** The reading of a quoted field's inner text under rule 7 of RFC 4180: a pair of double
      quotes stands for one, and a lone double quote is malformed. */
  function Unescape(s: string): Option<string>
    decreases |s|
  {
    if s == [] then Some([])
    else if s[0] == '"' then
      if |s| >= 2 && s[1] == '"' then
        match Unescape(s[2..])
        case None => None
        case Some(t) => Some(['"'] + t)
      else None
    else
      match Unescape(s[1..])
      case None => None
      case Some(t) => Some([s[0]] + t)
  }

  /** A field that starts and ends with a double quote, read back. */
  function ReadQuotedField(f: string): Option<string> {
    if |f| >= 2 && f[0] == '"' && f[|f| - 1] == '"' then Unescape(f[1..|f| - 1]) else None
  }

  lemma {:induction false} UnescapeEscaped(s: string)
    ensures Unescape(EscapeQuotes(s)) == Some(s)
  {
    if s != [] {
      UnescapeEscaped(s[1..]);
      var rest := EscapeQuotes(s[1..]);
      if s[0] == '"' {
        assert EscapeQuotes(s) == "\"\"" + rest;
        assert ("\"\"" + rest)[2..] == rest;
      } else {
        assert EscapeQuotes(s) == [s[0]] + rest;
        assert ([s[0]] + rest)[1..] == rest;
      }
      assert s == [s[0]] + s[1..];
    }
  }

  /** Every title survives the quoting: a reader following RFC 4180 gets the title back. */
  lemma QuotedFieldRoundTrip(title: string)
    ensures ReadQuotedField(QuoteField(title)) == Some(title)
  {
    var f := QuoteField(title);
    assert f[1..|f| - 1] == EscapeQuotes(title);
    UnescapeEscaped(title);
  }

  /** One article's CSV line: the quoted title and the unquoted post URL. */
  function CsvRow(a: Article): string {
    Join([QuoteField(a.title), PostUrlPrefix + a.slug], ",")
  }

  const CsvHeader := Join(["Title", "URL"], ",")

  function CsvLines(target: seq<Article>): seq<string> {
    [CsvHeader] + seq(|target|, k requires 0 <= k < |target| => CsvRow(target[k]))
  }

  /** `csvContent`: the lines joined by a newline, with none at the end. */
  function Csv(target: seq<Article>): string {
    Join(CsvLines(target), "\n")
  }

  /** `handleCopyAllAsCSV`'s outcome. */
  function CsvExport(visible: seq<Article>, selected: set<string>): Result<string> {
    var target := Target(visible, selected);
    if |target| == 0 then Error("No articles to export") else Ok(Csv(target))
  }

  /** When no title or slug holds a newline, the file's lines are the header and one line per
      target article, in target order. */
  lemma CsvLayout(target: seq<Article>)
    requires forall k :: 0 <= k < |target| ==> '\n' !in target[k].title && '\n' !in target[k].slug
    ensures var lines := Split(Csv(target), '\n');
      && |lines| == |target| + 1
      && lines[0] == "Title,URL"
      && forall k :: 0 <= k < |target| ==>
           lines[k + 1] == QuoteField(target[k].title) + "," + PostUrlPrefix + target[k].slug
  {
    var lines := CsvLines(target);
    JoinPair("Title", "URL", ",");
    forall i | 0 <= i < |lines|
      ensures '\n' !in lines[i]
    {
      if i > 0 {
        CsvRowShape(target[i - 1]);
      }
    }
    SplitJoin(lines, '\n');
    forall k | 0 <= k < |target|
      ensures lines[k + 1] == QuoteField(target[k].title) + "," + PostUrlPrefix + target[k].slug
    {
      CsvRowShape(target[k]);
    }
  }

  /** A row is the quoted title, a comma and the post URL, and it holds no newline when the
      title and slug hold none. */
  lemma CsvRowShape(a: Article)
    ensures CsvRow(a) == QuoteField(a.title) + "," + PostUrlPrefix + a.slug
    ensures '\n' !in a.title && '\n' !in a.slug ==> '\n' !in CsvRow(a)
  {
    JoinPair(QuoteField(a.title), PostUrlPrefix + a.slug, ",");
    assert '\n' !in PostUrlPrefix;
  }

  /** The Previous button is disabled on the first page, the Next button when the server
      reports no more pages. */
  predicate PreviousDisabled(page: int) { page <= 1 }
  predicate NextDisabled(hasMore: bool) { !hasMore }

  /** Total minus today's removals, each missing number read as 0. */
  function Remaining(total: Option<int>, removed: map<string, seq<string>>, today: string): int {
    (if total.Some? then total.value else 0) - (if today in removed then |removed[today]| else 0)
  }

  /** Removing one more article lowers the count by one. */
  lemma RemoveLowersRemaining(total: Option<int>, removed: map<string, seq<string>>, today: string,
                              earlier: seq<string>, id: string)
    requires today in removed ==> removed[today] == earlier
    requires today !in removed ==> earlier == []
    ensures Remaining(total, removed[today := earlier + [id]], today) == Remaining(total, removed, today) - 1
  {
  }

  /** The page's state. `today` is the date the page was opened on. */
  class DailyArticlesPage {
    const today: string
    var selected: set<string>
    var removed: map<string, seq<string>>
    var removedForToday: seq<string>
    var page: int

    /** The page opened with `stored` in local storage. */
    constructor(today: string, stored: map<string, seq<string>>)
      ensures this.today == today && selected == {} && removed == stored && page == 1
      ensures removedForToday == if today in stored then stored[today] else []
    {
      this.today := today;
      selected := {};
      removed := stored;
      removedForToday := if today in stored then stored[today] else [];
      page := 1;
    }

    /** The date-change effect: a stored record without an entry for today is cleared. */
    method DateCheck()
      modifies this
      ensures today in old(removed) ==> removed == old(removed) && removedForToday == old(removedForToday)
      ensures today !in old(removed) ==> removed == map[] && removedForToday == []
      ensures selected == old(selected) && page == old(page)
    {
      if today !in removed {
        removed := map[];
        removedForToday := [];
      }
    }

    /** `handleSelectAll(checked)` */
    method SelectAll(visible: seq<Article>, checked: bool)
      modifies this
      ensures selected == if checked then IdSet(visible) else {}
      ensures removed == old(removed) && removedForToday == old(removedForToday) && page == old(page)
    {
      if checked {
        selected := IdSet(visible);
      } else {
        selected := {};
      }
    }

    /** `handleSelectArticle(id, checked)` */
    method SelectArticle(id: string, checked: bool)
      modifies this
      ensures selected == if checked then old(selected) + {id} else old(selected) - {id}
      ensures removed == old(removed) && removedForToday == old(removedForToday) && page == old(page)
    {
      var newSelected := selected;
      if checked {
        newSelected := newSelected + {id};
      } else {
        newSelected := newSelected - {id};
      }
      selected := newSelected;
    }

    /** `handleRemoveArticle(id)` */
    method RemoveArticle(id: string)
      modifies this
      ensures removedForToday == old(removedForToday) + [id]
      ensures removed == old(removed)[today := removedForToday]
      ensures selected == old(selected) - {id} && page == old(page)
    {
      var newRemoved := removedForToday + [id];
      removedForToday := newRemoved;
      removed := removed[today := newRemoved];
      if id in selected {
        selected := selected - {id};
      }
    }

    /** `handleRemoveAll` on the visible articles: the number removed, or the error shown. */
    method RemoveAll(visible: seq<Article>) returns (r: Result<nat>)
      modifies this
      ensures var ids := Ids(Target(visible, old(selected)));
        if |ids| == 0 then
          && r == Error("No articles to remove")
          && selected == old(selected) && removed == old(removed) && removedForToday == old(removedForToday)
        else
          && r == Ok(|ids|) && selected == {}
          && removedForToday == old(removedForToday) + ids
          && removed == old(removed)[today := removedForToday]
      ensures page == old(page)
    {
      var ids := Ids(Target(visible, selected));
      if |ids| == 0 {
        return Error("No articles to remove");
      }
      var newRemoved := removedForToday + ids;
      removedForToday := newRemoved;
      removed := removed[today := newRemoved];
      selected := {};
      return Ok(|ids|);
    }

    /** The Previous button: never below page 1. */
    method PreviousPage()
      modifies this
      ensures page == if old(page) - 1 > 1 then old(page) - 1 else 1
      ensures selected == old(selected) && removed == old(removed) && removedForToday == old(removedForToday)
    {
      page := if page - 1 > 1 then page - 1 else 1;
    }

    /** The Next button (disabled unless the server reports more pages). */
    method NextPage()
      modifies this
      ensures page == old(page) + 1
      ensures selected == old(selected) && removed == old(removed) && removedForToday == old(removedForToday)
    {
      page := page + 1;
    }
  }
}

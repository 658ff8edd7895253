/** The content page: the generated article rows, the title filter of the
    overview, and which panel is on screen. */
module Content {
  import opened Wrappers
  import opened Strings

  /** One article row (the float columns ctr and pos are not modelled). */
  datatype ContentRow = ContentRow(title: string, url: string, date: string, sessions: nat, score: nat)

  const RowCount := 12

  /** Row `i` of the generated table. */
  function Row(i: nat): ContentRow {
    ContentRow(
      "Artikel " + NatToString(i + 1),
      "/artikel-" + NatToString(i + 1),
      "2025-0" + NatToString(i % 9 + 1) + "-0" + NatToString(i % 8 + 1),
      500 + i * 50,
      50 + i)
  }

  function ContentRows(): (rows: seq<ContentRow>)
    ensures |rows| == RowCount
    ensures forall i :: 0 <= i < |rows| ==> rows[i] == Row(i)
  {
    seq(RowCount, i requires 0 <= i < RowCount => Row(i))
  }

  /** Row `i` is titled `Artikel {i+1}` and linked at `/artikel-{i+1}`. */
  lemma RowNumbering(i: nat)
    ensures Row(i).title[..8] == "Artikel " && IsDigits(Row(i).title[8..]) && DecimalValue(Row(i).title[8..]) == i + 1
    ensures Row(i).url[..9] == "/artikel-" && IsDigits(Row(i).url[9..]) && DecimalValue(Row(i).url[9..]) == i + 1
  {
    NumberedLabel("Artikel ", i + 1);
    NumberedLabel("/artikel-", i + 1);
  }

  /** No two rows share a title or a url. */
  lemma RowsDistinct(i: nat, j: nat)
    requires Row(i).title == Row(j).title || Row(i).url == Row(j).url
    ensures i == j
  {
    if Row(i).title == Row(j).title {
      NumberedLabelInjective("Artikel ", i + 1, j + 1);
    } else {
      NumberedLabelInjective("/artikel-", i + 1, j + 1);
    }
  }

  /** Every generated date is a ten-character `2025-0M-0D` with month 1 to 9
      and day 1 to 8. */
  lemma RowDateShape(i: nat)
    ensures |Row(i).date| == 10
    ensures Row(i).date[..6] == "2025-0" && Row(i).date[7..9] == "-0"
    ensures Row(i).date[6] == DigitChar(i % 9 + 1) && Row(i).date[9] == DigitChar(i % 8 + 1)
  {
    var m := NatToString(i % 9 + 1);
    var d := NatToString(i % 8 + 1);
    assert m == [DigitChar(i % 9 + 1)];
    assert d == [DigitChar(i % 8 + 1)];
    assert Row(i).date == "2025-0" + m + "-0" + d;
  }

  /** Later rows have more sessions and a higher score. */
  lemma RowsAscend(i: nat, j: nat)
    requires i < j
    ensures Row(i).sessions < Row(j).sessions && Row(i).score < Row(j).score
  {
  }

  /** The overview's filter test: the lower-cased title contains the lower-cased query. */
  predicate Matches(r: ContentRow, query: string) {
    Includes(Lower(r.title), Lower(query))
  }

  /** `rows.filter(...)`: the matching rows, in their original order. */
  function Filter(rows: seq<ContentRow>, query: string): (kept: seq<ContentRow>)
    ensures |kept| <= |rows|
    ensures forall r :: r in kept <==> r in rows && Matches(r, query)
    decreases |rows|
  {
    if |rows| == 0 then []
    else if Matches(rows[0], query) then [rows[0]] + Filter(rows[1..], query)
    else Filter(rows[1..], query)
  }

  /** Filtering a concatenation filters each part and keeps them in order;
      together with the one-row case this fixes the order of the result. */
  lemma {:induction false} FilterAppend(a: seq<ContentRow>, b: seq<ContentRow>, query: string)
    ensures Filter(a + b, query) == Filter(a, query) + Filter(b, query)
    decreases |a|
  {
    if |a| > 0 {
      assert (a + b)[0] == a[0];
      assert (a + b)[1..] == a[1..] + b;
      FilterAppend(a[1..], b, query);
    } else {
      assert a + b == b;
    }
  }

  /** When every row matches, the filter keeps the table as it is. */
  lemma {:induction false} FilterAllMatch(rows: seq<ContentRow>, query: string)
    requires forall i :: 0 <= i < |rows| ==> Matches(rows[i], query)
    ensures Filter(rows, query) == rows
    decreases |rows|
  {
    if |rows| > 0 {
      FilterAllMatch(rows[1..], query);
    }
  }

  /** Filtering twice by the same query is filtering once. */
  lemma {:induction false} FilterIdempotent(rows: seq<ContentRow>, query: string)
    ensures Filter(Filter(rows, query), query) == Filter(rows, query)
  {
    var kept := Filter(rows, query);
    forall i | 0 <= i < |kept| ensures Matches(kept[i], query) {
      assert kept[i] in kept;
    }
    FilterAllMatch(kept, query);
  }

  /** The empty query keeps all twelve rows. */
  lemma EmptyQueryKeepsAll()
    ensures Filter(ContentRows(), "") == ContentRows()
  {
    var rows := ContentRows();
    forall i | 0 <= i < |rows| ensures Matches(rows[i], "") {
      IncludesEmpty(Lower(rows[i].title));
    }
    FilterAllMatch(rows, "");
  }

  lemma LowerUpperChar(c: char)
    ensures LowerChar(UpperChar(c)) == LowerChar(c)
  {
  }

  /** The filter ignores ASCII case in the query. */
  lemma FilterIgnoresCase(rows: seq<ContentRow>, query: string)
    ensures Filter(rows, Upper(query)) == Filter(rows, query)
  {
    assert Lower(Upper(query)) == Lower(query) by {
      forall i | 0 <= i < |query| ensures Lower(Upper(query))[i] == Lower(query)[i] {
        LowerUpperChar(query[i]);
      }
    }
    FilterSameLower(rows, Upper(query), query);
  }

  lemma {:induction false} FilterSameLower(rows: seq<ContentRow>, q1: string, q2: string)
    requires Lower(q1) == Lower(q2)
    ensures Filter(rows, q1) == Filter(rows, q2)
    decreases |rows|
  {
    if |rows| > 0 {
      FilterSameLower(rows[1..], q1, q2);
    }
  }

  /** The two tabs of the page. */
  datatype ContentTab = Overzicht | Kalender

  /** What the page shows: the tab bar with the (filtered) overview or the
      calendar, or the detail of one row with its back button. */
  datatype Screen = OverviewScreen(rows: seq<ContentRow>) | CalendarScreen | DetailScreen(row: ContentRow)

  /** The page state; `query` belongs to the overview and starts empty each time it appears. */
  datatype ContentView = ContentView(detail: Option<ContentRow>, view: ContentTab, query: string)

  const InitialContent := ContentView(None, Overzicht, "")

  function ScreenOf(v: ContentView): (s: Screen)
    ensures s.DetailScreen? <==> v.detail.Some?
    ensures s.OverviewScreen? ==> s.rows == Filter(ContentRows(), v.query)
    ensures v.detail.None? && v.view == Overzicht ==> s.OverviewScreen?
    ensures v.detail.None? && v.view == Kalender ==> s == CalendarScreen
  {
    if v.detail.Some? then DetailScreen(v.detail.value)
    else if v.view == Overzicht then OverviewScreen(Filter(ContentRows(), v.query))
    else CalendarScreen
  }

  /** The tab bar is on screen iff no row is open. */
  predicate ShowsTabBar(v: ContentView) {
    v.detail.None?
  }

  function AfterOpen(v: ContentView, r: ContentRow): ContentView {
    v.(detail := Some(r), query := "")
  }

  function AfterBack(v: ContentView): ContentView {
    v.(detail := None)
  }

  function AfterSetView(v: ContentView, t: ContentTab): ContentView {
    v.(view := t, query := if t == v.view then v.query else "")
  }

  /** A tab click shows that tab; the overview keeps its query only when it
      stays mounted, that is when the same tab is clicked again. */
  lemma SetViewShowsTab(v: ContentView, t: ContentTab)
    requires v.detail.None?
    ensures t == Overzicht ==>
      ScreenOf(AfterSetView(v, t)) == OverviewScreen(Filter(ContentRows(), if t == v.view then v.query else ""))
    ensures t == Kalender ==> ScreenOf(AfterSetView(v, t)) == CalendarScreen
    ensures ShowsTabBar(AfterSetView(v, t))
  {
  }

  /** The page first shows the whole overview. */
  lemma InitialShowsAllRows()
    ensures ScreenOf(InitialContent) == OverviewScreen(ContentRows())
  {
    EmptyQueryKeepsAll();
  }

  /** Opening a row and going back returns to the same tab, with the filter
      cleared because the overview was unmounted meanwhile. */
  lemma OpenThenBack(v: ContentView, r: ContentRow)
    requires v.detail.None?
    ensures AfterBack(AfterOpen(v, r)) == v.(query := "")
    ensures ShowsTabBar(AfterBack(AfterOpen(v, r))) && !ShowsTabBar(AfterOpen(v, r))
    ensures ScreenOf(AfterOpen(v, r)) == DetailScreen(r)
  {
  }

  /** The content page. */
  class ContentPage {
    var detail: Option<ContentRow>
    var view: ContentTab
    var query: string

    constructor ()
      ensures View() == InitialContent
    {
      detail := None;
      view := Overzicht;
      query := "";
    }

    function View(): ContentView
      reads this
    {
      ContentView(detail, view, query)
    }

    /** Typing in the search field, which exists only while the overview is on screen. */
    method SetQuery(q: string)
      requires detail.None? && view == Overzicht
      modifies this
      ensures View() == old(View()).(query := q)
    {
      query := q;
    }

    /** Clicking a tab, which is on screen only while no row is open. */
    method SetView(t: ContentTab)
      requires detail.None?
      modifies this
      ensures View() == AfterSetView(old(View()), t)
    {
      if t != view {
        query := "";
      }
      view := t;
    }

    method Open(r: ContentRow)
      modifies this
      ensures View() == AfterOpen(old(View()), r)
    {
      detail := Some(r);
      query := "";
    }

    method Back()
      modifies this
      ensures View() == AfterBack(old(View()))
    {
      detail := None;
    }
  }
}

/** The keywords page: the generated keyword rows and the switch between
    the keyword database, one keyword's detail and the other tabs. */
module Keywords {
  import opened Wrappers
  import opened Strings

  datatype KwRow = KwRow(keyword: string, vol: nat, kd: nat, article: string, briefing: string)

  const RowCount := 15
  const NoValue := "—"

  /** Row `i` of the generated table. */
  function KeywordRow(i: nat): KwRow {
    KwRow(
      KeywordPrefix + NatToString(i + 1),
      200 + i * 20,
      10 + i,
      if i % 3 == 0 then "Artikel X" else NoValue,
      if i % 4 == 0 then "Gereed" else NoValue)
  }

  function KwRows(): (rows: seq<KwRow>)
    ensures |rows| == RowCount
    ensures forall i :: 0 <= i < |rows| ==> rows[i] == KeywordRow(i)
  {
    seq(RowCount, i requires 0 <= i < RowCount => KeywordRow(i))
  }

  const KeywordPrefix := "zoekwoord "

  /** Row `i` is the keyword `zoekwoord {i+1}`. */
  lemma KeywordNumbering(i: nat)
    ensures KeywordRow(i).keyword[..|KeywordPrefix|] == KeywordPrefix
    ensures IsDigits(KeywordRow(i).keyword[|KeywordPrefix|..])
    ensures DecimalValue(KeywordRow(i).keyword[|KeywordPrefix|..]) == i + 1
  {
    NumberedLabel(KeywordPrefix, i + 1);
  }

  /** No two rows share a keyword. */
  lemma KeywordsDistinct(i: nat, j: nat)
    requires KeywordRow(i).keyword == KeywordRow(j).keyword
    ensures i == j
  {
    NumberedLabelInjective(KeywordPrefix, i + 1, j + 1);
  }

  /** Every third row has an article and every fourth a briefing; the others show a dash. */
  lemma LinkedColumns(i: nat)
    ensures KeywordRow(i).article != NoValue <==> i % 3 == 0
    ensures KeywordRow(i).briefing != NoValue <==> i % 4 == 0
    ensures i % 12 == 0 ==> KeywordRow(i).article == "Artikel X" && KeywordRow(i).briefing == "Gereed"
  {
    assert "Artikel X"[0] != NoValue[0];
    assert "Gereed"[0] != NoValue[0];
  }

  datatype KwTab = Database | Detail | Kansen | Verkenner

  /** The page state: the current view and the open keyword, if any. */
  datatype KeywordsView = KeywordsView(view: KwTab, kwDetail: Option<KwRow>)

  const InitialKeywords := KeywordsView(Database, None)

  /** The database list is on screen iff the view is the database and no keyword is open. */
  predicate ShowsDatabase(v: KeywordsView) {
    v.view == Database && v.kwDetail.None?
  }

  /** The detail is on screen iff the view is the detail and a keyword is open. */
  predicate ShowsDetail(v: KeywordsView) {
    v.view == Detail && v.kwDetail.Some?
  }

  /** Clicking a keyword in the database. */
  function AfterOpen(v: KeywordsView, r: KwRow): (w: KeywordsView)
    ensures ShowsDetail(w) && w.kwDetail == Some(r)
  {
    KeywordsView(Detail, Some(r))
  }

  /** The detail's back button. */
  function AfterBack(v: KeywordsView): (w: KeywordsView)
    ensures ShowsDatabase(w)
  {
    KeywordsView(Database, None)
  }

  /** A tab button: only the view changes. The tab bar has no detail button. */
  function AfterTab(v: KeywordsView, t: KwTab): (w: KeywordsView)
    requires t != Detail
    ensures w.view == t && w.kwDetail == v.kwDetail
  {
    v.(view := t)
  }

  /** The page starts on the database list. */
  lemma StartsOnDatabase()
    ensures ShowsDatabase(InitialKeywords) && !ShowsDetail(InitialKeywords)
  {
  }

  /** Opening a keyword and going back shows the database list again. */
  lemma OpenThenBack(v: KeywordsView, r: KwRow)
    ensures AfterBack(AfterOpen(v, r)) == InitialKeywords
  {
  }

  /** A keyword left open behind another tab: neither the list nor the detail shows. */
  predicate Stranded(v: KeywordsView) {
    v.kwDetail.Some? && v.view != Detail
  }

  /** Leaving the detail through the tab bar strands the page, and returning
      to the database tab shows neither the list nor the detail. */
  lemma TabLeavesDetailStranded(r: KwRow, t: KwTab)
    requires t != Detail
    ensures Stranded(AfterTab(AfterOpen(InitialKeywords, r), t))
    ensures !ShowsDatabase(AfterTab(AfterOpen(InitialKeywords, r), Database))
    ensures !ShowsDetail(AfterTab(AfterOpen(InitialKeywords, r), Database))
  {
  }

  /** Once stranded, no sequence of tab clicks brings the list or the detail
      back (opening and going back need one of them on screen). */
  lemma {:induction false} StrandedForever(v: KeywordsView, tabs: seq<KwTab>)
    requires Stranded(v)
    requires forall i :: 0 <= i < |tabs| ==> tabs[i] != Detail
    ensures Stranded(AfterTabs(v, tabs))
    ensures !ShowsDatabase(AfterTabs(v, tabs)) && !ShowsDetail(AfterTabs(v, tabs))
    decreases |tabs|
  {
    if |tabs| > 0 {
      StrandedForever(AfterTab(v, tabs[0]), tabs[1..]);
    }
  }

  /** A run of tab clicks. */
  function AfterTabs(v: KeywordsView, tabs: seq<KwTab>): KeywordsView
    requires forall i :: 0 <= i < |tabs| ==> tabs[i] != Detail
    decreases |tabs|
  {
    if |tabs| == 0 then v else AfterTabs(AfterTab(v, tabs[0]), tabs[1..])
  }

  /** The detail view always has a keyword to show. */
  predicate DetailHasKeyword(v: KeywordsView) {
    v.view == Detail ==> v.kwDetail.Some?
  }

  /** Every step keeps the detail view backed by an open keyword. */
  lemma StepsKeepDetailBacked(v: KeywordsView, r: KwRow, t: KwTab)
    requires DetailHasKeyword(v) && t != Detail
    ensures DetailHasKeyword(AfterOpen(v, r)) && DetailHasKeyword(AfterBack(v)) && DetailHasKeyword(AfterTab(v, t))
  {
  }

  /** The keywords page. */
  class KeywordsPage {
    var view: KwTab
    var kwDetail: Option<KwRow>

    constructor ()
      ensures View() == InitialKeywords
    {
      view := Database;
      kwDetail := None;
    }

    function View(): KeywordsView
      reads this
    {
      KeywordsView(view, kwDetail)
    }

    method Open(r: KwRow)
      modifies this
      ensures View() == AfterOpen(old(View()), r)
    {
      kwDetail := Some(r);
      view := Detail;
    }

    method Back()
      modifies this
      ensures View() == AfterBack(old(View()))
    {
      kwDetail := None;
      view := Database;
    }

    method SelectTab(t: KwTab)
      requires t != Detail
      modifies this
      ensures View() == AfterTab(old(View()), t)
    {
      view := t;
    }
  }
}

/** The briefings page: its table of briefings, a new row prepended per
    request, and the delayed completion that marks the first row ready. */
module Briefings {
  datatype Briefing = Briefing(kw: string, kind: string, artikel: string, date: string, status: string)

  /** The two buttons: a new briefing or an optimisation briefing. */
  datatype Request = NewBriefing | Optimisation

  const Ready := "Gereed"
  const Generating := "Genereren..."

  const InitialBriefings: seq<Briefing> := [
    Briefing("warmtepomp subsidie 2025", "Nieuwe Briefing", "—", "2025-08-01", Ready),
    Briefing("hybride warmtepomp kosten", "Optimalisatie", "Hybride warmtepomp kosten", "2025-08-06", Ready)
  ]

  /** The row `add` creates; `date` stands for today's date, which the page reads from the clock. */
  function NewRow(request: Request, date: string): (b: Briefing)
    ensures b.kw == "[focus zoekwoord]" && b.status == Generating && b.date == date
    ensures request == Optimisation ==> b.kind == "Optimalisatie" && b.artikel == "Bestaand artikel"
    ensures request == NewBriefing ==> b.kind == "Nieuwe Briefing" && b.artikel == "—"
  {
    if request == Optimisation then Briefing("[focus zoekwoord]", "Optimalisatie", "Bestaand artikel", date, Generating)
    else Briefing("[focus zoekwoord]", "Nieuwe Briefing", "—", date, Generating)
  }

  /** `add`: the new row goes in front of the existing ones. */
  function AfterAdd(rows: seq<Briefing>, request: Request, date: string): (r: seq<Briefing>)
    ensures |r| == |rows| + 1 && r[0] == NewRow(request, date) && r[1..] == rows
  {
    [NewRow(request, date)] + rows
  }

  /** The delayed completion: whatever row is first at that moment becomes ready. */
  function AfterComplete(rows: seq<Briefing>): (r: seq<Briefing>)
    ensures |r| == |rows|
    ensures |rows| > 0 ==> r[0] == rows[0].(status := Ready)
    ensures forall i :: 1 <= i < |rows| ==> r[i] == rows[i]
  {
    seq(|rows|, i requires 0 <= i < |rows| => if i == 0 then rows[0].(status := Ready) else rows[i])
  }

  /** One request followed by its completion leaves a ready row in front of the old ones. */
  lemma AddThenComplete(rows: seq<Briefing>, request: Request, date: string)
    ensures AfterComplete(AfterAdd(rows, request, date)) == [NewRow(request, date).(status := Ready)] + rows
  {
    var r := AfterComplete(AfterAdd(rows, request, date));
    assert r[1..] == rows;
  }

  /** Completing twice is completing once: a second timer on the same first row does nothing. */
  lemma CompleteIdempotent(rows: seq<Briefing>)
    ensures AfterComplete(AfterComplete(rows)) == AfterComplete(rows)
  {
  }

  /** Two quick requests: both timers mark the newest row, and the older new
      row is left generating for good. */
  lemma TwoRequestsLeaveOneGenerating(rows: seq<Briefing>, r1: Request, r2: Request, d1: string, d2: string)
    ensures AfterComplete(AfterComplete(AfterAdd(AfterAdd(rows, r1, d1), r2, d2)))[1].status == Generating
  {
    var two := AfterAdd(AfterAdd(rows, r1, d1), r2, d2);
    assert two[1] == NewRow(r1, d1);
    CompleteIdempotent(two);
  }

  /** The rows the page starts with are both ready. */
  lemma InitiallyAllReady()
    ensures forall i :: 0 <= i < |InitialBriefings| ==> InitialBriefings[i].status == Ready
  {
  }

  /** The briefings page; `pending` counts the completions scheduled but not yet run. */
  class BriefingsPage {
    var rows: seq<Briefing>
    var pending: nat

    constructor ()
      ensures rows == InitialBriefings && pending == 0
    {
      rows := InitialBriefings;
      pending := 0;
    }

    method Add(request: Request, date: string)
      modifies this
      ensures rows == AfterAdd(old(rows), request, date) && pending == old(pending) + 1
    {
      rows := [NewRow(request, date)] + rows;
      pending := pending + 1;
    }

    /** One scheduled completion runs. */
    method Complete()
      requires pending > 0
      modifies this
      ensures rows == AfterComplete(old(rows)) && pending == old(pending) - 1
    {
      if |rows| > 0 {
        rows := [rows[0].(status := Ready)] + rows[1..];
      }
      pending := pending - 1;
    }
  }
}

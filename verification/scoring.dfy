/** The health score: 100 minus the summed severity penalties of all violations,
    clamped at 0 (views/Cybersecurity.tsx:129-133). */
module Scoring {
  import opened Seqs
  import opened Policies

  function Penalty(s: Severity): nat
  {
    if s == Severity.Critical then 10 else if s == Severity.High then 5 else 2
  }

  /** A more severe violation costs strictly more. */
  lemma PenaltyGrowsWithSeverity()
    ensures Penalty(Warning) < Penalty(Severity.High) < Penalty(Severity.Critical)
  {
  }

  /** The `reduce` over the list: a left fold, so the last violation is added last.
      Every violation costs at least 2. */
  function TotalPenalty(vs: seq<Violation>): (r: nat)
    ensures r >= 2 * |vs|
  {
    if |vs| == 0 then 0 else TotalPenalty(vs[..|vs| - 1]) + Penalty(vs[|vs| - 1].severity)
  }

  /** `Math.max(0, 100 - penalty)`: always within [0, 100], and 100 exactly when there
      is nothing to report. */
  function SecurityScore(vs: seq<Violation>): (r: nat)
    ensures r <= 100
    ensures r == 100 <==> |vs| == 0
  {
    var penalty := TotalPenalty(vs);
    if 100 - penalty < 0 then 0 else 100 - penalty
  }

  function HasSeverity(s: Severity): Violation -> bool
  {
    (v: Violation) => v.severity == s
  }

  /** How many violations of the list carry severity `s`. */
  function CountOf(vs: seq<Violation>, s: Severity): nat
  {
    |Filter(vs, HasSeverity(s))|
  }

  /** The penalty is 10 per Critical, 5 per High and 2 per Warning violation, however
      they are ordered and whether or not they share a cell. */
  lemma {:induction false} TotalPenaltyByCounts(vs: seq<Violation>)
    ensures TotalPenalty(vs) ==
      10 * CountOf(vs, Severity.Critical) + 5 * CountOf(vs, Severity.High) + 2 * CountOf(vs, Warning)
    decreases |vs|
  {
    if |vs| > 0 {
      var init, last := vs[..|vs| - 1], vs[|vs| - 1];
      assert vs == init + [last];
      TotalPenaltyByCounts(init);
      FilterConcat(init, [last], HasSeverity(Severity.Critical));
      FilterConcat(init, [last], HasSeverity(Severity.High));
      FilterConcat(init, [last], HasSeverity(Warning));
    }
  }

  lemma {:induction false} TotalPenaltyConcat(vs: seq<Violation>, ws: seq<Violation>)
    ensures TotalPenalty(vs + ws) == TotalPenalty(vs) + TotalPenalty(ws)
    decreases |ws|
  {
    if |ws| > 0 {
      var init := ws[..|ws| - 1];
      assert (vs + ws)[..|vs + ws| - 1] == vs + init;
      TotalPenaltyConcat(vs, init);
    } else {
      assert vs + ws == vs;
    }
  }

  /** Appending one violation lowers the score by its penalty, stopping at 0. */
  lemma ScoreAppend(vs: seq<Violation>, v: Violation)
    ensures SecurityScore(vs + [v]) ==
      if SecurityScore(vs) < Penalty(v.severity) then 0 else SecurityScore(vs) - Penalty(v.severity)
  {
    TotalPenaltyConcat(vs, [v]);
    assert TotalPenalty([v]) == TotalPenalty([]) + Penalty(v.severity);
  }

  /** Reporting more violations never raises the score. */
  lemma ScoreNeverRisesOnAppend(vs: seq<Violation>, ws: seq<Violation>)
    ensures SecurityScore(vs + ws) <= SecurityScore(vs)
  {
    TotalPenaltyConcat(vs, ws);
  }

  /** A more severe extra violation costs at least as much as a milder one. */
  lemma ScoreMonotoneInSeverity(vs: seq<Violation>, mild: Violation, severe: Violation)
    requires Penalty(mild.severity) <= Penalty(severe.severity)
    ensures SecurityScore(vs + [severe]) <= SecurityScore(vs + [mild])
  {
    ScoreAppend(vs, mild);
    ScoreAppend(vs, severe);
  }
}

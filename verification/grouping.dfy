/** `violationMap`: the violation list grouped by matrix cell, each group in list order
    (views/Cybersecurity.tsx:119-127). Keys are (asset id, actor id) pairs. */
module Grouping {
  import opened Seqs
  import opened Policies

  type Groups = map<Cell, seq<Violation>>

  function InCell(c: Cell): Violation -> bool
  {
    (v: Violation) => CellOf(v) == c
  }

  function GroupOf(g: Groups, c: Cell): seq<Violation>
  {
    if c in g then g[c] else []
  }

  /** One step of the loop: create the cell's group if missing, then append. */
  function Push(g: Groups, v: Violation): Groups
  {
    g[CellOf(v) := GroupOf(g, CellOf(v)) + [v]]
  }

  /** The loop from a given start: each cell's group is extended by that cell's
      violations of `vs`, in order, and the cells of `vs` gain a group. */
  function GroupInto(g: Groups, vs: seq<Violation>): (r: Groups)
    ensures r.Keys == g.Keys + Cells(vs)
    ensures forall c :: GroupOf(r, c) == GroupOf(g, c) + Filter(vs, InCell(c))
    decreases |vs|
  {
    if |vs| == 0 then g
    else
      var r := GroupInto(Push(g, vs[0]), vs[1..]);
      PushThenRest(g, vs, r);
      r
  }

  /** The cells named by a list of violations. */
  function Cells(vs: seq<Violation>): set<Cell>
  {
    set v | v in vs :: CellOf(v)
  }

  lemma CellsCons(vs: seq<Violation>)
    requires |vs| > 0
    ensures Cells(vs) == {CellOf(vs[0])} + Cells(vs[1..])
  {
    assert vs == [vs[0]] + vs[1..];
  }

  lemma FilterCons(vs: seq<Violation>, c: Cell)
    requires |vs| > 0
    ensures Filter(vs, InCell(c)) == (if CellOf(vs[0]) == c then [vs[0]] else []) + Filter(vs[1..], InCell(c))
  {
  }

  /** One loop step followed by the rest of the loop groups the whole list. */
  lemma PushThenRest(g: Groups, vs: seq<Violation>, r: Groups)
    requires |vs| > 0
    requires r.Keys == Push(g, vs[0]).Keys + Cells(vs[1..])
    requires forall c :: GroupOf(r, c) == GroupOf(Push(g, vs[0]), c) + Filter(vs[1..], InCell(c))
    ensures r.Keys == g.Keys + Cells(vs)
    ensures forall c :: GroupOf(r, c) == GroupOf(g, c) + Filter(vs, InCell(c))
  {
    KeysStep(g, vs, r);
    forall c
      ensures GroupOf(r, c) == GroupOf(g, c) + Filter(vs, InCell(c))
    {
      PushThenRestAt(g, vs, r, c);
    }
  }

  lemma KeysStep(g: Groups, vs: seq<Violation>, r: Groups)
    requires |vs| > 0
    requires r.Keys == Push(g, vs[0]).Keys + Cells(vs[1..])
    ensures r.Keys == g.Keys + Cells(vs)
  {
    CellsCons(vs);
    assert Push(g, vs[0]).Keys == g.Keys + {CellOf(vs[0])};
  }

  lemma PushThenRestAt(g: Groups, vs: seq<Violation>, r: Groups, c: Cell)
    requires |vs| > 0
    requires GroupOf(r, c) == GroupOf(Push(g, vs[0]), c) + Filter(vs[1..], InCell(c))
    ensures GroupOf(r, c) == GroupOf(g, c) + Filter(vs, InCell(c))
  {
    var here, rest := (if CellOf(vs[0]) == c then [vs[0]] else []), Filter(vs[1..], InCell(c));
    PushAppends(g, vs[0], c);
    FilterCons(vs, c);
    AppendAssociative(GroupOf(g, c), here, rest);
  }

  lemma AppendAssociative(a: seq<Violation>, b: seq<Violation>, c: seq<Violation>)
    ensures (a + b) + c == a + (b + c)
  {
  }

  /** A loop step appends the violation to its own cell's group only. */
  lemma PushAppends(g: Groups, v: Violation, c: Cell)
    ensures GroupOf(Push(g, v), c) == GroupOf(g, c) + (if CellOf(v) == c then [v] else [])
  {
  }

  /** Every cell with a violation has a group holding exactly that cell's violations in
      list order; no other cell has a group. */
  function ViolationMap(vs: seq<Violation>): (r: Groups)
    ensures r.Keys == Cells(vs)
    ensures forall c :: c in r ==> r[c] == Filter(vs, InCell(c)) && |r[c]| > 0
  {
    var r := GroupInto(map[], vs);
    forall c | c in r
      ensures r[c] == Filter(vs, InCell(c)) && |r[c]| > 0
    {
      assert GroupOf(r, c) == Filter(vs, InCell(c));
      var v :| v in vs && CellOf(v) == c;
      assert InCell(c)(v);
    }
    r
  }
}

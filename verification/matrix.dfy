/** The sparse permission matrix: asset id -> actor id -> level, where a missing entry
    means `Denied` (views/Cybersecurity.tsx:21-29, 75, 161-176). */
module Matrix {
  import opened Types

  type Matrix = map<string, map<string, Permission>>

  /** The raw entry `matrix[assetId]?.[actorId]`, which may be missing. */
  function Entry(m: Matrix, assetId: string, actorId: string): Option<Permission>
  {
    if assetId in m && actorId in m[assetId] then Some(m[assetId][actorId]) else None
  }

  /** The effective level `matrix[assetId]?.[actorId] || 'Denied'`; every level is a
      non-empty string, so only a missing entry falls back to `Denied`. */
  function Lookup(m: Matrix, assetId: string, actorId: string): (r: Permission)
    ensures r == Denied <==> Entry(m, assetId, actorId) in {None, Some(Denied)}
    ensures r != Denied ==> Entry(m, assetId, actorId) == Some(r)
  {
    match Entry(m, assetId, actorId)
    case None => Denied
    case Some(p) => p
  }

  /** Comparing the raw entry against `Admin` agrees with comparing the defaulted one. */
  lemma RawAdminAgreesWithLookup(m: Matrix, assetId: string, actorId: string)
    ensures Entry(m, assetId, actorId) == Some(Admin) <==> Lookup(m, assetId, actorId) == Admin
  {
  }

  /** `{ ...m, [assetId]: { ...(m[assetId] || {}), [actorId]: p } }`. */
  function SetCell(m: Matrix, assetId: string, actorId: string, p: Permission): (r: Matrix)
    ensures Entry(r, assetId, actorId) == Some(p)
    ensures forall x, y :: x != assetId || y != actorId ==> Entry(r, x, y) == Entry(m, x, y)
    ensures r.Keys == m.Keys + {assetId}
  {
    var row := if assetId in m then m[assetId] else map[];
    m[assetId := row[actorId := p]]
  }

  /** A second write to the same cell replaces the first. */
  lemma SetCellTwice(m: Matrix, assetId: string, actorId: string, p: Permission, q: Permission)
    ensures SetCell(SetCell(m, assetId, actorId, p), assetId, actorId, q) == SetCell(m, assetId, actorId, q)
  {
    var r1 := SetCell(SetCell(m, assetId, actorId, p), assetId, actorId, q);
    var r2 := SetCell(m, assetId, actorId, q);
    assert r1[assetId] == r2[assetId];
  }

  /** Two matrices that resolve every cell to the same level. */
  ghost predicate SameLevels(m1: Matrix, m2: Matrix)
  {
    forall x, y :: Lookup(m1, x, y) == Lookup(m2, x, y)
  }

  /** Writing a cell's own level back changes no level, even where the entry was
      missing. */
  lemma SetCellCurrentLevels(m: Matrix, assetId: string, actorId: string)
    ensures SameLevels(SetCell(m, assetId, actorId, Lookup(m, assetId, actorId)), m)
  {
  }

  /** Writing the level a cell already holds leaves the matrix unchanged. */
  lemma {:induction false} SetCellToCurrent(m: Matrix, assetId: string, actorId: string)
    requires Entry(m, assetId, actorId).Some?
    ensures SetCell(m, assetId, actorId, Entry(m, assetId, actorId).value) == m
  {
    var r := SetCell(m, assetId, actorId, Entry(m, assetId, actorId).value);
    assert r[assetId] == m[assetId];
  }

  /** `PERMISSION_ORDER`, the ring the matrix cells are cycled through. */
  const PermissionOrder: seq<Permission> := [Denied, Read, Write, Admin]

  /** `Array.prototype.indexOf`: the first position holding `p`, or -1. */
  function IndexOf(xs: seq<Permission>, p: Permission): (i: int)
    ensures -1 <= i < |xs|
    ensures i == -1 <==> p !in xs
    ensures 0 <= i ==> xs[i] == p && p !in xs[..i]
  {
    if |xs| == 0 then -1
    else if xs[0] == p then 0
    else
      var k := IndexOf(xs[1..], p);
      assert xs == [xs[0]] + xs[1..];
      if k == -1 then -1
      else
        assert xs[..k + 1] == [xs[0]] + xs[1..][..k];
        k + 1
  }

  /** The level one step further round the ring (views/Cybersecurity.tsx:174). Every
      level occurs in the ring, so the index is never -1. */
  function Next(p: Permission): (r: Permission)
    ensures Rank(r) == (Rank(p) + 1) % 4
  {
    var i := IndexOf(PermissionOrder, p);
    assert p in PermissionOrder;
    assert PermissionOrder[0] == Denied && PermissionOrder[1] == Read;
    assert PermissionOrder[2] == Write && PermissionOrder[3] == Admin;
    assert i == Rank(p);
    PermissionOrder[(i + 1) % |PermissionOrder|]
  }

  /** Position of a level in the total order `Denied < Read < Write < Admin`. */
  function Rank(p: Permission): nat
  {
    match p
    case Denied => 0
    case Read => 1
    case Write => 2
    case Admin => 3
  }

  /** The ring spelled out: `Denied -> Read -> Write -> Admin -> Denied`. */
  lemma NextRing()
    ensures Next(Denied) == Read && Next(Read) == Write
    ensures Next(Write) == Admin && Next(Admin) == Denied
  {
    assert PermissionOrder[0] == Denied && PermissionOrder[1] == Read;
    assert PermissionOrder[2] == Write && PermissionOrder[3] == Admin;
  }

  /** Four steps round the ring return to the start. */
  lemma NextFourTimes(p: Permission)
    ensures Next(Next(Next(Next(p)))) == p
  {
    NextRing();
  }
}

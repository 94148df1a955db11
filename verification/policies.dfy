/** The policy evaluation: four rules P1-P4 checked over every asset x actor cell of the
    matrix, producing an ordered violation list (views/Cybersecurity.tsx:38-117). */
module Policies {
  import opened Types
  import opened Matrix
  import opened Seqs

  datatype PolicyId = P1 | P2 | P3 | P4

  datatype Severity = Critical | High | Warning

  /** One rule firing on one cell. The human-readable message is not modelled. */
  datatype Violation = Violation(
    assetId: string,
    actorId: string,
    policy: PolicyId,
    severity: Severity,
    recommendation: Permission)

  /** The matrix cell a violation names: (asset id, actor id). */
  type Cell = (string, string)

  function CellOf(v: Violation): Cell
  {
    (v.assetId, v.actorId)
  }

  /** The actor that P4 never reports, however many admins an asset has. */
  const PrimaryAdminId: string := "u1"

  // ---------------------------------------------------------------------------
  // The policy table: what each rule demands, stated once, independently of the
  // order in which the evaluator below checks and reports the rules.
  // ---------------------------------------------------------------------------

  function SeverityOf(p: PolicyId): Severity
  {
    match p
    case P1 => Severity.Critical
    case P2 => Severity.High
    case P3 => Severity.High
    case P4 => Warning
  }

  function RecommendationOf(p: PolicyId): Permission
  {
    match p
    case P1 => Denied
    case P2 => Read
    case P3 => Write
    case P4 => Write
  }

  /** The order in which the rules are reported for one cell. */
  function Order(p: PolicyId): nat
  {
    match p
    case P1 => 1
    case P2 => 2
    case P3 => 3
    case P4 => 4
  }

  predicate Mutating(perm: Permission)
  {
    perm == Write || perm == Admin
  }

  /** The part of rule `p` that looks at one cell alone, given the cell's level. */
  predicate CellRule(p: PolicyId, asset: Asset, actor: Actor, perm: Permission)
  {
    match p
    case P1 => asset.category == Secret && Mutating(perm) && actor.role != Engineering
    case P2 => (actor.role == Audit || actor.role == Compliance) && Mutating(perm)
    case P3 => asset.category == Model && perm == Admin && actor.role != Engineering
    case P4 => perm == Admin && actor.id != PrimaryAdminId
  }

  predicate HoldsAdmin(asset: Asset, actor: Actor, m: Matrix)
  {
    Lookup(m, asset.id, actor.id) == Admin
  }

  /** Two different actors of the list hold `Admin` on the asset. */
  ghost predicate MultipleAdmins(asset: Asset, actors: seq<Actor>, m: Matrix)
  {
    exists j, k :: 0 <= j < k < |actors| && HoldsAdmin(asset, actors[j], m) && HoldsAdmin(asset, actors[k], m)
  }

  /** Rule `p` fires on the cell (asset, actor): its cell condition holds and, for P4,
      the asset is Critical and has more than one admin. */
  ghost predicate Fires(p: PolicyId, asset: Asset, actor: Actor, actors: seq<Actor>, m: Matrix)
  {
    && CellRule(p, asset, actor, Lookup(m, asset.id, actor.id))
    && (p == P4 ==> asset.riskLevel == RiskLevel.Critical && MultipleAdmins(asset, actors, m))
  }

  /** The violation rule `p` reports for the cell, with the table's severity and fix. */
  function Expected(asset: Asset, actor: Actor, p: PolicyId): Violation
  {
    Violation(asset.id, actor.id, p, SeverityOf(p), RecommendationOf(p))
  }

  // ---------------------------------------------------------------------------
  // The evaluator, branch for branch as the component computes it.
  // ---------------------------------------------------------------------------

  /** P1, P2 and P3 for one cell, in that order; several may fire and all are kept. */
  function CellViolations(asset: Asset, actor: Actor, m: Matrix): (r: seq<Violation>)
    ensures forall v {:trigger v in r} :: v in r <==>
      v.policy != P4 && v == Expected(asset, actor, v.policy)
      && CellRule(v.policy, asset, actor, Lookup(m, asset.id, actor.id))
    ensures forall x, y :: 0 <= x < y < |r| ==> Order(r[x].policy) < Order(r[y].policy)
  {
    var perm := Lookup(m, asset.id, actor.id);
    (if asset.category == Secret && (perm == Write || perm == Admin) && actor.role != "Engineering"
     then [Violation(asset.id, actor.id, P1, Severity.Critical, Denied)] else [])
    + (if (actor.role == "Audit" || actor.role == "Compliance") && (perm == Write || perm == Admin)
       then [Violation(asset.id, actor.id, P2, Severity.High, Read)] else [])
    + (if asset.category == Model && perm == Admin && actor.role != "Engineering"
       then [Violation(asset.id, actor.id, P3, Severity.High, Write)] else [])
  }

  /** The first pass over the actors of one asset: every actor's P1-P3 violations. */
  function ActorsPass(asset: Asset, actors: seq<Actor>, m: Matrix): (r: seq<Violation>)
    ensures forall v {:trigger v in r} :: v in r ==> v.assetId == asset.id && v.policy != P4
  {
    if |actors| == 0 then []
    else CellViolations(asset, actors[0], m) + ActorsPass(asset, actors[1..], m)
  }

  /** `adminCount`: how many actors of the list hold `Admin` on the asset. */
  function AdminCount(asset: Asset, actors: seq<Actor>, m: Matrix): nat
  {
    if |actors| == 0 then 0
    else (if Lookup(m, asset.id, actors[0].id) == Admin then 1 else 0) + AdminCount(asset, actors[1..], m)
  }

  /** The second pass, run only for a Critical asset with more than one admin: one P4
      warning for each actor whose raw entry is `Admin`, except the primary admin. */
  function AdminPass(asset: Asset, actors: seq<Actor>, m: Matrix): (r: seq<Violation>)
    ensures forall v {:trigger v in r} :: v in r ==> v.assetId == asset.id && v.policy == P4
  {
    if |actors| == 0 then []
    else
      (if Entry(m, asset.id, actors[0].id) == Some(Admin) && actors[0].id != PrimaryAdminId
       then [Violation(asset.id, actors[0].id, P4, Warning, Write)] else [])
      + AdminPass(asset, actors[1..], m)
  }

  /** All violations of one asset: the P4 warnings come after every P1-P3 entry. */
  function AssetViolations(asset: Asset, actors: seq<Actor>, m: Matrix): (r: seq<Violation>)
    ensures forall v {:trigger v in r} :: v in r ==> v.assetId == asset.id
    ensures forall x, y :: 0 <= x < y < |r| && r[x].policy == P4 ==> r[y].policy == P4
  {
    var first := ActorsPass(asset, actors, m);
    var second := if asset.riskLevel == RiskLevel.Critical && AdminCount(asset, actors, m) > 1
                  then AdminPass(asset, actors, m) else [];
    assert forall x :: 0 <= x < |first| ==> first[x] in first;
    assert forall x :: 0 <= x < |second| ==> second[x] in second;
    first + second
  }

  /** `violations`: every asset in list order, each contributing its block. */
  function Violations(assets: seq<Asset>, actors: seq<Actor>, m: Matrix): (r: seq<Violation>)
    ensures forall v {:trigger v in r} :: v in r ==> exists i :: 0 <= i < |assets| && assets[i].id == v.assetId
  {
    if |assets| == 0 then []
    else
      var first, rest := AssetViolations(assets[0], actors, m), Violations(assets[1..], actors, m);
      assert forall v :: v in rest ==> exists i :: 1 <= i < |assets| && assets[i].id == v.assetId;
      first + rest
  }

  // ---------------------------------------------------------------------------
  // The admin count
  // ---------------------------------------------------------------------------

  lemma {:induction false} AdminCountPositive(asset: Asset, actors: seq<Actor>, m: Matrix)
    ensures AdminCount(asset, actors, m) > 0 <==>
      exists j :: 0 <= j < |actors| && HoldsAdmin(asset, actors[j], m)
    decreases |actors|
  {
    if |actors| > 0 {
      AdminCountPositive(asset, actors[1..], m);
      if exists j :: 0 <= j < |actors| && HoldsAdmin(asset, actors[j], m) {
        var j :| 0 <= j < |actors| && HoldsAdmin(asset, actors[j], m);
        if j > 0 {
          assert actors[1..][j - 1] == actors[j];
        }
      }
      if exists j :: 0 <= j < |actors| - 1 && HoldsAdmin(asset, actors[1..][j], m) {
        var j :| 0 <= j < |actors| - 1 && HoldsAdmin(asset, actors[1..][j], m);
        assert actors[j + 1] == actors[1..][j];
      }
    }
  }

  /** The code's threshold `adminCount > 1` means exactly "two different actors hold
      Admin". */
  /** The counter equals the number of listed actors holding `Admin` on the asset. */
  lemma {:induction false} AdminCountCountsAdmins(asset: Asset, actors: seq<Actor>, m: Matrix)
    ensures AdminCount(asset, actors, m) == |Filter(actors, (a: Actor) => HoldsAdmin(asset, a, m))|
    decreases |actors|
  {
    if |actors| > 0 {
      AdminCountCountsAdmins(asset, actors[1..], m);
    }
  }

  lemma {:induction false} AdminCountAboveOne(asset: Asset, actors: seq<Actor>, m: Matrix)
    ensures AdminCount(asset, actors, m) > 1 <==> MultipleAdmins(asset, actors, m)
    decreases |actors|
  {
    if |actors| > 0 {
      var rest := actors[1..];
      AdminCountAboveOne(asset, rest, m);
      AdminCountPositive(asset, rest, m);
      if MultipleAdmins(asset, actors, m) {
        var j, k :| 0 <= j < k < |actors| && HoldsAdmin(asset, actors[j], m) && HoldsAdmin(asset, actors[k], m);
        assert rest[k - 1] == actors[k];
        if j > 0 {
          assert rest[j - 1] == actors[j];
          assert MultipleAdmins(asset, rest, m);
        }
      }
      if MultipleAdmins(asset, rest, m) {
        var j, k :| 0 <= j < k < |rest| && HoldsAdmin(asset, rest[j], m) && HoldsAdmin(asset, rest[k], m);
        assert actors[j + 1] == rest[j] && actors[k + 1] == rest[k];
      }
      if HoldsAdmin(asset, actors[0], m) && AdminCount(asset, rest, m) > 0 {
        var k :| 0 <= k < |rest| && HoldsAdmin(asset, rest[k], m);
        assert actors[k + 1] == rest[k];
      }
    }
  }

  // ---------------------------------------------------------------------------
  // What the list contains: exactly the table's violations for the fired rules
  // ---------------------------------------------------------------------------

  lemma {:induction false} ActorsPassMembership(asset: Asset, actors: seq<Actor>, m: Matrix, v: Violation)
    ensures v in ActorsPass(asset, actors, m) <==>
      exists j :: 0 <= j < |actors| && v in CellViolations(asset, actors[j], m)
    decreases |actors|
  {
    if |actors| > 0 {
      var rest := actors[1..];
      ActorsPassMembership(asset, rest, m, v);
      if exists j :: 0 <= j < |rest| && v in CellViolations(asset, rest[j], m) {
        var j :| 0 <= j < |rest| && v in CellViolations(asset, rest[j], m);
        assert actors[j + 1] == rest[j];
      }
      if exists j :: 0 <= j < |actors| && v in CellViolations(asset, actors[j], m) {
        var j :| 0 <= j < |actors| && v in CellViolations(asset, actors[j], m);
        if j > 0 {
          assert rest[j - 1] == actors[j];
        }
      }
    }
  }

  /** The second pass reports the table's P4 warning for exactly the actors whose cell
      satisfies P4's cell condition; comparing the raw entry against `Admin` agrees
      with the defaulted lookup. */
  lemma {:induction false} AdminPassMembership(asset: Asset, actors: seq<Actor>, m: Matrix, v: Violation)
    ensures v in AdminPass(asset, actors, m) <==>
      exists j :: 0 <= j < |actors| && v == Expected(asset, actors[j], P4)
        && CellRule(P4, asset, actors[j], Lookup(m, asset.id, actors[j].id))
    decreases |actors|
  {
    if |actors| > 0 {
      var rest := actors[1..];
      AdminPassMembership(asset, rest, m, v);
      RawAdminAgreesWithLookup(m, asset.id, actors[0].id);
      if exists j :: (0 <= j < |rest| && v == Expected(asset, rest[j], P4)
                      && CellRule(P4, asset, rest[j], Lookup(m, asset.id, rest[j].id))) {
        var j :| 0 <= j < |rest| && v == Expected(asset, rest[j], P4)
          && CellRule(P4, asset, rest[j], Lookup(m, asset.id, rest[j].id));
        assert actors[j + 1] == rest[j];
      }
      if exists j :: (0 <= j < |actors| && v == Expected(asset, actors[j], P4)
                      && CellRule(P4, asset, actors[j], Lookup(m, asset.id, actors[j].id))) {
        var j :| 0 <= j < |actors| && v == Expected(asset, actors[j], P4)
          && CellRule(P4, asset, actors[j], Lookup(m, asset.id, actors[j].id));
        if j > 0 {
          assert rest[j - 1] == actors[j];
        }
      }
    }
  }

  /** One asset's block holds exactly the table's violation for every rule that fires
      on one of its cells. */
  lemma AssetViolationsMembership(asset: Asset, actors: seq<Actor>, m: Matrix, v: Violation)
    ensures v in AssetViolations(asset, actors, m) <==>
      exists j :: 0 <= j < |actors| && v == Expected(asset, actors[j], v.policy)
        && Fires(v.policy, asset, actors[j], actors, m)
  {
    ActorsPassMembership(asset, actors, m, v);
    AdminPassMembership(asset, actors, m, v);
    AdminCountAboveOne(asset, actors, m);
  }

  /** Soundness and completeness of the evaluation against the policy table: a
      violation is reported iff its rule fires on some listed (asset, actor) cell, and
      it then carries the table's severity and recommendation. */
  lemma {:induction false} ViolationsMembership(assets: seq<Asset>, actors: seq<Actor>, m: Matrix, v: Violation)
    ensures v in Violations(assets, actors, m) <==>
      exists i, j :: 0 <= i < |assets| && 0 <= j < |actors|
        && v == Expected(assets[i], actors[j], v.policy)
        && Fires(v.policy, assets[i], actors[j], actors, m)
    decreases |assets|
  {
    if |assets| > 0 {
      var rest := assets[1..];
      ViolationsMembership(rest, actors, m, v);
      AssetViolationsMembership(assets[0], actors, m, v);
      if exists i, j :: (0 <= i < |rest| && 0 <= j < |actors|
                         && v == Expected(rest[i], actors[j], v.policy) && Fires(v.policy, rest[i], actors[j], actors, m)) {
        var i, j :| 0 <= i < |rest| && 0 <= j < |actors|
          && v == Expected(rest[i], actors[j], v.policy) && Fires(v.policy, rest[i], actors[j], actors, m);
        assert assets[i + 1] == rest[i];
      }
      if exists i, j :: (0 <= i < |assets| && 0 <= j < |actors|
                         && v == Expected(assets[i], actors[j], v.policy) && Fires(v.policy, assets[i], actors[j], actors, m)) {
        var i, j :| 0 <= i < |assets| && 0 <= j < |actors|
          && v == Expected(assets[i], actors[j], v.policy) && Fires(v.policy, assets[i], actors[j], actors, m);
        if i > 0 {
          assert rest[i - 1] == assets[i];
        }
      }
    }
  }

  // ---------------------------------------------------------------------------
  // Where in the list: asset order, then actor order, then rule order
  // ---------------------------------------------------------------------------

  lemma {:induction false} ActorsPassConcat(asset: Asset, xs: seq<Actor>, ys: seq<Actor>, m: Matrix)
    ensures ActorsPass(asset, xs + ys, m) == ActorsPass(asset, xs, m) + ActorsPass(asset, ys, m)
    decreases |xs|
  {
    if |xs| == 0 {
      assert xs + ys == ys;
    } else {
      assert (xs + ys)[1..] == xs[1..] + ys;
      ActorsPassConcat(asset, xs[1..], ys, m);
    }
  }

  /** The P4 warnings of two actor lists are those of each, in order. */
  lemma {:induction false} AdminPassConcat(asset: Asset, xs: seq<Actor>, ys: seq<Actor>, m: Matrix)
    ensures AdminPass(asset, xs + ys, m) == AdminPass(asset, xs, m) + AdminPass(asset, ys, m)
    decreases |xs|
  {
    if |xs| == 0 {
      assert xs + ys == ys;
    } else {
      assert (xs + ys)[1..] == xs[1..] + ys;
      AdminPassConcat(asset, xs[1..], ys, m);
    }
  }

  lemma {:induction false} ViolationsConcat(xs: seq<Asset>, ys: seq<Asset>, actors: seq<Actor>, m: Matrix)
    ensures Violations(xs + ys, actors, m) == Violations(xs, actors, m) + Violations(ys, actors, m)
    decreases |xs|
  {
    if |xs| == 0 {
      assert xs + ys == ys;
    } else {
      assert (xs + ys)[1..] == xs[1..] + ys;
      ViolationsConcat(xs[1..], ys, actors, m);
    }
  }

  /** Within the first pass over an asset, actor `j`'s P1-P3 entries sit between those
      of the actors before it and those of the actors after it. */
  lemma ActorsPassOrder(asset: Asset, actors: seq<Actor>, m: Matrix, j: nat)
    requires j < |actors|
    ensures ActorsPass(asset, actors, m) ==
      ActorsPass(asset, actors[..j], m) + CellViolations(asset, actors[j], m)
      + ActorsPass(asset, actors[j + 1..], m)
  {
    assert actors == actors[..j] + ([actors[j]] + actors[j + 1..]);
    ActorsPassConcat(asset, actors[..j], [actors[j]] + actors[j + 1..], m);
    ActorsPassConcat(asset, [actors[j]], actors[j + 1..], m);
    assert ActorsPass(asset, [actors[j]], m) == CellViolations(asset, actors[j], m) + ActorsPass(asset, [], m);
  }

  /** Asset `i`'s block sits between the blocks of the assets before and after it. */
  lemma ViolationsOrder(assets: seq<Asset>, actors: seq<Actor>, m: Matrix, i: nat)
    requires i < |assets|
    ensures Violations(assets, actors, m) ==
      Violations(assets[..i], actors, m) + AssetViolations(assets[i], actors, m)
      + Violations(assets[i + 1..], actors, m)
  {
    assert assets == assets[..i] + ([assets[i]] + assets[i + 1..]);
    ViolationsConcat(assets[..i], [assets[i]] + assets[i + 1..], actors, m);
    ViolationsConcat([assets[i]], assets[i + 1..], actors, m);
    assert Violations([assets[i]], actors, m) == AssetViolations(assets[i], actors, m) + Violations([], actors, m);
  }

  // ---------------------------------------------------------------------------
  // The list depends on the matrix only through the defaulted lookup
  // ---------------------------------------------------------------------------

  /** Two matrices that resolve the same levels for every listed cell. */
  predicate AgreeOn(assets: seq<Asset>, actors: seq<Actor>, m1: Matrix, m2: Matrix)
  {
    forall i, j :: 0 <= i < |assets| && 0 <= j < |actors| ==>
      Lookup(m1, assets[i].id, actors[j].id) == Lookup(m2, assets[i].id, actors[j].id)
  }

  /** Agreement on a row passes to its tail and fixes the head cell's level. */
  lemma AgreeOnTail(asset: Asset, actors: seq<Actor>, m1: Matrix, m2: Matrix)
    requires |actors| > 0
    requires AgreeOn([asset], actors, m1, m2)
    ensures AgreeOn([asset], actors[1..], m1, m2)
    ensures Lookup(m1, asset.id, actors[0].id) == Lookup(m2, asset.id, actors[0].id)
  {
    assert [asset][0] == asset;
    assert Lookup(m1, [asset][0].id, actors[0].id) == Lookup(m2, [asset][0].id, actors[0].id);
    forall i, j | 0 <= i < 1 && 0 <= j < |actors[1..]|
      ensures Lookup(m1, [asset][i].id, actors[1..][j].id) == Lookup(m2, [asset][i].id, actors[1..][j].id)
    {
      assert actors[1..][j] == actors[j + 1];
      assert Lookup(m1, [asset][0].id, actors[j + 1].id) == Lookup(m2, [asset][0].id, actors[j + 1].id);
    }
  }

  lemma {:induction false} ActorsPassCongruent(asset: Asset, actors: seq<Actor>, m1: Matrix, m2: Matrix)
    requires AgreeOn([asset], actors, m1, m2)
    ensures ActorsPass(asset, actors, m1) == ActorsPass(asset, actors, m2)
    decreases |actors|
  {
    if |actors| > 0 {
      AgreeOnTail(asset, actors, m1, m2);
      ActorsPassCongruent(asset, actors[1..], m1, m2);
    }
  }

  lemma {:induction false} AdminCountCongruent(asset: Asset, actors: seq<Actor>, m1: Matrix, m2: Matrix)
    requires AgreeOn([asset], actors, m1, m2)
    ensures AdminCount(asset, actors, m1) == AdminCount(asset, actors, m2)
    decreases |actors|
  {
    if |actors| > 0 {
      AgreeOnTail(asset, actors, m1, m2);
      AdminCountCongruent(asset, actors[1..], m1, m2);
    }
  }

  /** The second pass reads raw entries, but only to compare them with `Admin`, which a
      missing entry never is. */
  lemma {:induction false} AdminPassCongruent(asset: Asset, actors: seq<Actor>, m1: Matrix, m2: Matrix)
    requires AgreeOn([asset], actors, m1, m2)
    ensures AdminPass(asset, actors, m1) == AdminPass(asset, actors, m2)
    decreases |actors|
  {
    if |actors| > 0 {
      AgreeOnTail(asset, actors, m1, m2);
      RawAdminAgreesWithLookup(m1, asset.id, actors[0].id);
      RawAdminAgreesWithLookup(m2, asset.id, actors[0].id);
      AdminPassCongruent(asset, actors[1..], m1, m2);
    }
  }

  lemma AssetViolationsCongruent(asset: Asset, actors: seq<Actor>, m1: Matrix, m2: Matrix)
    requires AgreeOn([asset], actors, m1, m2)
    ensures AssetViolations(asset, actors, m1) == AssetViolations(asset, actors, m2)
  {
    ActorsPassCongruent(asset, actors, m1, m2);
    AdminCountCongruent(asset, actors, m1, m2);
    AdminPassCongruent(asset, actors, m1, m2);
  }

  /** The evaluation reads each listed cell only through its defaulted level. */
  lemma {:induction false} ViolationsCongruent(assets: seq<Asset>, actors: seq<Actor>, m1: Matrix, m2: Matrix)
    requires AgreeOn(assets, actors, m1, m2)
    ensures Violations(assets, actors, m1) == Violations(assets, actors, m2)
    decreases |assets|
  {
    if |assets| > 0 {
      forall i, j | 0 <= i < 1 && 0 <= j < |actors|
        ensures Lookup(m1, [assets[0]][i].id, actors[j].id) == Lookup(m2, [assets[0]][i].id, actors[j].id)
      {
        assert Lookup(m1, assets[0].id, actors[j].id) == Lookup(m2, assets[0].id, actors[j].id);
      }
      AssetViolationsCongruent(assets[0], actors, m1, m2);
      forall i, j | 0 <= i < |assets[1..]| && 0 <= j < |actors|
        ensures Lookup(m1, assets[1..][i].id, actors[j].id) == Lookup(m2, assets[1..][i].id, actors[j].id)
      {
        assert assets[1..][i] == assets[i + 1];
        assert Lookup(m1, assets[i + 1].id, actors[j].id) == Lookup(m2, assets[i + 1].id, actors[j].id);
      }
      ViolationsCongruent(assets[1..], actors, m1, m2);
    }
  }

  /** A missing matrix entry is evaluated exactly like an explicit `Denied`. */
  lemma MissingEntryIsDenied(assets: seq<Asset>, actors: seq<Actor>, m: Matrix, assetId: string, actorId: string)
    requires Entry(m, assetId, actorId) == None
    ensures Violations(assets, actors, m) == Violations(assets, actors, SetCell(m, assetId, actorId, Denied))
  {
    ViolationsCongruent(assets, actors, m, SetCell(m, assetId, actorId, Denied));
  }

  // ---------------------------------------------------------------------------
  // Remediation
  // ---------------------------------------------------------------------------

  /** Writing rule `p`'s recommendation into a cell stops `p` from firing there; other
      rules on the same cell may still fire. */
  lemma RecommendationClearsRule(assets: seq<Asset>, actors: seq<Actor>, m: Matrix,
                                 assetId: string, actorId: string, p: PolicyId)
    ensures forall v :: v in Violations(assets, actors, SetCell(m, assetId, actorId, RecommendationOf(p))) ==>
      !(v.assetId == assetId && v.actorId == actorId && v.policy == p)
  {
    var m' := SetCell(m, assetId, actorId, RecommendationOf(p));
    forall v | v in Violations(assets, actors, m')
      ensures !(v.assetId == assetId && v.actorId == actorId && v.policy == p)
    {
      ViolationsMembership(assets, actors, m', v);
    }
  }
}

/** The component's seed data and the scenarios it leads to (views/Cybersecurity.tsx:5-27,
    58). */
module Seed {
  import opened Types
  import opened Matrix
  import opened Policies
  import opened Scoring
  import opened Engine
  import opened Seqs

  const InitialAssets: seq<Asset> := [
    Asset("a1", "Model Weights (V2.1)", Model, RiskLevel.Critical),
    Asset("a2", "Training Datasets", Data, RiskLevel.High),
    Asset("a3", "Validation API Keys", Secret, RiskLevel.Critical),
    Asset("a4", "Raw Audit Logs", Infrastructure, Medium),
    Asset("a5", "Model Architecture Source", Model, RiskLevel.High)
  ]

  const InitialActors: seq<Actor> := [
    Actor("u1", "Technical Architect", "Engineering"),
    Actor("u2", "QA Lead", "Testing"),
    Actor("u3", "Legal Officer", "Compliance"),
    Actor("u4", "Data Scientist", "Science"),
    Actor("u5", "External Auditor", "Audit")
  ]

  const InitialMatrix: Matrix := map[
    "a1" := map["u1" := Admin, "u2" := Read, "u3" := Denied, "u4" := Write, "u5" := Read],
    "a2" := map["u1" := Write, "u2" := Read, "u3" := Read, "u4" := Admin, "u5" := Read],
    "a3" := map["u1" := Admin, "u2" := Denied, "u3" := Denied, "u4" := Denied, "u5" := Denied],
    "a4" := map["u1" := Read, "u2" := Read, "u3" := Write, "u4" := Read, "u5" := Read],
    "a5" := map["u1" := Admin, "u2" := Read, "u3" := Denied, "u4" := Write, "u5" := Read]
  ]

  /** The state on first render: the persona is the Technical Architect. */
  const InitialEngine: Engine := Engine(InitialAssets, InitialActors, InitialMatrix, "u1")

  // ---------------------------------------------------------------------------
  // Unfolding the evaluation over five assets and five actors
  // ---------------------------------------------------------------------------

  lemma ActorsPassCons(asset: Asset, us: seq<Actor>, m: Matrix)
    requires |us| >= 1
    ensures ActorsPass(asset, us, m) == CellViolations(asset, us[0], m) + ActorsPass(asset, us[1..], m)
  {
  }

  lemma FirstPassOfFive(asset: Asset, us: seq<Actor>, m: Matrix)
    requires |us| == 5
    ensures ActorsPass(asset, us, m) ==
      CellViolations(asset, us[0], m) + (CellViolations(asset, us[1], m) + (CellViolations(asset, us[2], m)
      + (CellViolations(asset, us[3], m) + (CellViolations(asset, us[4], m) + []))))
  {
    var r1 := us[1..];
    var r2 := r1[1..];
    var r3 := r2[1..];
    var r4 := r3[1..];
    ActorsPassCons(asset, us, m);
    ActorsPassCons(asset, r1, m);
    ActorsPassCons(asset, r2, m);
    ActorsPassCons(asset, r3, m);
    ActorsPassCons(asset, r4, m);
  }

  function IsAdminAt(asset: Asset, actor: Actor, m: Matrix): nat
  {
    if Lookup(m, asset.id, actor.id) == Admin then 1 else 0
  }

  lemma AdminCountCons(asset: Asset, us: seq<Actor>, m: Matrix)
    requires |us| >= 1
    ensures AdminCount(asset, us, m) == IsAdminAt(asset, us[0], m) + AdminCount(asset, us[1..], m)
  {
  }

  lemma AdminCountOfFive(asset: Asset, us: seq<Actor>, m: Matrix)
    requires |us| == 5
    ensures AdminCount(asset, us, m) ==
      IsAdminAt(asset, us[0], m) + IsAdminAt(asset, us[1], m) + IsAdminAt(asset, us[2], m)
      + IsAdminAt(asset, us[3], m) + IsAdminAt(asset, us[4], m)
  {
    var r1 := us[1..];
    var r2 := r1[1..];
    var r3 := r2[1..];
    var r4 := r3[1..];
    AdminCountCons(asset, us, m);
    AdminCountCons(asset, r1, m);
    AdminCountCons(asset, r2, m);
    AdminCountCons(asset, r3, m);
    AdminCountCons(asset, r4, m);
  }

  function P4At(asset: Asset, actor: Actor, m: Matrix): seq<Violation>
  {
    if Entry(m, asset.id, actor.id) == Some(Admin) && actor.id != PrimaryAdminId
    then [Violation(asset.id, actor.id, P4, Warning, Write)] else []
  }

  lemma AdminPassCons(asset: Asset, us: seq<Actor>, m: Matrix)
    requires |us| >= 1
    ensures AdminPass(asset, us, m) == P4At(asset, us[0], m) + AdminPass(asset, us[1..], m)
  {
  }

  lemma AdminPassOfFive(asset: Asset, us: seq<Actor>, m: Matrix)
    requires |us| == 5
    ensures AdminPass(asset, us, m) ==
      P4At(asset, us[0], m) + (P4At(asset, us[1], m) + (P4At(asset, us[2], m)
      + (P4At(asset, us[3], m) + (P4At(asset, us[4], m) + []))))
  {
    var r1 := us[1..];
    var r2 := r1[1..];
    var r3 := r2[1..];
    var r4 := r3[1..];
    AdminPassCons(asset, us, m);
    AdminPassCons(asset, r1, m);
    AdminPassCons(asset, r2, m);
    AdminPassCons(asset, r3, m);
    AdminPassCons(asset, r4, m);
  }

  lemma ViolationsCons(xs: seq<Asset>, us: seq<Actor>, m: Matrix)
    requires |xs| >= 1
    ensures Violations(xs, us, m) == AssetViolations(xs[0], us, m) + Violations(xs[1..], us, m)
  {
  }

  lemma ViolationsOfFive(xs: seq<Asset>, us: seq<Actor>, m: Matrix)
    requires |xs| == 5
    ensures Violations(xs, us, m) ==
      AssetViolations(xs[0], us, m) + (AssetViolations(xs[1], us, m) + (AssetViolations(xs[2], us, m)
      + (AssetViolations(xs[3], us, m) + (AssetViolations(xs[4], us, m) + []))))
  {
    var r1 := xs[1..];
    var r2 := r1[1..];
    var r3 := r2[1..];
    var r4 := r3[1..];
    ViolationsCons(xs, us, m);
    ViolationsCons(r1, us, m);
    ViolationsCons(r2, us, m);
    ViolationsCons(r3, us, m);
    ViolationsCons(r4, us, m);
  }

  // ---------------------------------------------------------------------------
  // Reading the matrix row by row
  // ---------------------------------------------------------------------------

  /** An asset's row holds these explicit levels for u1..u5. */
  predicate Row(m: Matrix, assetId: string, l1: Permission, l2: Permission, l3: Permission, l4: Permission, l5: Permission)
  {
    Entry(m, assetId, "u1") == Some(l1) && Entry(m, assetId, "u2") == Some(l2) && Entry(m, assetId, "u3") == Some(l3)
    && Entry(m, assetId, "u4") == Some(l4) && Entry(m, assetId, "u5") == Some(l5)
  }

  /** The rows of the seed matrix. */
  predicate SeedRows(m: Matrix)
  {
    Row(m, "a1", Admin, Read, Denied, Write, Read)
    && Row(m, "a2", Write, Read, Read, Admin, Read)
    && Row(m, "a3", Admin, Denied, Denied, Denied, Denied)
    && Row(m, "a4", Read, Read, Write, Read, Read)
    && Row(m, "a5", Admin, Read, Denied, Write, Read)
  }

  lemma SeedRowsHold()
    ensures SeedRows(InitialMatrix)
  {
    SeedRowsModels();
    SeedRowsRest();
  }

  lemma SeedRowsModels()
    ensures Row(InitialMatrix, "a1", Admin, Read, Denied, Write, Read)
    ensures Row(InitialMatrix, "a2", Write, Read, Read, Admin, Read)
  {
  }

  lemma SeedRowsRest()
    ensures Row(InitialMatrix, "a3", Admin, Denied, Denied, Denied, Denied)
    ensures Row(InitialMatrix, "a4", Read, Read, Write, Read, Read)
    ensures Row(InitialMatrix, "a5", Admin, Read, Denied, Write, Read)
  {
  }

  /** A write to another asset's row keeps this row. */
  lemma RowUntouched(m: Matrix, assetId: string, l1: Permission, l2: Permission, l3: Permission, l4: Permission,
                     l5: Permission, a: string, u: string, p: Permission)
    requires a != assetId
    requires Row(m, assetId, l1, l2, l3, l4, l5)
    ensures Row(SetCell(m, a, u, p), assetId, l1, l2, l3, l4, l5)
  {
  }

  lemma RowSetU3(m: Matrix, a: string, l1: Permission, l2: Permission, l3: Permission, l4: Permission,
                 l5: Permission, p: Permission)
    requires Row(m, a, l1, l2, l3, l4, l5)
    ensures Row(SetCell(m, a, "u3", p), a, l1, l2, p, l4, l5)
  {
  }

  lemma RowSetU4(m: Matrix, a: string, l1: Permission, l2: Permission, l3: Permission, l4: Permission,
                 l5: Permission, p: Permission)
    requires Row(m, a, l1, l2, l3, l4, l5)
    ensures Row(SetCell(m, a, "u4", p), a, l1, l2, l3, p, l5)
  {
  }

  // ---------------------------------------------------------------------------
  // One asset's block for the rows that occur below
  // ---------------------------------------------------------------------------

  lemma ModelWeightsSeedCells(m: Matrix)
    requires Row(m, "a1", Admin, Read, Denied, Write, Read)
    ensures ActorsPass(InitialAssets[0], InitialActors, m) == []
  {
    FirstPassOfFive(InitialAssets[0], InitialActors, m);
  }

  lemma ModelWeightsSeedAdmins(m: Matrix)
    requires Row(m, "a1", Admin, Read, Denied, Write, Read)
    ensures AdminCount(InitialAssets[0], InitialActors, m) == 1
  {
    AdminCountOfFive(InitialAssets[0], InitialActors, m);
  }

  lemma ModelWeightsSeed(m: Matrix)
    requires Row(m, "a1", Admin, Read, Denied, Write, Read)
    ensures AssetViolations(InitialAssets[0], InitialActors, m) == []
  {
    ModelWeightsSeedCells(m);
    ModelWeightsSeedAdmins(m);
  }

  lemma ModelWeightsCycledCells(m: Matrix)
    requires Row(m, "a1", Admin, Read, Admin, Write, Read)
    ensures ActorsPass(InitialAssets[0], InitialActors, m) == [Violation("a1", "u3", P2, Severity.High, Read), Violation("a1", "u3", P3, Severity.High, Write)]
  {
    FirstPassOfFive(InitialAssets[0], InitialActors, m);
  }

  lemma ModelWeightsCycledAdmins(m: Matrix)
    requires Row(m, "a1", Admin, Read, Admin, Write, Read)
    ensures AdminCount(InitialAssets[0], InitialActors, m) == 2
    ensures AdminPass(InitialAssets[0], InitialActors, m) == [Violation("a1", "u3", P4, Warning, Write)]
  {
    AdminCountOfFive(InitialAssets[0], InitialActors, m);
    AdminPassOfFive(InitialAssets[0], InitialActors, m);
  }

  lemma ModelWeightsCycled(m: Matrix)
    requires Row(m, "a1", Admin, Read, Admin, Write, Read)
    ensures AssetViolations(InitialAssets[0], InitialActors, m) == [Violation("a1", "u3", P2, Severity.High, Read), Violation("a1", "u3", P3, Severity.High, Write)] + [Violation("a1", "u3", P4, Warning, Write)]
  {
    ModelWeightsCycledCells(m);
    ModelWeightsCycledAdmins(m);
  }

  lemma ModelWeightsRemediatedCells(m: Matrix)
    requires Row(m, "a1", Admin, Read, Write, Write, Read)
    ensures ActorsPass(InitialAssets[0], InitialActors, m) == [Violation("a1", "u3", P2, Severity.High, Read)]
  {
    FirstPassOfFive(InitialAssets[0], InitialActors, m);
  }

  lemma ModelWeightsRemediatedAdmins(m: Matrix)
    requires Row(m, "a1", Admin, Read, Write, Write, Read)
    ensures AdminCount(InitialAssets[0], InitialActors, m) == 1
  {
    AdminCountOfFive(InitialAssets[0], InitialActors, m);
  }

  lemma ModelWeightsRemediated(m: Matrix)
    requires Row(m, "a1", Admin, Read, Write, Write, Read)
    ensures AssetViolations(InitialAssets[0], InitialActors, m) == [Violation("a1", "u3", P2, Severity.High, Read)]
  {
    ModelWeightsRemediatedCells(m);
    ModelWeightsRemediatedAdmins(m);
  }

  lemma ModelWeightsSecondAdminCells(m: Matrix)
    requires Row(m, "a1", Admin, Read, Denied, Admin, Read)
    ensures ActorsPass(InitialAssets[0], InitialActors, m) == [Violation("a1", "u4", P3, Severity.High, Write)]
  {
    FirstPassOfFive(InitialAssets[0], InitialActors, m);
  }

  lemma ModelWeightsSecondAdminAdmins(m: Matrix)
    requires Row(m, "a1", Admin, Read, Denied, Admin, Read)
    ensures AdminCount(InitialAssets[0], InitialActors, m) == 2
    ensures AdminPass(InitialAssets[0], InitialActors, m) == [Violation("a1", "u4", P4, Warning, Write)]
  {
    AdminCountOfFive(InitialAssets[0], InitialActors, m);
    AdminPassOfFive(InitialAssets[0], InitialActors, m);
  }

  lemma ModelWeightsSecondAdmin(m: Matrix)
    requires Row(m, "a1", Admin, Read, Denied, Admin, Read)
    ensures AssetViolations(InitialAssets[0], InitialActors, m) == [Violation("a1", "u4", P3, Severity.High, Write)] + [Violation("a1", "u4", P4, Warning, Write)]
  {
    ModelWeightsSecondAdminCells(m);
    ModelWeightsSecondAdminAdmins(m);
  }

  lemma DatasetsSeedCells(m: Matrix)
    requires Row(m, "a2", Write, Read, Read, Admin, Read)
    ensures ActorsPass(InitialAssets[1], InitialActors, m) == []
  {
    FirstPassOfFive(InitialAssets[1], InitialActors, m);
  }

  lemma DatasetsSeed(m: Matrix)
    requires Row(m, "a2", Write, Read, Read, Admin, Read)
    ensures AssetViolations(InitialAssets[1], InitialActors, m) == []
  {
    DatasetsSeedCells(m);
  }

  lemma ApiKeysSeedCells(m: Matrix)
    requires Row(m, "a3", Admin, Denied, Denied, Denied, Denied)
    ensures ActorsPass(InitialAssets[2], InitialActors, m) == []
  {
    FirstPassOfFive(InitialAssets[2], InitialActors, m);
  }

  lemma ApiKeysSeedAdmins(m: Matrix)
    requires Row(m, "a3", Admin, Denied, Denied, Denied, Denied)
    ensures AdminCount(InitialAssets[2], InitialActors, m) == 1
  {
    AdminCountOfFive(InitialAssets[2], InitialActors, m);
  }

  lemma ApiKeysSeed(m: Matrix)
    requires Row(m, "a3", Admin, Denied, Denied, Denied, Denied)
    ensures AssetViolations(InitialAssets[2], InitialActors, m) == []
  {
    ApiKeysSeedCells(m);
    ApiKeysSeedAdmins(m);
  }

  lemma ApiKeysSecretWriteCells(m: Matrix)
    requires Row(m, "a3", Admin, Denied, Denied, Write, Denied)
    ensures ActorsPass(InitialAssets[2], InitialActors, m) == [Violation("a3", "u4", P1, Severity.Critical, Denied)]
  {
    FirstPassOfFive(InitialAssets[2], InitialActors, m);
  }

  lemma ApiKeysSecretWriteAdmins(m: Matrix)
    requires Row(m, "a3", Admin, Denied, Denied, Write, Denied)
    ensures AdminCount(InitialAssets[2], InitialActors, m) == 1
  {
    AdminCountOfFive(InitialAssets[2], InitialActors, m);
  }

  lemma ApiKeysSecretWrite(m: Matrix)
    requires Row(m, "a3", Admin, Denied, Denied, Write, Denied)
    ensures AssetViolations(InitialAssets[2], InitialActors, m) == [Violation("a3", "u4", P1, Severity.Critical, Denied)]
  {
    ApiKeysSecretWriteCells(m);
    ApiKeysSecretWriteAdmins(m);
  }

  lemma AuditLogsSeedCells(m: Matrix)
    requires Row(m, "a4", Read, Read, Write, Read, Read)
    ensures ActorsPass(InitialAssets[3], InitialActors, m) == [Violation("a4", "u3", P2, Severity.High, Read)]
  {
    FirstPassOfFive(InitialAssets[3], InitialActors, m);
  }

  lemma AuditLogsSeed(m: Matrix)
    requires Row(m, "a4", Read, Read, Write, Read, Read)
    ensures AssetViolations(InitialAssets[3], InitialActors, m) == [Violation("a4", "u3", P2, Severity.High, Read)]
  {
    AuditLogsSeedCells(m);
  }

  lemma AuditLogsRemediatedCells(m: Matrix)
    requires Row(m, "a4", Read, Read, Read, Read, Read)
    ensures ActorsPass(InitialAssets[3], InitialActors, m) == []
  {
    FirstPassOfFive(InitialAssets[3], InitialActors, m);
  }

  lemma AuditLogsRemediated(m: Matrix)
    requires Row(m, "a4", Read, Read, Read, Read, Read)
    ensures AssetViolations(InitialAssets[3], InitialActors, m) == []
  {
    AuditLogsRemediatedCells(m);
  }

  lemma ArchitectureSeedCells(m: Matrix)
    requires Row(m, "a5", Admin, Read, Denied, Write, Read)
    ensures ActorsPass(InitialAssets[4], InitialActors, m) == []
  {
    FirstPassOfFive(InitialAssets[4], InitialActors, m);
  }

  lemma ArchitectureSeed(m: Matrix)
    requires Row(m, "a5", Admin, Read, Denied, Write, Read)
    ensures AssetViolations(InitialAssets[4], InitialActors, m) == []
  {
    ArchitectureSeedCells(m);
  }

  // ---------------------------------------------------------------------------
  // Scores of short lists
  // ---------------------------------------------------------------------------

  lemma ScoreOfOne(a: Violation)
    ensures SecurityScore([a]) == 100 - Penalty(a.severity)
  {
    assert [a][..0] == [];
    assert TotalPenalty([a]) == Penalty(a.severity);
  }

  lemma ScoreOfTwo(a: Violation, b: Violation)
    ensures SecurityScore([a, b]) == 100 - Penalty(a.severity) - Penalty(b.severity)
  {
    assert [a, b][..1] == [a];
    assert [a][..0] == [];
    assert TotalPenalty([a]) == Penalty(a.severity);
    assert TotalPenalty([a, b]) == TotalPenalty([a]) + Penalty(b.severity);
  }

  lemma ScoreOfFour(a: Violation, b: Violation, c: Violation, d: Violation)
    ensures SecurityScore([a, b, c, d]) ==
      100 - Penalty(a.severity) - Penalty(b.severity) - Penalty(c.severity) - Penalty(d.severity)
  {
    assert [a, b, c, d][..3] == [a, b, c];
    assert [a, b, c][..2] == [a, b];
    assert [a, b][..1] == [a];
    assert [a][..0] == [];
    assert TotalPenalty([a]) == Penalty(a.severity);
    assert TotalPenalty([a, b]) == TotalPenalty([a]) + Penalty(b.severity);
    assert TotalPenalty([a, b, c]) == TotalPenalty([a, b]) + Penalty(c.severity);
    assert TotalPenalty([a, b, c, d]) == TotalPenalty([a, b, c]) + Penalty(d.severity);
  }

  // ---------------------------------------------------------------------------
  // The seed
  // ---------------------------------------------------------------------------

  /** The seed persona, the Technical Architect, is elevated. */
  lemma SeedPersonaElevated()
    ensures IsElevated(InitialEngine)
  {
    assert FindActor(InitialActors, "u1") == Some(InitialActors[0]);
  }

  lemma SeedListGiven(m: Matrix)
    requires SeedRows(m)
    ensures Violations(InitialAssets, InitialActors, m) == [Violation("a4", "u3", P2, Severity.High, Read)]
  {
    ModelWeightsSeed(m);
    DatasetsSeed(m);
    ApiKeysSeed(m);
    AuditLogsSeed(m);
    ArchitectureSeed(m);
    ViolationsOfFive(InitialAssets, InitialActors, m);
  }

  /** The seed has one violation, P2 on (a4, u3), and scores 95. */
  lemma SeedViolations()
    ensures CurrentViolations(InitialEngine) == [Violation("a4", "u3", P2, Severity.High, Read)]
    ensures SecurityScore(CurrentViolations(InitialEngine)) == 95
  {
    SeedRowsHold();
    SeedListGiven(InitialMatrix);
    ScoreOfOne(Violation("a4", "u3", P2, Severity.High, Read));
  }

  // ---------------------------------------------------------------------------
  // Cycling one cell of the seed
  // ---------------------------------------------------------------------------

  /** Toggling a cell `k` times from level `p`, as an elevated user. */
  function ToggleTimes(s: Engine, assetId: string, actorId: string, k: nat): Engine
  {
    if k == 0 then s else TogglePermission(ToggleTimes(s, assetId, actorId, k - 1), assetId, actorId)
  }

  function NextTimes(p: Permission, k: nat): Permission
  {
    if k == 0 then p else Next(NextTimes(p, k - 1))
  }

  lemma {:induction false} ToggleTimesWrites(s: Engine, assetId: string, actorId: string, k: nat)
    requires IsElevated(s)
    requires k > 0
    ensures ToggleTimes(s, assetId, actorId, k) ==
      s.(matrix := SetCell(s.matrix, assetId, actorId, NextTimes(Lookup(s.matrix, assetId, actorId), k)))
  {
    var p := Lookup(s.matrix, assetId, actorId);
    if k > 1 {
      ToggleTimesWrites(s, assetId, actorId, k - 1);
      var t := ToggleTimes(s, assetId, actorId, k - 1);
      assert IsElevated(t);
      assert Lookup(t.matrix, assetId, actorId) == NextTimes(p, k - 1);
      SetCellTwice(s.matrix, assetId, actorId, NextTimes(p, k - 1), NextTimes(p, k));
    }
  }

  lemma CycledState(s: Engine)
    requires s == ToggleTimes(InitialEngine, "a1", "u3", 3)
    ensures s == InitialEngine.(matrix := SetCell(InitialMatrix, "a1", "u3", Admin))
  {
    assert NextTimes(Denied, 3) == Admin by {
      NextRing();
      assert NextTimes(Denied, 1) == Read;
      assert NextTimes(Denied, 2) == Write;
    }
    SeedLevelA1U3();
    SeedPersonaElevated();
    ToggleTimesWrites(InitialEngine, "a1", "u3", 3);
  }

  lemma SeedLevelA1U3()
    ensures Lookup(InitialMatrix, "a1", "u3") == Denied
  {
  }

  lemma CycledRows(m0: Matrix, m: Matrix)
    requires SeedRows(m0)
    requires m == SetCell(m0, "a1", "u3", Admin)
    ensures Row(m, "a1", Admin, Read, Admin, Write, Read)
    ensures Row(m, "a2", Write, Read, Read, Admin, Read)
    ensures Row(m, "a3", Admin, Denied, Denied, Denied, Denied)
    ensures Row(m, "a4", Read, Read, Write, Read, Read)
    ensures Row(m, "a5", Admin, Read, Denied, Write, Read)
  {
    RowSetU3(m0, "a1", Admin, Read, Denied, Write, Read, Admin);
    RowUntouched(m0, "a2", Write, Read, Read, Admin, Read, "a1", "u3", Admin);
    RowUntouched(m0, "a3", Admin, Denied, Denied, Denied, Denied, "a1", "u3", Admin);
    RowUntouched(m0, "a4", Read, Read, Write, Read, Read, "a1", "u3", Admin);
    RowUntouched(m0, "a5", Admin, Read, Denied, Write, Read, "a1", "u3", Admin);
  }

  lemma CycledList(m: Matrix)
    requires Row(m, "a1", Admin, Read, Admin, Write, Read)
    requires Row(m, "a2", Write, Read, Read, Admin, Read)
    requires Row(m, "a3", Admin, Denied, Denied, Denied, Denied)
    requires Row(m, "a4", Read, Read, Write, Read, Read)
    requires Row(m, "a5", Admin, Read, Denied, Write, Read)
    ensures Violations(InitialAssets, InitialActors, m) == [
      Violation("a1", "u3", P2, Severity.High, Read),
      Violation("a1", "u3", P3, Severity.High, Write),
      Violation("a1", "u3", P4, Warning, Write),
      Violation("a4", "u3", P2, Severity.High, Read)]
  {
    ModelWeightsCycled(m);
    DatasetsSeed(m);
    ApiKeysSeed(m);
    AuditLogsSeed(m);
    ArchitectureSeed(m);
    ViolationsOfFive(InitialAssets, InitialActors, m);
  }

  /** Cycling (a1, u3) three times from the seed gives the Compliance officer `Admin` on
      the Critical model: three violations on that cell (P2, P3, then P4 after the
      first pass) ahead of the seed's P2 on (a4, u3); the score drops to 83. */
  lemma CycledScenario(s: Engine)
    requires s == ToggleTimes(InitialEngine, "a1", "u3", 3)
    ensures CurrentViolations(s) == [
      Violation("a1", "u3", P2, Severity.High, Read),
      Violation("a1", "u3", P3, Severity.High, Write),
      Violation("a1", "u3", P4, Warning, Write),
      Violation("a4", "u3", P2, Severity.High, Read)]
    ensures SecurityScore(CurrentViolations(s)) == 83
  {
    CycledState(s);
    CycledFrom(s);
  }

  lemma CycledFromList(s: Engine)
    requires s == InitialEngine.(matrix := SetCell(InitialMatrix, "a1", "u3", Admin))
    ensures CurrentViolations(s) == [
      Violation("a1", "u3", P2, Severity.High, Read),
      Violation("a1", "u3", P3, Severity.High, Write),
      Violation("a1", "u3", P4, Warning, Write),
      Violation("a4", "u3", P2, Severity.High, Read)]
  {
    SeedRowsHold();
    CycledRows(InitialMatrix, s.matrix);
    CycledList(s.matrix);
  }

  lemma CycledFrom(s: Engine)
    requires s == InitialEngine.(matrix := SetCell(InitialMatrix, "a1", "u3", Admin))
    ensures CurrentViolations(s) == [
      Violation("a1", "u3", P2, Severity.High, Read),
      Violation("a1", "u3", P3, Severity.High, Write),
      Violation("a1", "u3", P4, Warning, Write),
      Violation("a4", "u3", P2, Severity.High, Read)]
    ensures SecurityScore(CurrentViolations(s)) == 83
  {
    CycledFromList(s);
    ScoreOfFour(Violation("a1", "u3", P2, Severity.High, Read), Violation("a1", "u3", P3, Severity.High, Write),
                Violation("a1", "u3", P4, Warning, Write), Violation("a4", "u3", P2, Severity.High, Read));
  }

  // ---------------------------------------------------------------------------
  // Bulk remediation of the cycled state
  // ---------------------------------------------------------------------------

  /** The snapshot names (a1, u3) three times, last with `Write`, and (a4, u3) once. */
  lemma LastWriteOfCycled(vs: seq<Violation>, x: string, y: string)
    requires vs == [
      Violation("a1", "u3", P2, Severity.High, Read),
      Violation("a1", "u3", P3, Severity.High, Write),
      Violation("a1", "u3", P4, Warning, Write),
      Violation("a4", "u3", P2, Severity.High, Read)]
    ensures LastWrite(vs, (x, y)) ==
      if (x, y) == ("a4", "u3") then Some(Read)
      else if (x, y) == ("a1", "u3") then Some(Write)
      else None
  {
    if (x, y) != ("a4", "u3") {
      assert vs[..3][..2][..1][..0] == [];
    }
  }

  lemma RemediatedRows(m0: Matrix, m: Matrix)
    requires SeedRows(m0)
    requires m == SetCell(SetCell(m0, "a1", "u3", Write), "a4", "u3", Read)
    ensures Row(m, "a1", Admin, Read, Write, Write, Read)
    ensures Row(m, "a2", Write, Read, Read, Admin, Read)
    ensures Row(m, "a3", Admin, Denied, Denied, Denied, Denied)
    ensures Row(m, "a4", Read, Read, Read, Read, Read)
    ensures Row(m, "a5", Admin, Read, Denied, Write, Read)
  {
    var m1 := SetCell(m0, "a1", "u3", Write);
    RowSetU3(m0, "a1", Admin, Read, Denied, Write, Read, Write);
    RowUntouched(m0, "a2", Write, Read, Read, Admin, Read, "a1", "u3", Write);
    RowUntouched(m0, "a3", Admin, Denied, Denied, Denied, Denied, "a1", "u3", Write);
    RowUntouched(m0, "a4", Read, Read, Write, Read, Read, "a1", "u3", Write);
    RowUntouched(m0, "a5", Admin, Read, Denied, Write, Read, "a1", "u3", Write);
    RowUntouched(m1, "a1", Admin, Read, Write, Write, Read, "a4", "u3", Read);
    RowUntouched(m1, "a2", Write, Read, Read, Admin, Read, "a4", "u3", Read);
    RowUntouched(m1, "a3", Admin, Denied, Denied, Denied, Denied, "a4", "u3", Read);
    RowSetU3(m1, "a4", Read, Read, Write, Read, Read, Read);
    RowUntouched(m1, "a5", Admin, Read, Denied, Write, Read, "a4", "u3", Read);
  }

  lemma RemediatedList(m: Matrix)
    requires Row(m, "a1", Admin, Read, Write, Write, Read)
    requires Row(m, "a2", Write, Read, Read, Admin, Read)
    requires Row(m, "a3", Admin, Denied, Denied, Denied, Denied)
    requires Row(m, "a4", Read, Read, Read, Read, Read)
    requires Row(m, "a5", Admin, Read, Denied, Write, Read)
    ensures Violations(InitialAssets, InitialActors, m) == [Violation("a1", "u3", P2, Severity.High, Read)]
  {
    ModelWeightsRemediated(m);
    DatasetsSeed(m);
    ApiKeysSeed(m);
    AuditLogsRemediated(m);
    ArchitectureSeed(m);
    ViolationsOfFive(InitialAssets, InitialActors, m);
  }

  /** One cell after bulk remediation of the cycled list, whatever the other cells hold. */
  lemma BulkCell(m0: Matrix, r: Matrix, vs: seq<Violation>, x: string, y: string)
    requires vs == [
      Violation("a1", "u3", P2, Severity.High, Read),
      Violation("a1", "u3", P3, Severity.High, Write),
      Violation("a1", "u3", P4, Warning, Write),
      Violation("a4", "u3", P2, Severity.High, Read)]
    requires Entry(r, x, y) ==
      if LastWrite(vs, (x, y)).Some? then LastWrite(vs, (x, y)) else Entry(SetCell(m0, "a1", "u3", Admin), x, y)
    ensures Entry(r, x, y) == Entry(SetCell(SetCell(m0, "a1", "u3", Write), "a4", "u3", Read), x, y)
  {
    LastWriteOfCycled(vs, x, y);
  }

  /** Bulk remediation of the cycled list overwrites (a1, u3) with `Write` and (a4, u3)
      with `Read` and leaves every other entry alone. */
  lemma BulkMatrix(s: Engine, m0: Matrix)
    requires s.matrix == SetCell(m0, "a1", "u3", Admin)
    requires IsElevated(s)
    requires CurrentViolations(s) == [
      Violation("a1", "u3", P2, Severity.High, Read),
      Violation("a1", "u3", P3, Severity.High, Write),
      Violation("a1", "u3", P4, Warning, Write),
      Violation("a4", "u3", P2, Severity.High, Read)]
    ensures forall x, y :: (Lookup(AutoRemediate(s).0.matrix, x, y) ==
                             Lookup(SetCell(SetCell(m0, "a1", "u3", Write), "a4", "u3", Read), x, y))
  {
    var r := AutoRemediate(s).0.matrix;
    forall x, y
      ensures Lookup(r, x, y) == Lookup(SetCell(SetCell(m0, "a1", "u3", Write), "a4", "u3", Read), x, y)
    {
      BulkCell(m0, r, CurrentViolations(s), x, y);
    }
  }

  lemma BulkAgree(s: Engine, m0: Matrix)
    requires s.matrix == SetCell(m0, "a1", "u3", Admin)
    requires IsElevated(s)
    requires CurrentViolations(s) == [
      Violation("a1", "u3", P2, Severity.High, Read),
      Violation("a1", "u3", P3, Severity.High, Write),
      Violation("a1", "u3", P4, Warning, Write),
      Violation("a4", "u3", P2, Severity.High, Read)]
    ensures AgreeOn(s.assets, s.actors, AutoRemediate(s).0.matrix,
                    SetCell(SetCell(m0, "a1", "u3", Write), "a4", "u3", Read))
    ensures Lookup(AutoRemediate(s).0.matrix, "a1", "u3") == Write
  {
    var mf := SetCell(SetCell(m0, "a1", "u3", Write), "a4", "u3", Read);
    BulkMatrix(s, m0);
    RemediatedLevel(m0);
  }

  lemma RemediatedLevel(m0: Matrix)
    ensures Lookup(SetCell(SetCell(m0, "a1", "u3", Write), "a4", "u3", Read), "a1", "u3") == Write
  {
  }

  /** Bulk remediation of the cycled list, for any matrix the cycle started from. */
  lemma BulkFrom(s: Engine, m0: Matrix, after: seq<Violation>)
    requires s.matrix == SetCell(m0, "a1", "u3", Admin)
    requires IsElevated(s)
    requires CurrentViolations(s) == [
      Violation("a1", "u3", P2, Severity.High, Read),
      Violation("a1", "u3", P3, Severity.High, Write),
      Violation("a1", "u3", P4, Warning, Write),
      Violation("a4", "u3", P2, Severity.High, Read)]
    requires Violations(s.assets, s.actors, SetCell(SetCell(m0, "a1", "u3", Write), "a4", "u3", Read)) == after
    ensures AutoRemediate(s).1 == 4
    ensures Lookup(AutoRemediate(s).0.matrix, "a1", "u3") == Write
    ensures CurrentViolations(AutoRemediate(s).0) == after
  {
    var r := AutoRemediate(s).0;
    BulkAgree(s, m0);
    ViolationsCongruent(s.assets, s.actors, r.matrix, SetCell(SetCell(m0, "a1", "u3", Write), "a4", "u3", Read));
  }

  /** Bulk remediation of the cycled state reports 4 fixes although it touches two
      cells; (a1, u3) ends at `Write`, the last of Read, Write, Write, and that level
      still breaks P2, so the list is not empty afterwards. */
  lemma BulkScenario(s: Engine)
    requires s == ToggleTimes(InitialEngine, "a1", "u3", 3)
    ensures AutoRemediate(s).1 == 4
    ensures Lookup(AutoRemediate(s).0.matrix, "a1", "u3") == Write
    ensures CurrentViolations(AutoRemediate(s).0) == [Violation("a1", "u3", P2, Severity.High, Read)]
  {
    CycledScenario(s);
    CycledState(s);
    assert IsElevated(s) by {
      SeedPersonaElevated();
    }
    var mf := SetCell(SetCell(InitialMatrix, "a1", "u3", Write), "a4", "u3", Read);
    SeedRowsHold();
    RemediatedRows(InitialMatrix, mf);
    RemediatedList(mf);
    BulkFrom(s, InitialMatrix, [Violation("a1", "u3", P2, Severity.High, Read)]);
  }

  // ---------------------------------------------------------------------------
  // Single-rule scenarios
  // ---------------------------------------------------------------------------

  lemma SeedLevelA3U4()
    ensures Lookup(InitialMatrix, "a3", "u4") == Denied
  {
  }

  lemma SeedLevelA1U4()
    ensures Lookup(InitialMatrix, "a1", "u4") == Write
  {
  }

  lemma SecretWriteRows(m0: Matrix, m: Matrix)
    requires SeedRows(m0)
    requires m == SetCell(m0, "a3", "u4", Write)
    ensures Row(m, "a1", Admin, Read, Denied, Write, Read)
    ensures Row(m, "a2", Write, Read, Read, Admin, Read)
    ensures Row(m, "a3", Admin, Denied, Denied, Write, Denied)
    ensures Row(m, "a4", Read, Read, Write, Read, Read)
    ensures Row(m, "a5", Admin, Read, Denied, Write, Read)
  {
    RowUntouched(m0, "a1", Admin, Read, Denied, Write, Read, "a3", "u4", Write);
    RowUntouched(m0, "a2", Write, Read, Read, Admin, Read, "a3", "u4", Write);
    RowSetU4(m0, "a3", Admin, Denied, Denied, Denied, Denied, Write);
    RowUntouched(m0, "a4", Read, Read, Write, Read, Read, "a3", "u4", Write);
    RowUntouched(m0, "a5", Admin, Read, Denied, Write, Read, "a3", "u4", Write);
  }

  lemma SecretWriteList(m: Matrix)
    requires Row(m, "a1", Admin, Read, Denied, Write, Read)
    requires Row(m, "a2", Write, Read, Read, Admin, Read)
    requires Row(m, "a3", Admin, Denied, Denied, Write, Denied)
    requires Row(m, "a4", Read, Read, Write, Read, Read)
    requires Row(m, "a5", Admin, Read, Denied, Write, Read)
    ensures Violations(InitialAssets, InitialActors, m) == [
      Violation("a3", "u4", P1, Severity.Critical, Denied),
      Violation("a4", "u3", P2, Severity.High, Read)]
  {
    ModelWeightsSeed(m);
    DatasetsSeed(m);
    ApiKeysSecretWrite(m);
    AuditLogsSeed(m);
    ArchitectureSeed(m);
    ViolationsOfFive(InitialAssets, InitialActors, m);
  }

  /** Raising the Data Scientist to `Write` on the API keys adds exactly one P1
      violation, Critical, recommending `Denied`: the list gains it ahead of the seed's
      P2 and the score loses 10. */
  lemma SecretWriteScenario(s: Engine)
    requires s == ToggleTimes(InitialEngine, "a3", "u4", 2)
    ensures CurrentViolations(s) == [
      Violation("a3", "u4", P1, Severity.Critical, Denied),
      Violation("a4", "u3", P2, Severity.High, Read)]
    ensures SecurityScore(CurrentViolations(s)) == 85
  {
    SecretWriteState(s);
    SecretWriteFrom(s);
  }

  lemma SecretWriteState(s: Engine)
    requires s == ToggleTimes(InitialEngine, "a3", "u4", 2)
    ensures s == InitialEngine.(matrix := SetCell(InitialMatrix, "a3", "u4", Write))
  {
    assert NextTimes(Denied, 2) == Write by {
      NextRing();
      assert NextTimes(Denied, 1) == Read;
    }
    SeedLevelA3U4();
    SeedPersonaElevated();
    ToggleTimesWrites(InitialEngine, "a3", "u4", 2);
  }

  lemma SecretWriteFrom(s: Engine)
    requires s == InitialEngine.(matrix := SetCell(InitialMatrix, "a3", "u4", Write))
    ensures CurrentViolations(s) == [
      Violation("a3", "u4", P1, Severity.Critical, Denied),
      Violation("a4", "u3", P2, Severity.High, Read)]
    ensures SecurityScore(CurrentViolations(s)) == 85
  {
    SeedRowsHold();
    SecretWriteRows(InitialMatrix, s.matrix);
    SecretWriteList(s.matrix);
    ScoreOfTwo(Violation("a3", "u4", P1, Severity.Critical, Denied), Violation("a4", "u3", P2, Severity.High, Read));
  }

  lemma SecondAdminRows(m0: Matrix, m: Matrix)
    requires SeedRows(m0)
    requires m == SetCell(m0, "a1", "u4", Admin)
    ensures Row(m, "a1", Admin, Read, Denied, Admin, Read)
    ensures Row(m, "a2", Write, Read, Read, Admin, Read)
    ensures Row(m, "a3", Admin, Denied, Denied, Denied, Denied)
    ensures Row(m, "a4", Read, Read, Write, Read, Read)
    ensures Row(m, "a5", Admin, Read, Denied, Write, Read)
  {
    RowSetU4(m0, "a1", Admin, Read, Denied, Write, Read, Admin);
    RowUntouched(m0, "a2", Write, Read, Read, Admin, Read, "a1", "u4", Admin);
    RowUntouched(m0, "a3", Admin, Denied, Denied, Denied, Denied, "a1", "u4", Admin);
    RowUntouched(m0, "a4", Read, Read, Write, Read, Read, "a1", "u4", Admin);
    RowUntouched(m0, "a5", Admin, Read, Denied, Write, Read, "a1", "u4", Admin);
  }

  lemma SecondAdminList(m: Matrix)
    requires Row(m, "a1", Admin, Read, Denied, Admin, Read)
    requires Row(m, "a2", Write, Read, Read, Admin, Read)
    requires Row(m, "a3", Admin, Denied, Denied, Denied, Denied)
    requires Row(m, "a4", Read, Read, Write, Read, Read)
    requires Row(m, "a5", Admin, Read, Denied, Write, Read)
    ensures Violations(InitialAssets, InitialActors, m) == [
      Violation("a1", "u4", P3, Severity.High, Write),
      Violation("a1", "u4", P4, Warning, Write),
      Violation("a4", "u3", P2, Severity.High, Read)]
  {
    ModelWeightsSecondAdmin(m);
    DatasetsSeed(m);
    ApiKeysSeed(m);
    AuditLogsSeed(m);
    ArchitectureSeed(m);
    ViolationsOfFive(InitialAssets, InitialActors, m);
  }

  /** The P4 threshold is "more than one": a second admin on the Critical model weights
      (next to the exempt primary admin u1) draws exactly one P4 warning, for the
      second admin only, after that actor's P3. */
  lemma SecondAdminScenario(s: Engine)
    requires s == ToggleTimes(InitialEngine, "a1", "u4", 1)
    ensures CurrentViolations(s) == [
      Violation("a1", "u4", P3, Severity.High, Write),
      Violation("a1", "u4", P4, Warning, Write),
      Violation("a4", "u3", P2, Severity.High, Read)]
  {
    assert s == InitialEngine.(matrix := SetCell(InitialMatrix, "a1", "u4", Admin)) by {
      assert NextTimes(Write, 1) == Admin by {
        NextRing();
      }
      SeedLevelA1U4();
      SeedPersonaElevated();
      ToggleTimesWrites(InitialEngine, "a1", "u4", 1);
    }
    SeedRowsHold();
    SecondAdminRows(InitialMatrix, s.matrix);
    SecondAdminList(s.matrix);
  }

  // ---------------------------------------------------------------------------
  // A non-elevated viewer
  // ---------------------------------------------------------------------------

  function KeepIf<T>(keep: T -> bool, x: T): seq<T>
  {
    if keep(x) then [x] else []
  }

  lemma FilterStep<T(!new)>(xs: seq<T>, keep: T -> bool)
    requires |xs| >= 1
    ensures Filter(xs, keep) == KeepIf(keep, xs[0]) + Filter(xs[1..], keep)
  {
  }

  /** `Filter` without its contract, for unfolding over a literal list. */
  function KeepAll<T>(xs: seq<T>, keep: T -> bool): seq<T>
  {
    if |xs| == 0 then [] else KeepIf(keep, xs[0]) + KeepAll(xs[1..], keep)
  }

  lemma {:induction false} FilterIsKeepAll<T(!new)>(xs: seq<T>, keep: T -> bool)
    ensures Filter(xs, keep) == KeepAll(xs, keep)
    decreases |xs|
  {
    if |xs| > 0 {
      FilterStep(xs, keep);
      FilterIsKeepAll(xs[1..], keep);
    }
  }

  lemma KeepAllCons<T>(xs: seq<T>, keep: T -> bool)
    requires |xs| >= 1
    ensures KeepAll(xs, keep) == KeepIf(keep, xs[0]) + KeepAll(xs[1..], keep)
  {
  }

  lemma KeepAllOfFive<T>(xs: seq<T>, keep: T -> bool)
    requires |xs| == 5
    ensures KeepAll(xs, keep) ==
      KeepIf(keep, xs[0]) + (KeepIf(keep, xs[1]) + (KeepIf(keep, xs[2]) + (KeepIf(keep, xs[3])
      + (KeepIf(keep, xs[4]) + []))))
  {
    var r1 := xs[1..];
    var r2 := r1[1..];
    var r3 := r2[1..];
    var r4 := r3[1..];
    KeepAllCons(xs, keep);
    KeepAllCons(r1, keep);
    KeepAllCons(r2, keep);
    KeepAllCons(r3, keep);
    KeepAllCons(r4, keep);
  }

  lemma ScientistNotElevated(s: Engine)
    requires s == InitialEngine.(personaId := "u4")
    ensures !IsElevated(s)
  {
    assert FindActor(s.actors, "u4") == Some(InitialActors[3]);
  }

  lemma ScientistActors(s: Engine)
    requires s == InitialEngine.(personaId := "u4")
    requires !IsElevated(s)
    ensures VisibleActors(s) == [InitialActors[3]]
  {
    var keep, xs := IsPersona("u4"), InitialActors;
    assert !keep(xs[0]) && !keep(xs[1]) && !keep(xs[2]) && keep(xs[3]) && !keep(xs[4]);
    FilterOnlyFourth(xs, keep);
  }

  lemma FilterOnlyFourth<T(!new)>(xs: seq<T>, keep: T -> bool)
    requires |xs| == 5
    requires !keep(xs[0]) && !keep(xs[1]) && !keep(xs[2]) && keep(xs[3]) && !keep(xs[4])
    ensures Filter(xs, keep) == [xs[3]]
  {
    FilterIsKeepAll(xs, keep);
    KeepAllOfFive(xs, keep);
  }

  lemma ScientistAssetsGiven(s: Engine)
    requires s.assets == InitialAssets && s.personaId == "u4"
    requires !IsElevated(s)
    requires Lookup(s.matrix, "a1", "u4") == Write && Lookup(s.matrix, "a3", "u4") == Denied
    ensures VisibleAssets(s) == [InitialAssets[0], InitialAssets[1], InitialAssets[3], InitialAssets[4]]
  {
    var keep, xs := NeedToKnow(s.matrix, "u4"), InitialAssets;
    assert keep(xs[0]) && keep(xs[1]) && !keep(xs[2]) && keep(xs[3]) && keep(xs[4]);
    FilterAllButThird(xs, keep);
  }

  lemma FilterAllButThird<T(!new)>(xs: seq<T>, keep: T -> bool)
    requires |xs| == 5
    requires keep(xs[0]) && keep(xs[1]) && !keep(xs[2]) && keep(xs[3]) && keep(xs[4])
    ensures Filter(xs, keep) == [xs[0], xs[1], xs[3], xs[4]]
  {
    FilterIsKeepAll(xs, keep);
    KeepAllOfFive(xs, keep);
  }

  lemma ScientistAssets(s: Engine)
    requires s == InitialEngine.(personaId := "u4")
    requires !IsElevated(s)
    ensures VisibleAssets(s) == [InitialAssets[0], InitialAssets[1], InitialAssets[3], InitialAssets[4]]
  {
    SeedLevelA1U4();
    SeedLevelA3U4();
    ScientistAssetsGiven(s);
  }

  /** The Data Scientist is not elevated: sees only itself, every asset except the
      Critical API keys it is denied, and cannot change a cell. */
  lemma ScientistView(s: Engine)
    requires s == InitialEngine.(personaId := "u4")
    ensures !IsElevated(s)
    ensures VisibleActors(s) == [InitialActors[3]]
    ensures VisibleAssets(s) == [InitialAssets[0], InitialAssets[1], InitialAssets[3], InitialAssets[4]]
    ensures TogglePermission(s, "a3", "u4") == s
  {
    ScientistNotElevated(s);
    ScientistAssets(s);
    ScientistActors(s);
  }
}

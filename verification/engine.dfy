/** The component's state and what a user can do to it: the elevation check, the
    privilege-gated mutations and the need-to-know visibility filters
    (views/Cybersecurity.tsx:54-180). Every mutation returns a new state. */
module Engine {
  import opened Types
  import opened Seqs
  import opened Matrix
  import opened Policies

  /** The asset list, the actor list, the matrix and the simulated user. */
  datatype Engine = Engine(assets: seq<Asset>, actors: seq<Actor>, matrix: Matrix, personaId: string)

  /** `actors.find(a => a.id === id)`: the first actor with that id, if any. */
  function FindActor(actors: seq<Actor>, id: string): (r: Option<Actor>)
    ensures r.None? <==> forall k :: 0 <= k < |actors| ==> actors[k].id != id
    ensures r.Some? ==> exists k :: (0 <= k < |actors| && actors[k] == r.value && actors[k].id == id
                                     && forall j :: 0 <= j < k ==> actors[j].id != id)
  {
    if |actors| == 0 then None
    else if actors[0].id == id then Some(actors[0])
    else
      var r := FindActor(actors[1..], id);
      assert forall k :: 1 <= k < |actors| ==> actors[k] == actors[1..][k - 1];
      r
  }

  predicate PrivilegedRole(role: string)
  {
    role == Engineering || role == Audit
  }

  /** `isElevatedRole`: the persona is found and its role is Engineering or Audit. An
      unknown persona is not elevated. */
  function IsElevated(s: Engine): (r: bool)
    ensures r <==> exists k :: (0 <= k < |s.actors| && s.actors[k].id == s.personaId
                                && (forall j :: 0 <= j < k ==> s.actors[j].id != s.personaId)
                                && PrivilegedRole(s.actors[k].role))
  {
    match FindActor(s.actors, s.personaId)
    case None => false
    case Some(persona) => persona.role == "Engineering" || persona.role == "Audit"
  }

  function CurrentViolations(s: Engine): seq<Violation>
  {
    Violations(s.assets, s.actors, s.matrix)
  }

  // ---------------------------------------------------------------------------
  // Single-cell mutations
  // ---------------------------------------------------------------------------

  /** `remediate`: an elevated user writes a level into one cell; anyone else changes
      nothing. No other cell, and neither list, changes. */
  function Remediate(s: Engine, assetId: string, actorId: string, recommendation: Permission): (r: Engine)
    ensures r.assets == s.assets && r.actors == s.actors && r.personaId == s.personaId
    ensures !IsElevated(s) ==> r == s
    ensures IsElevated(s) ==> Entry(r.matrix, assetId, actorId) == Some(recommendation)
    ensures forall x, y :: x != assetId || y != actorId ==> Entry(r.matrix, x, y) == Entry(s.matrix, x, y)
  {
    if !IsElevated(s) then s
    else s.(matrix := SetCell(s.matrix, assetId, actorId, recommendation))
  }

  /** `togglePermission`: an elevated user moves one cell one step round the ring
      `Denied -> Read -> Write -> Admin -> Denied`, a missing entry counting as
      `Denied`; anyone else changes nothing. */
  function TogglePermission(s: Engine, assetId: string, actorId: string): (r: Engine)
    ensures r.assets == s.assets && r.actors == s.actors && r.personaId == s.personaId
    ensures !IsElevated(s) ==> r == s
    ensures IsElevated(s) ==>
      Rank(Lookup(r.matrix, assetId, actorId)) == (Rank(Lookup(s.matrix, assetId, actorId)) + 1) % 4
    ensures forall x, y :: x != assetId || y != actorId ==> Entry(r.matrix, x, y) == Entry(s.matrix, x, y)
  {
    if !IsElevated(s) then s
    else
      var current := Lookup(s.matrix, assetId, actorId);
      s.(matrix := SetCell(s.matrix, assetId, actorId, Next(current)))
  }

  /** `updateAssetRiskLevel`: an elevated user sets the risk level of every asset with
      the given id; ids, names, categories, the order of the list and everything else
      stay as they were. */
  function UpdateAssetRiskLevel(s: Engine, assetId: string, level: RiskLevel): (r: Engine)
    ensures r.actors == s.actors && r.matrix == s.matrix && r.personaId == s.personaId
    ensures !IsElevated(s) ==> r == s
    ensures |r.assets| == |s.assets|
    ensures forall i :: 0 <= i < |s.assets| ==>
      && r.assets[i].id == s.assets[i].id
      && r.assets[i].name == s.assets[i].name
      && r.assets[i].category == s.assets[i].category
      && r.assets[i].riskLevel == (if IsElevated(s) && s.assets[i].id == assetId then level else s.assets[i].riskLevel)
  {
    if !IsElevated(s) then s
    else
      s.(assets := seq(|s.assets|, i requires 0 <= i < |s.assets| =>
        if s.assets[i].id == assetId then s.assets[i].(riskLevel := level) else s.assets[i]))
  }

  // ---------------------------------------------------------------------------
  // Bulk remediation
  // ---------------------------------------------------------------------------

  /** The recommendation of the last violation of `vs` that names the cell, if any. */
  function LastWrite(vs: seq<Violation>, c: Cell): (r: Option<Permission>)
    ensures r.None? <==> forall k :: 0 <= k < |vs| ==> CellOf(vs[k]) != c
    ensures r.Some? ==> exists k :: (0 <= k < |vs| && CellOf(vs[k]) == c
                                     && r.value == vs[k].recommendation
                                     && forall j :: k < j < |vs| ==> CellOf(vs[j]) != c)
    decreases |vs|
  {
    if |vs| == 0 then None
    else if CellOf(vs[|vs| - 1]) == c then Some(vs[|vs| - 1].recommendation)
    else LastWrite(vs[..|vs| - 1], c)
  }

  /** Scanning from the front, a later write to the cell hides an earlier one. */
  lemma {:induction false} LastWriteCons(v: Violation, vs: seq<Violation>, c: Cell)
    ensures LastWrite([v] + vs, c) ==
      if LastWrite(vs, c).Some? then LastWrite(vs, c)
      else if CellOf(v) == c then Some(v.recommendation) else None
    decreases |vs|
  {
    if |vs| > 0 {
      assert ([v] + vs)[..|[v] + vs| - 1] == [v] + vs[..|vs| - 1];
      LastWriteCons(v, vs[..|vs| - 1], c);
    }
  }

  /** Applying every recommendation of `vs` in list order: each named cell ends at the
      recommendation of the last violation naming it; no other entry changes. */
  function ApplyAll(m: Matrix, vs: seq<Violation>): (r: Matrix)
    ensures forall x, y :: (Entry(r, x, y) ==
                             if LastWrite(vs, (x, y)).Some? then LastWrite(vs, (x, y)) else Entry(m, x, y))
    decreases |vs|
  {
    if |vs| == 0 then m
    else
      var v := vs[0];
      var r := ApplyAll(SetCell(m, v.assetId, v.actorId, v.recommendation), vs[1..]);
      assert vs == [v] + vs[1..];
      forall x, y
        ensures LastWrite(vs, (x, y)) ==
          if LastWrite(vs[1..], (x, y)).Some? then LastWrite(vs[1..], (x, y))
          else if CellOf(v) == (x, y) then Some(v.recommendation) else None
      {
        LastWriteCons(v, vs[1..], (x, y));
      }
      r
  }

  /** `autoRemediate`: for an elevated user with something to fix, snapshot the list,
      apply every recommendation in list order (last write wins per cell) and report
      the snapshot's length; otherwise change nothing. Both lists stay as they were. */
  function AutoRemediate(s: Engine): (r: (Engine, nat))
    ensures r.0.assets == s.assets && r.0.actors == s.actors && r.0.personaId == s.personaId
    ensures !IsElevated(s) || |CurrentViolations(s)| == 0 ==> r == (s, 0)
    ensures IsElevated(s) ==> r.1 == |CurrentViolations(s)|
    ensures forall x, y :: (Entry(r.0.matrix, x, y) ==
                             if IsElevated(s) && LastWrite(CurrentViolations(s), (x, y)).Some?
                             then LastWrite(CurrentViolations(s), (x, y)) else Entry(s.matrix, x, y))
  {
    var snapshot := Violations(s.assets, s.actors, s.matrix);
    if !IsElevated(s) || |snapshot| == 0 then (s, 0)
    else (s.(matrix := ApplyAll(s.matrix, snapshot)), |snapshot|)
  }

  // ---------------------------------------------------------------------------
  // Visibility
  // ---------------------------------------------------------------------------

  function IsPersona(personaId: string): Actor -> bool
  {
    (a: Actor) => a.id == personaId
  }

  /** The need-to-know rule for a non-elevated viewer: an asset is shown if the viewer
      holds some access to it or it is not Critical. */
  function NeedToKnow(m: Matrix, personaId: string): Asset -> bool
  {
    (a: Asset) => Lookup(m, a.id, personaId) != Denied || a.riskLevel != RiskLevel.Critical
  }

  /** `visibleActors`: everyone for an elevated viewer, otherwise only the actors with
      the persona's id; always an order-preserving sublist. */
  function VisibleActors(s: Engine): (r: seq<Actor>)
    ensures IsElevated(s) ==> r == s.actors
    ensures Sublist(r, s.actors)
    ensures !IsElevated(s) ==> forall a :: a in r <==> a in s.actors && a.id == s.personaId
    ensures !IsElevated(s) ==> forall a :: multiset(r)[a] == if a.id == s.personaId then multiset(s.actors)[a] else 0
  {
    if IsElevated(s) then
      SublistReflexive(s.actors);
      s.actors
    else
      FilterCounts(s.actors, IsPersona(s.personaId));
      Filter(s.actors, IsPersona(s.personaId))
  }

  /** `visibleAssets`: everything for an elevated viewer; otherwise an asset is shown
      iff the viewer's level on it is not `Denied` or its risk level is not Critical.
      Always an order-preserving sublist. */
  function VisibleAssets(s: Engine): (r: seq<Asset>)
    ensures IsElevated(s) ==> r == s.assets
    ensures Sublist(r, s.assets)
    ensures !IsElevated(s) ==> forall a :: a in r <==>
      a in s.assets && (Lookup(s.matrix, a.id, s.personaId) != Denied || a.riskLevel != RiskLevel.Critical)
    ensures !IsElevated(s) ==> forall a :: multiset(r)[a] ==
                                            (if Lookup(s.matrix, a.id, s.personaId) != Denied
                                                || a.riskLevel != RiskLevel.Critical
                                             then multiset(s.assets)[a] else 0)
  {
    if IsElevated(s) then
      SublistReflexive(s.assets);
      s.assets
    else
      FilterCounts(s.assets, NeedToKnow(s.matrix, s.personaId));
      Filter(s.assets, NeedToKnow(s.matrix, s.personaId))
  }

  // ---------------------------------------------------------------------------
  // Properties relating several operations
  // ---------------------------------------------------------------------------

  /** After an elevated user applies a reported violation's own recommendation, that
      rule no longer fires on that cell (other rules on the cell may still fire). */
  lemma RemediateClearsViolation(s: Engine, v: Violation)
    requires IsElevated(s)
    requires v in CurrentViolations(s)
    ensures forall w :: w in CurrentViolations(Remediate(s, v.assetId, v.actorId, v.recommendation)) ==>
      !(CellOf(w) == CellOf(v) && w.policy == v.policy)
  {
    ViolationsMembership(s.assets, s.actors, s.matrix, v);
    assert v.recommendation == RecommendationOf(v.policy);
    RecommendationClearsRule(s.assets, s.actors, s.matrix, v.assetId, v.actorId, v.policy);
  }

  function Toggle4(s: Engine, assetId: string, actorId: string): Engine
  {
    TogglePermission(TogglePermission(TogglePermission(TogglePermission(s, assetId, actorId),
      assetId, actorId), assetId, actorId), assetId, actorId)
  }

  /** For an elevated user, four toggles write the cell's current level back. */
  lemma Toggle4Writes(s: Engine, assetId: string, actorId: string)
    requires IsElevated(s)
    ensures Toggle4(s, assetId, actorId) ==
      s.(matrix := SetCell(s.matrix, assetId, actorId, Lookup(s.matrix, assetId, actorId)))
  {
    var m, p := s.matrix, Lookup(s.matrix, assetId, actorId);
    var m1 := SetCell(m, assetId, actorId, Next(p));
    assert Lookup(m1, assetId, actorId) == Next(p);
    var m2 := SetCell(m1, assetId, actorId, Next(Next(p)));
    assert Lookup(m2, assetId, actorId) == Next(Next(p));
    var m3 := SetCell(m2, assetId, actorId, Next(Next(Next(p))));
    assert Lookup(m3, assetId, actorId) == Next(Next(Next(p)));
    SetCellTwice(m, assetId, actorId, Next(p), Next(Next(p)));
    SetCellTwice(m, assetId, actorId, Next(Next(p)), Next(Next(Next(p))));
    SetCellTwice(m, assetId, actorId, Next(Next(Next(p))), Next(Next(Next(Next(p)))));
    NextFourTimes(p);
  }

  /** Someone who is not elevated toggles nothing. */
  lemma Toggle4Idle(s: Engine, assetId: string, actorId: string)
    requires !IsElevated(s)
    ensures Toggle4(s, assetId, actorId) == s
  {
  }

  /** Four toggles of one cell, whoever makes them, write its level back or do nothing. */
  lemma Toggle4Shape(s: Engine, assetId: string, actorId: string)
    ensures Toggle4(s, assetId, actorId) ==
      if IsElevated(s) then s.(matrix := SetCell(s.matrix, assetId, actorId, Lookup(s.matrix, assetId, actorId)))
      else s
  {
    if IsElevated(s) {
      Toggle4Writes(s, assetId, actorId);
    } else {
      Toggle4Idle(s, assetId, actorId);
    }
  }

  /** Four toggles of one cell restore every level and leave both lists alone; when the
      cell had an explicit entry the state is exactly restored. */
  lemma ToggleFourTimes(s: Engine, assetId: string, actorId: string)
    ensures Toggle4(s, assetId, actorId).assets == s.assets
    ensures Toggle4(s, assetId, actorId).actors == s.actors
    ensures SameLevels(Toggle4(s, assetId, actorId).matrix, s.matrix)
    ensures Entry(s.matrix, assetId, actorId).Some? ==> Toggle4(s, assetId, actorId) == s
  {
    Toggle4Shape(s, assetId, actorId);
    SetCellCurrentLevels(s.matrix, assetId, actorId);
    if Entry(s.matrix, assetId, actorId).Some? {
      SetCellToCurrent(s.matrix, assetId, actorId);
    }
  }

  /** So the violation list after four toggles of one cell is the list before. */
  lemma ToggleFourTimesViolations(s: Engine, assetId: string, actorId: string)
    ensures CurrentViolations(Toggle4(s, assetId, actorId)) == CurrentViolations(s)
  {
    var t := Toggle4(s, assetId, actorId);
    ToggleFourTimes(s, assetId, actorId);
    assert AgreeOn(s.assets, s.actors, t.matrix, s.matrix);
    ViolationsCongruent(s.assets, s.actors, t.matrix, s.matrix);
  }

  /** Toggling a missing entry has exactly the effect of toggling an explicit `Denied`:
      the same resulting state for an elevated user, and the same levels everywhere
      for anyone. */
  lemma ToggleMissingLikeDenied(s: Engine, assetId: string, actorId: string)
    requires Entry(s.matrix, assetId, actorId) == None
    ensures IsElevated(s) ==>
              TogglePermission(s, assetId, actorId) ==
              TogglePermission(s.(matrix := SetCell(s.matrix, assetId, actorId, Denied)), assetId, actorId)
    ensures SameLevels(TogglePermission(s, assetId, actorId).matrix,
      TogglePermission(s.(matrix := SetCell(s.matrix, assetId, actorId, Denied)), assetId, actorId).matrix)
  {
    var s' := s.(matrix := SetCell(s.matrix, assetId, actorId, Denied));
    assert IsElevated(s') == IsElevated(s);
    assert Lookup(s'.matrix, assetId, actorId) == Denied == Lookup(s.matrix, assetId, actorId);
    SetCellTwice(s.matrix, assetId, actorId, Denied, Next(Denied));
    if IsElevated(s) {
      assert TogglePermission(s, assetId, actorId) ==
        s.(matrix := SetCell(s.matrix, assetId, actorId, Next(Denied)));
      assert TogglePermission(s', assetId, actorId) ==
        s.(matrix := SetCell(s'.matrix, assetId, actorId, Next(Denied)));
    }
  }

  /** A missing entry hides a Critical asset from a non-elevated viewer exactly as an
      explicit `Denied` does. */
  lemma VisibilityMissingLikeDenied(s: Engine, assetId: string, actorId: string)
    requires Entry(s.matrix, assetId, actorId) == None
    ensures VisibleAssets(s) == VisibleAssets(s.(matrix := SetCell(s.matrix, assetId, actorId, Denied)))
    ensures VisibleActors(s) == VisibleActors(s.(matrix := SetCell(s.matrix, assetId, actorId, Denied)))
  {
    var s' := s.(matrix := SetCell(s.matrix, assetId, actorId, Denied));
    assert IsElevated(s') == IsElevated(s);
    assert forall x, y :: Lookup(s'.matrix, x, y) == Lookup(s.matrix, x, y);
    FilterCongruent(s.assets, NeedToKnow(s.matrix, s.personaId), NeedToKnow(s'.matrix, s.personaId));
  }

  /** Setting the same risk level twice is the same as setting it once. */
  lemma UpdateAssetRiskLevelIdempotent(s: Engine, assetId: string, level: RiskLevel)
    ensures UpdateAssetRiskLevel(UpdateAssetRiskLevel(s, assetId, level), assetId, level) ==
      UpdateAssetRiskLevel(s, assetId, level)
  {
    var once := UpdateAssetRiskLevel(s, assetId, level);
    var twice := UpdateAssetRiskLevel(once, assetId, level);
    assert IsElevated(once) == IsElevated(s);
    assert twice.assets == once.assets;
  }

  /** Lowering an asset below Critical, as an elevated user, silences P4 for it: no
      P4 warning names the asset afterwards. */
  lemma LowerRiskClearsP4(s: Engine, assetId: string, level: RiskLevel, v: Violation)
    requires IsElevated(s)
    requires level != RiskLevel.Critical
    requires v in CurrentViolations(UpdateAssetRiskLevel(s, assetId, level))
    requires v.assetId == assetId
    ensures v.policy != P4
  {
    var t := UpdateAssetRiskLevel(s, assetId, level);
    ViolationsMembership(t.assets, t.actors, t.matrix, v);
    var i, j :| 0 <= i < |t.assets| && 0 <= j < |t.actors|
      && v == Expected(t.assets[i], t.actors[j], v.policy)
      && Fires(v.policy, t.assets[i], t.actors[j], t.actors, t.matrix);
    assert t.assets[i].riskLevel == level;
  }
}

# Access-control policy engine

A Dafny model of the access-control policy engine of the Cybersecurity view
(`views/Cybersecurity.tsx`, with the records of `types.ts`). The view keeps an asset list,
an actor list and a sparse permission matrix. A missing matrix entry means `Denied`. It
also keeps a simulated persona. From these it derives:

- an ordered list of policy violations (rules P1-P4);
- a 0-100 health score;
- a per-cell grouping of the violations;
- the actors and assets that the persona may see.

An elevated persona has the Engineering or Audit role. Anyone may switch the persona,
but only an elevated persona may change the assets or the matrix. It can:

- write one cell (`remediate`);
- step one cell round the ring `Denied -> Read -> Write -> Admin -> Denied`
  (`togglePermission`);
- apply every violation's recommendation at once (`autoRemediate`);
- change an asset's risk level (`updateAssetRiskLevel`).

The model is functional. Each mutation is a privilege-gated function that returns a new
`Engine` state.

Modules, one per concern of the view:

- `Types`: the permission, category and risk-level enums, and the asset and actor
  records.
- `Seqs`: order-preserving filtering (`Array.prototype.filter`).
- `Matrix`: the sparse matrix, the defaulted lookup, cell writes and the permission ring.
- `Policies`: the rule evaluation, branch for branch. It also holds an independent table
  of what each rule demands, plus lemmas that tie the two together.
- `Scoring`: the penalty sum and the clamped score.
- `Grouping`: the per-cell grouping.
- `Engine`: the state, the elevation check, the mutations and the visibility filters.
- `Seed`: the seed data and concrete scenarios computed from it.

The P4 rule fires when a Critical asset has more than one admin. The policy description
shown in the view (`views/Cybersecurity.tsx:51`) says "more than 2". The model follows the
code's `adminCount > 1` (`views/Cybersecurity.tsx:103`). `Seed.SecondAdminScenario` shows
the warning firing at two admins.

## Model

| member | source | states |
|---|---|---|
| Seqs.Filter | views/Cybersecurity.tsx:179-180 | The kept elements form an order-preserving sublist of the input; an element is kept iff it is in the input and satisfies the predicate; the result is no longer than the input |
| Seqs.FilterMultiplicity | views/Cybersecurity.tsx:179-180 | A kept element keeps its number of occurrences; a dropped one occurs zero times |
| Seqs.FilterCongruent | views/Cybersecurity.tsx:180 | Two predicates that agree on every element of the list filter it identically |
| Seqs.FilterConcat | views/Cybersecurity.tsx:179-180 | Filtering distributes over concatenation |
| Matrix.SetCell | views/Cybersecurity.tsx:161-167 | Writing a cell makes that entry explicit with the written level, leaves every other entry (present or missing) as it was, and adds only the written asset id as a row key |
| Matrix.SetCellTwice | views/Cybersecurity.tsx:161-167 | A second write to the same cell overrides the first |
| Matrix.SetCellCurrentLevels | views/Cybersecurity.tsx:173-175 | Writing a cell's own defaulted level back changes no level anywhere, even where the entry was missing |
| Matrix.SetCellToCurrent | views/Cybersecurity.tsx:173-175 | Writing back an explicit entry's own level leaves the matrix identical |
| Matrix.IndexOf | views/Cybersecurity.tsx:174 | `indexOf`: -1 iff the level is absent, otherwise the first position holding it |
| Matrix.Lookup | views/Cybersecurity.tsx:75 | The `|| 'Denied'` fallback applies only to a missing entry: the level is Denied iff the entry is missing or an explicit Denied, and any other level is the stored one |
| Matrix.RawAdminAgreesWithLookup | views/Cybersecurity.tsx:105 | Testing the raw entry for `Admin` gives the same answer as testing the defaulted level |
| Matrix.Next | views/Cybersecurity.tsx:174 | The next level's rank is the current rank plus one, modulo 4 |
| Matrix.NextRing | views/Cybersecurity.tsx:29 | The ring is Denied to Read to Write to Admin and back to Denied |
| Matrix.NextFourTimes | views/Cybersecurity.tsx:29 | Four steps round the ring return to the starting level |
| Policies.CellViolations | views/Cybersecurity.tsx:78-100 | A violation is reported for one cell iff it is the table's P1, P2 or P3 entry for that cell, with the table's severity and fix, and that rule's condition holds on the defaulted level; the cell's violations appear in P1, P2, P3 order |
| Policies.ActorsPass | views/Cybersecurity.tsx:74-101 | The first pass reports only violations of the asset, never P4 |
| Policies.AdminPass | views/Cybersecurity.tsx:104-112 | The second pass reports only P4 violations of the asset |
| Policies.AssetViolations | views/Cybersecurity.tsx:72-113 | Each asset's block names only that asset, and once a P4 appears everything after it in the block is P4 |
| Policies.AdminCountCountsAdmins | views/Cybersecurity.tsx:73-76 | The counter equals the number of listed actors whose level on the asset is Admin |
| Policies.AdminCountPositive | views/Cybersecurity.tsx:73-76 | The admin count is positive iff some listed actor holds Admin |
| Policies.AdminCountAboveOne | views/Cybersecurity.tsx:73-76 | The admin count exceeds one iff two different positions of the actor list hold Admin on the asset |
| Policies.ActorsPassMembership | views/Cybersecurity.tsx:74-101 | A violation is in the first pass iff some listed actor's cell fires the table's P1, P2 or P3 entry for it |
| Policies.AdminPassMembership | views/Cybersecurity.tsx:104-112 | A violation is in the second pass iff it is the table's P4 entry for a listed actor that holds Admin and is not the exempt primary admin u1 |
| Policies.AssetViolationsMembership | views/Cybersecurity.tsx:72-113 | A violation is in an asset's block iff its rule fires on one of the asset's cells; for P4 that also needs the asset to be Critical with more than one admin |
| Policies.ViolationsMembership | views/Cybersecurity.tsx:69-117 | A violation is in the list iff it is the table's entry for some listed asset and actor whose rule fires there |
| Policies.Violations | views/Cybersecurity.tsx:69-117 | Every reported violation names one of the listed assets (the exact contents are `Policies.ViolationsMembership`) |
| Policies.ActorsPassConcat | views/Cybersecurity.tsx:74-101 | The first pass over two actor lists is the first pass over each, in order |
| Policies.AdminPassConcat | views/Cybersecurity.tsx:104-112 | The P4 warnings over two actor lists are those of each, in actor order |
| Policies.ViolationsConcat | views/Cybersecurity.tsx:72-114 | The list for two asset lists is the list for each, in order |
| Policies.ActorsPassOrder | views/Cybersecurity.tsx:74-101 | Within one asset's first pass, violations of earlier actors come before those of later actors |
| Policies.ViolationsOrder | views/Cybersecurity.tsx:72-114 | Violations of earlier assets come before those of later assets |
| Policies.ActorsPassCongruent | views/Cybersecurity.tsx:74-101 | The first pass depends only on the defaulted levels of the asset's row |
| Policies.AdminCountCongruent | views/Cybersecurity.tsx:73-76 | The admin count depends only on the defaulted levels of the asset's row |
| Policies.AdminPassCongruent | views/Cybersecurity.tsx:104-112 | The second pass, though it reads raw entries, depends only on the defaulted levels of the asset's row |
| Policies.AssetViolationsCongruent | views/Cybersecurity.tsx:72-113 | An asset's block depends only on the defaulted levels of its row |
| Policies.ViolationsCongruent | views/Cybersecurity.tsx:69-117 | The list depends only on the defaulted levels of the listed cells |
| Policies.MissingEntryIsDenied | views/Cybersecurity.tsx:75 | A missing entry gives exactly the list an explicit Denied gives |
| Policies.RecommendationClearsRule | views/Cybersecurity.tsx:78-113 | Writing a rule's own recommendation into a cell stops that rule firing on that cell |
| Scoring.TotalPenalty | views/Cybersecurity.tsx:131 | Every violation costs at least 2 |
| Scoring.SecurityScore | views/Cybersecurity.tsx:129-133 | The score is at most 100, and it is 100 iff there are no violations |
| Scoring.PenaltyGrowsWithSeverity | views/Cybersecurity.tsx:131 | A Critical violation costs more than a High one, which costs more than a Warning |
| Scoring.TotalPenaltyByCounts | views/Cybersecurity.tsx:131 | The penalty is 10 per Critical, 5 per High and 2 per Warning violation |
| Scoring.TotalPenaltyConcat | views/Cybersecurity.tsx:131 | The penalty of two lists together is the sum of their penalties |
| Scoring.ScoreAppend | views/Cybersecurity.tsx:129-133 | Appending one violation lowers the score by its penalty, stopping at 0 |
| Scoring.ScoreNeverRisesOnAppend | views/Cybersecurity.tsx:129-133 | Appending violations never raises the score |
| Scoring.ScoreMonotoneInSeverity | views/Cybersecurity.tsx:131-132 | Appending a more severe violation leaves a score no higher than appending a milder one |
| Grouping.GroupInto | views/Cybersecurity.tsx:121-125 | The loop adds a key for every cell the list names; each cell's group becomes its old group followed by that cell's violations in list order |
| Grouping.PushAppends | views/Cybersecurity.tsx:123-124 | A push appends the violation to its own cell's group and to no other |
| Grouping.ViolationMap | views/Cybersecurity.tsx:119-127 | The keys are exactly the cells named by some violation; each key's group is exactly that cell's violations in list order and is never empty |
| Engine.FindActor | views/Cybersecurity.tsx:66 | None iff no actor has the id; otherwise the first actor with that id |
| Engine.IsElevated | views/Cybersecurity.tsx:66-67 | Elevated iff the first actor with the persona's id has the Engineering or Audit role; an unknown persona is not elevated |
| Engine.Remediate | views/Cybersecurity.tsx:159-168 | Not elevated: nothing changes. Elevated: the cell holds the given level. Either way no other entry changes and the lists and persona stay the same |
| Engine.TogglePermission | views/Cybersecurity.tsx:170-177 | Not elevated: nothing changes. Elevated: the cell's rank advances by one modulo 4. Either way no other entry changes and the lists and persona stay the same |
| Engine.UpdateAssetRiskLevel | views/Cybersecurity.tsx:135-138 | Not elevated: nothing changes. Elevated: exactly the assets with that id take the new level. Order, ids, names, categories, actors and matrix stay the same |
| Engine.LastWrite | views/Cybersecurity.tsx:147-150 | None iff no violation names the cell; otherwise the recommendation of the last violation naming it |
| Engine.LastWriteCons | views/Cybersecurity.tsx:147-150 | Scanning from the front, a later write to the cell hides an earlier one |
| Engine.ApplyAll | views/Cybersecurity.tsx:146-150 | Applying the list in order leaves each named cell at its last write and every other entry as it was |
| Engine.AutoRemediate | views/Cybersecurity.tsx:140-156 | Not elevated, or nothing to fix: nothing changes and the count is 0. Elevated: the count is the snapshot's length, each named cell ends at its last recommendation, and every other entry and both lists are unchanged |
| Engine.VisibleActors | views/Cybersecurity.tsx:179 | Elevated viewers see every actor. Others see exactly the actors with their own id, each as many times as it occurs. The result is always an order-preserving sublist |
| Engine.VisibleAssets | views/Cybersecurity.tsx:180 | Elevated viewers see every asset. Others see an asset iff their level on it is not Denied or it is not Critical, each as many times as it occurs. The result is always an order-preserving sublist |
| Engine.RemediateClearsViolation | views/Cybersecurity.tsx:159-168 | After an elevated user applies a reported violation's recommendation, that rule no longer fires on that cell |
| Engine.ToggleFourTimes | views/Cybersecurity.tsx:170-177 | Four toggles of one cell restore every level and keep both lists; with an explicit entry the state is exactly restored |
| Engine.ToggleFourTimesViolations | views/Cybersecurity.tsx:170-177 | The violation list after four toggles of one cell is the list before |
| Engine.ToggleMissingLikeDenied | views/Cybersecurity.tsx:173 | Toggling a missing entry has the same effect as toggling an explicit Denied |
| Engine.VisibilityMissingLikeDenied | views/Cybersecurity.tsx:179-180 | A missing entry hides or shows assets and actors exactly as an explicit Denied does |
| Engine.UpdateAssetRiskLevelIdempotent | views/Cybersecurity.tsx:135-138 | Setting the same risk level twice equals setting it once |
| Engine.LowerRiskClearsP4 | views/Cybersecurity.tsx:103-113 | After an elevated user lowers an asset below Critical, no P4 warning names that asset |
| Seed.SeedPersonaElevated | views/Cybersecurity.tsx:58-67 | The seed persona, the Technical Architect, is elevated |
| Seed.SeedViolations | views/Cybersecurity.tsx:5-27 | The seed's only violation is P2 on (a4, u3), High, recommending Read; the score is 95 |
| Seed.CycledScenario | views/Cybersecurity.tsx:170-177 | Three toggles of (a1, u3) give P2, P3 and P4 on that cell, then the seed's P2; the score is 83 |
| Seed.BulkScenario | views/Cybersecurity.tsx:140-156 | Bulk remediation of that state reports 4 fixes. (a1, u3) ends at Write, the last of Read, Write, Write. The new list still has P2 on (a1, u3) |
| Seed.SecretWriteScenario | views/Cybersecurity.tsx:78-84 | Two toggles give the Data Scientist Write on the API keys. That adds one Critical P1 recommending Denied, and the score is 85 |
| Seed.SecondAdminScenario | views/Cybersecurity.tsx:103-113 | A second admin on the Critical model weights draws one P3 and exactly one P4, for that admin and not for u1 |
| Seed.ScientistView | views/Cybersecurity.tsx:179-180 | The Data Scientist is not elevated. They see only themselves and every asset but the Critical API keys, and cannot toggle |

## Left out

- The rendered view is not modelled: markup, CSS classes, colours, tooltips, the policy
  descriptions and the score colour thresholds. None of it affects the engine's state.
- Violation messages are free text built from names. A violation is modelled as
  (asset id, actor id, rule, severity, recommendation).
- Timing is not modelled: the 800 ms wait, the 4000 ms reset of the displayed fix count
  and the `remediating` flag. Bulk remediation is one atomic step. Nothing in the engine
  locks the other mutations while it runs: the lock exists only as disabled buttons.
- `Engine.AutoRemediate` returns a fix count of 0 when it does nothing. The view instead
  leaves its display counter untouched in that case.
- The grouping key of the view is the string `assetId-actorId`, which can collide when
  ids contain `-`. The model keys groups by the (asset id, actor id) pair.
- Ids are assumed not to name members that every JavaScript object inherits (`constructor`,
  `toString`, `__proto__` and the like). For such an actor id with no own entry, the view's
  lookup finds the inherited member, not a missing entry. Two things would then differ.
  `Engine.VisibleAssets` would hide a Critical asset that the view shows, because the inherited
  member is truthy and is not `Denied`. `Engine.TogglePermission` would write `Read` where the
  view writes `Denied`, because `indexOf` of the inherited member is -1. Rule evaluation is
  unaffected. The view never creates ids, so the seed ids are the only ones.
- The new-asset form state is left out: no operation uses it.
- Choosing the persona is not an operation. It is a field of the state.
- Rendering `violationMap` is left out; only the grouping itself is modelled.
- The generative-AI service and the other views of the application are not part of this
  model. They are network calls, static mock data or timers.
- `Seed.ScientistView`: the toggle claim is checked for one cell, (a3, u4), not for all
  cells. `Engine.TogglePermission` states the general no-op for a viewer who is not
  elevated.

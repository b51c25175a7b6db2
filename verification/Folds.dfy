/** Rolling-origin folds and the gates that keep the holdout season, the tested card
    and everything after the cutoff out of training. */
module Folds {
  import opened Prelude
  import opened Splits

  // ----- folds -----

  function EarlierThan(test: EventGroup): EventGroup -> bool {
    (g: EventGroup) => g.eventId != test.eventId && g.start < test.cutoff
  }

  function IdOf(): EventGroup -> string { (g: EventGroup) => g.eventId }

  function StartOf(): EventGroup -> int { (g: EventGroup) => g.start }

  function Latest(times: seq<int>): Option<int> {
    if times == [] then None else
      var before := Latest(Front(times));
      if before.None? || Last(times) > before.value then Some(Last(times)) else before
  }

  function FoldOf(test: EventGroup, trained: seq<EventGroup>): Fold {
    Fold(test.eventId, test.role, test.boutIds, test.cutoff,
         Latest(Map(StartOf(), trained)), Map(IdOf(), trained))
  }

  /** The fold the outer plan builds for a development or validation card. */
  function OuterFold(test: EventGroup, groups: seq<EventGroup>): Fold {
    FoldOf(test, Filter(EarlierThan(test), groups))
  }

  function OpenAndEarlierThan(test: EventGroup): EventGroup -> bool {
    (g: EventGroup) => g.start < test.cutoff && !g.role.Holdout?
  }

  /** The fold the engine builds for a holdout card once it is unsealed. */
  function HoldoutFold(test: EventGroup, groups: seq<EventGroup>): Fold {
    FoldOf(test, Filter(OpenAndEarlierThan(test), groups))
  }

  function FoldFor(test: EventGroup, groups: seq<EventGroup>): Fold {
    if test.role.Holdout? then HoldoutFold(test, groups) else OuterFold(test, groups)
  }

  // ----- gates -----

  /** A train id is refused when it is a holdout id or belongs to a locked season;
      an empty list of locked seasons falls back to the holdout year. */
  predicate HoldoutNotInTrain(
    trainIds: seq<string>, seasons: map<string, int>, holdoutIds: seq<string>, holdoutSeasons: seq<int>)
  {
    var locked := if holdoutSeasons == [] then [HOLDOUT_SEASON] else holdoutSeasons;
    forall i | 0 <= i < |trainIds| ::
      trainIds[i] !in holdoutIds && (trainIds[i] in seasons ==> seasons[trainIds[i]] !in locked)
  }

  predicate CutoffBeforeResults(maxTrain: Option<int>, cutoff: int) {
    maxTrain.None? || maxTrain.value < cutoff
  }

  predicate SameCardNotInTrain(testId: string, trainIds: seq<string>) { testId !in trainIds }

  // ----- the in-engine gate data -----

  function IsHoldout(): EventGroup -> bool { (g: EventGroup) => g.role.Holdout? }

  function HoldoutIds(groups: seq<EventGroup>): seq<string> { Map(IdOf(), Filter(IsHoldout(), groups)) }

  function SeasonsOf(groups: seq<EventGroup>): map<string, int> {
    if groups == [] then map[] else SeasonsOf(Front(groups))[Last(groups).eventId := Last(groups).season]
  }

  predicate EngineGate(trainIds: seq<string>, groups: seq<EventGroup>) {
    HoldoutNotInTrain(trainIds, SeasonsOf(groups), HoldoutIds(groups), [HOLDOUT_SEASON])
  }

  lemma {:induction false} SeasonsLookup(groups: seq<EventGroup>, id: string)
    ensures id in SeasonsOf(groups) ==> exists g :: g in groups && g.eventId == id && g.season == SeasonsOf(groups)[id]
    ensures (exists g :: g in groups && g.eventId == id) ==> id in SeasonsOf(groups)
  {
    if groups != [] {
      SeasonsLookup(Front(groups), id);
      Split(groups);
      assert Last(groups) in groups;
    }
  }

  ghost predicate IsHoldoutId(id: string, groups: seq<EventGroup>) {
    exists g :: g in groups && g.eventId == id && g.role.Holdout?
  }

  /** Passing the gate means exactly that no id names a holdout card: season and
      role agree on every grouped card. */
  lemma {:induction false} GateMeansNoHoldout(year: Calendar, trainIds: seq<string>, groups: seq<EventGroup>)
    requires WellGrouped(year, groups)
    ensures EngineGate(trainIds, groups) <==> forall id | id in trainIds :: !IsHoldoutId(id, groups)
  {
    HoldoutIdsMean(groups);
    forall id
      ensures id in SeasonsOf(groups) && SeasonsOf(groups)[id] == HOLDOUT_SEASON ==> IsHoldoutId(id, groups)
    {
      SeasonsLookup(groups, id);
    }
    if EngineGate(trainIds, groups) {
      forall id | id in trainIds
        ensures !IsHoldoutId(id, groups)
      {
        var i :| 0 <= i < |trainIds| && trainIds[i] == id;
      }
    }
  }

  lemma HoldoutIdsMean(groups: seq<EventGroup>)
    ensures forall id :: id in HoldoutIds(groups) <==> IsHoldoutId(id, groups)
  {
    var held := Filter(IsHoldout(), groups);
    FilterMembers(IsHoldout(), groups);
    forall id
      ensures id in HoldoutIds(groups) <==> IsHoldoutId(id, groups)
    {
      if id in HoldoutIds(groups) {
        var i :| 0 <= i < |held| && HoldoutIds(groups)[i] == id;
        assert held[i] in groups;
      }
      if IsHoldoutId(id, groups) {
        var g :| g in groups && g.eventId == id && g.role.Holdout?;
        assert g in held;
        var i :| 0 <= i < |held| && held[i] == g;
        assert HoldoutIds(groups)[i] == id;
      }
    }
  }

  lemma UniqueGroup(year: Calendar, groups: seq<EventGroup>, g: EventGroup, h: EventGroup)
    requires WellGrouped(year, groups) && g in groups && h in groups && g.eventId == h.eventId
    ensures g == h
  {
    var i :| 0 <= i < |groups| && groups[i] == g;
    var j :| 0 <= j < |groups| && groups[j] == h;
    assert i == j;
  }

  lemma {:induction false} LatestIsMaximum(times: seq<int>)
    ensures Latest(times).None? <==> times == []
    ensures times != [] ==> Latest(times).value in times && forall t | t in times :: t <= Latest(times).value
  {
    if times != [] {
      LatestIsMaximum(Front(times));
      Split(times);
    }
  }

  lemma TrainedBefore(test: EventGroup, trained: seq<EventGroup>)
    requires forall g | g in trained :: g.start < test.cutoff
    ensures CutoffBeforeResults(FoldOf(test, trained).maxTrain, test.cutoff)
  {
    var starts := Map(StartOf(), trained);
    LatestIsMaximum(starts);
    if starts != [] {
      var i :| 0 <= i < |starts| && starts[i] == Latest(starts).value;
      assert trained[i] in trained;
    }
  }

  /** A card of a development or validation season never sees a holdout card among
      the cards that started before its cutoff. */
  lemma HoldoutIsLater(year: Calendar, test: EventGroup, g: EventGroup)
    requires Chronological(year) && GroupValid(year, test) && GroupValid(year, g)
    requires g.start < test.cutoff && !test.role.Holdout?
    ensures !g.role.Holdout?
  {
    assert g.start <= test.start;
    assert g.season <= test.season;
  }

  /** Every fold the engine uses, for open and for unsealed cards alike, trains only
      on open cards that started before the cutoff, and passes all three gates. */
  lemma {:induction false} EngineFoldsPassTheGates(year: Calendar, groups: seq<EventGroup>, test: EventGroup)
    requires Chronological(year) && WellGrouped(year, groups) && test in groups
    ensures var fold := FoldFor(test, groups);
            && EngineGate(fold.trainIds, groups)
            && CutoffBeforeResults(fold.maxTrain, fold.cutoff)
            && SameCardNotInTrain(test.eventId, fold.trainIds)
  {
    var keep := if test.role.Holdout? then OpenAndEarlierThan(test) else EarlierThan(test);
    var trained := Filter(keep, groups);
    FilterMembers(keep, groups);
    TrainedBefore(test, trained);
    GateMeansNoHoldout(year, Map(IdOf(), trained), groups);
    forall id | id in Map(IdOf(), trained)
      ensures !IsHoldoutId(id, groups) && id != test.eventId
    {
      var i :| 0 <= i < |trained| && trained[i].eventId == id;
      var g := trained[i];
      assert g in trained;
      if !test.role.Holdout? {
        HoldoutIsLater(year, test, g);
      }
      forall h | h in groups && h.eventId == id
        ensures h == g
      {
        UniqueGroup(year, groups, g, h);
      }
      if id == test.eventId {
        UniqueGroup(year, groups, g, test);
      }
    }
  }

  // ----- what the gates refuse -----

  ghost predicate InSeason(seasons: map<string, int>, id: string, locked: seq<int>) {
    id in seasons && seasons[id] in locked
  }

  /** The gate refuses exactly an id of a held-out card or of a locked season; with no locked
      seasons given, 2025 is locked. */
  lemma HoldoutGateMeans(
    trainIds: seq<string>, seasons: map<string, int>, holdoutIds: seq<string>, holdoutSeasons: seq<int>)
    ensures HoldoutNotInTrain(trainIds, seasons, holdoutIds, holdoutSeasons) <==>
              forall id | id in trainIds ::
                id !in holdoutIds && !InSeason(seasons, id, if holdoutSeasons == [] then [2025] else holdoutSeasons)
  {
    forall id | id in trainIds
      ensures exists i :: 0 <= i < |trainIds| && trainIds[i] == id
    {
    }
    assert forall i | 0 <= i < |trainIds| :: trainIds[i] in trainIds;
  }

  /** The cutoff gate refuses exactly a card that had not started before the cutoff. */
  lemma CutoffGateMeans(trained: seq<EventGroup>, cutoff: int)
    ensures CutoffBeforeResults(Latest(Map(StartOf(), trained)), cutoff) <==>
              forall g | g in trained :: g.start < cutoff
  {
    var starts := Map(StartOf(), trained);
    LatestIsMaximum(starts);
    forall g | g in trained
      ensures g.start in starts
    {
      var i :| 0 <= i < |trained| && trained[i] == g;
      assert starts[i] == g.start;
    }
    if starts != [] {
      var i :| 0 <= i < |starts| && starts[i] == Latest(starts).value;
      assert trained[i] in trained;
    }
  }

  // ----- which cards a fold trains on -----

  /** An open card that started before the cutoff of the tested one. */
  ghost predicate Precedes(g: EventGroup, test: EventGroup) { g.start < test.cutoff && !g.role.Holdout? }

  ghost predicate IsTrainId(id: string, groups: seq<EventGroup>, test: EventGroup) {
    exists g :: g in groups && g.eventId == id && Precedes(g, test)
  }

  /** The first id is that of an earlier card of the schedule than the second. */
  ghost predicate Scheduled(groups: seq<EventGroup>, first: string, second: string) {
    exists k, l :: 0 <= k < l < |groups| && groups[k].eventId == first && groups[l].eventId == second
  }

  /** The fold of a tested card: it trains on the open cards that started before the cutoff
      and on no other, listed once each in the order of the schedule, up to the last start
      among them. */
  ghost predicate IsTrainingFold(groups: seq<EventGroup>, test: EventGroup, fold: Fold) {
    && fold.testEventId == test.eventId && fold.testBoutIds == test.boutIds
    && fold.role == test.role && fold.cutoff == test.cutoff
    && (forall id :: id in fold.trainIds <==> IsTrainId(id, groups, test))
    && Distinct(fold.trainIds)
    && (forall i, j | 0 <= i < j < |fold.trainIds| :: Scheduled(groups, fold.trainIds[i], fold.trainIds[j]))
    && (fold.maxTrain.None? ==> forall g | g in groups :: !Precedes(g, test))
    && (fold.maxTrain.Some? ==>
          && (exists g :: g in groups && Precedes(g, test) && g.start == fold.maxTrain.value)
          && forall g | g in groups && Precedes(g, test) :: g.start <= fold.maxTrain.value)
  }

  lemma ScheduledOnce(year: Calendar, groups: seq<EventGroup>, a: string, b: string)
    requires WellGrouped(year, groups)
    ensures !(Scheduled(groups, a, b) && Scheduled(groups, b, a))
  {
  }

  lemma LaterPosition(year: Calendar, groups: seq<EventGroup>, xs: seq<string>, ys: seq<string>, i: int)
    requires WellGrouped(year, groups) && Distinct(xs) && Distinct(ys) && (forall id :: id in xs <==> id in ys)
    requires forall i, j | 0 <= i < j < |xs| :: Scheduled(groups, xs[i], xs[j])
    requires forall i, j | 0 <= i < j < |ys| :: Scheduled(groups, ys[i], ys[j])
    requires 0 <= i < |xs| && i <= |ys| && xs[..i] == ys[..i]
    ensures i < |ys| && xs[i] == ys[i]
  {
    forall m | 0 <= m < i
      ensures xs[m] == ys[m]
    {
      assert xs[..i][m] == ys[..i][m];
    }
    assert xs[i] in xs;
    var j :| 0 <= j < |ys| && ys[j] == xs[i];
    assert j >= i;
    if j > i {
      assert ys[i] in ys;
      var k :| 0 <= k < |xs| && xs[k] == ys[i];
      assert k > i;
      ScheduledOnce(year, groups, xs[i], ys[i]);
    }
  }

  lemma {:induction false} SamePrefix(
    year: Calendar, groups: seq<EventGroup>, xs: seq<string>, ys: seq<string>, i: nat)
    requires WellGrouped(year, groups) && Distinct(xs) && Distinct(ys) && (forall id :: id in xs <==> id in ys)
    requires forall i, j | 0 <= i < j < |xs| :: Scheduled(groups, xs[i], xs[j])
    requires forall i, j | 0 <= i < j < |ys| :: Scheduled(groups, ys[i], ys[j])
    requires i <= |xs|
    ensures i <= |ys| && xs[..i] == ys[..i]
  {
    if i > 0 {
      SamePrefix(year, groups, xs, ys, i - 1);
      LaterPosition(year, groups, xs, ys, i - 1);
    }
  }

  /** This leaves no choice: a tested card has one such fold. */
  lemma OneTrainingFold(year: Calendar, groups: seq<EventGroup>, test: EventGroup, f: Fold, h: Fold)
    requires WellGrouped(year, groups)
    requires IsTrainingFold(groups, test, f) && IsTrainingFold(groups, test, h)
    ensures f == h
  {
    SamePrefix(year, groups, f.trainIds, h.trainIds, |f.trainIds|);
    SamePrefix(year, groups, h.trainIds, f.trainIds, |h.trainIds|);
    assert f.trainIds == h.trainIds;
  }

  function Preceding(test: EventGroup): EventGroup -> bool {
    (g: EventGroup) => g.start < test.cutoff && !g.role.Holdout?
  }

  lemma FoldFiltersPreceding(year: Calendar, groups: seq<EventGroup>, test: EventGroup)
    requires Chronological(year) && WellGrouped(year, groups) && test in groups
    ensures FoldFor(test, groups) == FoldOf(test, Filter(Preceding(test), groups))
  {
    var keep := if test.role.Holdout? then OpenAndEarlierThan(test) else EarlierThan(test);
    forall g | g in groups
      ensures keep(g) == Preceding(test)(g)
    {
      if g.eventId == test.eventId {
        UniqueGroup(year, groups, g, test);
      }
      if g.start < test.cutoff && !test.role.Holdout? {
        HoldoutIsLater(year, test, g);
      }
    }
    FilterAgree(keep, Preceding(test), groups);
  }

  lemma TrainIdsMean(groups: seq<EventGroup>, test: EventGroup)
    ensures var ids := Map(IdOf(), Filter(Preceding(test), groups));
            forall id :: id in ids <==> IsTrainId(id, groups, test)
  {
    var trained := Filter(Preceding(test), groups);
    var ids := Map(IdOf(), trained);
    FilterMembers(Preceding(test), groups);
    forall id
      ensures id in ids <==> IsTrainId(id, groups, test)
    {
      if id in ids {
        var i :| 0 <= i < |ids| && ids[i] == id;
        assert trained[i] in trained;
      }
      if g :| g in groups && g.eventId == id && Precedes(g, test) {
        assert g in trained;
        var i :| 0 <= i < |trained| && trained[i] == g;
        assert ids[i] == id;
      }
    }
  }

  lemma TrainIdsScheduled(groups: seq<EventGroup>, test: EventGroup, i: int, j: int)
    requires 0 <= i < j < |Filter(Preceding(test), groups)|
    ensures var ids := Map(IdOf(), Filter(Preceding(test), groups));
            Scheduled(groups, ids[i], ids[j])
  {
    var k, l := FilterInOrder(Preceding(test), groups, i, j);
  }

  lemma LastStartTrained(groups: seq<EventGroup>, test: EventGroup)
    ensures var last := Latest(Map(StartOf(), Filter(Preceding(test), groups)));
            && (last.None? ==> forall g | g in groups :: !Precedes(g, test))
            && (last.Some? ==>
                  && (exists g :: g in groups && Precedes(g, test) && g.start == last.value)
                  && forall g | g in groups && Precedes(g, test) :: g.start <= last.value)
  {
    var trained := Filter(Preceding(test), groups);
    var starts := Map(StartOf(), trained);
    FilterMembers(Preceding(test), groups);
    LatestIsMaximum(starts);
    forall g | g in groups && Precedes(g, test)
      ensures g.start in starts
    {
      assert g in trained;
      var i :| 0 <= i < |trained| && trained[i] == g;
      assert starts[i] == g.start;
    }
    if starts != [] {
      var i :| 0 <= i < |starts| && starts[i] == Latest(starts).value;
      assert trained[i] in trained;
    }
  }

  /** Every fold that a scorer is given, for open and for unsealed cards alike. */
  lemma FoldsTrainOnThePast(year: Calendar, groups: seq<EventGroup>, test: EventGroup)
    requires Chronological(year) && WellGrouped(year, groups) && test in groups
    ensures IsTrainingFold(groups, test, FoldFor(test, groups))
  {
    var ids := Map(IdOf(), Filter(Preceding(test), groups));
    FoldFiltersPreceding(year, groups, test);
    TrainIdsMean(groups, test);
    LastStartTrained(groups, test);
    forall i, j | 0 <= i < j < |ids|
      ensures Scheduled(groups, ids[i], ids[j]) && ids[i] != ids[j]
    {
      TrainIdsScheduled(groups, test, i, j);
    }
  }

  // ----- training depends only on the past -----

  function StartedBefore(cutoff: int): EventGroup -> bool { (g: EventGroup) => g.start < cutoff }

  lemma {:induction false} FilterThroughPast(keep: EventGroup -> bool, groups: seq<EventGroup>, cutoff: int)
    requires forall g | keep(g) :: g.start < cutoff
    ensures Filter(keep, groups) == Filter(keep, Filter(StartedBefore(cutoff), groups))
  {
    if groups != [] {
      FilterThroughPast(keep, Front(groups), cutoff);
      var past := Filter(StartedBefore(cutoff), Front(groups));
      if Last(groups).start < cutoff {
        assert Front(past + [Last(groups)]) == past;
      }
    }
  }

  /** Two schedules with the same cards before the cutoff give the same fold. */
  lemma FoldDependsOnThePast(test: EventGroup, xs: seq<EventGroup>, ys: seq<EventGroup>)
    requires Filter(StartedBefore(test.cutoff), xs) == Filter(StartedBefore(test.cutoff), ys)
    ensures FoldFor(test, xs) == FoldFor(test, ys)
  {
    var keep := if test.role.Holdout? then OpenAndEarlierThan(test) else EarlierThan(test);
    FilterThroughPast(keep, xs, test.cutoff);
    FilterThroughPast(keep, ys, test.cutoff);
  }

  // ----- the outer plan -----

  /** The outer plan has one fold per development or validation card, in order. */
  function OuterPlan(groups: seq<EventGroup>, all: seq<EventGroup>): seq<Fold> {
    if groups == [] then [] else
      var rest := OuterPlan(Front(groups), all);
      if Last(groups).role.Holdout? then rest else rest + [OuterFold(Last(groups), all)]
  }

  ghost predicate IsPlannedFold(groups: seq<EventGroup>, fold: Fold) {
    exists test :: test in groups && !test.role.Holdout? && IsTrainingFold(groups, test, fold)
  }

  lemma {:induction false} PlanTrainsOnThePast(year: Calendar, groups: seq<EventGroup>, all: seq<EventGroup>)
    requires Chronological(year) && WellGrouped(year, all) && forall g | g in groups :: g in all
    ensures forall fold | fold in OuterPlan(groups, all) :: IsPlannedFold(all, fold)
    ensures |OuterPlan(groups, all)| + Count(IsHoldout(), groups) == |groups|
  {
    if groups != [] {
      var test := Last(groups);
      Split(groups);
      PlanTrainsOnThePast(year, Front(groups), all);
      assert test in groups;
      FoldsTrainOnThePast(year, all, test);
    }
  }

  datatype PlanError = TrainNotBeforeCutoff(id: string) | SameEventLeakage(id: string)

  /** Neither error can occur on grouped cards. */
  method BuildOuterPlan(year: Calendar, groups: seq<EventGroup>) returns (r: Result<seq<Fold>, PlanError>)
    requires WellGrouped(year, groups)
    ensures r == Ok(OuterPlan(groups, groups))
    ensures Chronological(year) ==> forall fold | fold in r.value :: IsPlannedFold(groups, fold)
    ensures Chronological(year) ==> |r.value| + Count(IsHoldout(), groups) == |groups|
  {
    var folds: seq<Fold> := [];
    for i := 0 to |groups|
      invariant folds == OuterPlan(groups[..i], groups)
    {
      Prefix(groups, i);
      var test := groups[i];
      if test.role.Holdout? {
        continue;
      }
      var trained := EligibleTrain(test, groups);
      FilterMembers(EarlierThan(test), groups);
      TrainedBefore(test, trained);
      NotInOwnTraining(test, trained);
      var fold := FoldOf(test, trained);
      if !CutoffBeforeResults(fold.maxTrain, test.cutoff) {
        return Err(TrainNotBeforeCutoff(test.eventId));
      }
      if !SameCardNotInTrain(test.eventId, fold.trainIds) {
        return Err(SameEventLeakage(test.eventId));
      }
      folds := folds + [fold];
    }
    assert groups[..|groups|] == groups;
    if Chronological(year) {
      PlanTrainsOnThePast(year, groups, groups);
    }
    r := Ok(folds);
  }

  lemma NotInOwnTraining(test: EventGroup, trained: seq<EventGroup>)
    requires forall g | g in trained :: g.eventId != test.eventId
    ensures SameCardNotInTrain(test.eventId, Map(IdOf(), trained))
  {
    forall i | 0 <= i < |trained|
      ensures trained[i].eventId != test.eventId
    {
      assert trained[i] in trained;
    }
  }

  method EligibleTrain(test: EventGroup, groups: seq<EventGroup>) returns (trained: seq<EventGroup>)
    ensures trained == Filter(EarlierThan(test), groups)
  {
    trained := [];
    for i := 0 to |groups|
      invariant trained == Filter(EarlierThan(test), groups[..i])
    {
      Prefix(groups, i);
      if groups[i].eventId == test.eventId {
        continue;
      }
      if groups[i].start >= test.cutoff {
        continue;
      }
      trained := trained + [groups[i]];
    }
    assert groups[..|groups|] == groups;
  }

  /** The plan's fold for an event, as a lookup by tested event finds it. */
  function PlanLookup(folds: seq<Fold>, id: string): Option<Fold> {
    if folds == [] then None
    else if Last(folds).testEventId == id then Some(Last(folds))
    else PlanLookup(Front(folds), id)
  }

  lemma {:induction false} LookupFindsOuterFold(
    year: Calendar, groups: seq<EventGroup>, all: seq<EventGroup>, test: EventGroup)
    requires WellGrouped(year, groups) && test in groups
    ensures PlanLookup(OuterPlan(groups, all), test.eventId)
         == if test.role.Holdout? then None else Some(OuterFold(test, all))
  {
    var front, last := Front(groups), Last(groups);
    Split(groups);
    assert WellGrouped(year, front) by {
      assert forall i | 0 <= i < |front| :: front[i] == groups[i];
    }
    if last == test {
      forall g | g in front
        ensures g.eventId != test.eventId
      {
        var i :| 0 <= i < |front| && front[i] == g;
        assert groups[i] == g;
      }
      LookupFindsNothing(front, all, test.eventId);
      if !last.role.Holdout? {
        assert Last(OuterPlan(groups, all)) == OuterFold(test, all);
      }
    } else {
      LookupFindsOuterFold(year, front, all, test);
      var i :| 0 <= i < |front| && front[i] == test;
      assert groups[i].eventId != groups[|groups| - 1].eventId;
      var rest := OuterPlan(front, all);
      if !last.role.Holdout? {
        assert Front(rest + [OuterFold(last, all)]) == rest;
      }
    }
  }

  lemma {:induction false} LookupFindsNothing(groups: seq<EventGroup>, all: seq<EventGroup>, id: string)
    requires forall g | g in groups :: g.eventId != id
    ensures PlanLookup(OuterPlan(groups, all), id).None?
  {
    if groups != [] {
      LookupFindsNothing(Front(groups), all, id);
      var rest := OuterPlan(Front(groups), all);
      assert Front(rest + [OuterFold(Last(groups), all)]) == rest;
    }
  }
}

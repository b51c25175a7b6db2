/** Event-grouped rolling-origin folds: one card is one test unit, and training uses
    only cards that started before the tested card's cutoff. */
module Splits {
  import opened Prelude

  datatype Role = Development | Validation | Holdout

  datatype Variant = Standard | Brazil

  /** Times are minutes on one UTC clock. */
  datatype Card = Card(eventId: string, scheduledStart: Option<int>, variant: Variant, boutIds: seq<string>)

  datatype EventGroup = EventGroup(
    eventId: string, cutoff: int, start: int, season: int, role: Role, variant: Variant, boutIds: seq<string>)

  datatype Fold = Fold(
    testEventId: string, role: Role, testBoutIds: seq<string>, cutoff: int,
    maxTrain: Option<int>, trainIds: seq<string>)

  datatype SplitError =
    | NoCards | DuplicateEvent(id: string) | NoBouts(id: string) | DuplicateBouts(id: string)
    | MissingStart(id: string) | SeasonOutsideWindows(season: int)

  const CUTOFF_MINUTES := 60

  /** The year in which an instant falls; later instants never fall in earlier years. */
  type Calendar = int -> int

  ghost predicate Chronological(year: Calendar) { forall s: int, t: int | s <= t :: year(s) <= year(t) }

  const HOLDOUT_SEASON := 2025

  function RoleForSeason(season: int): Result<Role, SplitError> {
    if 2017 <= season <= 2023 then Ok(Development)
    else if season == 2024 then Ok(Validation)
    else if season == HOLDOUT_SEASON then Ok(Holdout)
    else Err(SeasonOutsideWindows(season))
  }

  predicate HasDuplicates(ids: seq<string>) {
    exists i, j | 0 <= i < |ids| && 0 <= j < |ids| :: i < j && ids[i] == ids[j]
  }

  function GroupCard(year: Calendar, card: Card): Result<EventGroup, SplitError> {
    if card.boutIds == [] then Err(NoBouts(card.eventId))
    else if HasDuplicates(card.boutIds) then Err(DuplicateBouts(card.eventId))
    else if card.scheduledStart.None? then Err(MissingStart(card.eventId))
    else
      var cutoff := card.scheduledStart.value - CUTOFF_MINUTES;
      var start := cutoff + CUTOFF_MINUTES;
      var role :- RoleForSeason(year(start));
      Ok(EventGroup(card.eventId, cutoff, start, year(start), role, card.variant, card.boutIds))
  }

  ghost predicate Repeats(ids: seq<string>) { exists i, j :: 0 <= i < j < |ids| && ids[i] == ids[j] }

  /** A card is grouped exactly when it has bouts, none of them twice, and a start in one of
      the known seasons; its cutoff comes an hour before the start, and its season decides
      whether it is for development, validation or held out. */
  lemma CardGroupsAs(year: Calendar, card: Card)
    ensures GroupCard(year, card).Ok? <==>
              && card.boutIds != [] && !Repeats(card.boutIds) && card.scheduledStart.Some?
              && 2017 <= year(card.scheduledStart.value) <= 2025
    ensures GroupCard(year, card).Ok? ==>
              var g, start := GroupCard(year, card).value, card.scheduledStart.value;
              && g.eventId == card.eventId && g.boutIds == card.boutIds && g.variant == card.variant
              && g.start == start && g.cutoff == start - 60 && g.season == year(start)
              && (g.role == Development <==> 2017 <= year(start) <= 2023)
              && (g.role == Validation <==> year(start) == 2024) && (g.role == Holdout <==> year(start) == 2025)
  {
    if Repeats(card.boutIds) {
      var i, j :| 0 <= i < j < |card.boutIds| && card.boutIds[i] == card.boutIds[j];
    }
  }

  // ----- chronological order -----

  predicate TextBefore(a: string, b: string) {
    if b == [] then false
    else if a == [] then true
    else a[0] < b[0] || (a[0] == b[0] && TextBefore(a[1..], b[1..]))
  }

  predicate Before(g: EventGroup, h: EventGroup) {
    g.cutoff < h.cutoff || (g.cutoff == h.cutoff && TextBefore(g.eventId, h.eventId))
  }

  /** A stable insertion: g goes before the first group that comes after it. */
  function Insert(g: EventGroup, groups: seq<EventGroup>): seq<EventGroup> {
    if groups == [] then [g]
    else if Before(g, groups[0]) then [g] + groups
    else [groups[0]] + Insert(g, groups[1..])
  }

  ghost predicate Ordered(groups: seq<EventGroup>) {
    forall i, j | 0 <= i < j < |groups| :: !Before(groups[j], groups[i])
  }

  lemma {:induction false} TextBeforeTransitive(a: string, b: string, c: string)
    ensures TextBefore(a, b) && TextBefore(b, c) ==> TextBefore(a, c)
    ensures TextBefore(a, b) || TextBefore(b, a) || a == b
    ensures !(TextBefore(a, b) && TextBefore(b, a))
  {
    if a != [] && b != [] {
      TextBeforeTransitive(a[1..], b[1..], if c == [] then c else c[1..]);
      if a[0] == b[0] && a[1..] == b[1..] {
        assert a == [a[0]] + a[1..] && b == [b[0]] + b[1..];
      }
    }
  }

  /** Where two texts first differ, or where the first one ends. */
  ghost predicate DifferAt(a: string, b: string, k: int) {
    && 0 <= k <= |a| && k < |b| && a[..k] == b[..k]
    && (k == |a| || a[k] < b[k])
  }

  /** Event ids are compared as texts: by the first character that differs, and a text comes
      before its extensions. */
  lemma {:induction false} TextOrder(a: string, b: string)
    ensures TextBefore(a, b) <==> exists k :: DifferAt(a, b, k)
  {
    if a == [] && b != [] {
      assert DifferAt(a, b, 0);
    } else if a != [] && b != [] {
      TextOrder(a[1..], b[1..]);
      if a[0] < b[0] {
        assert DifferAt(a, b, 0);
      }
      if k :| DifferAt(a[1..], b[1..], k) {
        if a[0] == b[0] {
          OneFurther(a, b, k);
        }
      }
      if k :| DifferAt(a, b, k) {
        if k > 0 {
          OneBack(a, b, k);
        }
      }
    }
  }

  lemma OneFurther(a: string, b: string, k: int)
    requires a != [] && b != [] && a[0] == b[0] && DifferAt(a[1..], b[1..], k)
    ensures DifferAt(a, b, k + 1)
  {
    assert a[..k + 1] == [a[0]] + a[1..][..k] && b[..k + 1] == [b[0]] + b[1..][..k];
  }

  lemma OneBack(a: string, b: string, k: int)
    requires a != [] && b != [] && k > 0 && DifferAt(a, b, k)
    ensures a[0] == b[0] && DifferAt(a[1..], b[1..], k - 1)
  {
    assert a[0] == a[..k][0] && b[0] == b[..k][0];
    assert a[1..][..k - 1] == a[..k][1..] && b[1..][..k - 1] == b[..k][1..];
  }

  lemma BeforeOrder(g: EventGroup, h: EventGroup, k: EventGroup)
    ensures Before(g, h) && !Before(k, h) ==> Before(g, k)
    ensures !(Before(g, h) && Before(h, g))
  {
    TextBeforeTransitive(g.eventId, h.eventId, k.eventId);
    TextBeforeTransitive(h.eventId, k.eventId, g.eventId);
  }

  lemma {:induction false} InsertKeepsMembers(g: EventGroup, groups: seq<EventGroup>)
    ensures multiset(Insert(g, groups)) == multiset(groups) + multiset{g}
  {
    if groups != [] && !Before(g, groups[0]) {
      InsertKeepsMembers(g, groups[1..]);
      assert groups == [groups[0]] + groups[1..];
    }
  }

  lemma {:induction false} InsertKeepsOrder(g: EventGroup, groups: seq<EventGroup>)
    requires Ordered(groups)
    ensures Ordered(Insert(g, groups))
  {
    if groups == [] {
    } else if Before(g, groups[0]) {
      forall j | 0 <= j < |groups|
        ensures !Before(groups[j], g)
      {
        BeforeOrder(groups[j], g, groups[0]);
        BeforeOrder(g, groups[0], groups[j]);
      }
    } else {
      InsertKeepsOrder(g, groups[1..]);
      InsertKeepsMembers(g, groups[1..]);
      var rest := Insert(g, groups[1..]);
      forall j | 0 <= j < |rest|
        ensures !Before(rest[j], groups[0])
      {
        assert rest[j] in multiset(groups[1..]) + multiset{g};
        if rest[j] != g {
          assert rest[j] in groups[1..];
        }
      }
    }
  }

  // ----- grouping -----

  /** Groups of distinct events, each with the cutoff, season and role of its card. */
  ghost predicate WellGrouped(year: Calendar, groups: seq<EventGroup>) {
    && (forall i, j | 0 <= i < j < |groups| :: groups[i].eventId != groups[j].eventId)
    && (forall g | g in groups :: GroupValid(year, g))
  }

  ghost predicate GroupValid(year: Calendar, g: EventGroup) {
    && g.start == g.cutoff + CUTOFF_MINUTES
    && g.season == year(g.start) && RoleForSeason(g.season) == Ok(g.role)
    && g.boutIds != [] && !HasDuplicates(g.boutIds)
  }

  /** The groups of the cards, in the order of the cards. */
  function Ungrouped(year: Calendar, cards: seq<Card>): (r: seq<EventGroup>)
    requires forall c | c in cards :: GroupCard(year, c).Ok?
    ensures |r| == |cards|
  {
    seq(|cards|, i requires 0 <= i < |cards| => GroupCard(year, cards[i]).value)
  }

  function Sorted(groups: seq<EventGroup>): seq<EventGroup> {
    if groups == [] then [] else Insert(Last(groups), Sorted(Front(groups)))
  }

  lemma {:induction false} SortedIsOrdered(groups: seq<EventGroup>)
    ensures Ordered(Sorted(groups)) && multiset(Sorted(groups)) == multiset(groups)
  {
    if groups != [] {
      SortedIsOrdered(Front(groups));
      InsertKeepsOrder(Last(groups), Sorted(Front(groups)));
      InsertKeepsMembers(Last(groups), Sorted(Front(groups)));
      Split(groups);
    }
  }

  ghost predicate Groupable(year: Calendar, cards: seq<Card>) {
    && cards != [] && (forall c | c in cards :: GroupCard(year, c).Ok?)
    && (forall i, j | 0 <= i < j < |cards| :: cards[i].eventId != cards[j].eventId)
  }

  /** The groups of all cards by cutoff, then event id. */
  ghost function Schedule(year: Calendar, cards: seq<Card>): seq<EventGroup>
    requires Groupable(year, cards)
  {
    Sorted(Ungrouped(year, cards))
  }

  lemma ScheduleIsWellGrouped(year: Calendar, cards: seq<Card>)
    requires Groupable(year, cards)
    ensures WellGrouped(year, Schedule(year, cards)) && Ordered(Schedule(year, cards))
    ensures multiset(Schedule(year, cards)) == multiset(Ungrouped(year, cards))
    ensures |Schedule(year, cards)| == |cards|
  {
    var plain := Ungrouped(year, cards);
    SortedIsOrdered(plain);
    GroupsAreWellGrouped(year, plain, cards, Sorted(plain));
    assert |multiset(Sorted(plain))| == |multiset(plain)|;
  }

  /** By the columns: an earlier cutoff comes first, and of equal cutoffs the smaller id. */
  ghost predicate InOrder(g: EventGroup, h: EventGroup) {
    g.cutoff < h.cutoff || (g.cutoff == h.cutoff && exists k :: DifferAt(g.eventId, h.eventId, k))
  }

  lemma ScheduleInOrder(year: Calendar, cards: seq<Card>)
    requires Groupable(year, cards)
    ensures var groups := Schedule(year, cards);
            forall i, j | 0 <= i < j < |groups| :: InOrder(groups[i], groups[j])
  {
    var groups := Schedule(year, cards);
    ScheduleIsWellGrouped(year, cards);
    forall i, j | 0 <= i < j < |groups|
      ensures InOrder(groups[i], groups[j])
    {
      assert groups[i].eventId != groups[j].eventId && !Before(groups[j], groups[i]);
      TextOrder(groups[i].eventId, groups[j].eventId);
      TextBeforeTransitive(groups[i].eventId, groups[j].eventId, groups[i].eventId);
    }
  }

  lemma SortedStep(year: Calendar, cards: seq<Card>, i: nat)
    requires i < |cards| && forall c | c in cards[..i + 1] :: GroupCard(year, c).Ok?
    ensures forall c | c in cards[..i] :: GroupCard(year, c).Ok?
    ensures GroupCard(year, cards[i]).Ok?
    ensures Sorted(Ungrouped(year, cards[..i + 1]))
         == Insert(GroupCard(year, cards[i]).value, Sorted(Ungrouped(year, cards[..i])))
  {
    Prefix(cards, i);
    assert cards[i] in cards[..i + 1];
    assert forall c | c in cards[..i] :: c in cards[..i + 1];
    assert Front(Ungrouped(year, cards[..i + 1])) == Ungrouped(year, cards[..i]);
  }

  method GroupCards(year: Calendar, cards: seq<Card>) returns (r: Result<seq<EventGroup>, SplitError>)
    ensures r.Ok? <==> Groupable(year, cards)
    ensures r.Ok? ==> r.value == Schedule(year, cards)
  {
    if cards == [] {
      return Err(NoCards);
    }
    var seen: set<string> := {};
    var groups: seq<EventGroup> := [];
    for i := 0 to |cards|
      invariant seen == set j | 0 <= j < i :: cards[j].eventId
      invariant forall j, k | 0 <= j < k < i :: cards[j].eventId != cards[k].eventId
      invariant forall c | c in cards[..i] :: GroupCard(year, c).Ok?
      invariant groups == Sorted(Ungrouped(year, cards[..i]))
    {
      var card := cards[i];
      Prefix(cards, i);
      if card.eventId in seen {
        return Err(DuplicateEvent(card.eventId));
      }
      seen := seen + {card.eventId};
      var g := GroupCard(year, card);
      if g.Err? {
        assert card in cards;
        return Err(g.error);
      }
      groups := Insert(g.value, groups);
      SortedStep(year, cards, i);
    }
    assert cards[..|cards|] == cards;
    r := Ok(groups);
  }

  lemma GroupsAreWellGrouped(year: Calendar, plain: seq<EventGroup>, cards: seq<Card>, groups: seq<EventGroup>)
    requires |plain| == |cards| && (forall i | 0 <= i < |cards| :: GroupCard(year, cards[i]) == Ok(plain[i]))
    requires multiset(groups) == multiset(plain)
    requires forall i, j | 0 <= i < j < |cards| :: cards[i].eventId != cards[j].eventId
    ensures WellGrouped(year, groups)
  {
    forall g | g in groups
      ensures GroupValid(year, g)
    {
      assert g in multiset(groups);
      assert g in plain;
    }
    forall i, j | 0 <= i < j < |groups|
      ensures groups[i].eventId != groups[j].eventId
    {
      if groups[i].eventId == groups[j].eventId {
        TwiceInMultiset(groups, i, j);
        assert groups[i] in multiset(groups) && groups[j] in multiset(groups);
        assert groups[i] in plain && groups[j] in plain;
        var a :| 0 <= a < |plain| && plain[a] == groups[i];
        var b :| 0 <= b < |plain| && plain[b] == groups[j];
        assert cards[a].eventId == cards[b].eventId;
        assert a == b;
        OnceInMultiset(plain, a);
      }
    }
  }

  lemma TwiceInMultiset(groups: seq<EventGroup>, i: nat, j: nat)
    requires i < j < |groups|
    ensures groups[i] == groups[j] ==> multiset(groups)[groups[i]] >= 2
  {
    assert groups == groups[..i] + [groups[i]] + groups[i + 1..j] + [groups[j]] + groups[j + 1..];
  }

  lemma OnceInMultiset(groups: seq<EventGroup>, a: nat)
    requires a < |groups|
    requires forall b | 0 <= b < |groups| && b != a :: groups[b].eventId != groups[a].eventId
    ensures multiset(groups)[groups[a]] == 1
  {
    assert groups == groups[..a] + [groups[a]] + groups[a + 1..];
    assert groups[a] !in groups[..a] && groups[a] !in groups[a + 1..];
  }
}

/** What an imported fight and fighter look like in the canonical tables. */
module LegacyContents {
  import opened Prelude
  import opened LegacyTables
  import opened LegacyUpgrade
  import opened LegacyText

  ghost predicate NewIn(legacy: Legacy, c: Canon, row: LegacyFight) {
    row in legacy.fights && !Imported(c.boutLinks, row.id)
  }

  /** The canonical fighter an external id stands for. */
  function Who(s: Supply, c: Canon, id: Id): Id { CanonicalId(c.fighterLinks, s.fighter, id) }

  function WinnerOf(s: Supply, c: Canon, row: LegacyFight): Option<Id> {
    if NonEmpty(row.winner) then Some(Who(s, c, row.winner.value)) else None
  }

  lemma ResolutionIsCanonical(legacy: Legacy, s: Supply, c: Canon, row: LegacyFight)
    requires Resolve(NamesFor(legacy, s, c), row).Some?
    ensures var r := Resolve(NamesFor(legacy, s, c), row).value;
            && r.event == CanonicalId(c.eventLinks, s.event, row.eventId)
            && r.fighterA == Who(s, c, row.fighterA) && r.fighterB == Who(s, c, row.fighterB)
            && r.winner == WinnerOf(s, c, row)
  {
    FighterNamesAre(c.fighterLinks, s.fighter, legacy.fighters);
    EventNamesAre(c.eventLinks, s.event, legacy.events);
  }

  function Added(legacy: Legacy, c: Canon): seq<LegacyFight> { Filter(NewFight(c.boutLinks), legacy.fights) }

  /** The imported rows of a generated bout are those of its own fight. */
  lemma OnlyItsOwnRows<U>(
    s: Supply, f: LegacyFight -> seq<U>, boutOf: U -> Id, before: seq<U>, added: seq<LegacyFight>,
    row: LegacyFight, taken: set<Id>)
    requires row in added && Generates(s.bout, taken)
    requires forall i, j | 0 <= i < j < |added| :: added[i].id != added[j].id
    requires forall u | u in before :: boutOf(u) in taken
    requires forall x, u | x in added && u in f(x) :: boutOf(u) == s.bout(x.id)
    ensures forall u | boutOf(u) == s.bout(row.id) :: u in before + FlatMap(f, added) <==> u in f(row)
  {
    FlatMapMembers(f, added);
    forall u | boutOf(u) == s.bout(row.id) && u in FlatMap(f, added)
      ensures u in f(row)
    {
      var x :| x in added && u in f(x);
      var i :| 0 <= i < |added| && added[i] == x;
      var j :| 0 <= j < |added| && added[j] == row;
      assert x.id == row.id;
    }
  }

  lemma {:induction false} AddedIdsDiffer(links: seq<Link>, rows: seq<LegacyFight>)
    requires forall i, j | 0 <= i < j < |rows| :: rows[i].id != rows[j].id
    ensures var added := Filter(NewFight(links), rows);
            forall i, j | 0 <= i < j < |added| :: added[i].id != added[j].id
  {
    if rows != [] {
      AddedIdsDiffer(links, Front(rows));
      FilterMembers(NewFight(links), Front(rows));
      forall x | x in Front(rows)
        ensures x.id != Last(rows).id
      {
      }
    }
  }

  function ResolverFor(legacy: Legacy, s: Supply, c: Canon): Resolver { ResolveBy(NamesFor(legacy, s, c)) }

  lemma UpgradedTables(legacy: Legacy, s: Supply, c: Canon)
    ensures var d, resolve, added := Upgraded(legacy, s, c), ResolverFor(legacy, s, c), Added(legacy, c);
            && d.bouts == c.bouts + FlatMap(BoutOf(s, resolve), added)
            && d.participants == c.participants + FlatMap(ParticipantsOf(s, resolve), added)
            && d.versions == c.versions + FlatMap(VersionsOf(s, resolve), added)
  {
  }

  ghost predicate Importing(legacy: Legacy, s: Supply, c: Canon, row: LegacyFight) {
    Keyed(legacy) && Referential(c) && Fresh(s, c) && CanUpgrade(legacy, s, c) && NewIn(legacy, c, row)
  }

  lemma IsAdded(legacy: Legacy, s: Supply, c: Canon, row: LegacyFight)
    requires Importing(legacy, s, c, row)
    ensures row in Added(legacy, c) && ResolverFor(legacy, s, c)(row).Some?
    ensures forall i, j | 0 <= i < j < |Added(legacy, c)| :: Added(legacy, c)[i].id != Added(legacy, c)[j].id
  {
    FilterMembers(NewFight(c.boutLinks), legacy.fights);
    AddedIdsDiffer(c.boutLinks, legacy.fights);
  }

  function IdOfBoutRow(): Bout -> Id { (b: Bout) => b.id }

  function BoutOfParticipantRow(): Participant -> Id { (p: Participant) => p.boutId }

  function BoutOfVersionRow(): Version -> Id { (v: Version) => v.boutId }

  lemma RowsCarryTheirBout(s: Supply, resolve: Resolver)
    ensures forall x, p | p in ParticipantsOf(s, resolve)(x) :: p.boutId == s.bout(x.id)
    ensures forall x, v | v in VersionsOf(s, resolve)(x) :: v.boutId == s.bout(x.id)
  {
    forall x, p | p in ParticipantsOf(s, resolve)(x)
      ensures p.boutId == s.bout(x.id)
    {
      var rows := RowsFor(s, x, resolve(x).value).participants;
      var i :| 0 <= i < |rows| && rows[i] == p;
    }
    forall x, v | v in VersionsOf(s, resolve)(x)
      ensures v.boutId == s.bout(x.id)
    {
      var rows := RowsFor(s, x, resolve(x).value).versions;
      var i :| 0 <= i < |rows| && rows[i] == v;
    }
  }

  lemma BoutRowsOf(legacy: Legacy, s: Supply, c: Canon, row: LegacyFight, b: Bout)
    requires Importing(legacy, s, c, row) && b.id == s.bout(row.id)
    ensures b in Upgraded(legacy, s, c).bouts <==> b in BoutOf(s, ResolverFor(legacy, s, c))(row)
  {
    IsAdded(legacy, s, c, row);
    UpgradedTables(legacy, s, c);
    OnlyItsOwnRows(
      s, BoutOf(s, ResolverFor(legacy, s, c)), IdOfBoutRow(), c.bouts, Added(legacy, c), row, BoutIds(c.bouts));
    assert IdOfBoutRow()(b) == s.bout(row.id);
  }

  lemma ParticipantRowsOf(legacy: Legacy, s: Supply, c: Canon, row: LegacyFight, p: Participant)
    requires Importing(legacy, s, c, row) && p.boutId == s.bout(row.id)
    ensures p in Upgraded(legacy, s, c).participants <==> p in ParticipantsOf(s, ResolverFor(legacy, s, c))(row)
  {
    IsAdded(legacy, s, c, row);
    UpgradedTables(legacy, s, c);
    RowsCarryTheirBout(s, ResolverFor(legacy, s, c));
    OnlyItsOwnRows(s, ParticipantsOf(s, ResolverFor(legacy, s, c)), BoutOfParticipantRow(), c.participants,
                   Added(legacy, c), row, BoutIds(c.bouts));
    assert BoutOfParticipantRow()(p) == s.bout(row.id);
  }

  lemma VersionRowsOf(legacy: Legacy, s: Supply, c: Canon, row: LegacyFight, v: Version)
    requires Importing(legacy, s, c, row) && v.boutId == s.bout(row.id)
    ensures v in Upgraded(legacy, s, c).versions <==> v in VersionsOf(s, ResolverFor(legacy, s, c))(row)
  {
    IsAdded(legacy, s, c, row);
    UpgradedTables(legacy, s, c);
    RowsCarryTheirBout(s, ResolverFor(legacy, s, c));
    OnlyItsOwnRows(s, VersionsOf(s, ResolverFor(legacy, s, c)), BoutOfVersionRow(), c.versions,
                   Added(legacy, c), row, BoutIds(c.bouts));
    assert BoutOfVersionRow()(v) == s.bout(row.id);
  }

  /** An imported fight is one bout of the canonical event between the canonical fighters,
      over three rounds in its weight class, completed once it has a winner or a method. */
  lemma ImportedBout(legacy: Legacy, s: Supply, c: Canon, row: LegacyFight)
    requires Importing(legacy, s, c, row)
    ensures exists b: Bout ::
              && b.id == s.bout(row.id) && b in Upgraded(legacy, s, c).bouts
              && b.eventId == CanonicalId(c.eventLinks, s.event, row.eventId)
              && b.fighterA == Who(s, c, row.fighterA) && b.fighterB == Who(s, c, row.fighterB)
              && b.fighterA != b.fighterB && b.scheduledRounds == 3 && b.weightClass == row.weightClass
              && b.status == (if NonEmpty(row.winner) || NonEmpty(row.methodText) then "completed" else "scheduled")
              && b.createdAt == s.now && b.updatedAt == s.now
              && forall other | other in Upgraded(legacy, s, c).bouts && other.id == b.id :: other == b
  {
    IsAdded(legacy, s, c, row);
    ResolutionIsCanonical(legacy, s, c, row);
    var resolve := ResolverFor(legacy, s, c);
    var b := RowsFor(s, row, resolve(row).value).bout;
    assert BoutOf(s, resolve)(row) == [b];
    BoutRowsOf(legacy, s, c, row, b);
    forall other | other in Upgraded(legacy, s, c).bouts && other.id == b.id
      ensures other == b
    {
      BoutRowsOf(legacy, s, c, row, other);
    }
  }

  /** Its participants are its two fighters, each in the corner the legacy row gives. */
  lemma ImportedCorners(legacy: Legacy, s: Supply, c: Canon, row: LegacyFight, p: Participant)
    requires Importing(legacy, s, c, row) && p.boutId == s.bout(row.id)
    ensures p in Upgraded(legacy, s, c).participants <==>
              p.createdAt == s.now
              && ((p.fighterId == Who(s, c, row.fighterA) && p.corner == "a")
                  || (p.fighterId == Who(s, c, row.fighterB) && p.corner == "b"))
  {
    IsAdded(legacy, s, c, row);
    ResolutionIsCanonical(legacy, s, c, row);
    ParticipantRowsOf(legacy, s, c, row, p);
  }

  /** The result type of a row: a win with a winner; without one a draw where the method says
      so, else a no contest where it says so, else none. */
  ghost predicate ResultRead(row: LegacyFight, resultType: Option<string>) {
    var draws := row.methodText.Some? && SaysDraw(row.methodText.value);
    var voids := row.methodText.Some? && SaysNoContest(row.methodText.value);
    && (resultType == Some("win") <==> NonEmpty(row.winner))
    && (resultType == Some("draw") <==> !NonEmpty(row.winner) && draws)
    && (resultType == Some("no_contest") <==> !NonEmpty(row.winner) && !draws && voids)
    && (resultType == None <==> !NonEmpty(row.winner) && !draws && !voids)
  }

  lemma ResultTypeRead(row: LegacyFight, winner: Option<Id>)
    requires winner.Some? <==> NonEmpty(row.winner)
    ensures ResultRead(row, ResultType(winner, row.methodText))
  {
    if row.methodText.Some? {
      LowerSaysDraw(row.methodText.value);
      LowerSaysNoContest(row.methodText.value);
    }
    assert |"win"| == 3 && |"draw"| == 4 && |"no_contest"| == 10;
  }

  /** Its result versions, one per kind, name the winner the legacy row names, and their
      result type is read off winner and method. */
  lemma ImportedResult(legacy: Legacy, s: Supply, c: Canon, row: LegacyFight, v: Version)
    requires Importing(legacy, s, c, row)
    requires v in Upgraded(legacy, s, c).versions && v.boutId == s.bout(row.id)
    ensures v.kind == "event_night" || v.kind == "current"
    ensures v.winner == WinnerOf(s, c, row)
    ensures v.fighterA == Who(s, c, row.fighterA) && v.fighterB == Who(s, c, row.fighterB)
    ensures ResultRead(row, v.resultType)
    ensures v.effectiveAt == s.now && v.observedAt == s.now && v.createdAt == s.now
    ensures v.methodText == row.methodText && v.endingRound == row.fightRound && v.time == row.time
    ensures forall w | w in Upgraded(legacy, s, c).versions && w.boutId == v.boutId && w.kind == v.kind :: w == v
  {
    IsAdded(legacy, s, c, row);
    ResolutionIsCanonical(legacy, s, c, row);
    VersionRowsOf(legacy, s, c, row, v);
    var resolve := ResolverFor(legacy, s, c);
    OwnVersions(s, resolve, row, v);
    ResultTypeRead(row, WinnerOf(s, c, row));
    forall w | w in Upgraded(legacy, s, c).versions && w.boutId == v.boutId && w.kind == v.kind
      ensures w == v
    {
      VersionRowsOf(legacy, s, c, row, w);
      OwnVersions(s, resolve, row, w);
    }
  }

  /** Both versions are there: the night's and the current one start out alike. */
  lemma BothVersionsImported(legacy: Legacy, s: Supply, c: Canon, row: LegacyFight)
    requires Importing(legacy, s, c, row)
    ensures exists v, w: Version ::
              && v in Upgraded(legacy, s, c).versions && w in Upgraded(legacy, s, c).versions
              && v.boutId == s.bout(row.id) && v.kind == "event_night" && w == v.(kind := "current")
  {
    IsAdded(legacy, s, c, row);
    var resolve := ResolverFor(legacy, s, c);
    var r := resolve(row).value;
    var v, w := VersionRow(s, row, r, "event_night"), VersionRow(s, row, r, "current");
    assert VersionsOf(s, resolve)(row) == [v, w];
    VersionRowsOf(legacy, s, c, row, v);
    VersionRowsOf(legacy, s, c, row, w);
    assert w == v.(kind := "current");
  }

  lemma OwnVersions(s: Supply, resolve: Resolver, row: LegacyFight, v: Version)
    requires resolve(row).Some? && v in VersionsOf(s, resolve)(row)
    ensures v.kind == "event_night" || v.kind == "current"
    ensures v == VersionRow(s, row, resolve(row).value, v.kind)
  {
  }

  // ----- fighters and events -----

  ghost predicate NewFighterIn(legacy: Legacy, s: Supply, c: Canon, row: LegacyFighter) {
    && Keyed(legacy) && Referential(c) && Fresh(s, c)
    && row in legacy.fighters && !Imported(c.fighterLinks, row.id)
  }

  ghost predicate NewEventIn(legacy: Legacy, s: Supply, c: Canon, row: LegacyEvent) {
    && Keyed(legacy) && Referential(c) && Fresh(s, c)
    && row in legacy.events && !Imported(c.eventLinks, row.id)
  }

  lemma UpgradedPeople(legacy: Legacy, s: Supply, c: Canon)
    ensures var d := Upgraded(legacy, s, c);
            var fighters, events := NewFighters(legacy, c), NewEvents(legacy, c);
            && d.fighters == c.fighters + Map(FighterRow(s), fighters)
            && d.fighterLinks == c.fighterLinks + Map(FighterLink(s), fighters)
            && d.aliases == c.aliases + FlatMap(AliasRows(s), fighters)
            && d.events == c.events + Map(EventRow(s), events)
            && d.eventLinks == c.eventLinks + Map(EventLink(s), events)
  {
  }

  /** Rows added one by one under generated ids: those of an id are the row of its origin. */
  lemma OnlyItsOwnRow<R(!new), U(!new)>(
    f: R -> U, id: U -> Id, origin: R -> Id, generated: Id -> Id, before: seq<U>, added: seq<R>, row: R, taken: set<Id>)
    requires row in added && Generates(generated, taken)
    requires forall u | u in before :: id(u) in taken
    requires forall x | x in added :: id(f(x)) == generated(origin(x))
    requires forall x, y | x in added && y in added && origin(x) == origin(y) :: x == y
    ensures forall u | id(u) == generated(origin(row)) :: u in before + Map(f, added) <==> u == f(row)
  {
    var all := Map(f, added);
    forall u | id(u) == generated(origin(row))
      ensures u in before + all <==> u == f(row)
    {
      if u in all {
        var i :| 0 <= i < |added| && all[i] == u;
        assert added[i] in added;
      }
      if u == f(row) {
        var i :| 0 <= i < |added| && added[i] == row;
        assert all[i] == u;
      }
    }
  }

  function IdOfFighterRow(): Fighter -> Id { (f: Fighter) => f.id }

  function IdOfEventRow(): Event -> Id { (e: Event) => e.id }

  function IdOfLinkRow(): Link -> Id { (l: Link) => l.entityId }

  function LegacyFighterId(): LegacyFighter -> Id { (row: LegacyFighter) => row.id }

  function LegacyEventId(): LegacyEvent -> Id { (row: LegacyEvent) => row.id }

  function NewFighters(legacy: Legacy, c: Canon): seq<LegacyFighter> {
    Filter(NewFighter(c.fighterLinks), legacy.fighters)
  }

  function NewEvents(legacy: Legacy, c: Canon): seq<LegacyEvent> { Filter(NewEvent(c.eventLinks), legacy.events) }

  lemma NewFightersDiffer(legacy: Legacy, c: Canon)
    requires Keyed(legacy)
    ensures forall x, y | x in NewFighters(legacy, c) && y in NewFighters(legacy, c)
                          && LegacyFighterId()(x) == LegacyFighterId()(y) :: x == y
  {
    FilterMembers(NewFighter(c.fighterLinks), legacy.fighters);
    forall x, y | x in legacy.fighters && y in legacy.fighters && x.id == y.id
      ensures x == y
    {
      var i :| 0 <= i < |legacy.fighters| && legacy.fighters[i] == x;
      var j :| 0 <= j < |legacy.fighters| && legacy.fighters[j] == y;
    }
  }

  lemma NewEventsDiffer(legacy: Legacy, c: Canon)
    requires Keyed(legacy)
    ensures forall x, y | x in NewEvents(legacy, c) && y in NewEvents(legacy, c)
                          && LegacyEventId()(x) == LegacyEventId()(y) :: x == y
  {
    FilterMembers(NewEvent(c.eventLinks), legacy.events);
    forall x, y | x in legacy.events && y in legacy.events && x.id == y.id
      ensures x == y
    {
      var i :| 0 <= i < |legacy.events| && legacy.events[i] == x;
      var j :| 0 <= j < |legacy.events| && legacy.events[j] == y;
    }
  }

  lemma FighterRowsOf(legacy: Legacy, s: Supply, c: Canon, row: LegacyFighter, f: Fighter)
    requires NewFighterIn(legacy, s, c, row) && f.id == s.fighter(row.id)
    ensures f in c.fighters + Map(FighterRow(s), NewFighters(legacy, c)) <==> f == FighterRow(s)(row)
  {
    NewFightersDiffer(legacy, c);
    FilterMembers(NewFighter(c.fighterLinks), legacy.fighters);
    OnlyItsOwnRow(FighterRow(s), IdOfFighterRow(), LegacyFighterId(), s.fighter, c.fighters, NewFighters(legacy, c),
                  row, FighterIds(c.fighters));
    assert IdOfFighterRow()(f) == s.fighter(LegacyFighterId()(row));
  }

  lemma FighterLinksOf(legacy: Legacy, s: Supply, c: Canon, row: LegacyFighter, l: Link)
    requires NewFighterIn(legacy, s, c, row) && l.entityId == s.fighter(row.id)
    ensures l in c.fighterLinks + Map(FighterLink(s), NewFighters(legacy, c)) <==> l == FighterLink(s)(row)
  {
    NewFightersDiffer(legacy, c);
    FilterMembers(NewFighter(c.fighterLinks), legacy.fighters);
    OnlyItsOwnRow(FighterLink(s), IdOfLinkRow(), LegacyFighterId(), s.fighter, c.fighterLinks, NewFighters(legacy, c),
                  row, FighterIds(c.fighters));
    assert IdOfLinkRow()(l) == s.fighter(LegacyFighterId()(row));
  }

  lemma EventRowsOf(legacy: Legacy, s: Supply, c: Canon, row: LegacyEvent, e: Event)
    requires NewEventIn(legacy, s, c, row) && e.id == s.event(row.id)
    ensures e in c.events + Map(EventRow(s), NewEvents(legacy, c)) <==> e == EventRow(s)(row)
  {
    NewEventsDiffer(legacy, c);
    FilterMembers(NewEvent(c.eventLinks), legacy.events);
    OnlyItsOwnRow(EventRow(s), IdOfEventRow(), LegacyEventId(), s.event, c.events, NewEvents(legacy, c),
                  row, EventIds(c.events));
    assert IdOfEventRow()(e) == s.event(LegacyEventId()(row));
  }

  lemma EventLinksOf(legacy: Legacy, s: Supply, c: Canon, row: LegacyEvent, l: Link)
    requires NewEventIn(legacy, s, c, row) && l.entityId == s.event(row.id)
    ensures l in c.eventLinks + Map(EventLink(s), NewEvents(legacy, c)) <==> l == EventLink(s)(row)
  {
    NewEventsDiffer(legacy, c);
    FilterMembers(NewEvent(c.eventLinks), legacy.events);
    OnlyItsOwnRow(EventLink(s), IdOfLinkRow(), LegacyEventId(), s.event, c.eventLinks, NewEvents(legacy, c),
                  row, EventIds(c.events));
    assert IdOfLinkRow()(l) == s.event(LegacyEventId()(row));
  }

  /** A new fighter is shown under one id, by a row with its name. */
  lemma ImportedFighter(legacy: Legacy, s: Supply, c: Canon, row: LegacyFighter, f: Fighter)
    requires NewFighterIn(legacy, s, c, row) && f.id == s.fighter(row.id)
    ensures f in Upgraded(legacy, s, c).fighters <==>
              f.displayName == row.name && f.createdAt == s.now && f.updatedAt == s.now
  {
    UpgradedPeople(legacy, s, c);
    FighterRowsOf(legacy, s, c, row, f);
  }

  /** And has one link, to its legacy id. */
  lemma ImportedFighterLink(legacy: Legacy, s: Supply, c: Canon, row: LegacyFighter, l: Link)
    requires NewFighterIn(legacy, s, c, row) && l.entityId == s.fighter(row.id)
    ensures l in Upgraded(legacy, s, c).fighterLinks <==>
              l.source == "ufcstats" && l.externalId == row.id && l.createdAt == s.now
  {
    UpgradedPeople(legacy, s, c);
    FighterLinksOf(legacy, s, c, row, l);
  }

  /** The aliases of a legacy row under an id. */
  ghost predicate AliasFrom(s: Supply, row: LegacyFighter, a: Alias) {
    && a.source == Some("ufcstats") && a.createdAt == s.now
    && (a.alias == row.name || (row.nickname == Some(a.alias) && a.alias != ""))
  }

  lemma OwnAliases(s: Supply, row: LegacyFighter, a: Alias)
    requires a.fighterId == s.fighter(row.id)
    ensures a in AliasRows(s)(row) <==> AliasFrom(s, row, a)
  {
  }

  /** Its name and its nickname, if it has one, are its aliases and there are no others. */
  lemma ImportedAliases(legacy: Legacy, s: Supply, c: Canon, row: LegacyFighter, a: Alias)
    requires NewFighterIn(legacy, s, c, row) && a.fighterId == s.fighter(row.id)
    ensures a in Upgraded(legacy, s, c).aliases <==> AliasFrom(s, row, a)
  {
    var added := NewFighters(legacy, c);
    UpgradedPeople(legacy, s, c);
    FilterMembers(NewFighter(c.fighterLinks), legacy.fighters);
    FlatMapMembers(AliasRows(s), added);
    OwnAliases(s, row, a);
    assert row in added;
    if a in FlatMap(AliasRows(s), added) {
      var x :| x in added && a in AliasRows(s)(x);
      SameLegacyFighter(legacy, s, c, x, row);
    }
  }

  lemma SameLegacyFighter(legacy: Legacy, s: Supply, c: Canon, x: LegacyFighter, y: LegacyFighter)
    requires Keyed(legacy) && Fresh(s, c) && x in legacy.fighters && y in legacy.fighters
    requires s.fighter(x.id) == s.fighter(y.id)
    ensures x == y
  {
    var i :| 0 <= i < |legacy.fighters| && legacy.fighters[i] == x;
    var j :| 0 <= j < |legacy.fighters| && legacy.fighters[j] == y;
    assert x.id == y.id;
  }

  /** A new event is shown under one id, as a UFC event with the name, date and place of its
      row, completed once it has a date. */
  lemma ImportedEvent(legacy: Legacy, s: Supply, c: Canon, row: LegacyEvent, e: Event)
    requires NewEventIn(legacy, s, c, row) && e.id == s.event(row.id)
    ensures e in Upgraded(legacy, s, c).events <==>
              && e.name == row.name && e.series == Some("ufc") && e.scheduledStart.None?
              && e.status == (if row.eventDate.Some? then "completed" else "scheduled")
              && e.eventDate == row.eventDate && e.location == row.location
              && e.createdAt == s.now && e.updatedAt == s.now
  {
    UpgradedPeople(legacy, s, c);
    EventRowsOf(legacy, s, c, row, e);
  }

  lemma ImportedEventLink(legacy: Legacy, s: Supply, c: Canon, row: LegacyEvent, l: Link)
    requires NewEventIn(legacy, s, c, row) && l.entityId == s.event(row.id)
    ensures l in Upgraded(legacy, s, c).eventLinks <==>
              l.source == "ufcstats" && l.externalId == row.id && l.createdAt == s.now
  {
    UpgradedPeople(legacy, s, c);
    EventLinksOf(legacy, s, c, row, l);
  }

  /** An imported fight has one link, to its legacy id. */
  lemma ImportedLink(legacy: Legacy, s: Supply, c: Canon, row: LegacyFight, l: Link)
    requires Importing(legacy, s, c, row) && l.entityId == s.bout(row.id)
    ensures l in Upgraded(legacy, s, c).boutLinks <==>
              l.source == "ufcstats" && l.externalId == row.id && l.createdAt == s.now
  {
    IsAdded(legacy, s, c, row);
    OnlyItsOwnRows(s, BoutLinkOf(s, ResolverFor(legacy, s, c)), IdOfLinkRow(), c.boutLinks,
                   Added(legacy, c), row, BoutIds(c.bouts));
    assert IdOfLinkRow()(l) == s.bout(row.id);
    assert Upgraded(legacy, s, c).boutLinks
        == c.boutLinks + FlatMap(BoutLinkOf(s, ResolverFor(legacy, s, c)), Added(legacy, c));
  }
}

/** The import and its removal as they run against the tables, row by row. */
module LegacyImport {
  import opened Prelude
  import opened LegacyTables
  import opened LegacyUpgrade
  import opened LegacySteps
  import opened LegacyDowngrade

  datatype ImportError =
    | AliasTwice(fighter: Id) | LinkTwice(externalId: Id) | UnresolvedFights(fights: seq<Id>)
    | StillReferenced(fighter: Id)

  ghost predicate FightersGrow(before: Canon, after: Canon) {
    && before.fighters <= after.fighters && before.fighterLinks <= after.fighterLinks && before.aliases <= after.aliases
  }

  ghost predicate EventsGrow(before: Canon, after: Canon) {
    before.events <= after.events && before.eventLinks <= after.eventLinks
  }

  ghost predicate FightsGrow(before: Canon, after: Canon) {
    && before.bouts <= after.bouts && before.boutLinks <= after.boutLinks
    && before.participants <= after.participants && before.versions <= after.versions
  }

  /** Every row that was there still is, in its place. */
  ghost predicate Extends(before: Canon, after: Canon) {
    && FightersGrow(before, after) && EventsGrow(before, after) && FightsGrow(before, after)
    && before.profiles == after.profiles && before.stats == after.stats
  }

  lemma FightersGrewBefore(s: Supply, rows: seq<LegacyFighter>, c: Canon, d: Canon)
    requires FightersGrow(AddFighters(s, rows, c), d)
    ensures FightersGrow(c, d)
  {
  }

  lemma EventsGrewBefore(s: Supply, rows: seq<LegacyEvent>, c: Canon, d: Canon)
    requires EventsGrow(AddEvents(s, rows, c), d)
    ensures EventsGrow(c, d)
  {
  }

  lemma FightsGrewBefore(s: Supply, resolve: Resolver, rows: seq<LegacyFight>, c: Canon, d: Canon)
    requires FightsGrow(AddFights(s, resolve, rows, c), d)
    ensures FightsGrow(c, d)
  {
  }

  /** Everything UFCStats said is gone, and so are some of the fighters it alone linked; the
      next such fighter is still named by another row. */
  ghost predicate StoppedAt(c: Canon, d: Canon, error: ImportError) {
    && error.StillReferenced? && FighterDropped(c, error.fighter) && StillNamed(DropFacts(c), error.fighter)
    && exists gone :: OnlyDropped(c, gone) && error.fighter !in gone && d == WithoutFighters(c, gone)
  }

  predicate AliasTaken(aliases: seq<Alias>, fighter: Id, alias: string) {
    exists i | 0 <= i < |aliases| :: aliases[i].fighterId == fighter && aliases[i].alias == alias
  }

  // ----- the tables -----

  /** The canonical tables; every method states the whole new state of the run that
      succeeds and when that is. */
  class Database {
    var fighters: seq<Fighter>
    var fighterLinks: seq<Link>
    var aliases: seq<Alias>
    var events: seq<Event>
    var eventLinks: seq<Link>
    var bouts: seq<Bout>
    var boutLinks: seq<Link>
    var participants: seq<Participant>
    var versions: seq<Version>
    var profiles: seq<Profile>
    var stats: seq<Stat>

    function State(): Canon
      reads this
    {
      Canon(fighters, fighterLinks, aliases, events, eventLinks,
            bouts, boutLinks, participants, versions, profiles, stats)
    }

    constructor (c: Canon)
      ensures State() == c
    {
      fighters, fighterLinks, aliases := c.fighters, c.fighterLinks, c.aliases;
      events, eventLinks := c.events, c.eventLinks;
      bouts, boutLinks, participants, versions := c.bouts, c.boutLinks, c.participants, c.versions;
      profiles, stats := c.profiles, c.stats;
    }

    /** The rows of one new fighter; the unique keys of links and aliases are checked. */
    method InsertFighter(row: LegacyFighter, s: Supply) returns (r: Result<(), ImportError>)
      requires forall a | a in aliases :: a.fighterId != s.fighter(row.id)
      modifies `fighters, `fighterLinks, `aliases
      ensures r.Ok? <==> Lookup(old(fighterLinks), row.id).None?
                         && !(NonEmpty(row.nickname) && row.nickname.value == row.name)
      ensures r.Ok? ==> fighters == old(fighters) + [FighterRow(s)(row)]
      ensures r.Ok? ==> fighterLinks == old(fighterLinks) + [FighterLink(s)(row)]
      ensures r.Ok? ==> aliases == old(aliases) + AliasRows(s)(row)
      ensures r.Err? ==> !r.error.UnresolvedFights?
      ensures FightersGrow(old(State()), State())
    {
      var id := s.fighter(row.id);
      fighters := fighters + [Fighter(id, row.name, s.now, s.now)];
      if Lookup(fighterLinks, row.id).Some? {
        return Err(LinkTwice(row.id));
      }
      fighterLinks := fighterLinks + [Link(id, SOURCE, row.id, s.now)];
      aliases := aliases + [Alias(id, row.name, Some(SOURCE), s.now)];
      assert aliases[|aliases| - 1].alias == row.name;
      if row.nickname.Some? && row.nickname.value != "" {
        if AliasTaken(aliases, id, row.nickname.value) {
          return Err(AliasTwice(id));
        }
        aliases := aliases + [Alias(id, row.nickname.value, Some(SOURCE), s.now)];
      }
      r := Ok(());
    }

    /** One row of the fighter loop; yields the canonical id of the fighter. */
    method ImportFighter(rows: seq<LegacyFighter>, i: nat, s: Supply, ghost c: Canon)
      returns (r: Result<Id, ImportError>)
      requires i < |rows| && forall j, k | 0 <= j < k < |rows| :: rows[j].id != rows[k].id
      requires Referential(c) && Generates(s.fighter, FighterIds(c.fighters))
      requires State() == AddFighters(s, rows[..i], c)
      modifies `fighters, `fighterLinks, `aliases
      ensures r.Ok? <==> FighterImportable(c.fighterLinks, rows[i])
      ensures r.Ok? ==> State() == AddFighters(s, rows[..i + 1], c)
      ensures r.Ok? ==> r.value == CanonicalId(c.fighterLinks, s.fighter, rows[i].id)
      ensures r.Err? ==> !r.error.UnresolvedFights?
      ensures FightersGrow(c, State())
    {
      var row := rows[i];
      FighterStep(s, rows, i, c);
      FighterUntouched(s, rows, i, c);
      FreshAliases(s, rows, i, c);
      FightersGrewBefore(s, rows[..i], c, State());
      var existing := Lookup(fighterLinks, row.id);
      if existing.Some? && existing.value != "" {
        return Ok(existing.value);
      }
      var added := InsertFighter(row, s);
      FightersGrewBefore(s, rows[..i], c, State());
      if added.Err? {
        return Err(added.error);
      }
      r := Ok(s.fighter(row.id));
    }

    method ImportFighters(rows: seq<LegacyFighter>, s: Supply) returns (r: Result<map<Id, Id>, ImportError>)
      requires forall i, j | 0 <= i < j < |rows| :: rows[i].id != rows[j].id
      requires Referential(State()) && Generates(s.fighter, FighterIds(fighters))
      modifies `fighters, `fighterLinks, `aliases
      ensures r.Ok? <==> forall row | row in rows :: FighterImportable(old(fighterLinks), row)
      ensures r.Ok? ==> State() == AddFighters(s, rows, old(State()))
      ensures r.Ok? ==> r.value == FighterNames(old(fighterLinks), s.fighter, rows)
      ensures r.Err? ==> !r.error.UnresolvedFights?
      ensures FightersGrow(old(State()), State())
    {
      ghost var c := State();
      var names: map<Id, Id> := map[];
      for i := 0 to |rows|
        invariant State() == AddFighters(s, rows[..i], c)
        invariant names == FighterNames(c.fighterLinks, s.fighter, rows[..i])
        invariant forall j | 0 <= j < i :: FighterImportable(c.fighterLinks, rows[j])
      {
        FighterNameStep(c.fighterLinks, s.fighter, rows, i);
        var imported := ImportFighter(rows, i, s, c);
        if imported.Err? {
          assert !FighterImportable(c.fighterLinks, rows[i]);
          return Err(imported.error);
        }
        names := names[rows[i].id := imported.value];
      }
      assert rows[..|rows|] == rows;
      r := Ok(names);
    }

    method InsertEvent(row: LegacyEvent, s: Supply) returns (r: Result<(), ImportError>)
      modifies `events, `eventLinks
      ensures r.Ok? <==> Lookup(old(eventLinks), row.id).None?
      ensures r.Ok? ==> events == old(events) + [EventRow(s)(row)]
      ensures r.Ok? ==> eventLinks == old(eventLinks) + [EventLink(s)(row)]
      ensures r.Err? ==> !r.error.UnresolvedFights?
      ensures EventsGrow(old(State()), State())
    {
      var id, status := s.event(row.id), if row.eventDate.Some? then "completed" else "scheduled";
      events := events + [Event(id, row.name, Some("ufc"), status, None, row.eventDate, row.location, s.now, s.now)];
      if Lookup(eventLinks, row.id).Some? {
        return Err(LinkTwice(row.id));
      }
      eventLinks := eventLinks + [Link(id, SOURCE, row.id, s.now)];
      r := Ok(());
    }

    /** One row of the event loop; yields the canonical id of the event. */
    method ImportEvent(rows: seq<LegacyEvent>, i: nat, s: Supply, ghost c: Canon) returns (r: Result<Id, ImportError>)
      requires i < |rows| && forall j, k | 0 <= j < k < |rows| :: rows[j].id != rows[k].id
      requires State() == AddEvents(s, rows[..i], c)
      modifies `events, `eventLinks
      ensures r.Ok? <==> EventImportable(c.eventLinks, rows[i])
      ensures r.Ok? ==> State() == AddEvents(s, rows[..i + 1], c)
      ensures r.Ok? ==> r.value == CanonicalId(c.eventLinks, s.event, rows[i].id)
      ensures r.Err? ==> !r.error.UnresolvedFights?
      ensures EventsGrow(c, State())
    {
      var row := rows[i];
      EventStep(s, rows, i, c);
      EventUntouched(s, rows, i, c);
      EventsGrewBefore(s, rows[..i], c, State());
      var existing := Lookup(eventLinks, row.id);
      if existing.Some? && existing.value != "" {
        return Ok(existing.value);
      }
      var added := InsertEvent(row, s);
      EventsGrewBefore(s, rows[..i], c, State());
      if added.Err? {
        return Err(added.error);
      }
      r := Ok(s.event(row.id));
    }

    method ImportEvents(rows: seq<LegacyEvent>, s: Supply) returns (r: Result<map<Id, Id>, ImportError>)
      requires forall i, j | 0 <= i < j < |rows| :: rows[i].id != rows[j].id
      modifies `events, `eventLinks
      ensures r.Ok? <==> forall row | row in rows :: EventImportable(old(eventLinks), row)
      ensures r.Ok? ==> State() == AddEvents(s, rows, old(State()))
      ensures r.Ok? ==> r.value == EventNames(old(eventLinks), s.event, rows)
      ensures r.Err? ==> !r.error.UnresolvedFights?
      ensures EventsGrow(old(State()), State())
    {
      ghost var c := State();
      var names: map<Id, Id> := map[];
      for i := 0 to |rows|
        invariant State() == AddEvents(s, rows[..i], c)
        invariant names == EventNames(c.eventLinks, s.event, rows[..i])
        invariant forall j | 0 <= j < i :: EventImportable(c.eventLinks, rows[j])
      {
        EventNameStep(c.eventLinks, s.event, rows, i);
        var imported := ImportEvent(rows, i, s, c);
        if imported.Err? {
          assert !EventImportable(c.eventLinks, rows[i]);
          return Err(imported.error);
        }
        names := names[rows[i].id := imported.value];
      }
      assert rows[..|rows|] == rows;
      r := Ok(names);
    }

    method InsertFight(row: LegacyFight, resolve: Resolver, s: Supply, resolution: Resolution)
      returns (r: Result<(), ImportError>)
      requires resolve(row) == Some(resolution)
      modifies `bouts, `boutLinks, `participants, `versions
      ensures r.Ok? <==> Lookup(old(boutLinks), row.id).None?
      ensures r.Ok? ==> bouts == old(bouts) + BoutOf(s, resolve)(row)
      ensures r.Ok? ==> boutLinks == old(boutLinks) + BoutLinkOf(s, resolve)(row)
      ensures r.Ok? ==> participants == old(participants) + ParticipantsOf(s, resolve)(row)
      ensures r.Ok? ==> versions == old(versions) + VersionsOf(s, resolve)(row)
      ensures r.Err? ==> !r.error.UnresolvedFights?
      ensures FightsGrow(old(State()), State())
    {
      var own := RowsFor(s, row, resolution);
      bouts := bouts + [own.bout];
      if Lookup(boutLinks, row.id).Some? {
        return Err(LinkTwice(row.id));
      }
      boutLinks := boutLinks + [own.link];
      participants := participants + own.participants;
      versions := versions + own.versions;
      r := Ok(());
    }

    /** One row of the fight loop: true when the fight is imported, now or before. */
    method ImportFight(rows: seq<LegacyFight>, i: nat, resolve: Resolver, s: Supply, ghost c: Canon)
      returns (r: Result<bool, ImportError>)
      requires i < |rows| && forall j, k | 0 <= j < k < |rows| :: rows[j].id != rows[k].id
      requires State() == AddFights(s, resolve, rows[..i], c)
      modifies `bouts, `boutLinks, `participants, `versions
      ensures r.Ok? <==> Linkable(resolve, c.boutLinks, rows[i])
      ensures r.Ok? ==> State() == AddFights(s, resolve, rows[..i + 1], c)
      ensures r.Ok? ==> (r.value <==> Imported(c.boutLinks, rows[i].id) || resolve(rows[i]).Some?)
      ensures r.Err? ==> !r.error.UnresolvedFights?
      ensures FightsGrow(c, State())
    {
      var row := rows[i];
      FightStep(s, resolve, rows, i, c);
      FightUntouched(s, resolve, rows, i, c);
      FightsGrewBefore(s, resolve, rows[..i], c, State());
      var existing := Lookup(boutLinks, row.id);
      if existing.Some? && existing.value != "" {
        return Ok(true);
      }
      var resolution := resolve(row);
      if resolution.None? {
        return Ok(false);
      }
      var added := InsertFight(row, resolve, s, resolution.value);
      FightsGrewBefore(s, resolve, rows[..i], c, State());
      if added.Err? {
        return Err(added.error);
      }
      r := Ok(true);
    }

    /** Imports the fights that resolve and lists the others. */
    method ImportFights(rows: seq<LegacyFight>, resolve: Resolver, s: Supply) returns (r: Result<seq<Id>, ImportError>)
      requires forall i, j | 0 <= i < j < |rows| :: rows[i].id != rows[j].id
      modifies `bouts, `boutLinks, `participants, `versions
      ensures r.Ok? <==> forall row | row in rows :: Linkable(resolve, old(boutLinks), row)
      ensures r.Ok? ==> State() == AddFights(s, resolve, rows, old(State()))
      ensures r.Ok? ==> r.value == UnresolvedIds(resolve, old(boutLinks), rows)
      ensures r.Err? ==> !r.error.UnresolvedFights?
      ensures FightsGrow(old(State()), State())
    {
      ghost var c := State();
      var unresolved: seq<Id> := [];
      for i := 0 to |rows|
        invariant State() == AddFights(s, resolve, rows[..i], c)
        invariant unresolved == UnresolvedIds(resolve, c.boutLinks, rows[..i])
        invariant forall j | 0 <= j < i :: Linkable(resolve, c.boutLinks, rows[j])
      {
        UnresolvedStep(resolve, c.boutLinks, rows, i);
        var imported := ImportFight(rows, i, resolve, s, c);
        if imported.Err? {
          assert !Linkable(resolve, c.boutLinks, rows[i]);
          return Err(imported.error);
        }
        if !imported.value {
          unresolved := unresolved + [rows[i].id];
        }
      }
      assert rows[..|rows|] == rows;
      r := Ok(unresolved);
    }

    /** Fighters and events, and the ids by which fights refer to them. */
    method ImportNames(legacy: Legacy, s: Supply) returns (r: Result<Names, ImportError>)
      requires Keyed(legacy) && Referential(State()) && Fresh(s, State())
      modifies `fighters, `fighterLinks, `aliases, `events, `eventLinks
      ensures r.Ok? <==> (forall row | row in legacy.fighters :: FighterImportable(old(fighterLinks), row))
                         && forall row | row in legacy.events :: EventImportable(old(eventLinks), row)
      ensures r.Ok? ==> State() == AddEvents(s, legacy.events, AddFighters(s, legacy.fighters, old(State())))
      ensures r.Ok? ==> r.value == NamesFor(legacy, s, old(State()))
      ensures r.Err? ==> !r.error.UnresolvedFights?
      ensures FightersGrow(old(State()), State()) && EventsGrow(old(State()), State())
    {
      var fighterNames := ImportFighters(legacy.fighters, s);
      if fighterNames.Err? {
        return Err(fighterNames.error);
      }
      var eventNames := ImportEvents(legacy.events, s);
      if eventNames.Err? {
        return Err(eventNames.error);
      }
      r := Ok(Names(fighterNames.value, eventNames.value));
    }

    /** Fails closed: a fight that does not resolve fails the whole import. */
    method Upgrade(legacy: Legacy, s: Supply) returns (r: Result<(), ImportError>)
      requires Keyed(legacy) && Referential(State()) && Fresh(s, State())
      modifies this
      ensures r.Ok? <==> CanUpgrade(legacy, s, old(State()))
      ensures r.Ok? ==> State() == Upgraded(legacy, s, old(State()))
      ensures r.Err? && r.error.UnresolvedFights? ==>
                r.error.fights
                  == UnresolvedIds(ResolveBy(NamesFor(legacy, s, old(State()))), old(boutLinks), legacy.fights)
                && State() == Upgraded(legacy, s, old(State()))
      ensures Extends(old(State()), State())
    {
      var names := ImportNames(legacy, s);
      if names.Err? {
        return Err(names.error);
      }
      var unresolved := ImportFights(legacy.fights, ResolveBy(names.value), s);
      UnresolvedIff(ResolveBy(names.value), old(boutLinks), legacy.fights);
      if unresolved.Err? {
        return Err(unresolved.error);
      }
      if unresolved.value != [] {
        return Err(UnresolvedFights(unresolved.value));
      }
      r := Ok(());
    }

    // ----- removal -----

    /** A bout and the rows that hang on it. */
    method RemoveBout(id: Id, ghost c: Canon, ghost gone: set<Id>)
      requires State() == WithoutBouts(c, gone)
      modifies `bouts, `participants, `versions, `stats
      ensures State() == WithoutBouts(c, gone + {id})
    {
      WithoutOneMoreBout(c, gone, id);
      versions := Filter(Without(BoutOfVersion(), {id}), versions);
      participants := Filter(Without(BoutOfParticipant(), {id}), participants);
      stats := Filter(Without(BoutOfStat(), {id}), stats);
      bouts := Filter(Without(IdOfBout(), {id}), bouts);
    }

    method RemoveBouts()
      modifies `bouts, `boutLinks, `participants, `versions, `stats
      ensures State() == DropBouts(old(State()))
    {
      ghost var c := State();
      var ids := OwnIds(boutLinks);
      boutLinks := Filter(Foreign(), boutLinks);
      ghost var gone: set<Id> := {};
      NothingGone(c);
      for i := 0 to |ids|
        invariant State() == WithoutBouts(c, gone)
        invariant forall id :: id in gone <==> id in ids[..i] && Sole(c.boutLinks, id)
      {
        Prefix(ids, i);
        var id := ids[i];
        OwnIdsAreOurs(c.boutLinks, id);
        StillLinked(c.boutLinks, id);
        if Linked(boutLinks, id) {
          continue;
        }
        RemoveBout(id, c, gone);
        gone := gone + {id};
      }
      assert ids[..|ids|] == ids;
      AllBoutsGone(c, gone);
    }

    method RemoveEvents()
      modifies `events, `eventLinks
      ensures State() == DropEvents(old(State()))
    {
      ghost var c := State();
      var ids := OwnIds(eventLinks);
      eventLinks := Filter(Foreign(), eventLinks);
      ghost var gone: set<Id> := {};
      NothingGone(c);
      for i := 0 to |ids|
        invariant State() == WithoutEvents(c, gone)
        invariant forall id :: id in gone <==> id in ids[..i] && EventDropped(c, id)
      {
        Prefix(ids, i);
        var id := ids[i];
        OwnIdsAreOurs(c.eventLinks, id);
        StillLinked(c.eventLinks, id);
        if Linked(eventLinks, id) || Hosts(bouts, id) {
          continue;
        }
        WithoutOneMore(IdOfEvent(), gone, id, c.events);
        events := Filter(Without(IdOfEvent(), {id}), events);
        gone := gone + {id};
      }
      assert ids[..|ids|] == ids;
      AllEventsGone(c, gone);
    }

    method RemoveFacts()
      modifies `stats, `profiles, `aliases, `fighterLinks
      ensures State() == DropFacts(old(State()))
    {
      stats := Filter(ForeignStat(), stats);
      profiles := Filter(ForeignProfile(), profiles);
      aliases := Filter(ForeignAlias(), aliases);
      fighterLinks := Filter(Foreign(), fighterLinks);
    }

    /** Deleting a fighter that a surviving row names violates a foreign key. */
    method RemoveFighters() returns (r: Result<(), ImportError>)
      requires Referential(State())
      modifies `stats, `profiles, `aliases, `fighterLinks, `fighters
      ensures r.Ok? <==> forall id | FighterDropped(old(State()), id) :: !StillNamed(DropFacts(old(State())), id)
      ensures r.Ok? ==> State() == DropFighters(old(State()))
      ensures r.Err? ==> StoppedAt(old(State()), State(), r.error)
    {
      ghost var c := State();
      DropFactsKeepsReferences(c);
      var ids := OwnIds(fighterLinks);
      RemoveFacts();
      NothingGone(c);
      r := DeleteFighters(ids, c);
    }

    method DeleteFighters(ids: seq<Id>, ghost c: Canon) returns (r: Result<(), ImportError>)
      requires Referential(DropFacts(c)) && ids == OwnIds(c.fighterLinks) && State() == WithoutFighters(c, {})
      modifies `fighters
      ensures r.Ok? <==> forall id | FighterDropped(c, id) :: !StillNamed(DropFacts(c), id)
      ensures r.Ok? ==> State() == DropFighters(c)
      ensures r.Err? ==> StoppedAt(c, State(), r.error)
    {
      ghost var gone: set<Id> := {};
      for i := 0 to |ids|
        invariant State() == WithoutFighters(c, gone)
        invariant forall id :: id in gone <==> id in ids[..i] && FighterDropped(c, id)
        invariant forall id | id in gone :: !StillNamed(DropFacts(c), id)
      {
        Prefix(ids, i);
        var id := ids[i];
        OwnIdsAreOurs(c.fighterLinks, id);
        StillLinked(c.fighterLinks, id);
        if Linked(fighterLinks, id) || Fights(bouts, id) || TakesPart(participants, id) {
          continue;
        }
        NamedIsPresent(c, gone, id);
        if HasFighter(fighters, id) && StillNamed(State(), id) {
          assert State() == WithoutFighters(c, gone);
          return Err(StillReferenced(id));
        }
        WithoutOneMore(IdOfFighter(), gone, id, c.fighters);
        fighters := Filter(Without(IdOfFighter(), {id}), fighters);
        gone := gone + {id};
      }
      assert ids[..|ids|] == ids;
      AllFightersGone(c, gone);
      r := Ok(());
    }

    method Downgrade() returns (r: Result<(), ImportError>)
      requires Referential(State())
      modifies this
      ensures r.Ok? <==> CanDowngrade(old(State()))
      ensures r.Ok? ==> State() == Downgraded(old(State()))
      ensures r.Err? ==> StoppedAt(DropEvents(DropBouts(old(State()))), State(), r.error)
    {
      ghost var c := State();
      RemoveBouts();
      RemoveEvents();
      DropBoutsKeepsReferences(c);
      DropEventsKeepsReferences(DropBouts(c));
      r := RemoveFighters();
    }
  }
}

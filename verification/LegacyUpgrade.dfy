/** What the import of the legacy UFCStats tables adds to the canonical tables, and when
    it succeeds. */
module LegacyUpgrade {
  import opened Prelude
  import opened LegacyTables

  /** The random identifiers handed to new entities, and the time of the import. */
  datatype Supply = Supply(fighter: Id -> Id, event: Id -> Id, bout: Id -> Id, now: int)

  ghost predicate Generates(f: Id -> Id, taken: set<Id>) {
    && (forall x :: f(x) != "" && f(x) !in taken)
    && forall x, y | x != y :: f(x) != f(y)
  }

  /** Random identifiers are new and never repeat. */
  ghost predicate Fresh(s: Supply, c: Canon) {
    && Generates(s.fighter, FighterIds(c.fighters))
    && Generates(s.event, EventIds(c.events))
    && Generates(s.bout, BoutIds(c.bouts))
  }

  predicate NonEmpty(text: Option<string>) { text.Some? && text.value != "" }

  // ----- fighters -----

  function NewFighter(links: seq<Link>): LegacyFighter -> bool { (row: LegacyFighter) => !Imported(links, row.id) }

  function FighterRow(s: Supply): LegacyFighter -> Fighter {
    (row: LegacyFighter) => Fighter(s.fighter(row.id), row.name, s.now, s.now)
  }

  function FighterLink(s: Supply): LegacyFighter -> Link {
    (row: LegacyFighter) => Link(s.fighter(row.id), SOURCE, row.id, s.now)
  }

  function AliasRows(s: Supply): LegacyFighter -> seq<Alias> {
    (row: LegacyFighter) =>
      [Alias(s.fighter(row.id), row.name, Some(SOURCE), s.now)]
      + if NonEmpty(row.nickname) then [Alias(s.fighter(row.id), row.nickname.value, Some(SOURCE), s.now)] else []
  }

  function AddFighters(s: Supply, rows: seq<LegacyFighter>, c: Canon): Canon {
    var added := Filter(NewFighter(c.fighterLinks), rows);
    c.(fighters := c.fighters + Map(FighterRow(s), added),
       fighterLinks := c.fighterLinks + Map(FighterLink(s), added),
       aliases := c.aliases + FlatMap(AliasRows(s), added))
  }

  /** Two equal aliases of one fighter, or a second link for one external id, violate a
      unique key. */
  predicate FighterImportable(links: seq<Link>, row: LegacyFighter) {
    Imported(links, row.id)
    || (Lookup(links, row.id).None? && !(NonEmpty(row.nickname) && row.nickname.value == row.name))
  }

  // ----- events -----

  function NewEvent(links: seq<Link>): LegacyEvent -> bool { (row: LegacyEvent) => !Imported(links, row.id) }

  function EventRow(s: Supply): LegacyEvent -> Event {
    (row: LegacyEvent) =>
      Event(s.event(row.id), row.name, Some("ufc"), if row.eventDate.Some? then "completed" else "scheduled",
            None, row.eventDate, row.location, s.now, s.now)
  }

  function EventLink(s: Supply): LegacyEvent -> Link {
    (row: LegacyEvent) => Link(s.event(row.id), SOURCE, row.id, s.now)
  }

  function AddEvents(s: Supply, rows: seq<LegacyEvent>, c: Canon): Canon {
    var added := Filter(NewEvent(c.eventLinks), rows);
    c.(events := c.events + Map(EventRow(s), added), eventLinks := c.eventLinks + Map(EventLink(s), added))
  }

  predicate EventImportable(links: seq<Link>, row: LegacyEvent) {
    Imported(links, row.id) || Lookup(links, row.id).None?
  }

  // ----- from legacy to canonical ids -----

  /** The canonical id an external id has after the import. */
  function CanonicalId(links: seq<Link>, generated: Id -> Id, externalId: Id): Id {
    if Imported(links, externalId) then Lookup(links, externalId).value else generated(externalId)
  }

  function FighterNames(links: seq<Link>, generated: Id -> Id, rows: seq<LegacyFighter>): map<Id, Id> {
    if rows == [] then map[] else
      FighterNames(links, generated, Front(rows))[Last(rows).id := CanonicalId(links, generated, Last(rows).id)]
  }

  function EventNames(links: seq<Link>, generated: Id -> Id, rows: seq<LegacyEvent>): map<Id, Id> {
    if rows == [] then map[] else
      EventNames(links, generated, Front(rows))[Last(rows).id := CanonicalId(links, generated, Last(rows).id)]
  }

  datatype Names = Names(fighters: map<Id, Id>, events: map<Id, Id>)

  function NamesFor(legacy: Legacy, s: Supply, c: Canon): Names {
    Names(FighterNames(c.fighterLinks, s.fighter, legacy.fighters), EventNames(c.eventLinks, s.event, legacy.events))
  }

  // ----- fights -----

  datatype Resolution = Resolution(event: Id, fighterA: Id, fighterB: Id, winner: Option<Id>)

  function Get(names: map<Id, Id>, id: Id): Option<Id> { if id in names then Some(names[id]) else None }

  function Resolve(names: Names, row: LegacyFight): Option<Resolution> {
    var event := Get(names.events, row.eventId);
    var a, b := Get(names.fighters, row.fighterA), Get(names.fighters, row.fighterB);
    if event.None? || a.None? || b.None? || a == b then None
    else if !NonEmpty(row.winner) then Some(Resolution(event.value, a.value, b.value, None))
    else
      var winner := Get(names.fighters, row.winner.value);
      if winner.None? || (winner != a && winner != b) then None
      else Some(Resolution(event.value, a.value, b.value, winner))
  }

  function Lower(text: string): string {
    if text == "" then "" else
      var last := Last(text);
      Lower(Front(text)) + [if 'A' <= last <= 'Z' then last + ('a' - 'A') else last]
  }

  predicate StartsAt(text: string, part: string, i: nat) {
    i + |part| <= |text| && text[i..i + |part|] == part
  }

  predicate Contains(text: string, part: string) {
    exists i | 0 <= i <= |text| :: StartsAt(text, part, i)
  }

  function NotDash(): char -> bool { (ch: char) => ch != '-' }

  function ResultType(winner: Option<Id>, methodText: Option<string>): Option<string> {
    if winner.Some? then Some("win")
    else if NonEmpty(methodText) && Contains(Lower(methodText.value), "draw") then Some("draw")
    else if NonEmpty(methodText) && Contains(Filter(NotDash(), Lower(methodText.value)), "nc") then Some("no_contest")
    else None
  }

  datatype FightRows = FightRows(bout: Bout, link: Link, participants: seq<Participant>, versions: seq<Version>)

  function VersionRow(s: Supply, row: LegacyFight, r: Resolution, kind: string): Version {
    Version(s.bout(row.id), kind, r.fighterA, r.fighterB, r.winner, ResultType(r.winner, row.methodText),
            row.methodText, row.fightRound, row.time, s.now, s.now, s.now)
  }

  function RowsFor(s: Supply, row: LegacyFight, r: Resolution): FightRows {
    var id := s.bout(row.id);
    FightRows(
      Bout(id, r.event, r.fighterA, r.fighterB, 3, row.weightClass,
           if NonEmpty(row.winner) || NonEmpty(row.methodText) then "completed" else "scheduled", s.now, s.now),
      Link(id, SOURCE, row.id, s.now),
      [Participant(id, r.fighterA, "a", s.now), Participant(id, r.fighterB, "b", s.now)],
      [VersionRow(s, row, r, "event_night"), VersionRow(s, row, r, "current")])
  }

  function NewFight(links: seq<Link>): LegacyFight -> bool { (row: LegacyFight) => !Imported(links, row.id) }

  type Resolver = LegacyFight -> Option<Resolution>

  function ResolveBy(names: Names): Resolver { (row: LegacyFight) => Resolve(names, row) }

  function Unresolved(resolve: Resolver): LegacyFight -> bool { (row: LegacyFight) => resolve(row).None? }

  function BoutOf(s: Supply, resolve: Resolver): LegacyFight -> seq<Bout> {
    (row: LegacyFight) =>
      if resolve(row).Some? then [RowsFor(s, row, resolve(row).value).bout] else []
  }

  function BoutLinkOf(s: Supply, resolve: Resolver): LegacyFight -> seq<Link> {
    (row: LegacyFight) =>
      if resolve(row).Some? then [RowsFor(s, row, resolve(row).value).link] else []
  }

  function ParticipantsOf(s: Supply, resolve: Resolver): LegacyFight -> seq<Participant> {
    (row: LegacyFight) =>
      if resolve(row).Some? then RowsFor(s, row, resolve(row).value).participants else []
  }

  function VersionsOf(s: Supply, resolve: Resolver): LegacyFight -> seq<Version> {
    (row: LegacyFight) =>
      if resolve(row).Some? then RowsFor(s, row, resolve(row).value).versions else []
  }

  /** Fights that do not resolve add no rows. */
  function AddFights(s: Supply, resolve: Resolver, rows: seq<LegacyFight>, c: Canon): Canon {
    var added := Filter(NewFight(c.boutLinks), rows);
    c.(bouts := c.bouts + FlatMap(BoutOf(s, resolve), added),
       boutLinks := c.boutLinks + FlatMap(BoutLinkOf(s, resolve), added),
       participants := c.participants + FlatMap(ParticipantsOf(s, resolve), added),
       versions := c.versions + FlatMap(VersionsOf(s, resolve), added))
  }

  predicate FightImportable(resolve: Resolver, links: seq<Link>, row: LegacyFight) {
    Imported(links, row.id) || (Lookup(links, row.id).None? && resolve(row).Some?)
  }

  // ----- the import -----

  function Upgraded(legacy: Legacy, s: Supply, c: Canon): Canon {
    AddFights(s, ResolveBy(NamesFor(legacy, s, c)), legacy.fights,
              AddEvents(s, legacy.events, AddFighters(s, legacy.fighters, c)))
  }

  ghost predicate CanUpgrade(legacy: Legacy, s: Supply, c: Canon) {
    && (forall row | row in legacy.fighters :: FighterImportable(c.fighterLinks, row))
    && (forall row | row in legacy.events :: EventImportable(c.eventLinks, row))
    && (forall row | row in legacy.fights :: FightImportable(ResolveBy(NamesFor(legacy, s, c)), c.boutLinks, row))
  }

  /** The legacy tables have primary keys. */
  ghost predicate Keyed(legacy: Legacy) {
    && (forall i, j | 0 <= i < j < |legacy.fighters| :: legacy.fighters[i].id != legacy.fighters[j].id)
    && (forall i, j | 0 <= i < j < |legacy.events| :: legacy.events[i].id != legacy.events[j].id)
    && (forall i, j | 0 <= i < j < |legacy.fights| :: legacy.fights[i].id != legacy.fights[j].id)
  }

  // ----- names -----

  lemma {:induction false} FighterNamesAre(links: seq<Link>, generated: Id -> Id, rows: seq<LegacyFighter>)
    ensures forall k :: k in FighterNames(links, generated, rows) <==> exists row :: row in rows && row.id == k
    ensures forall k | k in FighterNames(links, generated, rows) ::
              FighterNames(links, generated, rows)[k] == CanonicalId(links, generated, k)
  {
    if rows != [] {
      Split(rows);
      FighterNamesAre(links, generated, Front(rows));
      assert Last(rows) in rows;
    }
  }

  lemma {:induction false} EventNamesAre(links: seq<Link>, generated: Id -> Id, rows: seq<LegacyEvent>)
    ensures forall k :: k in EventNames(links, generated, rows) <==> exists row :: row in rows && row.id == k
    ensures forall k | k in EventNames(links, generated, rows) ::
              EventNames(links, generated, rows)[k] == CanonicalId(links, generated, k)
  {
    if rows != [] {
      Split(rows);
      EventNamesAre(links, generated, Front(rows));
      assert Last(rows) in rows;
    }
  }

  ghost predicate KnownFighter(legacy: Legacy, id: Id) { exists row :: row in legacy.fighters && row.id == id }

  ghost predicate KnownEvent(legacy: Legacy, id: Id) { exists row :: row in legacy.events && row.id == id }

  /** A fight resolves exactly when its event and fighters are legacy rows, the fighters
      stand for different people and a stated winner stands for one of them. */
  lemma FightResolvesIff(legacy: Legacy, s: Supply, c: Canon, row: LegacyFight)
    ensures var who := (id: Id) => CanonicalId(c.fighterLinks, s.fighter, id);
            Resolve(NamesFor(legacy, s, c), row).Some? <==>
              && KnownEvent(legacy, row.eventId)
              && KnownFighter(legacy, row.fighterA) && KnownFighter(legacy, row.fighterB)
              && who(row.fighterA) != who(row.fighterB)
              && (NonEmpty(row.winner) ==>
                  KnownFighter(legacy, row.winner.value)
                  && who(row.winner.value) in {who(row.fighterA), who(row.fighterB)})
  {
    FighterNamesAre(c.fighterLinks, s.fighter, legacy.fighters);
    EventNamesAre(c.eventLinks, s.event, legacy.events);
  }

  // ----- a second import changes nothing -----

  lemma LinkedAfterwards(generated: Id -> Id, links: seq<Link>, added: seq<Link>, externalId: Id)
    requires forall x :: generated(x) != ""
    requires forall l | l in added :: l.entityId == generated(l.externalId)
    requires Imported(links, externalId)
          || (Lookup(links, externalId).None? && exists l :: l in added && Ours(l, externalId))
    ensures Imported(links + added, externalId)
  {
    LookupAppend(links, added, externalId);
    LookupMember(added, externalId);
  }

  lemma FightersImported(s: Supply, rows: seq<LegacyFighter>, c: Canon, row: LegacyFighter)
    requires (forall x :: s.fighter(x) != "") && row in rows && FighterImportable(c.fighterLinks, row)
    ensures Imported(AddFighters(s, rows, c).fighterLinks, row.id)
  {
    var added := Filter(NewFighter(c.fighterLinks), rows);
    FilterMembers(NewFighter(c.fighterLinks), rows);
    if row in added {
      var i :| 0 <= i < |added| && added[i] == row;
      assert Map(FighterLink(s), added)[i] == FighterLink(s)(row);
      assert FighterLink(s)(row) in Map(FighterLink(s), added) && Ours(FighterLink(s)(row), row.id);
    }
    LinkedAfterwards(s.fighter, c.fighterLinks, Map(FighterLink(s), added), row.id);
  }

  lemma EventsImported(s: Supply, rows: seq<LegacyEvent>, c: Canon, row: LegacyEvent)
    requires (forall x :: s.event(x) != "") && row in rows && EventImportable(c.eventLinks, row)
    ensures Imported(AddEvents(s, rows, c).eventLinks, row.id)
  {
    var added := Filter(NewEvent(c.eventLinks), rows);
    FilterMembers(NewEvent(c.eventLinks), rows);
    if row in added {
      var i :| 0 <= i < |added| && added[i] == row;
      assert Map(EventLink(s), added)[i] == EventLink(s)(row);
      assert EventLink(s)(row) in Map(EventLink(s), added) && Ours(EventLink(s)(row), row.id);
    }
    LinkedAfterwards(s.event, c.eventLinks, Map(EventLink(s), added), row.id);
  }

  lemma FightsImported(s: Supply, resolve: Resolver, rows: seq<LegacyFight>, c: Canon, row: LegacyFight)
    requires (forall x :: s.bout(x) != "") && row in rows && FightImportable(resolve, c.boutLinks, row)
    ensures Imported(AddFights(s, resolve, rows, c).boutLinks, row.id)
  {
    var added := Filter(NewFight(c.boutLinks), rows);
    var links := FlatMap(BoutLinkOf(s, resolve), added);
    FilterMembers(NewFight(c.boutLinks), rows);
    FlatMapMembers(BoutLinkOf(s, resolve), added);
    if row in added {
      var link := RowsFor(s, row, resolve(row).value).link;
      assert link in BoutLinkOf(s, resolve)(row);
      assert link in links && Ours(link, row.id);
    }
    LinkedAfterwards(s.bout, c.boutLinks, links, row.id);
  }

  lemma AllImported(legacy: Legacy, s: Supply, c: Canon)
    requires CanUpgrade(legacy, s, c) && Fresh(s, c)
    ensures var d := Upgraded(legacy, s, c);
            && (forall row | row in legacy.fighters :: Imported(d.fighterLinks, row.id))
            && (forall row | row in legacy.events :: Imported(d.eventLinks, row.id))
            && (forall row | row in legacy.fights :: Imported(d.boutLinks, row.id))
  {
    var c1 := AddFighters(s, legacy.fighters, c);
    var c2 := AddEvents(s, legacy.events, c1);
    forall row | row in legacy.fighters
      ensures Imported(c1.fighterLinks, row.id)
    {
      FightersImported(s, legacy.fighters, c, row);
    }
    forall row | row in legacy.events
      ensures Imported(c2.eventLinks, row.id)
    {
      EventsImported(s, legacy.events, c1, row);
    }
    forall row | row in legacy.fights
      ensures Imported(Upgraded(legacy, s, c).boutLinks, row.id)
    {
      FightsImported(s, ResolveBy(NamesFor(legacy, s, c)), legacy.fights, c2, row);
    }
  }

  lemma NothingToAdd(legacy: Legacy, s: Supply, c: Canon)
    requires forall row | row in legacy.fighters :: Imported(c.fighterLinks, row.id)
    requires forall row | row in legacy.events :: Imported(c.eventLinks, row.id)
    requires forall row | row in legacy.fights :: Imported(c.boutLinks, row.id)
    ensures CanUpgrade(legacy, s, c) && Upgraded(legacy, s, c) == c
  {
    FilterNone(NewFighter(c.fighterLinks), legacy.fighters);
    FilterNone(NewEvent(c.eventLinks), legacy.events);
    FilterNone(NewFight(c.boutLinks), legacy.fights);
    assert AddFighters(s, legacy.fighters, c) == c;
    assert AddEvents(s, legacy.events, c) == c;
  }

  /** A second import, at any later time and with any identifiers, succeeds and changes
      nothing. */
  lemma SecondUpgradeChangesNothing(legacy: Legacy, s: Supply, t: Supply, c: Canon)
    requires Fresh(s, c) && CanUpgrade(legacy, s, c)
    ensures var d := Upgraded(legacy, s, c);
            CanUpgrade(legacy, t, d) && Upgraded(legacy, t, d) == d
  {
    AllImported(legacy, s, c);
    NothingToAdd(legacy, t, Upgraded(legacy, s, c));
  }

  // ----- the import keeps the foreign keys -----

  lemma FightersHeld(s: Supply, rows: seq<LegacyFighter>, c: Canon)
    requires Referential(c)
    ensures Referential(AddFighters(s, rows, c))
    ensures forall row | row in rows ::
              CanonicalId(c.fighterLinks, s.fighter, row.id) in FighterIds(AddFighters(s, rows, c).fighters)
  {
    var added, d := Filter(NewFighter(c.fighterLinks), rows), AddFighters(s, rows, c);
    FilterMembers(NewFighter(c.fighterLinks), rows);
    FlatMapMembers(AliasRows(s), added);
    forall row | row in added
      ensures s.fighter(row.id) in FighterIds(d.fighters)
    {
      var i :| 0 <= i < |added| && added[i] == row;
      assert d.fighters[|c.fighters| + i] == FighterRow(s)(row);
    }
    assert FighterIds(c.fighters) <= FighterIds(d.fighters);
    forall row | row in rows
      ensures CanonicalId(c.fighterLinks, s.fighter, row.id) in FighterIds(d.fighters)
    {
      LookupMember(c.fighterLinks, row.id);
    }
  }

  lemma EventsHeld(s: Supply, rows: seq<LegacyEvent>, c: Canon)
    requires Referential(c)
    ensures Referential(AddEvents(s, rows, c))
    ensures forall row | row in rows ::
              CanonicalId(c.eventLinks, s.event, row.id) in EventIds(AddEvents(s, rows, c).events)
  {
    var added, d := Filter(NewEvent(c.eventLinks), rows), AddEvents(s, rows, c);
    FilterMembers(NewEvent(c.eventLinks), rows);
    forall row | row in added
      ensures s.event(row.id) in EventIds(d.events)
    {
      var i :| 0 <= i < |added| && added[i] == row;
      assert d.events[|c.events| + i] == EventRow(s)(row);
    }
    assert EventIds(c.events) <= EventIds(d.events);
    forall row | row in rows
      ensures CanonicalId(c.eventLinks, s.event, row.id) in EventIds(d.events)
    {
      LookupMember(c.eventLinks, row.id);
    }
  }

  ghost predicate NamesHeld(names: Names, c: Canon) {
    && (forall k | k in names.fighters :: names.fighters[k] in FighterIds(c.fighters))
    && (forall k | k in names.events :: names.events[k] in EventIds(c.events))
  }

  ghost predicate ResolutionHeld(r: Resolution, events: set<Id>, fighters: set<Id>) {
    && r.event in events && r.fighterA in fighters && r.fighterB in fighters && r.fighterA != r.fighterB
    && (r.winner.Some? ==> r.winner.value in {r.fighterA, r.fighterB})
  }

  /** Every fight resolves to rows that exist. */
  ghost predicate ResolvesHeld(resolve: Resolver, c: Canon) {
    forall row | resolve(row).Some? :: ResolutionHeld(resolve(row).value, EventIds(c.events), FighterIds(c.fighters))
  }

  lemma NamesResolveHeld(names: Names, c: Canon)
    requires NamesHeld(names, c)
    ensures ResolvesHeld(ResolveBy(names), c)
  {
  }

  lemma RowsHeld(s: Supply, row: LegacyFight, r: Resolution, events: set<Id>, fighters: set<Id>, ids: set<Id>)
    requires ResolutionHeld(r, events, fighters) && s.bout(row.id) in ids
    ensures var rows := RowsFor(s, row, r);
            && BoutsHeld([rows.bout], events, fighters) && LinksHeld([rows.link], ids)
            && ParticipantsHeld(rows.participants, ids, fighters) && VersionsHeld(rows.versions, ids, fighters)
  {
  }

  lemma {:induction false} AddedFightsHeld(
    s: Supply, resolve: Resolver, added: seq<LegacyFight>, c: Canon, ids: set<Id>)
    requires ResolvesHeld(resolve, c)
    requires forall row | row in added && resolve(row).Some? :: s.bout(row.id) in ids
    ensures BoutsHeld(FlatMap(BoutOf(s, resolve), added), EventIds(c.events), FighterIds(c.fighters))
    ensures LinksHeld(FlatMap(BoutLinkOf(s, resolve), added), ids)
    ensures ParticipantsHeld(FlatMap(ParticipantsOf(s, resolve), added), ids, FighterIds(c.fighters))
    ensures VersionsHeld(FlatMap(VersionsOf(s, resolve), added), ids, FighterIds(c.fighters))
  {
    if added != [] {
      AddedFightsHeld(s, resolve, Front(added), c, ids);
      var row := Last(added);
      assert row in added;
      if resolve(row).Some? {
        RowsHeld(s, row, resolve(row).value, EventIds(c.events), FighterIds(c.fighters), ids);
      }
    }
  }

  lemma FightsHeld(s: Supply, resolve: Resolver, rows: seq<LegacyFight>, c: Canon)
    requires Referential(c) && ResolvesHeld(resolve, c)
    ensures Referential(AddFights(s, resolve, rows, c))
  {
    var added, d := Filter(NewFight(c.boutLinks), rows), AddFights(s, resolve, rows, c);
    FlatMapMembers(BoutOf(s, resolve), added);
    forall row | row in added && resolve(row).Some?
      ensures s.bout(row.id) in BoutIds(d.bouts)
    {
      var bout := RowsFor(s, row, resolve(row).value).bout;
      assert bout in BoutOf(s, resolve)(row);
      assert bout in d.bouts;
    }
    assert BoutIds(c.bouts) <= BoutIds(d.bouts);
    AddedFightsHeld(s, resolve, added, c, BoutIds(d.bouts));
  }

  /** The import never leaves a dangling reference, resolved fights or not. */
  lemma UpgradeKeepsReferences(legacy: Legacy, s: Supply, c: Canon)
    requires Referential(c)
    ensures Referential(Upgraded(legacy, s, c))
  {
    var c1 := AddFighters(s, legacy.fighters, c);
    var c2 := AddEvents(s, legacy.events, c1);
    FightersHeld(s, legacy.fighters, c);
    EventsHeld(s, legacy.events, c1);
    FighterNamesAre(c.fighterLinks, s.fighter, legacy.fighters);
    EventNamesAre(c.eventLinks, s.event, legacy.events);
    NamesResolveHeld(NamesFor(legacy, s, c), c2);
    FightsHeld(s, ResolveBy(NamesFor(legacy, s, c)), legacy.fights, c2);
  }
}

/** The legacy tables, the canonical tables they are imported into, and the foreign keys
    between the canonical tables. A table is the sequence of its rows in insertion order;
    surrogate row numbers are left out. */
module LegacyTables {
  import opened Prelude

  type Id = string

  const SOURCE := "ufcstats"

  // ----- legacy rows -----

  datatype LegacyFighter = LegacyFighter(id: Id, name: string, nickname: Option<string>)

  datatype LegacyEvent = LegacyEvent(id: Id, name: string, eventDate: Option<int>, location: Option<string>)

  datatype LegacyFight = LegacyFight(
    id: Id, eventId: Id, fighterA: Id, fighterB: Id, winner: Option<Id>,
    weightClass: Option<string>, methodText: Option<string>, fightRound: Option<int>, time: Option<string>)

  datatype Legacy = Legacy(fighters: seq<LegacyFighter>, events: seq<LegacyEvent>, fights: seq<LegacyFight>)

  // ----- canonical rows -----

  datatype Fighter = Fighter(id: Id, displayName: string, createdAt: int, updatedAt: int)

  datatype Link = Link(entityId: Id, source: string, externalId: Id, createdAt: int)

  datatype Alias = Alias(fighterId: Id, alias: string, source: Option<string>, createdAt: int)

  datatype Event = Event(
    id: Id, name: string, series: Option<string>, status: string, scheduledStart: Option<int>,
    eventDate: Option<int>, location: Option<string>, createdAt: int, updatedAt: int)

  datatype Bout = Bout(
    id: Id, eventId: Id, fighterA: Id, fighterB: Id, scheduledRounds: int, weightClass: Option<string>,
    status: string, createdAt: int, updatedAt: int)

  datatype Participant = Participant(boutId: Id, fighterId: Id, corner: string, createdAt: int)

  datatype Version = Version(
    boutId: Id, kind: string, fighterA: Id, fighterB: Id, winner: Option<Id>, resultType: Option<string>,
    methodText: Option<string>, endingRound: Option<int>, time: Option<string>,
    effectiveAt: int, observedAt: int, createdAt: int)

  datatype Profile = Profile(fighterId: Id, source: string, attribute: string, value: string)

  datatype Stat = Stat(fighterId: Id, boutId: Option<Id>, source: string, key: string, value: string)

  datatype Canon = Canon(
    fighters: seq<Fighter>, fighterLinks: seq<Link>, aliases: seq<Alias>,
    events: seq<Event>, eventLinks: seq<Link>,
    bouts: seq<Bout>, boutLinks: seq<Link>, participants: seq<Participant>, versions: seq<Version>,
    profiles: seq<Profile>, stats: seq<Stat>)

  // ----- foreign keys -----

  function FighterIds(fighters: seq<Fighter>): set<Id> { set f | f in fighters :: f.id }

  function EventIds(events: seq<Event>): set<Id> { set e | e in events :: e.id }

  function BoutIds(bouts: seq<Bout>): set<Id> { set b | b in bouts :: b.id }

  ghost predicate LinksHeld(links: seq<Link>, ids: set<Id>) { forall l | l in links :: l.entityId in ids }

  ghost predicate AliasesHeld(aliases: seq<Alias>, fighters: set<Id>) {
    forall a | a in aliases :: a.fighterId in fighters
  }

  ghost predicate BoutsHeld(bouts: seq<Bout>, events: set<Id>, fighters: set<Id>) {
    forall b | b in bouts ::
      b.eventId in events && b.fighterA in fighters && b.fighterB in fighters && b.fighterA != b.fighterB
  }

  ghost predicate ParticipantsHeld(participants: seq<Participant>, bouts: set<Id>, fighters: set<Id>) {
    forall p | p in participants :: p.boutId in bouts && p.fighterId in fighters
  }

  ghost predicate VersionsHeld(versions: seq<Version>, bouts: set<Id>, fighters: set<Id>) {
    forall v | v in versions ::
      && v.boutId in bouts && v.fighterA in fighters && v.fighterB in fighters
      && (v.winner.Some? ==> v.winner.value in {v.fighterA, v.fighterB})
  }

  ghost predicate ProfilesHeld(profiles: seq<Profile>, fighters: set<Id>) {
    forall p | p in profiles :: p.fighterId in fighters
  }

  ghost predicate StatsHeld(stats: seq<Stat>, bouts: set<Id>, fighters: set<Id>) {
    forall s | s in stats :: s.fighterId in fighters && (s.boutId.Some? ==> s.boutId.value in bouts)
  }

  /** Every foreign key of the canonical tables points at a row, the fighters of a bout
      differ and a winner is one of the two fighters. */
  ghost predicate Referential(c: Canon) {
    var fighters, events, bouts := FighterIds(c.fighters), EventIds(c.events), BoutIds(c.bouts);
    && LinksHeld(c.fighterLinks, fighters) && LinksHeld(c.eventLinks, events) && LinksHeld(c.boutLinks, bouts)
    && AliasesHeld(c.aliases, fighters) && ProfilesHeld(c.profiles, fighters)
    && BoutsHeld(c.bouts, events, fighters)
    && ParticipantsHeld(c.participants, bouts, fighters)
    && VersionsHeld(c.versions, bouts, fighters)
    && StatsHeld(c.stats, bouts, fighters)
  }

  // ----- source links -----

  predicate Ours(l: Link, externalId: Id) { l.source == SOURCE && l.externalId == externalId }

  /** The canonical id linked to an external id. */
  function Lookup(links: seq<Link>, externalId: Id): Option<Id> {
    if links == [] then None else
      var before := Lookup(Front(links), externalId);
      if before.Some? then before
      else if Ours(Last(links), externalId) then Some(Last(links).entityId) else None
  }

  lemma {:induction false} LookupAppend(xs: seq<Link>, ys: seq<Link>, externalId: Id)
    ensures Lookup(xs + ys, externalId)
         == if Lookup(xs, externalId).Some? then Lookup(xs, externalId) else Lookup(ys, externalId)
  {
    if ys == [] {
      assert xs + ys == xs;
    } else {
      LookupAppend(xs, Front(ys), externalId);
      assert Front(xs + ys) == xs + Front(ys);
    }
  }

  lemma {:induction false} LookupMember(links: seq<Link>, externalId: Id)
    ensures Lookup(links, externalId).Some? <==> exists l :: l in links && Ours(l, externalId)
    ensures Lookup(links, externalId).Some? ==>
              exists l :: l in links && Ours(l, externalId) && l.entityId == Lookup(links, externalId).value
  {
    if links != [] {
      Split(links);
      LookupMember(Front(links), externalId);
      assert Last(links) in links;
    }
  }

  /** Already imported: a link to a non-empty canonical id exists. */
  predicate Imported(links: seq<Link>, externalId: Id) {
    Lookup(links, externalId).Some? && Lookup(links, externalId).value != ""
  }
}

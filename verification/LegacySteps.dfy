/** One more row at a time: what each step of the import and of its removal does to the
    tables computed so far. */
module LegacySteps {
  import opened Prelude
  import opened LegacyTables
  import opened LegacyUpgrade
  import opened LegacyDowngrade

  function FightId(): LegacyFight -> Id { (row: LegacyFight) => row.id }

  /** The new fights that do not resolve, in table order. */
  function UnresolvedIds(resolve: Resolver, links: seq<Link>, rows: seq<LegacyFight>): seq<Id> {
    Map(FightId(), Filter(Unresolved(resolve), Filter(NewFight(links), rows)))
  }

  // ----- one more row -----

  lemma FighterStep(s: Supply, rows: seq<LegacyFighter>, i: nat, c: Canon)
    requires i < |rows|
    ensures var row, before := rows[i], AddFighters(s, rows[..i], c);
            AddFighters(s, rows[..i + 1], c) ==
              if Imported(c.fighterLinks, row.id) then before
              else before.(fighters := before.fighters + [FighterRow(s)(row)],
                           fighterLinks := before.fighterLinks + [FighterLink(s)(row)],
                           aliases := before.aliases + AliasRows(s)(row))
  {
    Prefix(rows, i);
    var added := Filter(NewFighter(c.fighterLinks), rows[..i]);
    if !Imported(c.fighterLinks, rows[i].id) {
      var more := added + [rows[i]];
      assert Filter(NewFighter(c.fighterLinks), rows[..i + 1]) == more;
      assert Front(more) == added;
      assert Map(FighterRow(s), more) == Map(FighterRow(s), added) + [FighterRow(s)(rows[i])];
      assert Map(FighterLink(s), more) == Map(FighterLink(s), added) + [FighterLink(s)(rows[i])];
    }
  }

  /** Rows imported earlier do not change what is known about a later one. */
  lemma FighterUntouched(s: Supply, rows: seq<LegacyFighter>, i: nat, c: Canon)
    requires i < |rows| && forall j, k | 0 <= j < k < |rows| :: rows[j].id != rows[k].id
    ensures Lookup(AddFighters(s, rows[..i], c).fighterLinks, rows[i].id) == Lookup(c.fighterLinks, rows[i].id)
  {
    var added := Filter(NewFighter(c.fighterLinks), rows[..i]);
    FilterMembers(NewFighter(c.fighterLinks), rows[..i]);
    var links := Map(FighterLink(s), added);
    forall l | l in links
      ensures !Ours(l, rows[i].id)
    {
      var j :| 0 <= j < |added| && links[j] == l;
      assert added[j] in rows[..i];
    }
    LookupMember(links, rows[i].id);
    LookupAppend(c.fighterLinks, links, rows[i].id);
  }

  lemma FreshAliases(s: Supply, rows: seq<LegacyFighter>, i: nat, c: Canon)
    requires i < |rows| && forall j, k | 0 <= j < k < |rows| :: rows[j].id != rows[k].id
    requires Referential(c) && Generates(s.fighter, FighterIds(c.fighters))
    ensures forall a | a in AddFighters(s, rows[..i], c).aliases :: a.fighterId != s.fighter(rows[i].id)
  {
    var added := Filter(NewFighter(c.fighterLinks), rows[..i]);
    FilterMembers(NewFighter(c.fighterLinks), rows[..i]);
    FlatMapMembers(AliasRows(s), added);
    forall a | a in FlatMap(AliasRows(s), added)
      ensures a.fighterId != s.fighter(rows[i].id)
    {
      var row :| row in added && a in AliasRows(s)(row);
      assert row in rows[..i];
    }
  }

  lemma FighterNameStep(links: seq<Link>, generated: Id -> Id, rows: seq<LegacyFighter>, i: nat)
    requires i < |rows|
    ensures FighterNames(links, generated, rows[..i + 1])
         == FighterNames(links, generated, rows[..i])[rows[i].id := CanonicalId(links, generated, rows[i].id)]
  {
    Prefix(rows, i);
  }

  lemma EventNameStep(links: seq<Link>, generated: Id -> Id, rows: seq<LegacyEvent>, i: nat)
    requires i < |rows|
    ensures EventNames(links, generated, rows[..i + 1])
         == EventNames(links, generated, rows[..i])[rows[i].id := CanonicalId(links, generated, rows[i].id)]
  {
    Prefix(rows, i);
  }

  lemma EventStep(s: Supply, rows: seq<LegacyEvent>, i: nat, c: Canon)
    requires i < |rows|
    ensures var row, before := rows[i], AddEvents(s, rows[..i], c);
            AddEvents(s, rows[..i + 1], c) ==
              if Imported(c.eventLinks, row.id) then before
              else before.(events := before.events + [EventRow(s)(row)],
                           eventLinks := before.eventLinks + [EventLink(s)(row)])
  {
    Prefix(rows, i);
    var added := Filter(NewEvent(c.eventLinks), rows[..i]);
    if !Imported(c.eventLinks, rows[i].id) {
      var more := added + [rows[i]];
      assert Filter(NewEvent(c.eventLinks), rows[..i + 1]) == more;
      assert Map(EventRow(s), more) == Map(EventRow(s), added) + [EventRow(s)(rows[i])];
      assert Map(EventLink(s), more) == Map(EventLink(s), added) + [EventLink(s)(rows[i])];
    }
  }

  lemma EventUntouched(s: Supply, rows: seq<LegacyEvent>, i: nat, c: Canon)
    requires i < |rows| && forall j, k | 0 <= j < k < |rows| :: rows[j].id != rows[k].id
    ensures Lookup(AddEvents(s, rows[..i], c).eventLinks, rows[i].id) == Lookup(c.eventLinks, rows[i].id)
  {
    var added := Filter(NewEvent(c.eventLinks), rows[..i]);
    FilterMembers(NewEvent(c.eventLinks), rows[..i]);
    var links := Map(EventLink(s), added);
    forall l | l in links
      ensures !Ours(l, rows[i].id)
    {
      var j :| 0 <= j < |added| && links[j] == l;
      assert added[j] in rows[..i];
    }
    LookupMember(links, rows[i].id);
    LookupAppend(c.eventLinks, links, rows[i].id);
  }

  /** A resolved fight finds its external id unlinked, unless it was imported before. */
  predicate Linkable(resolve: Resolver, links: seq<Link>, row: LegacyFight) {
    resolve(row).Some? ==> Imported(links, row.id) || Lookup(links, row.id).None?
  }

  lemma FightStep(s: Supply, resolve: Resolver, rows: seq<LegacyFight>, i: nat, c: Canon)
    requires i < |rows|
    ensures var row, before := rows[i], AddFights(s, resolve, rows[..i], c);
            AddFights(s, resolve, rows[..i + 1], c) ==
              if Imported(c.boutLinks, row.id) || resolve(row).None? then before
              else before.(bouts := before.bouts + BoutOf(s, resolve)(row),
                           boutLinks := before.boutLinks + BoutLinkOf(s, resolve)(row),
                           participants := before.participants + ParticipantsOf(s, resolve)(row),
                           versions := before.versions + VersionsOf(s, resolve)(row))
  {
    var added := Filter(NewFight(c.boutLinks), rows[..i]);
    NewFightStep(c.boutLinks, rows, i);
    AppendOneMore(c.bouts, BoutOf(s, resolve), added, rows[i]);
    AppendOneMore(c.boutLinks, BoutLinkOf(s, resolve), added, rows[i]);
    AppendOneMore(c.participants, ParticipantsOf(s, resolve), added, rows[i]);
    AppendOneMore(c.versions, VersionsOf(s, resolve), added, rows[i]);
  }

  lemma AppendOneMore<T, U>(base: seq<U>, f: T -> seq<U>, xs: seq<T>, x: T)
    ensures base + FlatMap(f, xs + [x]) == base + FlatMap(f, xs) + f(x)
    ensures f(x) == [] ==> base + FlatMap(f, xs + [x]) == base + FlatMap(f, xs)
  {
    assert Front(xs + [x]) == xs;
  }

  lemma NewFightStep(links: seq<Link>, rows: seq<LegacyFight>, i: nat)
    requires i < |rows|
    ensures Filter(NewFight(links), rows[..i + 1])
         == if Imported(links, rows[i].id) then Filter(NewFight(links), rows[..i])
            else Filter(NewFight(links), rows[..i]) + [rows[i]]
  {
    Prefix(rows, i);
  }

  lemma UnresolvedStep(resolve: Resolver, links: seq<Link>, rows: seq<LegacyFight>, i: nat)
    requires i < |rows|
    ensures UnresolvedIds(resolve, links, rows[..i + 1]) ==
              if !Imported(links, rows[i].id) && resolve(rows[i]).None?
              then UnresolvedIds(resolve, links, rows[..i]) + [rows[i].id]
              else UnresolvedIds(resolve, links, rows[..i])
  {
    Prefix(rows, i);
    var added := Filter(NewFight(links), rows[..i]);
    if !Imported(links, rows[i].id) {
      var more := added + [rows[i]];
      assert Filter(NewFight(links), rows[..i + 1]) == more;
      assert Front(more) == added;
    }
  }

  lemma FightUntouched(s: Supply, resolve: Resolver, rows: seq<LegacyFight>, i: nat, c: Canon)
    requires i < |rows| && forall j, k | 0 <= j < k < |rows| :: rows[j].id != rows[k].id
    ensures Lookup(AddFights(s, resolve, rows[..i], c).boutLinks, rows[i].id) == Lookup(c.boutLinks, rows[i].id)
  {
    var added := Filter(NewFight(c.boutLinks), rows[..i]);
    FilterMembers(NewFight(c.boutLinks), rows[..i]);
    var links := FlatMap(BoutLinkOf(s, resolve), added);
    FlatMapMembers(BoutLinkOf(s, resolve), added);
    forall l | l in links
      ensures !Ours(l, rows[i].id)
    {
      var row :| row in added && l in BoutLinkOf(s, resolve)(row);
      assert row in rows[..i];
    }
    LookupMember(links, rows[i].id);
    LookupAppend(c.boutLinks, links, rows[i].id);
  }

  lemma UnresolvedIff(resolve: Resolver, links: seq<Link>, rows: seq<LegacyFight>)
    ensures UnresolvedIds(resolve, links, rows) == []
       <==> forall row | row in rows :: Imported(links, row.id) || resolve(row).Some?
  {
    var added := Filter(NewFight(links), rows);
    FilterMembers(NewFight(links), rows);
    FilterMembers(Unresolved(resolve), added);
    var open := Filter(Unresolved(resolve), added);
    if open != [] {
      assert open[0] in open;
    }
  }

  // ----- removing one more entity -----

  function OwnLink(): Link -> bool { (l: Link) => l.source == SOURCE }

  function EntityOf(): Link -> Id { (l: Link) => l.entityId }

  /** The entities linked to UFCStats, one per link. */
  function OwnIds(links: seq<Link>): seq<Id> { Map(EntityOf(), Filter(OwnLink(), links)) }

  predicate Linked(links: seq<Link>, id: Id) { exists i | 0 <= i < |links| :: links[i].entityId == id }

  lemma OwnIdsAreOurs(links: seq<Link>, id: Id)
    ensures id in OwnIds(links) <==> LinkedBy(links, id, true)
  {
    var own := Filter(OwnLink(), links);
    FilterMembers(OwnLink(), links);
    if LinkedBy(links, id, true) {
      var i :| 0 <= i < |links| && links[i].entityId == id && (links[i].source == SOURCE) == true;
      assert links[i] in own;
      var j :| 0 <= j < |own| && own[j] == links[i];
      assert OwnIds(links)[j] == id;
    }
    if id in OwnIds(links) {
      var j :| 0 <= j < |own| && OwnIds(links)[j] == id;
      assert own[j] in links;
    }
  }

  lemma StillLinked(links: seq<Link>, id: Id)
    ensures Linked(Filter(Foreign(), links), id) <==> LinkedBy(links, id, false)
  {
    var rest := Filter(Foreign(), links);
    FilterMembers(Foreign(), links);
    if LinkedBy(links, id, false) {
      var i :| 0 <= i < |links| && links[i].entityId == id && (links[i].source == SOURCE) == false;
      assert links[i] in rest;
    }
    if Linked(rest, id) {
      var i :| 0 <= i < |rest| && rest[i].entityId == id;
      assert rest[i] in links;
    }
  }

  /** The rows whose key is none of the removed ids. */
  function Without<T>(key: T -> Option<Id>, gone: set<Id>): T -> bool {
    (x: T) => key(x).Some? ==> key(x).value !in gone
  }

  function BoutOfVersion(): Version -> Option<Id> { (v: Version) => Some(v.boutId) }

  function BoutOfParticipant(): Participant -> Option<Id> { (p: Participant) => Some(p.boutId) }

  function BoutOfStat(): Stat -> Option<Id> { (s: Stat) => s.boutId }

  function IdOfBout(): Bout -> Option<Id> { (b: Bout) => Some(b.id) }

  function IdOfEvent(): Event -> Option<Id> { (e: Event) => Some(e.id) }

  function IdOfFighter(): Fighter -> Option<Id> { (f: Fighter) => Some(f.id) }

  lemma WithoutOneMore<T>(key: T -> Option<Id>, gone: set<Id>, id: Id, xs: seq<T>)
    ensures Filter(Without(key, {id}), Filter(Without(key, gone), xs)) == Filter(Without(key, gone + {id}), xs)
  {
    FilterTwice(Without(key, {id}), Without(key, gone), xs);
    FilterAgree(Both(Without(key, {id}), Without(key, gone)), Without(key, gone + {id}), xs);
  }

  function WithoutBouts(c: Canon, gone: set<Id>): Canon {
    c.(boutLinks := Filter(Foreign(), c.boutLinks),
       versions := Filter(Without(BoutOfVersion(), gone), c.versions),
       participants := Filter(Without(BoutOfParticipant(), gone), c.participants),
       stats := Filter(Without(BoutOfStat(), gone), c.stats),
       bouts := Filter(Without(IdOfBout(), gone), c.bouts))
  }

  function WithoutEvents(c: Canon, gone: set<Id>): Canon {
    c.(eventLinks := Filter(Foreign(), c.eventLinks), events := Filter(Without(IdOfEvent(), gone), c.events))
  }

  function WithoutFighters(c: Canon, gone: set<Id>): Canon {
    DropFacts(c).(fighters := Filter(Without(IdOfFighter(), gone), c.fighters))
  }

  lemma NothingGone(c: Canon)
    ensures WithoutBouts(c, {}) == c.(boutLinks := Filter(Foreign(), c.boutLinks))
    ensures WithoutEvents(c, {}) == c.(eventLinks := Filter(Foreign(), c.eventLinks))
    ensures WithoutFighters(c, {}) == DropFacts(c)
  {
    FilterAll(Without(BoutOfVersion(), {}), c.versions);
    FilterAll(Without(BoutOfParticipant(), {}), c.participants);
    FilterAll(Without(BoutOfStat(), {}), c.stats);
    FilterAll(Without(IdOfBout(), {}), c.bouts);
    FilterAll(Without(IdOfEvent(), {}), c.events);
    FilterAll(Without(IdOfFighter(), {}), c.fighters);
  }

  lemma WithoutOneMoreBout(c: Canon, gone: set<Id>, id: Id)
    ensures var before, after := WithoutBouts(c, gone), WithoutBouts(c, gone + {id});
            && after.versions == Filter(Without(BoutOfVersion(), {id}), before.versions)
            && after.participants == Filter(Without(BoutOfParticipant(), {id}), before.participants)
            && after.stats == Filter(Without(BoutOfStat(), {id}), before.stats)
            && after.bouts == Filter(Without(IdOfBout(), {id}), before.bouts)
  {
    WithoutOneMore(BoutOfVersion(), gone, id, c.versions);
    WithoutOneMore(BoutOfParticipant(), gone, id, c.participants);
    WithoutOneMore(BoutOfStat(), gone, id, c.stats);
    WithoutOneMore(IdOfBout(), gone, id, c.bouts);
  }

  lemma AllBoutsGone(c: Canon, gone: set<Id>)
    requires forall id :: id in gone <==> id in OwnIds(c.boutLinks) && Sole(c.boutLinks, id)
    ensures WithoutBouts(c, gone) == DropBouts(c)
  {
    forall id
      ensures id in gone <==> Sole(c.boutLinks, id)
    {
      OwnIdsAreOurs(c.boutLinks, id);
    }
    FilterAgree(Without(BoutOfVersion(), gone), KeepsVersion(c.boutLinks), c.versions);
    FilterAgree(Without(BoutOfParticipant(), gone), KeepsParticipant(c.boutLinks), c.participants);
    FilterAgree(Without(BoutOfStat(), gone), KeepsBoutStat(c.boutLinks), c.stats);
    FilterAgree(Without(IdOfBout(), gone), KeepsBout(c.boutLinks), c.bouts);
  }

  lemma AllEventsGone(c: Canon, gone: set<Id>)
    requires forall id :: id in gone <==> id in OwnIds(c.eventLinks) && EventDropped(c, id)
    ensures WithoutEvents(c, gone) == DropEvents(c)
  {
    forall id
      ensures id in gone <==> EventDropped(c, id)
    {
      OwnIdsAreOurs(c.eventLinks, id);
    }
    FilterAgree(Without(IdOfEvent(), gone), KeepsEvent(c), c.events);
  }

  lemma AllFightersGone(c: Canon, gone: set<Id>)
    requires forall id :: id in gone <==> id in OwnIds(c.fighterLinks) && FighterDropped(c, id)
    ensures WithoutFighters(c, gone) == DropFighters(c)
    ensures forall id :: id in gone <==> FighterDropped(c, id)
  {
    forall id
      ensures id in gone <==> FighterDropped(c, id)
    {
      OwnIdsAreOurs(c.fighterLinks, id);
    }
    FilterAgree(Without(IdOfFighter(), gone), KeepsFighter(c), c.fighters);
  }

  ghost predicate OnlyDropped(c: Canon, gone: set<Id>) { forall id | id in gone :: FighterDropped(c, id) }

  predicate HasFighter(fighters: seq<Fighter>, id: Id) { exists i | 0 <= i < |fighters| :: fighters[i].id == id }

  /** While only unnamed fighters have gone, a fighter that is still named is present. */
  lemma NamedIsPresent(c: Canon, gone: set<Id>, id: Id)
    requires Referential(DropFacts(c))
    requires forall g | g in gone :: !StillNamed(DropFacts(c), g)
    ensures StillNamed(DropFacts(c), id) ==> HasFighter(WithoutFighters(c, gone).fighters, id)
    ensures StillNamed(WithoutFighters(c, gone), id) == StillNamed(DropFacts(c), id)
  {
    if StillNamed(DropFacts(c), id) {
      NamedIsHeld(DropFacts(c), id);
      var f :| f in c.fighters && f.id == id;
      FilterMembers(Without(IdOfFighter(), gone), c.fighters);
      assert f in WithoutFighters(c, gone).fighters;
    }
  }

  lemma NamedIsHeld(c: Canon, id: Id)
    requires Referential(c) && StillNamed(c, id)
    ensures id in FighterIds(c.fighters)
  {
    if i :| 0 <= i < |c.aliases| && c.aliases[i].fighterId == id {
      assert c.aliases[i] in c.aliases;
    } else if i :| 0 <= i < |c.profiles| && c.profiles[i].fighterId == id {
      assert c.profiles[i] in c.profiles;
    } else if i :| 0 <= i < |c.stats| && c.stats[i].fighterId == id {
      assert c.stats[i] in c.stats;
    } else {
      var i :| 0 <= i < |c.versions| && NamesFighter(c.versions[i], id);
      assert c.versions[i] in c.versions;
    }
  }
}

/** Importing and then removing the import leaves a database without UFCStats rows as it
    was; and databases on which either of them is refused. */
module LegacyRoundTrip {
  import opened Prelude
  import opened LegacyTables
  import opened LegacyUpgrade
  import opened LegacyDowngrade

  ghost predicate NothingOfOurs(c: Canon) {
    && (forall l | l in c.fighterLinks + c.eventLinks + c.boutLinks :: l.source != SOURCE)
    && (forall a | a in c.aliases :: a.source != Some(SOURCE))
    && (forall p | p in c.profiles :: p.source != SOURCE)
    && (forall s | s in c.stats :: s.source != SOURCE)
  }

  /** Dropping exactly the rows that were appended. */
  lemma DropAppended<T>(keep: T -> bool, xs: seq<T>, ys: seq<T>)
    requires (forall x | x in xs :: keep(x)) && forall y | y in ys :: !keep(y)
    ensures Filter(keep, xs + ys) == xs
  {
    FilterAppend(keep, xs, ys);
    FilterAll(keep, xs);
    FilterNone(keep, ys);
  }

  /** Links of generated entities, appended to links of other sources. */
  ghost predicate OwnLinks(ys: seq<Link>, ids: set<Id>) {
    forall l | l in ys :: l.source == SOURCE && l.entityId !in ids
  }

  lemma SoleIffAdded(xs: seq<Link>, ys: seq<Link>, ids: set<Id>, id: Id)
    requires (forall l | l in xs :: l.source != SOURCE) && LinksHeld(xs, ids) && OwnLinks(ys, ids)
    ensures Sole(xs + ys, id) <==> exists l :: l in ys && l.entityId == id
    ensures id in ids ==> !Sole(xs + ys, id)
  {
    var all := xs + ys;
    if l :| l in ys && l.entityId == id {
      var j :| 0 <= j < |ys| && ys[j] == l;
      assert all[|xs| + j] == l;
      assert LinkedBy(all, id, true);
      assert forall i | 0 <= i < |ys| :: ys[i] in ys;
      assert forall i | |xs| <= i < |all| :: all[i] == ys[i - |xs|];
      assert forall i | 0 <= i < |xs| :: all[i] in xs;
    }
    if LinkedBy(all, id, true) {
      var i :| 0 <= i < |all| && all[i].entityId == id && (all[i].source == SOURCE) == true;
      assert all[i] in xs || all[i] in ys;
    }
  }

  // ----- bouts -----

  ghost predicate SomeLinkTo(links: seq<Link>, id: Id) { exists l :: l in links && l.entityId == id }

  lemma AddedBoutRows(s: Supply, resolve: Resolver, added: seq<LegacyFight>)
    ensures var links := FlatMap(BoutLinkOf(s, resolve), added);
            && (forall l | l in links :: l.source == SOURCE && l.entityId == s.bout(l.externalId))
            && (forall b | b in FlatMap(BoutOf(s, resolve), added) :: SomeLinkTo(links, b.id))
  {
    var links := FlatMap(BoutLinkOf(s, resolve), added);
    FlatMapMembers(BoutLinkOf(s, resolve), added);
    FlatMapMembers(BoutOf(s, resolve), added);
    forall b | b in FlatMap(BoutOf(s, resolve), added)
      ensures exists l :: l in links && l.entityId == b.id
    {
      var row :| row in added && b in BoutOf(s, resolve)(row);
      var link := RowsFor(s, row, resolve(row).value).link;
      assert link in BoutLinkOf(s, resolve)(row);
      assert link in links && link.entityId == b.id;
    }
  }

  lemma AddedBoutLinked(s: Supply, resolve: Resolver, added: seq<LegacyFight>, row: LegacyFight)
    requires row in added && resolve(row).Some?
    ensures SomeLinkTo(FlatMap(BoutLinkOf(s, resolve), added), s.bout(row.id))
  {
    FlatMapMembers(BoutLinkOf(s, resolve), added);
    var link := RowsFor(s, row, resolve(row).value).link;
    assert link in BoutLinkOf(s, resolve)(row);
    assert link.entityId == s.bout(row.id);
  }

  lemma AddedBoutFacts(s: Supply, resolve: Resolver, added: seq<LegacyFight>)
    ensures var links := FlatMap(BoutLinkOf(s, resolve), added);
            && (forall p | p in FlatMap(ParticipantsOf(s, resolve), added) :: SomeLinkTo(links, p.boutId))
            && (forall v | v in FlatMap(VersionsOf(s, resolve), added) :: SomeLinkTo(links, v.boutId))
  {
    FlatMapMembers(ParticipantsOf(s, resolve), added);
    FlatMapMembers(VersionsOf(s, resolve), added);
    forall row | row in added && resolve(row).Some?
      ensures SomeLinkTo(FlatMap(BoutLinkOf(s, resolve), added), s.bout(row.id))
    {
      AddedBoutLinked(s, resolve, added, row);
    }
  }

  lemma DropBoutsUndoesFights(s: Supply, resolve: Resolver, rows: seq<LegacyFight>, c: Canon)
    requires Referential(c) && Generates(s.bout, BoutIds(c.bouts))
    requires forall l | l in c.boutLinks :: l.source != SOURCE
    ensures DropBouts(AddFights(s, resolve, rows, c)) == c
  {
    var added, d := Filter(NewFight(c.boutLinks), rows), AddFights(s, resolve, rows, c);
    var links := FlatMap(BoutLinkOf(s, resolve), added);
    AddedBoutRows(s, resolve, added);
    AddedBoutFacts(s, resolve, added);
    forall id
      ensures Sole(d.boutLinks, id) <==> exists l :: l in links && l.entityId == id
      ensures id in BoutIds(c.bouts) ==> !Sole(d.boutLinks, id)
    {
      SoleIffAdded(c.boutLinks, links, BoutIds(c.bouts), id);
    }
    DropAppended(Foreign(), c.boutLinks, links);
    DropAppended(KeepsVersion(d.boutLinks), c.versions, FlatMap(VersionsOf(s, resolve), added));
    DropAppended(KeepsParticipant(d.boutLinks), c.participants, FlatMap(ParticipantsOf(s, resolve), added));
    DropAppended(KeepsBout(d.boutLinks), c.bouts, FlatMap(BoutOf(s, resolve), added));
    FilterAll(KeepsBoutStat(d.boutLinks), c.stats);
  }

  // ----- events -----

  lemma DropEventsUndoesEvents(s: Supply, rows: seq<LegacyEvent>, c: Canon)
    requires Referential(c) && Generates(s.event, EventIds(c.events))
    requires forall l | l in c.eventLinks :: l.source != SOURCE
    ensures DropEvents(AddEvents(s, rows, c)) == c
  {
    var added, d := Filter(NewEvent(c.eventLinks), rows), AddEvents(s, rows, c);
    var links, events := Map(EventLink(s), added), Map(EventRow(s), added);
    forall id
      ensures Sole(d.eventLinks, id) <==> exists l :: l in links && l.entityId == id
      ensures id in EventIds(c.events) ==> !Sole(d.eventLinks, id)
    {
      SoleIffAdded(c.eventLinks, links, EventIds(c.events), id);
    }
    forall e | e in events
      ensures EventDropped(d, e.id)
    {
      var i :| 0 <= i < |added| && events[i] == e;
      assert links[i] in links && links[i].entityId == e.id;
      assert !Hosts(c.bouts, e.id);
    }
    DropAppended(Foreign(), c.eventLinks, links);
    DropAppended(KeepsEvent(d), c.events, events);
  }

  // ----- fighters -----

  lemma Unmentioned(c: Canon, id: Id)
    requires Referential(c) && id !in FighterIds(c.fighters)
    ensures !Fights(c.bouts, id) && !TakesPart(c.participants, id) && !StillNamed(c, id)
  {
    forall i | 0 <= i < |c.versions|
      ensures !NamesFighter(c.versions[i], id)
    {
      assert c.versions[i] in c.versions;
    }
  }

  lemma FactsUndone(s: Supply, rows: seq<LegacyFighter>, c: Canon)
    requires NothingOfOurs(c)
    ensures var d := AddFighters(s, rows, c); DropFacts(d) == c.(fighters := d.fighters)
  {
    var added := Filter(NewFighter(c.fighterLinks), rows);
    FlatMapMembers(AliasRows(s), added);
    DropAppended(Foreign(), c.fighterLinks, Map(FighterLink(s), added));
    DropAppended(ForeignAlias(), c.aliases, FlatMap(AliasRows(s), added));
    FilterAll(ForeignProfile(), c.profiles);
    FilterAll(ForeignStat(), c.stats);
  }

  lemma DropFightersUndoesFighters(s: Supply, rows: seq<LegacyFighter>, c: Canon)
    requires Referential(c) && NothingOfOurs(c) && Generates(s.fighter, FighterIds(c.fighters))
    ensures var d := AddFighters(s, rows, c);
            DropFighters(d) == c && forall id | FighterDropped(d, id) :: !StillNamed(DropFacts(d), id)
  {
    var added, d := Filter(NewFighter(c.fighterLinks), rows), AddFighters(s, rows, c);
    var links, fighters := Map(FighterLink(s), added), Map(FighterRow(s), added);
    forall id
      ensures Sole(d.fighterLinks, id) <==> exists l :: l in links && l.entityId == id
      ensures id in FighterIds(c.fighters) ==> !Sole(d.fighterLinks, id)
    {
      SoleIffAdded(c.fighterLinks, links, FighterIds(c.fighters), id);
    }
    forall f | f in fighters
      ensures FighterDropped(d, f.id)
    {
      var i :| 0 <= i < |added| && fighters[i] == f;
      assert links[i] in links && links[i].entityId == f.id;
      Unmentioned(c, f.id);
    }
    FactsUndone(s, rows, c);
    DropAppended(KeepsFighter(d), c.fighters, fighters);
    forall id | FighterDropped(d, id)
      ensures !StillNamed(DropFacts(d), id)
    {
      Unmentioned(c, id);
    }
  }

  // ----- the round trip -----

  /** Import and removal cancel out on every sound database that held no UFCStats rows. */
  lemma DowngradeUndoesUpgrade(legacy: Legacy, s: Supply, c: Canon)
    requires Referential(c) && NothingOfOurs(c) && Fresh(s, c)
    ensures var d := Upgraded(legacy, s, c); CanDowngrade(d) && Downgraded(d) == c
  {
    var c1 := AddFighters(s, legacy.fighters, c);
    var c2 := AddEvents(s, legacy.events, c1);
    FightersHeld(s, legacy.fighters, c);
    EventsHeld(s, legacy.events, c1);
    DropBoutsUndoesFights(s, ResolveBy(NamesFor(legacy, s, c)), legacy.fights, c2);
    DropEventsUndoesEvents(s, legacy.events, c1);
    DropFightersUndoesFighters(s, legacy.fighters, c);
  }

  // ----- an import and a removal that are refused -----

  /** A fighter whose nickname is the name again would get the same alias twice, and the
      import fails even into empty tables. */
  lemma NicknameEqualToNameBlocksUpgrade(s: Supply, id: Id, name: string)
    requires name != ""
    ensures var legacy := Legacy([LegacyFighter(id, name, Some(name))], [], []);
            var empty := Canon([], [], [], [], [], [], [], [], [], [], []);
            Keyed(legacy) && Referential(empty) && !CanUpgrade(legacy, s, empty)
  {
    var row := LegacyFighter(id, name, Some(name));
    var legacy := Legacy([row], [], []);
    assert row in legacy.fighters;
    assert !FighterImportable([], row);
  }

  /** An alias recorded without a source outlives the UFCStats rows; a fighter whom only
      UFCStats links and no bout mentions then cannot be deleted, and the removal fails. */
  lemma SourcelessAliasBlocksDowngrade(id: Id, externalId: Id, name: string, now: int)
    ensures var c := Canon([Fighter(id, name, now, now)], [Link(id, SOURCE, externalId, now)],
                           [Alias(id, name, None, now)], [], [], [], [], [], [], [], []);
            Referential(c) && !CanDowngrade(c)
  {
    var link, alias := Link(id, SOURCE, externalId, now), Alias(id, name, None, now);
    var c := Canon([Fighter(id, name, now, now)], [link], [alias], [], [], [], [], [], [], [], []);
    assert c.fighters[0].id in FighterIds(c.fighters);
    var d := DropEvents(DropBouts(c));
    assert d.fighterLinks == [link] && d.bouts == [] && d.participants == [];
    assert d.fighterLinks[0].entityId == id;
    assert FighterDropped(d, id);
    FilterAll(ForeignAlias(), [alias]);
    assert DropFacts(d).aliases[0].fighterId == id;
  }
}

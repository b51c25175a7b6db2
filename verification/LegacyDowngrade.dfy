/** What removing the UFCStats import deletes, what it keeps, and when a foreign key stops
    it. */
module LegacyDowngrade {
  import opened Prelude
  import opened LegacyTables

  // ----- ownership -----

  function Foreign(): Link -> bool { (l: Link) => l.source != SOURCE }

  predicate LinkedBy(links: seq<Link>, id: Id, ours: bool) {
    exists i | 0 <= i < |links| :: links[i].entityId == id && (links[i].source == SOURCE) == ours
  }

  /** Linked to UFCStats and to nothing else. */
  predicate Sole(links: seq<Link>, id: Id) { LinkedBy(links, id, true) && !LinkedBy(links, id, false) }

  // ----- bouts -----

  function KeepsBout(links: seq<Link>): Bout -> bool { (b: Bout) => !Sole(links, b.id) }

  function KeepsVersion(links: seq<Link>): Version -> bool { (v: Version) => !Sole(links, v.boutId) }

  function KeepsParticipant(links: seq<Link>): Participant -> bool { (p: Participant) => !Sole(links, p.boutId) }

  function KeepsBoutStat(links: seq<Link>): Stat -> bool {
    (s: Stat) => s.boutId.Some? ==> !Sole(links, s.boutId.value)
  }

  function DropBouts(c: Canon): Canon {
    c.(boutLinks := Filter(Foreign(), c.boutLinks),
       versions := Filter(KeepsVersion(c.boutLinks), c.versions),
       participants := Filter(KeepsParticipant(c.boutLinks), c.participants),
       stats := Filter(KeepsBoutStat(c.boutLinks), c.stats),
       bouts := Filter(KeepsBout(c.boutLinks), c.bouts))
  }

  // ----- events -----

  predicate Hosts(bouts: seq<Bout>, event: Id) { exists i | 0 <= i < |bouts| :: bouts[i].eventId == event }

  predicate EventDropped(c: Canon, event: Id) { Sole(c.eventLinks, event) && !Hosts(c.bouts, event) }

  function KeepsEvent(c: Canon): Event -> bool { (e: Event) => !EventDropped(c, e.id) }

  function DropEvents(c: Canon): Canon {
    c.(eventLinks := Filter(Foreign(), c.eventLinks), events := Filter(KeepsEvent(c), c.events))
  }

  // ----- fighters -----

  function ForeignAlias(): Alias -> bool { (a: Alias) => a.source != Some(SOURCE) }

  function ForeignProfile(): Profile -> bool { (p: Profile) => p.source != SOURCE }

  function ForeignStat(): Stat -> bool { (s: Stat) => s.source != SOURCE }

  predicate Fights(bouts: seq<Bout>, fighter: Id) {
    exists i | 0 <= i < |bouts| :: bouts[i].fighterA == fighter || bouts[i].fighterB == fighter
  }

  predicate TakesPart(participants: seq<Participant>, fighter: Id) {
    exists i | 0 <= i < |participants| :: participants[i].fighterId == fighter
  }

  predicate FighterDropped(c: Canon, fighter: Id) {
    Sole(c.fighterLinks, fighter) && !Fights(c.bouts, fighter) && !TakesPart(c.participants, fighter)
  }

  function KeepsFighter(c: Canon): Fighter -> bool { (f: Fighter) => !FighterDropped(c, f.id) }

  /** Everything UFCStats said about fighters, and its links to them. */
  function DropFacts(c: Canon): Canon {
    c.(stats := Filter(ForeignStat(), c.stats), profiles := Filter(ForeignProfile(), c.profiles),
       aliases := Filter(ForeignAlias(), c.aliases), fighterLinks := Filter(Foreign(), c.fighterLinks))
  }

  function DropFighters(c: Canon): Canon {
    DropFacts(c).(fighters := Filter(KeepsFighter(c), c.fighters))
  }

  function Downgraded(c: Canon): Canon { DropFighters(DropEvents(DropBouts(c))) }

  // ----- what a foreign key refuses -----

  /** Rows that still name a fighter and are not looked at before the fighter goes. */
  predicate StillNamed(c: Canon, fighter: Id) {
    || (exists i | 0 <= i < |c.aliases| :: c.aliases[i].fighterId == fighter)
    || (exists i | 0 <= i < |c.profiles| :: c.profiles[i].fighterId == fighter)
    || (exists i | 0 <= i < |c.stats| :: c.stats[i].fighterId == fighter)
    || (exists i | 0 <= i < |c.versions| :: NamesFighter(c.versions[i], fighter))
  }

  predicate NamesFighter(v: Version, fighter: Id) {
    v.fighterA == fighter || v.fighterB == fighter || v.winner == Some(fighter)
  }

  ghost predicate CanDowngrade(c: Canon) {
    var d := DropEvents(DropBouts(c));
    forall id | FighterDropped(d, id) :: !StillNamed(DropFacts(d), id)
  }

  // ----- the downgrade keeps the foreign keys -----

  lemma LinksForeign(links: seq<Link>, l: Link)
    requires l in Filter(Foreign(), links)
    ensures l in links && !Sole(links, l.entityId)
  {
    FilterMembers(Foreign(), links);
    var i :| 0 <= i < |links| && links[i] == l;
  }

  lemma KeptBouts(c: Canon, id: Id)
    requires id in BoutIds(c.bouts) && !Sole(c.boutLinks, id)
    ensures id in BoutIds(DropBouts(c).bouts)
  {
    FilterMembers(KeepsBout(c.boutLinks), c.bouts);
    var b :| b in c.bouts && b.id == id;
    assert b in DropBouts(c).bouts;
  }

  lemma DropBoutsKeepsReferences(c: Canon)
    requires Referential(c)
    ensures Referential(DropBouts(c))
  {
    FilterMembers(Foreign(), c.boutLinks);
    FilterMembers(KeepsVersion(c.boutLinks), c.versions);
    FilterMembers(KeepsParticipant(c.boutLinks), c.participants);
    FilterMembers(KeepsBoutStat(c.boutLinks), c.stats);
    FilterMembers(KeepsBout(c.boutLinks), c.bouts);
    forall id | id in BoutIds(c.bouts) && !Sole(c.boutLinks, id)
      ensures id in BoutIds(DropBouts(c).bouts)
    {
      KeptBouts(c, id);
    }
    forall l | l in Filter(Foreign(), c.boutLinks)
      ensures !Sole(c.boutLinks, l.entityId)
    {
      LinksForeign(c.boutLinks, l);
    }
  }

  lemma DropEventsKeepsReferences(c: Canon)
    requires Referential(c)
    ensures Referential(DropEvents(c))
  {
    FilterMembers(Foreign(), c.eventLinks);
    FilterMembers(KeepsEvent(c), c.events);
    forall id | id in EventIds(c.events) && !EventDropped(c, id)
      ensures id in EventIds(DropEvents(c).events)
    {
      var e :| e in c.events && e.id == id;
      assert e in DropEvents(c).events;
    }
    forall l | l in Filter(Foreign(), c.eventLinks)
      ensures !Sole(c.eventLinks, l.entityId)
    {
      LinksForeign(c.eventLinks, l);
    }
    forall b | b in c.bouts
      ensures Hosts(c.bouts, b.eventId)
    {
      var i :| 0 <= i < |c.bouts| && c.bouts[i] == b;
    }
  }

  lemma DropFactsKeepsReferences(c: Canon)
    requires Referential(c)
    ensures Referential(DropFacts(c))
  {
    FilterMembers(Foreign(), c.fighterLinks);
    FilterMembers(ForeignAlias(), c.aliases);
    FilterMembers(ForeignProfile(), c.profiles);
    FilterMembers(ForeignStat(), c.stats);
  }

  ghost predicate UnnamedIn(d: Canon, id: Id) {
    && (forall l | l in d.fighterLinks :: l.entityId != id)
    && (forall a | a in d.aliases :: a.fighterId != id)
    && (forall b | b in d.bouts :: b.fighterA != id && b.fighterB != id)
    && (forall p | p in d.participants :: p.fighterId != id)
    && (forall v | v in d.versions :: !NamesFighter(v, id))
    && (forall p | p in d.profiles :: p.fighterId != id)
    && (forall s | s in d.stats :: s.fighterId != id)
  }

  /** A fighter that goes is named by no surviving row. */
  lemma Unnamed(c: Canon, id: Id)
    requires FighterDropped(c, id) && !StillNamed(DropFacts(c), id)
    ensures UnnamedIn(DropFacts(c), id)
  {
    forall l | l in DropFacts(c).fighterLinks
      ensures l.entityId != id
    {
      LinksForeign(c.fighterLinks, l);
    }
  }

  lemma DropFightersKeepsReferences(c: Canon)
    requires Referential(c)
    requires forall id | FighterDropped(c, id) :: !StillNamed(DropFacts(c), id)
    ensures Referential(DropFighters(c))
  {
    DropFactsKeepsReferences(c);
    FilterMembers(KeepsFighter(c), c.fighters);
    var ids := FighterIds(DropFighters(c).fighters);
    forall id | id in FighterIds(c.fighters) && !FighterDropped(c, id)
      ensures id in ids
    {
      var f :| f in c.fighters && f.id == id;
      assert f in DropFighters(c).fighters;
    }
    forall id | FighterDropped(c, id)
      ensures UnnamedIn(DropFacts(c), id)
    {
      Unnamed(c, id);
    }
    KeptFightersHold(DropFacts(c), Filter(KeepsFighter(c), c.fighters));
  }

  /** Taking away fighters that no row names breaks no reference. */
  lemma KeptFightersHold(c: Canon, kept: seq<Fighter>)
    requires Referential(c)
    requires forall id | id in FighterIds(c.fighters) && id !in FighterIds(kept) :: UnnamedIn(c, id)
    ensures Referential(c.(fighters := kept))
  {
  }

  /** Starting from a sound database a downgrade that goes through leaves no row pointing
      at a deleted one. */
  lemma DowngradeKeepsReferences(c: Canon)
    requires Referential(c) && CanDowngrade(c)
    ensures Referential(Downgraded(c))
  {
    DropBoutsKeepsReferences(c);
    DropEventsKeepsReferences(DropBouts(c));
    DropFightersKeepsReferences(DropEvents(DropBouts(c)));
  }

  /** A bout with any other source keeps its row, its participants, its result versions,
      its other links and its event and fighters; only bouts linked to UFCStats alone go. */
  lemma SharedBoutsSurvive(c: Canon, b: Bout)
    requires Referential(c) && CanDowngrade(c) && b in c.bouts
    ensures var d := Downgraded(c);
            && (b in d.bouts <==> !Sole(c.boutLinks, b.id))
            && (!Sole(c.boutLinks, b.id) ==>
                && b.eventId in EventIds(d.events) && b.fighterA in FighterIds(d.fighters)
                && b.fighterB in FighterIds(d.fighters)
                && (forall p: Participant | p.boutId == b.id :: p in d.participants <==> p in c.participants)
                && (forall v: Version | v.boutId == b.id :: v in d.versions <==> v in c.versions)
                && (forall l: Link | l.entityId == b.id && l.source != SOURCE ::
                      l in d.boutLinks <==> l in c.boutLinks))
  {
    FilterMembers(Foreign(), c.boutLinks);
    FilterMembers(KeepsVersion(c.boutLinks), c.versions);
    FilterMembers(KeepsParticipant(c.boutLinks), c.participants);
    FilterMembers(KeepsBout(c.boutLinks), c.bouts);
    DowngradeKeepsReferences(c);
  }

  // ----- the rows that are left -----

  /** Linked to UFCStats and to no other source. */
  ghost predicate OnlyUfcStats(links: seq<Link>, id: Id) {
    && (exists l :: l in links && l.entityId == id && l.source == "ufcstats")
    && forall l | l in links && l.entityId == id :: l.source == "ufcstats"
  }

  lemma SoleMeans(links: seq<Link>, id: Id)
    ensures Sole(links, id) <==> OnlyUfcStats(links, id)
  {
    if LinkedBy(links, id, true) {
      var i :| 0 <= i < |links| && links[i].entityId == id && (links[i].source == SOURCE) == true;
      assert links[i] in links;
    }
    if LinkedBy(links, id, false) {
      var i :| 0 <= i < |links| && links[i].entityId == id && (links[i].source == SOURCE) == false;
      assert links[i] in links;
    }
    forall l | l in links && l.entityId == id
      ensures LinkedBy(links, id, l.source == SOURCE)
    {
      var i :| 0 <= i < |links| && links[i] == l;
    }
  }

  /** All links to UFCStats go, and with the bouts it alone links the rows that hang on them. */
  lemma BoutRowsLeft(c: Canon)
    ensures var d := DropBouts(c);
            && (forall l :: l in d.boutLinks <==> l in c.boutLinks && l.source != "ufcstats")
            && (forall b :: b in d.bouts <==> b in c.bouts && !OnlyUfcStats(c.boutLinks, b.id))
            && (forall v :: v in d.versions <==> v in c.versions && !OnlyUfcStats(c.boutLinks, v.boutId))
            && (forall p :: p in d.participants <==> p in c.participants && !OnlyUfcStats(c.boutLinks, p.boutId))
            && (forall s :: s in d.stats <==>
                  s in c.stats && (s.boutId.None? || !OnlyUfcStats(c.boutLinks, s.boutId.value)))
  {
    forall id
      ensures Sole(c.boutLinks, id) <==> OnlyUfcStats(c.boutLinks, id)
    {
      SoleMeans(c.boutLinks, id);
    }
    FilterMembers(Foreign(), c.boutLinks);
    FilterMembers(KeepsBout(c.boutLinks), c.bouts);
    FilterMembers(KeepsVersion(c.boutLinks), c.versions);
    FilterMembers(KeepsParticipant(c.boutLinks), c.participants);
    FilterMembers(KeepsBoutStat(c.boutLinks), c.stats);
  }

  /** An event goes when UFCStats alone links it and no bout is left at it. */
  lemma EventRowsLeft(c: Canon)
    ensures var d := DropEvents(c);
            && (forall l :: l in d.eventLinks <==> l in c.eventLinks && l.source != "ufcstats")
            && (forall e :: e in d.events <==>
                  e in c.events && !(OnlyUfcStats(c.eventLinks, e.id) && forall b | b in c.bouts :: b.eventId != e.id))
  {
    forall id
      ensures EventDropped(c, id) <==> OnlyUfcStats(c.eventLinks, id) && forall b | b in c.bouts :: b.eventId != id
    {
      SoleMeans(c.eventLinks, id);
      if Hosts(c.bouts, id) {
        var i :| 0 <= i < |c.bouts| && c.bouts[i].eventId == id;
        assert c.bouts[i] in c.bouts;
      }
    }
    FilterMembers(Foreign(), c.eventLinks);
    FilterMembers(KeepsEvent(c), c.events);
  }

  /** What UFCStats said about fighters goes. */
  lemma FactsLeft(c: Canon)
    ensures var d := DropFacts(c);
            && (forall l :: l in d.fighterLinks <==> l in c.fighterLinks && l.source != "ufcstats")
            && (forall a :: a in d.aliases <==> a in c.aliases && a.source != Some("ufcstats"))
            && (forall p :: p in d.profiles <==> p in c.profiles && p.source != "ufcstats")
            && (forall s :: s in d.stats <==> s in c.stats && s.source != "ufcstats")
  {
    FilterMembers(Foreign(), c.fighterLinks);
    FilterMembers(ForeignAlias(), c.aliases);
    FilterMembers(ForeignProfile(), c.profiles);
    FilterMembers(ForeignStat(), c.stats);
  }

  /** A fighter goes when UFCStats alone links it and no bout or participant is left of it. */
  lemma FighterRowsLeft(c: Canon)
    ensures forall f :: f in DropFighters(c).fighters <==>
              && f in c.fighters
              && !(OnlyUfcStats(c.fighterLinks, f.id)
                   && (forall b | b in c.bouts :: b.fighterA != f.id && b.fighterB != f.id)
                   && forall p | p in c.participants :: p.fighterId != f.id)
  {
    forall id
      ensures FighterDropped(c, id) <==>
                && OnlyUfcStats(c.fighterLinks, id)
                && (forall b | b in c.bouts :: b.fighterA != id && b.fighterB != id)
                && forall p | p in c.participants :: p.fighterId != id
    {
      FighterGoesIff(c, id);
    }
    FilterMembers(KeepsFighter(c), c.fighters);
  }

  lemma FighterGoesIff(c: Canon, id: Id)
    ensures FighterDropped(c, id) <==>
              && OnlyUfcStats(c.fighterLinks, id)
              && (forall b | b in c.bouts :: b.fighterA != id && b.fighterB != id)
              && forall p | p in c.participants :: p.fighterId != id
  {
    SoleMeans(c.fighterLinks, id);
    if Fights(c.bouts, id) {
      var i :| 0 <= i < |c.bouts| && (c.bouts[i].fighterA == id || c.bouts[i].fighterB == id);
      assert c.bouts[i] in c.bouts;
    }
    if TakesPart(c.participants, id) {
      var i :| 0 <= i < |c.participants| && c.participants[i].fighterId == id;
      assert c.participants[i] in c.participants;
    }
  }

  /** A fighter is still named by an alias, a profile or stat row, or a result version. */
  lemma StillNamedMeans(c: Canon, fighter: Id)
    ensures StillNamed(c, fighter) <==>
              || (exists a :: a in c.aliases && a.fighterId == fighter)
              || (exists p :: p in c.profiles && p.fighterId == fighter)
              || (exists s :: s in c.stats && s.fighterId == fighter)
              || exists v :: v in c.versions
                             && (v.fighterA == fighter || v.fighterB == fighter || v.winner == Some(fighter))
  {
    if a :| a in c.aliases && a.fighterId == fighter {
      var i :| 0 <= i < |c.aliases| && c.aliases[i] == a;
    }
    if p :| p in c.profiles && p.fighterId == fighter {
      var i :| 0 <= i < |c.profiles| && c.profiles[i] == p;
    }
    if s :| s in c.stats && s.fighterId == fighter {
      var i :| 0 <= i < |c.stats| && c.stats[i] == s;
    }
    if v :| v in c.versions && (v.fighterA == fighter || v.fighterB == fighter || v.winner == Some(fighter)) {
      var i :| 0 <= i < |c.versions| && c.versions[i] == v;
      assert NamesFighter(c.versions[i], fighter);
    }
    if StillNamed(c, fighter) {
      NamedInARow(c, fighter);
    }
  }

  lemma NamedInARow(c: Canon, fighter: Id)
    requires StillNamed(c, fighter)
    ensures || (exists a :: a in c.aliases && a.fighterId == fighter)
            || (exists p :: p in c.profiles && p.fighterId == fighter)
            || (exists s :: s in c.stats && s.fighterId == fighter)
            || exists v :: v in c.versions
                           && (v.fighterA == fighter || v.fighterB == fighter || v.winner == Some(fighter))
  {
    if i :| 0 <= i < |c.aliases| && c.aliases[i].fighterId == fighter {
      assert c.aliases[i] in c.aliases;
    } else if i :| 0 <= i < |c.profiles| && c.profiles[i].fighterId == fighter {
      assert c.profiles[i] in c.profiles;
    } else if i :| 0 <= i < |c.stats| && c.stats[i].fighterId == fighter {
      assert c.stats[i] in c.stats;
    } else {
      var i :| 0 <= i < |c.versions| && NamesFighter(c.versions[i], fighter);
      assert c.versions[i] in c.versions;
    }
  }
}

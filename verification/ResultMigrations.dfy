/** The result migrations as they run against their two tables. */
module ResultMigrations {
  import opened Prelude
  import opened ResultTables
  import opened Revisions
  import opened Provenance
  import opened Proxies

  type Claims = map<int, seq<int>>

  type Assignments = map<int, Assignment>

  // ----- bookkeeping of the backfill -----

  ghost predicate ClaimsSoFar(candidates: seq<Observation>, done: seq<Version>, claimed: Claims) {
    forall id ::
      && (id in claimed <==> Claimants(candidates, done, id) != [])
      && (id in claimed ==> claimed[id] == Claimants(candidates, done, id))
  }

  ghost predicate AssignedSoFar(candidates: seq<Observation>, done: seq<Version>, assignments: Assignments) {
    && (forall id :: id in assignments <==> exists v :: v in done && v.id == id)
    && forall v | v in done :: assignments[v.id] == FirstPass(candidates, v)
  }

  function Claim(claimed: Claims, id: int, version: int): Claims {
    claimed[id := (if id in claimed then claimed[id] else []) + [version]]
  }

  lemma ClaimantsStep(candidates: seq<Observation>, versions: seq<Version>, i: nat, id: int)
    requires i < |versions|
    ensures Claimants(candidates, versions[..i + 1], id)
         == Claimants(candidates, versions[..i], id)
            + if FirstPass(candidates, versions[i]).observation == Some(id) then [versions[i].id] else []
  {
    Prefix(versions, i);
    var before := Filter(Claiming(candidates, id), versions[..i]);
    if Claiming(candidates, id)(versions[i]) {
      assert Map(VersionId(), before + [versions[i]]) == Map(VersionId(), before) + [versions[i].id];
    }
  }

  lemma ClaimStep(candidates: seq<Observation>, versions: seq<Version>, i: nat, claimed: Claims)
    requires i < |versions| && ClaimsSoFar(candidates, versions[..i], claimed)
    ensures var link := FirstPass(candidates, versions[i]).observation;
            ClaimsSoFar(candidates, versions[..i + 1],
                        if link.Some? then Claim(claimed, link.value, versions[i].id) else claimed)
  {
    forall id
      ensures Claimants(candidates, versions[..i + 1], id)
           == Claimants(candidates, versions[..i], id)
              + if FirstPass(candidates, versions[i]).observation == Some(id) then [versions[i].id] else []
    {
      ClaimantsStep(candidates, versions, i, id);
    }
  }

  lemma AssignStep(candidates: seq<Observation>, versions: seq<Version>, i: nat, assignments: Assignments)
    requires i < |versions| && KeyedVersions(versions) && AssignedSoFar(candidates, versions[..i], assignments)
    ensures AssignedSoFar(candidates, versions[..i + 1],
                          assignments[versions[i].id := FirstPass(candidates, versions[i])])
  {
    Prefix(versions, i);
    forall v | v in versions[..i]
      ensures v.id != versions[i].id
    {
      var j :| 0 <= j < i && versions[j] == v;
    }
    assert versions[i] in versions[..i + 1];
  }

  // ----- the second pass -----

  /** A version loses its link once a contested observation of it has been visited. */
  function Revised(candidates: seq<Observation>, versions: seq<Version>, visited: seq<int>, v: Version): Assignment {
    var first := FirstPass(candidates, v);
    if first.observation.Some? && first.observation.value in visited
       && |Claimants(candidates, versions, first.observation.value)| != 1
    then Assignment(Ambiguous, None)
    else first
  }

  ghost predicate RevisedSoFar(
    candidates: seq<Observation>, versions: seq<Version>, visited: seq<int>, assignments: Assignments)
  {
    forall v | v in versions :: v.id in assignments && assignments[v.id] == Revised(candidates, versions, visited, v)
  }

  function Demote(assignments: Assignments, ids: seq<int>): Assignments {
    if ids == [] then assignments else Demote(assignments, Front(ids))[Last(ids) := Assignment(Ambiguous, None)]
  }

  lemma {:induction false} Demoted(assignments: Assignments, ids: seq<int>)
    ensures forall id :: id in Demote(assignments, ids) <==> id in assignments || id in ids
    ensures forall id | id in Demote(assignments, ids) ::
              Demote(assignments, ids)[id] == if id in ids then Assignment(Ambiguous, None) else assignments[id]
  {
    if ids != [] {
      Split(ids);
      Demoted(assignments, Front(ids));
    }
  }

  lemma ClaimantsMembers(candidates: seq<Observation>, versions: seq<Version>, id: int, v: Version)
    requires KeyedVersions(versions) && v in versions
    ensures v.id in Claimants(candidates, versions, id) <==> FirstPass(candidates, v).observation == Some(id)
  {
    var claiming := Filter(Claiming(candidates, id), versions);
    var ids := Claimants(candidates, versions, id);
    FilterMembers(Claiming(candidates, id), versions);
    if v in claiming {
      var k :| 0 <= k < |claiming| && claiming[k] == v;
      assert ids[k] == v.id;
    }
    if v.id in ids {
      var k :| 0 <= k < |ids| && ids[k] == v.id;
      assert claiming[k] in versions;
      var i :| 0 <= i < |versions| && versions[i] == v;
      var j :| 0 <= j < |versions| && versions[j] == claiming[k];
      assert i == j;
    }
  }

  lemma ReviseStep(
    candidates: seq<Observation>, versions: seq<Version>, order: seq<int>, k: nat, assignments: Assignments)
    requires k < |order| && KeyedVersions(versions) && RevisedSoFar(candidates, versions, order[..k], assignments)
    ensures var ids := Claimants(candidates, versions, order[k]);
            RevisedSoFar(candidates, versions, order[..k + 1],
                         if |ids| == 1 then assignments else Demote(assignments, ids))
  {
    Prefix(order, k);
    var ids := Claimants(candidates, versions, order[k]);
    Demoted(assignments, ids);
    forall v | v in versions
      ensures v.id in ids <==> FirstPass(candidates, v).observation == Some(order[k])
    {
      ClaimantsMembers(candidates, versions, order[k], v);
    }
  }

  lemma AllRevised(
    candidates: seq<Observation>, versions: seq<Version>, order: seq<int>, claimed: Claims, assignments: Assignments)
    requires KeyedVersions(versions) && ClaimsSoFar(candidates, versions, claimed)
    requires forall id :: id in order <==> id in claimed
    requires RevisedSoFar(candidates, versions, order, assignments)
    ensures forall v | v in versions :: v.id in assignments && assignments[v.id] == Final(candidates, versions, v)
  {
    forall v | v in versions && FirstPass(candidates, v).observation.Some?
      ensures FirstPass(candidates, v).observation.value in order
    {
      var id := FirstPass(candidates, v).observation.value;
      ClaimantsMembers(candidates, versions, id, v);
    }
  }

  /** Writes each row's assignment into the row. */
  method UpdateRows(candidates: seq<Observation>, versions: seq<Version>, assignments: Assignments)
    returns (rows: seq<Version>)
    requires forall v | v in versions :: v.id in assignments && assignments[v.id] == Final(candidates, versions, v)
    ensures rows == Map(Backfill(candidates, versions), versions)
  {
    rows := [];
    for i := 0 to |versions|
      invariant |rows| == i
      invariant forall j | 0 <= j < i :: rows[j] == Applied(Final(candidates, versions, versions[j]), versions[j])
    {
      var version := versions[i];
      assert version in versions;
      rows := rows + [Applied(assignments[version.id], version)];
    }
  }

  // ----- one observation -----

  /** The guards in the order in which they are tried. */
  method ClearOne(lanes: LaneMaps, row: Observation) returns (r: Observation)
    ensures r == ClearRow(lanes)(row)
  {
    var attributes := Decode(row.attributes);
    if TextOf(row.kind) != "current" {
      return row;
    }
    if TextOf(row.quality) != "publication_proxy" || TextOf(row.proxy) == "" {
      return row;
    }
    var reversedState := Read(attributes, "version_state") == JsonText("reversed_to_no_contest");
    if !reversedState && !ReversedLanes(lanes, TextOf(row.subjectId)) {
      return row;
    }
    if Read(attributes, AUDIT_UNKNOWN) == JsonBool(true) {
      return row;
    }
    attributes := attributes[AUDIT_UNKNOWN := JsonBool(true)];
    attributes := attributes[AUDIT_PROXY := JsonText(TextOf(row.proxy))];
    attributes := attributes[AUDIT_QUALITY := JsonText(TextOf(row.quality))];
    if row.tier.Some? && row.tier.value != "" {
      attributes := attributes[AUDIT_TIER := JsonText(row.tier.value)];
    }
    r := row.(proxy := None, quality := Some("unknown"), tier := Some("bronze"), attributes := Object(attributes));
  }

  // ----- the tables -----

  class ResultDatabase {
    var versions: seq<Version>
    var observations: seq<Observation>

    constructor (versions: seq<Version>, observations: seq<Observation>)
      ensures this.versions == versions && this.observations == observations
    {
      this.versions, this.observations := versions, observations;
    }

    /** First pass: what each version matches, and who claims each observation. */
    method MatchVersions(candidates: seq<Observation>)
      returns (claimed: Claims, order: seq<int>, assignments: Assignments)
      requires KeyedVersions(versions)
      ensures ClaimsSoFar(candidates, versions, claimed) && forall id :: id in order <==> id in claimed
      ensures AssignedSoFar(candidates, versions, assignments)
    {
      claimed, order, assignments := map[], [], map[];
      for i := 0 to |versions|
        invariant ClaimsSoFar(candidates, versions[..i], claimed)
        invariant forall id :: id in order <==> id in claimed
        invariant AssignedSoFar(candidates, versions[..i], assignments)
      {
        var version := versions[i];
        ClaimStep(candidates, versions, i, claimed);
        AssignStep(candidates, versions, i, assignments);
        var matches := Matches(candidates, VersionKey(version));
        if |matches| == 1 {
          var id := matches[0];
          if id !in claimed {
            order := order + [id];
          }
          claimed := Claim(claimed, id, version.id);
          assignments := assignments[version.id := Assignment(Linked, Some(id))];
        } else if |matches| > 1 {
          assignments := assignments[version.id := Assignment(Ambiguous, None)];
        } else {
          assignments := assignments[version.id := Assignment(Unknown, None)];
        }
      }
      assert versions[..|versions|] == versions;
    }

    /** Second pass: an observation claimed more than once is taken from all claimants. */
    method DemoteContested(candidates: seq<Observation>, claimed: Claims, order: seq<int>, first: Assignments)
      returns (assignments: Assignments)
      requires KeyedVersions(versions) && ClaimsSoFar(candidates, versions, claimed)
      requires forall id :: id in order <==> id in claimed
      requires AssignedSoFar(candidates, versions, first)
      ensures forall v | v in versions :: v.id in assignments && assignments[v.id] == Final(candidates, versions, v)
    {
      assignments := first;
      for k := 0 to |order|
        invariant RevisedSoFar(candidates, versions, order[..k], assignments)
      {
        ReviseStep(candidates, versions, order, k, assignments);
        assert order[k] in order;
        var ids := claimed[order[k]];
        if |ids| == 1 {
          continue;
        }
        ghost var before := assignments;
        for j := 0 to |ids|
          invariant assignments == Demote(before, ids[..j])
        {
          Prefix(ids, j);
          assignments := assignments[ids[j] := Assignment(Ambiguous, None)];
        }
        assert ids[..|ids|] == ids;
      }
      assert order[..|order|] == order;
      AllRevised(candidates, versions, order, claimed, assignments);
    }

    method BackfillProvenance()
      requires KeyedVersions(versions)
      modifies `versions
      ensures versions == Map(Backfill(Filter(IsCandidate(), observations), old(versions)), old(versions))
    {
      var candidates := Filter(IsCandidate(), observations);
      var claimed, order, first := MatchVersions(candidates);
      var assignments := DemoteContested(candidates, claimed, order, first);
      versions := UpdateRows(candidates, versions, assignments);
    }

    method ClearInvalidReversalProxies()
      modifies `observations
      ensures observations == ClearAll(versions, old(observations))
    {
      var night: map<string, string>, current: map<string, string> := map[], map[];
      var ordered := ByRevision(versions);
      for i := 0 to |ordered|
        invariant observations == old(observations)
        invariant night == Lane(ordered[..i], "event_night") && current == Lane(ordered[..i], "current")
      {
        Prefix(ordered, i);
        var version := ordered[i];
        assert "event_night"[0] != "current"[0];
        if version.kind == "event_night" {
          night := night[version.boutId := TextOf(version.resultType)];
        } else if version.kind == "current" {
          current := current[version.boutId := TextOf(version.resultType)];
        }
      }
      assert ordered[..|ordered|] == ordered;
      var lanes := LaneMaps(night, current);
      assert lanes == LanesOf(versions);
      var rows: seq<Observation> := [];
      for i := 0 to |observations|
        invariant observations == old(observations) && |rows| == i
        invariant forall j | 0 <= j < i :: rows[j] == ClearRow(lanes)(observations[j])
      {
        var cleared := ClearOne(lanes, observations[i]);
        rows := rows + [cleared];
      }
      observations := rows;
    }

    /** Unmarked rows stay as they are; a marked row gets back what was stashed, or the
        defaults, and loses the audit keys. */
    method RestoreClearedProxies()
      modifies `observations
      ensures |observations| == |old(observations)|
      ensures forall i | 0 <= i < |observations| && !Marked(Decode(old(observations)[i].attributes)) ::
                observations[i] == old(observations)[i]
      ensures forall i | 0 <= i < |observations| && Marked(Decode(old(observations)[i].attributes)) ::
                CarriesStash(old(observations)[i], observations[i])
      ensures observations == RestoreAll(old(observations))
    {
      var rows: seq<Observation> := [];
      for i := 0 to |observations|
        invariant observations == old(observations) && |rows| == i
        invariant forall j | 0 <= j < i :: rows[j] == RestoreRow()(observations[j])
        invariant forall j | 0 <= j < i && Marked(Decode(observations[j].attributes)) ::
                    CarriesStash(observations[j], rows[j])
      {
        var row := observations[i];
        var attributes := Decode(row.attributes);
        if Read(attributes, AUDIT_UNKNOWN) != JsonBool(true) {
          rows := rows + [row];
          continue;
        }
        ghost var stashed := attributes;
        KeysDiffer();
        var proxy := Read(attributes, AUDIT_PROXY);
        attributes := attributes - {AUDIT_PROXY};
        var quality := Read(attributes, AUDIT_QUALITY);
        attributes := attributes - {AUDIT_QUALITY};
        if !Truthy(quality) {
          quality := JsonText("publication_proxy");
        }
        var tier := Read(attributes, AUDIT_TIER);
        attributes := attributes - {AUDIT_TIER};
        if !Truthy(tier) {
          tier := JsonText("silver");
        }
        attributes := attributes - {AUDIT_UNKNOWN};
        assert attributes == stashed - AuditKeys();
        var restored := row.(proxy := Stored(proxy), quality := Stored(quality), tier := Stored(tier),
                             attributes := Object(attributes));
        StashReadBack(row, restored);
        rows := rows + [restored];
      }
      observations := rows;
    }

    /** Deletes, group by group, the rows below the group's highest revision. */
    method CollapseRevisions()
      modifies `versions
      ensures versions == Collapse(old(versions))
    {
      ghost var all := versions;
      var groups := Groups(versions);
      FilterAll(AboveAll([]), versions);
      for i := 0 to |groups|
        invariant versions == Filter(AboveAll(groups[..i]), all)
      {
        Prefix(groups, i);
        GroupStep(all, groups, i);
        versions := Filter(NotBelow(groups[i]), versions);
      }
      assert groups[..|groups|] == groups;
      AllGroupsDone(all);
    }
  }
}

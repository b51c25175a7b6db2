/** Linking each result version to the raw observation it came from. */
module Provenance {
  import opened Prelude
  import opened ResultTables

  datatype Key = Key(bout: string, kind: string, observed: Option<int>, effective: Option<int>, result: string)

  function VersionKey(v: Version): Key {
    Key(v.boutId, v.kind, v.observedAt, v.effectiveAt, TextOf(v.resultType))
  }

  function ObservationKey(o: Observation): Key {
    Key(TextOf(o.subjectId), TextOf(o.kind), o.observedAt, o.effectiveAt,
        Shown(ResultTables.Read(Decode(o.attributes), "result_type")))
  }

  function IsCandidate(): Observation -> bool {
    (o: Observation) => TextOf(o.entityKind) == "" || o.entityKind == Some("bout_result")
  }

  function Matching(key: Key): Observation -> bool { (o: Observation) => ObservationKey(o) == key }

  /** Distinct ids of the candidates with a version's key. */
  function Matches(candidates: seq<Observation>, key: Key): seq<int> {
    FirstOccurrences(Map(ObservationId(), Filter(Matching(key), candidates)))
  }

  datatype Assignment = Assignment(status: Status, observation: Option<int>)

  function FirstPass(candidates: seq<Observation>, v: Version): Assignment {
    var matches := Matches(candidates, VersionKey(v));
    if |matches| == 1 then Assignment(Linked, Some(matches[0]))
    else if |matches| > 1 then Assignment(Ambiguous, None)
    else Assignment(Unknown, None)
  }

  function Claiming(candidates: seq<Observation>, id: int): Version -> bool {
    (v: Version) => FirstPass(candidates, v).observation == Some(id)
  }

  function Claimants(candidates: seq<Observation>, versions: seq<Version>, id: int): seq<int> {
    Map(VersionId(), Filter(Claiming(candidates, id), versions))
  }

  /** An observation claimed by several versions is given to none. */
  function Final(candidates: seq<Observation>, versions: seq<Version>, v: Version): Assignment {
    var first := FirstPass(candidates, v);
    if first.observation.Some? && |Claimants(candidates, versions, first.observation.value)| != 1
    then Assignment(Ambiguous, None)
    else first
  }

  function Applied(a: Assignment, v: Version): Version { v.(status := a.status, rawObservation := a.observation) }

  function Backfill(candidates: seq<Observation>, versions: seq<Version>): Version -> Version {
    (v: Version) => Applied(Final(candidates, versions, v), v)
  }

  // ----- what the assignment means -----

  ghost predicate OnlyVersion(versions: seq<Version>, v: Version) {
    forall w | w in versions && VersionKey(w) == VersionKey(v) :: w.id == v.id
  }

  ghost predicate OnlyCandidate(candidates: seq<Observation>, key: Key, id: int) {
    && (exists o :: o in candidates && ObservationKey(o) == key && o.id == id)
    && forall o | o in candidates && ObservationKey(o) == key :: o.id == id
  }

  ghost predicate NoCandidate(candidates: seq<Observation>, key: Key) {
    forall o | o in candidates :: ObservationKey(o) != key
  }

  lemma MatchesMembers(candidates: seq<Observation>, key: Key)
    ensures forall id :: id in Matches(candidates, key) <==>
                           exists o :: o in candidates && ObservationKey(o) == key && o.id == id
    ensures Distinct(Matches(candidates, key))
  {
    var matching := Filter(Matching(key), candidates);
    var ids := Map(ObservationId(), matching);
    FilterMembers(Matching(key), candidates);
    FirstOccurrencesDistinct(ids);
    forall o | o in matching
      ensures o.id in ids
    {
      var i :| 0 <= i < |matching| && matching[i] == o;
      assert ids[i] == o.id;
    }
    forall id | id in ids
      ensures exists o :: o in candidates && ObservationKey(o) == key && o.id == id
    {
      var i :| 0 <= i < |ids| && ids[i] == id;
      assert matching[i] in matching;
    }
  }

  lemma NoMatches(candidates: seq<Observation>, key: Key)
    ensures Matches(candidates, key) == [] <==> NoCandidate(candidates, key)
  {
    var matches := Matches(candidates, key);
    MatchesMembers(candidates, key);
    if matches != [] {
      assert matches[0] in matches;
    }
    forall o | o in candidates && ObservationKey(o) == key
      ensures o.id in matches
    {
    }
  }

  lemma OneMatch(candidates: seq<Observation>, key: Key, id: int)
    ensures Matches(candidates, key) == [id] <==> OnlyCandidate(candidates, key, id)
  {
    var matches := Matches(candidates, key);
    MatchesMembers(candidates, key);
    if |matches| > 1 {
      var other := if matches[0] == id then matches[1] else matches[0];
      assert matches[0] != matches[1];
      assert other in matches && other != id;
    } else if |matches| == 1 {
      var only := matches[0];
      assert only in matches;
      var found :| found in candidates && ObservationKey(found) == key && found.id == only;
      forall o | o in candidates && ObservationKey(o) == key
        ensures o.id == only
      {
        assert o.id in matches;
      }
    } else {
      assert id !in matches;
    }
  }

  lemma FirstPassMeaning(candidates: seq<Observation>, v: Version)
    ensures var first := FirstPass(candidates, v);
            && (first.status.Linked? <==> first.observation.Some?)
            && (first.status.Unknown? <==> NoCandidate(candidates, VersionKey(v)))
            && forall id :: first.observation == Some(id) <==> OnlyCandidate(candidates, VersionKey(v), id)
  {
    var key := VersionKey(v);
    NoMatches(candidates, key);
    forall id
      ensures FirstPass(candidates, v).observation == Some(id) <==> OnlyCandidate(candidates, key, id)
    {
      OneMatch(candidates, key, id);
      assert FirstPass(candidates, v).observation == Some(id) <==> Matches(candidates, key) == [id];
    }
  }

  /** Versions claiming one observation are those with its key. */
  lemma SameClaim(candidates: seq<Observation>, v: Version, w: Version, id: int)
    requires OnlyCandidate(candidates, VersionKey(v), id) && KeyedObservations(candidates)
    ensures FirstPass(candidates, w).observation == Some(id) <==> VersionKey(w) == VersionKey(v)
  {
    FirstPassMeaning(candidates, v);
    FirstPassMeaning(candidates, w);
    if FirstPass(candidates, w).observation == Some(id) {
      var o :| o in candidates && ObservationKey(o) == VersionKey(v) && o.id == id;
      var p :| p in candidates && ObservationKey(p) == VersionKey(w) && p.id == id;
      var i :| 0 <= i < |candidates| && candidates[i] == o;
      var j :| 0 <= j < |candidates| && candidates[j] == p;
      assert i == j;
    }
  }

  lemma OneClaimant(candidates: seq<Observation>, versions: seq<Version>, v: Version, id: int)
    requires KeyedVersions(versions) && KeyedObservations(candidates) && v in versions
    requires OnlyCandidate(candidates, VersionKey(v), id)
    ensures |Claimants(candidates, versions, id)| == 1 <==> OnlyVersion(versions, v)
  {
    var claiming := Filter(Claiming(candidates, id), versions);
    FilterMembers(Claiming(candidates, id), versions);
    forall w | w in versions
      ensures w in claiming <==> VersionKey(w) == VersionKey(v)
    {
      SameClaim(candidates, v, w, id);
    }
    FilterKeepsKeys(Claiming(candidates, id), versions);
    AloneIff(claiming, v);
  }

  lemma AloneIff(claiming: seq<Version>, v: Version)
    requires KeyedVersions(claiming) && v in claiming
    ensures |claiming| == 1 <==> forall w | w in claiming :: w.id == v.id
  {
    if |claiming| == 1 {
      assert claiming[0] == v;
    } else {
      assert claiming[0] in claiming && claiming[1] in claiming && claiming[0].id != claiming[1].id;
    }
  }

  lemma {:induction false} FilterKeepsKeys(keep: Version -> bool, versions: seq<Version>)
    requires KeyedVersions(versions)
    ensures KeyedVersions(Filter(keep, versions))
  {
    if versions != [] {
      FilterKeepsKeys(keep, Front(versions));
      FilterMembers(keep, Front(versions));
      forall w | w in Front(versions)
        ensures w.id != Last(versions).id
      {
      }
    }
  }

  /** A version is linked to an observation exactly when each is the only one with their
      common key, it is unknown exactly when no candidate has its key, and a status comes
      with an observation id exactly when it is Linked. */
  lemma LinkedIffMutuallyUnique(candidates: seq<Observation>, versions: seq<Version>, v: Version)
    requires KeyedVersions(versions) && KeyedObservations(candidates) && v in versions
    ensures var a := Final(candidates, versions, v);
            && (a.status.Linked? <==> a.observation.Some?)
            && (a.status.Unknown? <==> NoCandidate(candidates, VersionKey(v)))
            && forall id :: a.observation == Some(id) <==>
                              OnlyCandidate(candidates, VersionKey(v), id) && OnlyVersion(versions, v)
  {
    FirstPassMeaning(candidates, v);
    var first := FirstPass(candidates, v);
    if first.observation.Some? {
      OneClaimant(candidates, versions, v, first.observation.value);
    }
  }

  /** No observation is linked twice: the unique key on the link cannot be violated. */
  lemma LinksAreInjective(candidates: seq<Observation>, versions: seq<Version>, v: Version, w: Version)
    requires KeyedVersions(versions) && KeyedObservations(candidates) && v in versions && w in versions
    requires Final(candidates, versions, v).observation.Some?
    requires Final(candidates, versions, v).observation == Final(candidates, versions, w).observation
    ensures v == w
  {
    LinkedIffMutuallyUnique(candidates, versions, v);
    LinkedIffMutuallyUnique(candidates, versions, w);
    var id := Final(candidates, versions, v).observation.value;
    FirstPassMeaning(candidates, w);
    SameClaim(candidates, v, w, id);
    var i :| 0 <= i < |versions| && versions[i] == v;
    var j :| 0 <= j < |versions| && versions[j] == w;
    assert i == j;
  }

  /** The same rows read in any other order get the same assignments. */
  lemma RowOrderDoesNotMatter(
    candidates: seq<Observation>, others: seq<Observation>, versions: seq<Version>, shuffled: seq<Version>, v: Version)
    requires KeyedVersions(versions) && KeyedVersions(shuffled) && v in versions
    requires KeyedObservations(candidates) && KeyedObservations(others)
    requires forall o :: o in candidates <==> o in others
    requires forall w :: w in versions <==> w in shuffled
    ensures Final(candidates, versions, v) == Final(others, shuffled, v)
  {
    LinkedIffMutuallyUnique(candidates, versions, v);
    LinkedIffMutuallyUnique(others, shuffled, v);
    var key, a, b := VersionKey(v), Final(candidates, versions, v), Final(others, shuffled, v);
    assert OnlyVersion(versions, v) == OnlyVersion(shuffled, v);
    assert forall id :: OnlyCandidate(candidates, key, id) == OnlyCandidate(others, key, id);
    assert NoCandidate(candidates, key) == NoCandidate(others, key);
    forall id
      ensures Gives(a.observation, id) == Gives(b.observation, id)
    {
      assert OnlyCandidate(candidates, key, id) == OnlyCandidate(others, key, id);
    }
    SameGift(a.observation, b.observation);
  }

  predicate Gives(link: Option<int>, id: int) { link == Some(id) }

  lemma SameGift(a: Option<int>, b: Option<int>)
    requires forall id :: Gives(a, id) == Gives(b, id)
    ensures a == b
  {
    assert a.Some? ==> Gives(a, a.value);
    assert b.Some? ==> Gives(b, b.value);
  }

  /** The table after the backfill meets its constraints: a link exactly on linked rows,
      no observation on two rows, and every link held by a candidate. */
  lemma BackfillMeetsConstraints(candidates: seq<Observation>, versions: seq<Version>)
    requires KeyedVersions(versions) && KeyedObservations(candidates)
    ensures var rows := Map(Backfill(candidates, versions), versions);
            && (forall r | r in rows :: r.status.Linked? <==> r.rawObservation.Some?)
            && (forall i, j | 0 <= i < j < |rows| && rows[i].rawObservation.Some? ::
                  rows[i].rawObservation != rows[j].rawObservation)
            && forall r | r in rows && r.rawObservation.Some? ::
                 exists o :: o in candidates && o.id == r.rawObservation.value
  {
    var rows := Map(Backfill(candidates, versions), versions);
    forall v | v in versions
      ensures var a := Final(candidates, versions, v);
              && (a.status.Linked? <==> a.observation.Some?)
              && (a.observation.Some? ==> exists o :: o in candidates && o.id == a.observation.value)
    {
      LinkedIffMutuallyUnique(candidates, versions, v);
      var a := Final(candidates, versions, v);
      if a.observation.Some? {
        assert OnlyCandidate(candidates, VersionKey(v), a.observation.value);
      }
    }
    forall i, j | 0 <= i < j < |rows| && rows[i].rawObservation.Some?
      ensures rows[i].rawObservation != rows[j].rawObservation
    {
      NeverShared(candidates, versions, versions[i], versions[j]);
    }
  }

  lemma NeverShared(candidates: seq<Observation>, versions: seq<Version>, v: Version, w: Version)
    requires KeyedVersions(versions) && KeyedObservations(candidates) && v in versions && w in versions && v != w
    ensures Final(candidates, versions, v).observation.Some? ==>
              Final(candidates, versions, v).observation != Final(candidates, versions, w).observation
  {
    if Final(candidates, versions, v).observation.Some?
       && Final(candidates, versions, v).observation == Final(candidates, versions, w).observation {
      LinksAreInjective(candidates, versions, v, w);
    }
  }

  // ----- the same, told by the columns of the two tables -----

  /** Observations of bout results, or of no stated kind. */
  ghost predicate Eligible(o: Observation) {
    o.entityKind.None? || o.entityKind == Some("") || o.entityKind == Some("bout_result")
  }

  /** A missing text reads as the empty one. */
  ghost predicate ReadsAs(column: Option<string>, text: string) {
    column == Some(text) || (column.None? && text == "")
  }

  /** The text of the result an observation gives: its attributes must be an object that has
      one, and a value that counts as false gives none. */
  ghost predicate GivesResult(o: Observation, text: string) {
    if o.attributes.Object? && "result_type" in o.attributes.attributes then
      match o.attributes.attributes["result_type"]
      case JsonText(shown) => text == shown
      case JsonBool(value) => text == if value then "True" else ""
      case JsonOther(shown, truthy) => text == if truthy then shown else ""
      case JsonNull => text == ""
    else text == ""
  }

  /** An observation and a version of one bout and kind, with the same two times and the same
      result. */
  ghost predicate Agree(o: Observation, v: Version) {
    && ReadsAs(o.subjectId, v.boutId) && ReadsAs(o.kind, v.kind)
    && o.observedAt == v.observedAt && o.effectiveAt == v.effectiveAt
    && GivesResult(o, if v.resultType.Some? then v.resultType.value else "")
  }

  lemma AgreeMeansSameKey(o: Observation, v: Version)
    ensures Agree(o, v) <==> ObservationKey(o) == VersionKey(v)
  {
    assert |MALFORMED| == 20 && |ORIGINAL| == 18 && |"result_type"| == 11;
  }

  lemma {:induction false} CandidatesKeepKeys(observations: seq<Observation>)
    requires KeyedObservations(observations)
    ensures KeyedObservations(Filter(IsCandidate(), observations))
    ensures forall o :: o in Filter(IsCandidate(), observations) <==> o in observations && Eligible(o)
  {
    FilterMembers(IsCandidate(), observations);
    if observations != [] {
      CandidatesKeepKeys(Front(observations));
      FilterMembers(IsCandidate(), Front(observations));
      forall o | o in Front(observations)
        ensures o.id != Last(observations).id
      {
      }
    }
  }

  lemma SameId(observations: seq<Observation>, o: Observation, p: Observation)
    requires KeyedObservations(observations) && o in observations && p in observations && o.id == p.id
    ensures o == p
  {
    var i :| 0 <= i < |observations| && observations[i] == o;
    var j :| 0 <= j < |observations| && observations[j] == p;
    assert i == j;
  }

  lemma SameVersionId(versions: seq<Version>, v: Version, w: Version)
    requires KeyedVersions(versions) && v in versions && w in versions && v.id == w.id
    ensures v == w
  {
    var i :| 0 <= i < |versions| && versions[i] == v;
    var j :| 0 <= j < |versions| && versions[j] == w;
    assert i == j;
  }

  /** Each is the only row of its table that agrees with the other. */
  ghost predicate Paired(observations: seq<Observation>, versions: seq<Version>, o: Observation, v: Version) {
    && Eligible(o) && Agree(o, v)
    && (forall p | p in observations && Eligible(p) && Agree(p, v) :: p == o)
    && (forall w | w in versions && Agree(o, w) :: w == v)
  }

  lemma PairedMeansUnique(observations: seq<Observation>, versions: seq<Version>, o: Observation, v: Version)
    requires KeyedVersions(versions) && KeyedObservations(observations) && v in versions && o in observations
    ensures Paired(observations, versions, o, v) <==>
              OnlyCandidate(Filter(IsCandidate(), observations), VersionKey(v), o.id) && OnlyVersion(versions, v)
  {
    var candidates, key := Filter(IsCandidate(), observations), VersionKey(v);
    CandidatesKeepKeys(observations);
    forall p, w
      ensures Agree(p, w) <==> ObservationKey(p) == VersionKey(w)
    {
      AgreeMeansSameKey(p, w);
    }
    if Paired(observations, versions, o, v) {
      assert o in candidates && ObservationKey(o) == key;
    }
    if OnlyCandidate(candidates, key, o.id) && OnlyVersion(versions, v) {
      var x :| x in candidates && ObservationKey(x) == key && x.id == o.id;
      SameId(observations, x, o);
      forall p | p in observations && Eligible(p) && Agree(p, v)
        ensures p == o
      {
        SameId(observations, p, o);
      }
      forall w | w in versions && Agree(o, w)
        ensures w == v
      {
        SameVersionId(versions, v, w);
      }
    }
  }

  /** The backfill writes two columns of a version. It links the version to an observation
      exactly when the two are paired, leaves the link empty otherwise, and calls it unknown
      exactly when no eligible observation agrees with it. */
  lemma BackfillLinksThePaired(observations: seq<Observation>, versions: seq<Version>, v: Version)
    requires KeyedVersions(versions) && KeyedObservations(observations) && v in versions
    ensures var row := Backfill(Filter(IsCandidate(), observations), versions)(v);
            && row == v.(status := row.status, rawObservation := row.rawObservation)
            && (row.status == Linked <==> row.rawObservation.Some?)
            && (row.status == Unknown <==> forall o | o in observations && Eligible(o) :: !Agree(o, v))
            && (forall o | o in observations ::
                  row.rawObservation == Some(o.id) <==> Paired(observations, versions, o, v))
            && (row.rawObservation.Some? ==> exists o :: o in observations && row.rawObservation == Some(o.id))
  {
    var candidates := Filter(IsCandidate(), observations);
    CandidatesKeepKeys(observations);
    LinkedIffMutuallyUnique(candidates, versions, v);
    var a := Final(candidates, versions, v);
    forall o | o in observations
      ensures a.observation == Some(o.id) <==> Paired(observations, versions, o, v)
      ensures Agree(o, v) <==> ObservationKey(o) == VersionKey(v)
    {
      PairedMeansUnique(observations, versions, o, v);
      AgreeMeansSameKey(o, v);
    }
    if a.observation.Some? {
      assert OnlyCandidate(candidates, VersionKey(v), a.observation.value);
    }
  }
}

/** Result revisions: which row of a bout and kind counts, and collapsing to it. */
module Revisions {
  import opened Prelude
  import opened ResultTables

  // ----- the lane scan: later revisions overwrite earlier ones -----

  function InsertByRevision(v: Version, rows: seq<Version>): seq<Version> {
    if rows == [] then [v]
    else if v.revision < Last(rows).revision then InsertByRevision(v, Front(rows)) + [Last(rows)]
    else rows + [v]
  }

  function ByRevision(versions: seq<Version>): seq<Version> {
    if versions == [] then [] else InsertByRevision(Last(versions), ByRevision(Front(versions)))
  }

  ghost predicate Ascending(rows: seq<Version>) {
    forall i, j | 0 <= i < j < |rows| :: rows[i].revision <= rows[j].revision
  }

  lemma {:induction false} InsertionOrder(v: Version, rows: seq<Version>)
    requires Ascending(rows)
    ensures Ascending(InsertByRevision(v, rows))
    ensures forall w :: w in InsertByRevision(v, rows) <==> w == v || w in rows
  {
    if rows != [] {
      Split(rows);
      InsertionOrder(v, Front(rows));
      var before := InsertByRevision(v, Front(rows));
      if v.revision < Last(rows).revision {
        forall i | 0 <= i < |before|
          ensures before[i].revision <= Last(rows).revision
        {
          assert before[i] in before;
        }
      }
    }
  }

  lemma {:induction false} SelectedByRevision(versions: seq<Version>)
    ensures Ascending(ByRevision(versions))
    ensures forall v :: v in ByRevision(versions) <==> v in versions
  {
    if versions != [] {
      Split(versions);
      SelectedByRevision(Front(versions));
      InsertionOrder(Last(versions), ByRevision(Front(versions)));
    }
  }

  /** Result of a bout by the last row read of the kind. */
  function Lane(rows: seq<Version>, kind: string): map<string, string> {
    if rows == [] then map[] else
      var before := Lane(Front(rows), kind);
      if Last(rows).kind == kind then before[Last(rows).boutId := TextOf(Last(rows).resultType)] else before
  }

  ghost predicate Highest(versions: seq<Version>, v: Version) {
    v in versions && forall w | w in versions && SameLane(w, v) :: w == v || w.revision < v.revision
  }

  /** Among the rows of one lane only one can have the highest revision. */
  lemma {:induction false} HighestExists(versions: seq<Version>, v: Version) returns (top: Version)
    requires UniqueRevisions(versions) && v in versions
    ensures Highest(versions, top) && SameLane(top, v)
  {
    var i := 0;
    top := v;
    while i < |versions|
      invariant 0 <= i <= |versions| && top in versions && SameLane(top, v)
      invariant forall j | 0 <= j < i && SameLane(versions[j], v) :: versions[j].revision <= top.revision
    {
      if SameLane(versions[i], v) && versions[i].revision > top.revision {
        top := versions[i];
      }
      i := i + 1;
    }
    var k :| 0 <= k < |versions| && versions[k] == top;
    forall w | w in versions && SameLane(w, top)
      ensures w == top || w.revision < top.revision
    {
      var j :| 0 <= j < |versions| && versions[j] == w;
    }
  }

  lemma {:induction false} ScanFindsHighest(rows: seq<Version>, kind: string, v: Version)
    requires Ascending(rows) && v.kind == kind && v in rows
    requires forall w | w in rows && SameLane(w, v) :: w == v || w.revision < v.revision
    ensures v.boutId in Lane(rows, kind) && Lane(rows, kind)[v.boutId] == TextOf(v.resultType)
  {
    Split(rows);
    var last := Last(rows);
    if last != v {
      var i :| 0 <= i < |rows| && rows[i] == v;
      assert rows[i].revision <= rows[|rows| - 1].revision;
      assert !SameLane(last, v);
      ScanFindsHighest(Front(rows), kind, v);
    }
  }

  lemma {:induction false} ScanFindsOnlyRows(rows: seq<Version>, kind: string, bout: string)
    requires bout in Lane(rows, kind)
    ensures exists v :: v in rows && v.kind == kind && v.boutId == bout
  {
    Split(rows);
    if !(Last(rows).kind == kind && Last(rows).boutId == bout) {
      ScanFindsOnlyRows(Front(rows), kind, bout);
    }
  }

  function Lanes(versions: seq<Version>, kind: string): map<string, string> { Lane(ByRevision(versions), kind) }

  /** The scan in revision order ends up with the result of the highest revision, for
      every bout that has a row of the kind and for no other. */
  lemma LaneIsHighestRevision(versions: seq<Version>, kind: string, bout: string)
    requires UniqueRevisions(versions)
    ensures bout in Lanes(versions, kind) <==> exists v :: v in versions && v.kind == kind && v.boutId == bout
    ensures forall v | Highest(versions, v) && v.kind == kind && v.boutId == bout ::
              bout in Lanes(versions, kind) && Lanes(versions, kind)[bout] == TextOf(v.resultType)
  {
    var rows := ByRevision(versions);
    SelectedByRevision(versions);
    forall v | Highest(versions, v) && v.kind == kind && v.boutId == bout
      ensures bout in Lane(rows, kind) && Lane(rows, kind)[bout] == TextOf(v.resultType)
    {
      ScanFindsHighest(rows, kind, v);
    }
    if v :| v in versions && v.kind == kind && v.boutId == bout {
      var top := HighestExists(versions, v);
    }
    if bout in Lane(rows, kind) {
      ScanFindsOnlyRows(rows, kind, bout);
    }
  }

  // ----- collapsing to the highest revision -----

  predicate Beats(w: Version, v: Version) { SameLane(w, v) && w.revision > v.revision }

  predicate Beaten(versions: seq<Version>, v: Version) {
    exists i | 0 <= i < |versions| :: Beats(versions[i], v)
  }

  function Unbeaten(versions: seq<Version>): Version -> bool { (v: Version) => !Beaten(versions, v) }

  function Collapse(versions: seq<Version>): seq<Version> { Filter(Unbeaten(versions), versions) }

  lemma UnbeatenIsHighest(versions: seq<Version>, v: Version)
    requires UniqueRevisions(versions) && v in versions
    ensures !Beaten(versions, v) <==> Highest(versions, v)
  {
    if !Beaten(versions, v) {
      var k :| 0 <= k < |versions| && versions[k] == v;
      forall w | w in versions && SameLane(w, v)
        ensures w == v || w.revision < v.revision
      {
        var j :| 0 <= j < |versions| && versions[j] == w;
        assert !Beats(versions[j], v);
      }
    }
  }

  /** After collapsing, each bout and kind that had rows has exactly one, the highest
      revision. */
  lemma CollapseKeepsTheHighest(versions: seq<Version>, v: Version)
    requires UniqueRevisions(versions) && v in versions
    ensures v in Collapse(versions) <==> Highest(versions, v)
    ensures exists top :: top in Collapse(versions) && SameLane(top, v)
    ensures forall w, x | w in Collapse(versions) && x in Collapse(versions) && SameLane(w, x) :: w == x
  {
    FilterMembers(Unbeaten(versions), versions);
    UnbeatenIsHighest(versions, v);
    var top := HighestExists(versions, v);
    UnbeatenIsHighest(versions, top);
    forall w, x | w in Collapse(versions) && x in Collapse(versions) && SameLane(w, x)
      ensures w == x
    {
      UnbeatenIsHighest(versions, w);
      UnbeatenIsHighest(versions, x);
    }
  }

  lemma {:induction false} FilterKeepsUnique(keep: Version -> bool, versions: seq<Version>)
    requires UniqueRevisions(versions)
    ensures UniqueRevisions(Filter(keep, versions))
  {
    if versions != [] {
      FilterKeepsUnique(keep, Front(versions));
      FilterMembers(keep, Front(versions));
      forall w | w in Front(versions)
        ensures !(SameLane(w, Last(versions)) && w.revision == Last(versions).revision)
      {
      }
    }
  }

  /** Collapsing does not change what the lane scan reads for any bout. */
  lemma CollapseKeepsLanes(versions: seq<Version>, kind: string)
    requires UniqueRevisions(versions)
    ensures Lanes(Collapse(versions), kind) == Lanes(versions, kind)
  {
    var kept := Collapse(versions);
    FilterMembers(Unbeaten(versions), versions);
    FilterKeepsUnique(Unbeaten(versions), versions);
    forall bout
      ensures bout in Lanes(kept, kind) <==> bout in Lanes(versions, kind)
      ensures bout in Lanes(versions, kind) ==> Lanes(kept, kind)[bout] == Lanes(versions, kind)[bout]
    {
      LaneIsHighestRevision(versions, kind, bout);
      LaneIsHighestRevision(kept, kind, bout);
      if v :| v in versions && v.kind == kind && v.boutId == bout {
        var top := HighestExists(versions, v);
        UnbeatenIsHighest(versions, top);
        assert Highest(kept, top);
      }
    }
  }

  // ----- the collapse, one group at a time -----

  datatype LaneKey = LaneKey(bout: string, kind: string)

  datatype Group = Group(lane: LaneKey, top: int)

  function LaneOf(): Version -> LaneKey { (v: Version) => LaneKey(v.boutId, v.kind) }

  function HigherOf(top: Option<int>, revision: int): int {
    if top.Some? && top.value > revision then top.value else revision
  }

  function MaxRevision(versions: seq<Version>, lane: LaneKey): Option<int> {
    if versions == [] then None else
      var top := MaxRevision(Front(versions), lane);
      if LaneOf()(Last(versions)) == lane then Some(HigherOf(top, Last(versions).revision)) else top
  }

  function TopOf(versions: seq<Version>, lane: LaneKey): int {
    var top := MaxRevision(versions, lane);
    if top.Some? then top.value else 0
  }

  function GroupOf(versions: seq<Version>): LaneKey -> Group { (lane: LaneKey) => Group(lane, TopOf(versions, lane)) }

  function Groups(versions: seq<Version>): seq<Group> {
    Map(GroupOf(versions), FirstOccurrences(Map(LaneOf(), versions)))
  }

  function NotBelow(g: Group): Version -> bool { (v: Version) => !(LaneOf()(v) == g.lane && v.revision < g.top) }

  function AboveAll(groups: seq<Group>): Version -> bool {
    (v: Version) => forall i | 0 <= i < |groups| :: NotBelow(groups[i])(v)
  }

  lemma {:induction false} MaxRevisionIsMax(versions: seq<Version>, v: Version)
    requires v in versions
    ensures var top := MaxRevision(versions, LaneOf()(v));
            && top.Some? && v.revision <= top.value
            && exists i :: 0 <= i < |versions| && LaneOf()(versions[i]) == LaneOf()(v)
                           && versions[i].revision == top.value
  {
    Split(versions);
    var n := |versions| - 1;
    if v in Front(versions) {
      MaxRevisionIsMax(Front(versions), v);
      var i :| 0 <= i < n && LaneOf()(Front(versions)[i]) == LaneOf()(v)
               && Front(versions)[i].revision == MaxRevision(Front(versions), LaneOf()(v)).value;
      assert versions[i] == Front(versions)[i];
      assert versions[n] == Last(versions);
    } else {
      assert versions[n] == v;
      if w :| w in Front(versions) && LaneOf()(w) == LaneOf()(v) {
        MaxRevisionIsMax(Front(versions), w);
        var i :| 0 <= i < n && LaneOf()(Front(versions)[i]) == LaneOf()(v)
                 && Front(versions)[i].revision == MaxRevision(Front(versions), LaneOf()(v)).value;
        assert versions[i] == Front(versions)[i];
      } else {
        NoRevision(Front(versions), LaneOf()(v));
      }
    }
  }

  lemma {:induction false} NoRevision(versions: seq<Version>, lane: LaneKey)
    requires forall w | w in versions :: LaneOf()(w) != lane
    ensures MaxRevision(versions, lane).None?
  {
    if versions != [] {
      NoRevision(Front(versions), lane);
    }
  }

  lemma GroupStep(all: seq<Version>, groups: seq<Group>, i: nat)
    requires i < |groups|
    ensures Filter(NotBelow(groups[i]), Filter(AboveAll(groups[..i]), all)) == Filter(AboveAll(groups[..i + 1]), all)
  {
    var p, q := NotBelow(groups[i]), AboveAll(groups[..i]);
    FilterTwice(p, q, all);
    forall v | v in all
      ensures Both(p, q)(v) == AboveAll(groups[..i + 1])(v)
    {
      if AboveAll(groups[..i + 1])(v) {
        assert NotBelow(groups[..i + 1][i])(v);
        forall j | 0 <= j < i
          ensures NotBelow(groups[..i][j])(v)
        {
          assert NotBelow(groups[..i + 1][j])(v);
        }
      }
    }
    FilterAgree(Both(p, q), AboveAll(groups[..i + 1]), all);
  }

  lemma AboveAllIffUnbeaten(versions: seq<Version>, v: Version)
    requires v in versions
    ensures AboveAll(Groups(versions))(v) <==> !Beaten(versions, v)
  {
    var lane, groups := LaneOf()(v), Groups(versions);
    var lanes := FirstOccurrences(Map(LaneOf(), versions));
    FirstOccurrencesDistinct(Map(LaneOf(), versions));
    MaxRevisionIsMax(versions, v);
    var k :| 0 <= k < |versions| && versions[k] == v;
    assert Map(LaneOf(), versions)[k] == lane;
    assert lane in Map(LaneOf(), versions) && lane in lanes;
    var g :| 0 <= g < |lanes| && lanes[g] == lane;
    assert groups[g] == Group(lane, TopOf(versions, lane));
    assert AboveAll(groups)(v) ==> NotBelow(groups[g])(v);
    forall w | w in versions && LaneOf()(w) == lane
      ensures w.revision <= TopOf(versions, lane)
    {
      MaxRevisionIsMax(versions, w);
    }
    if v.revision < TopOf(versions, lane) {
      var i :| 0 <= i < |versions| && LaneOf()(versions[i]) == lane && versions[i].revision == TopOf(versions, lane);
      assert Beats(versions[i], v);
    } else {
      assert forall i | 0 <= i < |versions| :: !Beats(versions[i], v);
      assert forall i | 0 <= i < |groups| :: groups[i].lane == lane ==> groups[i].top == TopOf(versions, lane);
      assert forall i | 0 <= i < |groups| :: NotBelow(groups[i])(v);
    }
  }

  lemma AllGroupsDone(versions: seq<Version>)
    ensures Filter(AboveAll(Groups(versions)), versions) == Collapse(versions)
  {
    forall v | v in versions
      ensures AboveAll(Groups(versions))(v) == Unbeaten(versions)(v)
    {
      AboveAllIffUnbeaten(versions, v);
    }
    FilterAgree(AboveAll(Groups(versions)), Unbeaten(versions), versions);
  }

  // ----- the key before there were revisions -----

  /** One row per bout and kind. */
  ghost predicate OldKey(versions: seq<Version>) {
    forall i, j | 0 <= i < j < |versions| :: !SameLane(versions[i], versions[j])
  }

  /** After any collapse the rows meet the key on bout and kind again, so it can be put
      back once the column is gone. */
  lemma CollapseRestoresTheOldKey(versions: seq<Version>)
    requires UniqueRevisions(versions)
    ensures OldKey(Collapse(versions))
  {
    var kept := Collapse(versions);
    FilterMembers(Unbeaten(versions), versions);
    FilterKeepsUnique(Unbeaten(versions), versions);
    forall i, j | 0 <= i < j < |kept|
      ensures !SameLane(kept[i], kept[j])
    {
      assert kept[i] in kept && kept[j] in kept;
      UnbeatenIsHighest(versions, kept[i]);
      UnbeatenIsHighest(versions, kept[j]);
    }
  }

  /** The collapse deletes nothing exactly when the rows already met the old key. */
  lemma CollapseIsIdentityIff(versions: seq<Version>)
    requires UniqueRevisions(versions)
    ensures Collapse(versions) == versions <==> OldKey(versions)
  {
    CollapseRestoresTheOldKey(versions);
    if OldKey(versions) {
      forall v | v in versions
        ensures Unbeaten(versions)(v)
      {
        var k :| 0 <= k < |versions| && versions[k] == v;
      }
      FilterAll(Unbeaten(versions), versions);
    }
  }
}

/** Clearing publication proxies of reversed results, and restoring them. */
module Proxies {
  import opened Prelude
  import opened ResultTables
  import opened Revisions

  const AUDIT_UNKNOWN := "correction_publication_unknown"
  const AUDIT_PROXY := "cleared_proxy_published_at"
  const AUDIT_QUALITY := "cleared_timestamp_quality"
  const AUDIT_TIER := "cleared_quality_tier"

  datatype LaneMaps = LaneMaps(night: map<string, string>, current: map<string, string>)

  function LanesOf(versions: seq<Version>): LaneMaps {
    LaneMaps(Lanes(versions, "event_night"), Lanes(versions, "current"))
  }

  predicate ReversedLanes(lanes: LaneMaps, bout: string) {
    && bout in lanes.night && lanes.night[bout] in ["decisive", "draw"]
    && bout in lanes.current && lanes.current[bout] == "no_contest"
  }

  predicate NonEmpty(column: Option<string>) { TextOf(column) != "" }

  predicate Marked(attributes: Attributes) { Read(attributes, AUDIT_UNKNOWN) == JsonBool(true) }

  /** A current observation whose publication time is a proxy for a reversed result. */
  predicate Invalid(lanes: LaneMaps, o: Observation) {
    && TextOf(o.kind) == "current"
    && TextOf(o.quality) == "publication_proxy" && NonEmpty(o.proxy)
    && (Read(Decode(o.attributes), "version_state") == JsonText("reversed_to_no_contest")
        || ReversedLanes(lanes, TextOf(o.subjectId)))
    && !Marked(Decode(o.attributes))
  }

  function Stashed(o: Observation): Attributes {
    var kept := Decode(o.attributes)[AUDIT_UNKNOWN := JsonBool(true)]
                [AUDIT_PROXY := JsonText(TextOf(o.proxy))][AUDIT_QUALITY := JsonText(TextOf(o.quality))];
    if NonEmpty(o.tier) then kept[AUDIT_TIER := JsonText(o.tier.value)] else kept
  }

  function ClearRow(lanes: LaneMaps): Observation -> Observation {
    (o: Observation) =>
      if Invalid(lanes, o)
      then o.(proxy := None, quality := Some("unknown"), tier := Some("bronze"), attributes := Object(Stashed(o)))
      else o
  }

  predicate Truthy(value: Json) {
    match value
    case JsonNull => false
    case JsonBool(b) => b
    case JsonText(text) => text != ""
    case JsonOther(_, truthy) => truthy
  }

  /** A JSON scalar as a text column stores it. */
  function Stored(value: Json): Option<string> {
    match value
    case JsonNull => None
    case JsonBool(b) => Some(if b then "1" else "0")
    case JsonText(text) => Some(text)
    case JsonOther(shown, _) => Some(shown)
  }

  function StoredOr(value: Json, default: string): Option<string> {
    if Truthy(value) then Stored(value) else Some(default)
  }

  function AuditKeys(): set<string> { {AUDIT_UNKNOWN, AUDIT_PROXY, AUDIT_QUALITY, AUDIT_TIER} }

  function RestoreRow(): Observation -> Observation {
    (o: Observation) =>
      var attributes := Decode(o.attributes);
      if !Marked(attributes) then o
      else
        o.(proxy := Stored(Read(attributes, AUDIT_PROXY)),
           quality := StoredOr(Read(attributes, AUDIT_QUALITY), "publication_proxy"),
           tier := StoredOr(Read(attributes, AUDIT_TIER), "silver"),
           attributes := Object(attributes - AuditKeys()))
  }

  /** What a marked row says it was, given back: a missing or empty quality or tier reads
      as the default, and nothing else of the row changes. */
  ghost predicate CarriesStash(row: Observation, back: Observation) {
    var stash := Decode(row.attributes);
    && back.proxy == Stored(Read(stash, AUDIT_PROXY))
    && back.quality == (if Truthy(Read(stash, AUDIT_QUALITY)) then Stored(Read(stash, AUDIT_QUALITY))
                        else Some("publication_proxy"))
    && back.tier == (if Truthy(Read(stash, AUDIT_TIER)) then Stored(Read(stash, AUDIT_TIER)) else Some("silver"))
    && back.attributes.Object? && back.attributes.attributes.Keys == stash.Keys - AuditKeys()
    && (forall k | k in back.attributes.attributes :: back.attributes.attributes[k] == stash[k])
    && back == row.(proxy := back.proxy, quality := back.quality, tier := back.tier, attributes := back.attributes)
  }

  /** A restored row is the one the specification gives exactly when it carries the stash. */
  lemma StashReadBack(row: Observation, back: Observation)
    requires Marked(Decode(row.attributes))
    ensures back == RestoreRow()(row) <==> CarriesStash(row, back)
  {
    if CarriesStash(row, back) {
      assert back.attributes.attributes == Decode(row.attributes) - AuditKeys();
    }
  }

  // ----- clearing -----

  /** A cleared row stays as it is, whatever the lanes say later. */
  lemma ClearedStaysCleared(lanes: LaneMaps, again: LaneMaps, o: Observation)
    requires Invalid(lanes, o)
    ensures !Invalid(again, ClearRow(lanes)(o)) && ClearRow(again)(ClearRow(lanes)(o)) == ClearRow(lanes)(o)
  {
    assert "unknown"[0] != "publication_proxy"[0];
  }

  /** An observation is cleared exactly when it is a current, unmarked publication proxy
      that is reversed by its own state or by the highest revisions of its bout: the night
      result was decided or drawn and the current one is a no contest. */
  lemma ClearedIff(versions: seq<Version>, o: Observation, night: Version, current: Version)
    requires UniqueRevisions(versions) && Highest(versions, night) && Highest(versions, current)
    requires night.boutId == current.boutId == TextOf(o.subjectId)
    requires night.kind == "event_night" && current.kind == "current"
    ensures Invalid(LanesOf(versions), o) <==>
              && o.kind == Some("current") && o.quality == Some("publication_proxy") && NonEmpty(o.proxy)
              && (Read(Decode(o.attributes), "version_state") == JsonText("reversed_to_no_contest")
                  || ((night.resultType == Some("decisive") || night.resultType == Some("draw"))
                      && current.resultType == Some("no_contest")))
              && !Marked(Decode(o.attributes))
  {
    LaneIsHighestRevision(versions, "event_night", TextOf(o.subjectId));
    LaneIsHighestRevision(versions, "current", TextOf(o.subjectId));
    SomeTexts();
  }

  lemma SomeTexts()
    ensures "decisive" != "" && "draw" != "" && "no_contest" != "" && "current" != "" && "publication_proxy" != ""
  {
    assert |"decisive"| == 8 && |"draw"| == 4 && |"no_contest"| == 10 && |"current"| == 7;
    assert |"publication_proxy"| == 17;
  }

  /** Bouts without both lanes are cleared on their own state alone. */
  lemma UnknownLanesNeverReverse(versions: seq<Version>, bout: string)
    requires UniqueRevisions(versions)
    requires !(exists v :: v in versions && v.kind == "event_night" && v.boutId == bout)
          || !(exists v :: v in versions && v.kind == "current" && v.boutId == bout)
    ensures !ReversedLanes(LanesOf(versions), bout)
  {
    LaneIsHighestRevision(versions, "event_night", bout);
    LaneIsHighestRevision(versions, "current", bout);
  }

  // ----- restoring -----

  /** A column whose contents the decoded attributes say in full. */
  predicate Readable(column: Column) { column.Blank? || column.Object? }

  /** An empty column and the same object written differently mean the same; other text
      means only itself. */
  ghost predicate SameAttributes(x: Column, y: Column) {
    if Readable(x) && Readable(y) then Decode(x) == Decode(y) else x == y
  }

  ghost predicate SameContents(x: Observation, y: Observation) {
    x.(attributes := Blank) == y.(attributes := Blank) && SameAttributes(x.attributes, y.attributes)
  }

  ghost predicate NoAuditKeys(attributes: Attributes) { attributes.Keys !! AuditKeys() }

  lemma KeysDiffer()
    ensures |AuditKeys()| == 4
    ensures AUDIT_UNKNOWN != AUDIT_PROXY && AUDIT_UNKNOWN != AUDIT_QUALITY && AUDIT_UNKNOWN != AUDIT_TIER
    ensures AUDIT_PROXY != AUDIT_QUALITY && AUDIT_PROXY != AUDIT_TIER && AUDIT_QUALITY != AUDIT_TIER
  {
    assert |AUDIT_UNKNOWN| == 30 && |AUDIT_PROXY| == 26 && |AUDIT_QUALITY| == 25 && |AUDIT_TIER| == 20;
  }

  lemma StashedRead(o: Observation)
    ensures var s := Stashed(o);
            && Marked(s) && Read(s, AUDIT_PROXY) == JsonText(TextOf(o.proxy))
            && Read(s, AUDIT_QUALITY) == JsonText(TextOf(o.quality))
            && (NonEmpty(o.tier) ==> Read(s, AUDIT_TIER) == JsonText(o.tier.value))
            && (!NonEmpty(o.tier) && AUDIT_TIER !in Decode(o.attributes) ==> Read(s, AUDIT_TIER) == JsonNull)
            && s - AuditKeys() == Decode(o.attributes) - AuditKeys()
  {
    KeysDiffer();
  }

  lemma RemovalIsIdentityIff(attributes: Attributes)
    ensures attributes - AuditKeys() == attributes <==> NoAuditKeys(attributes)
  {
    if attributes - AuditKeys() == attributes {
      assert attributes.Keys == (attributes - AuditKeys()).Keys;
    }
  }

  /** Restoring a cleared row brings back its proxy and quality always, and all of it
      exactly when it had a quality tier, an empty or object-valued attributes column, and
      none of the audit keys. */
  lemma RestoreUndoesClearIff(lanes: LaneMaps, o: Observation)
    requires Invalid(lanes, o)
    ensures var back := RestoreRow()(ClearRow(lanes)(o));
            && back.proxy == o.proxy && back.quality == o.quality
            && (SameContents(back, o) <==>
                NonEmpty(o.tier) && Readable(o.attributes) && NoAuditKeys(Decode(o.attributes)))
  {
    StashedRead(o);
    RemovalIsIdentityIff(Decode(o.attributes));
    SomeTexts();
    var back := RestoreRow()(ClearRow(lanes)(o));
    if !NonEmpty(o.tier) && NoAuditKeys(Decode(o.attributes)) {
      assert AUDIT_TIER !in Decode(o.attributes);
      assert back.tier == Some("silver");
      assert |"silver"| == 6;
    }
  }

  ghost predicate Restorable(lanes: LaneMaps, o: Observation) {
    if Invalid(lanes, o) then NonEmpty(o.tier) && Readable(o.attributes) && NoAuditKeys(Decode(o.attributes))
    else !Marked(Decode(o.attributes))
  }

  lemma RestoreLeavesUnclearedIff(lanes: LaneMaps, o: Observation)
    requires !Invalid(lanes, o)
    ensures SameContents(RestoreRow()(ClearRow(lanes)(o)), o) <==> !Marked(Decode(o.attributes))
  {
    RemovalIsIdentityIff(Decode(o.attributes));
    if Marked(Decode(o.attributes)) {
      assert AUDIT_UNKNOWN in Decode(o.attributes);
    }
  }

  function ClearAll(versions: seq<Version>, observations: seq<Observation>): seq<Observation> {
    Map(ClearRow(LanesOf(versions)), observations)
  }

  /** Clearing a table again changes nothing. With other versions the second pass clears only
      among the rows that the first one left alone, and clears those as it would have. */
  lemma ClearingTwice(versions: seq<Version>, later: seq<Version>, observations: seq<Observation>)
    ensures var once := ClearAll(versions, observations);
            && ClearAll(versions, once) == once
            && forall i | 0 <= i < |observations| :: ClearAll(later, once)[i] ==
                 if Invalid(LanesOf(versions), observations[i]) then once[i] else ClearAll(later, observations)[i]
  {
    forall i | 0 <= i < |observations| && Invalid(LanesOf(versions), observations[i])
      ensures ClearRow(LanesOf(versions))(ClearAll(versions, observations)[i]) == ClearAll(versions, observations)[i]
      ensures ClearRow(LanesOf(later))(ClearAll(versions, observations)[i]) == ClearAll(versions, observations)[i]
    {
      ClearedStaysCleared(LanesOf(versions), LanesOf(versions), observations[i]);
      ClearedStaysCleared(LanesOf(versions), LanesOf(later), observations[i]);
    }
  }

  function RestoreAll(observations: seq<Observation>): seq<Observation> { Map(RestoreRow(), observations) }

  /** Clearing and restoring the whole table is the identity on its contents exactly when
      each cleared row has a tier, readable attributes and no audit keys, and no other row
      carries the mark. */
  lemma RoundTripIff(versions: seq<Version>, observations: seq<Observation>)
    ensures var back := RestoreAll(ClearAll(versions, observations));
            (forall i | 0 <= i < |observations| :: SameContents(back[i], observations[i]))
            <==> forall o | o in observations :: Restorable(LanesOf(versions), o)
  {
    var lanes := LanesOf(versions);
    forall o | o in observations
      ensures SameContents(RestoreRow()(ClearRow(lanes)(o)), o) <==> Restorable(lanes, o)
    {
      if Invalid(lanes, o) {
        RestoreUndoesClearIff(lanes, o);
      } else {
        RestoreLeavesUnclearedIff(lanes, o);
      }
    }
    var back := RestoreAll(ClearAll(versions, observations));
    forall i | 0 <= i < |observations|
      ensures back[i] == RestoreRow()(ClearRow(lanes)(observations[i]))
    {
    }
    AllByIndex(lanes, observations, back);
  }

  lemma AllByIndex(lanes: LaneMaps, observations: seq<Observation>, back: seq<Observation>)
    requires |back| == |observations|
    requires forall i | 0 <= i < |back| ::
               SameContents(back[i], observations[i]) <==> Restorable(lanes, observations[i])
    ensures (forall i | 0 <= i < |observations| :: SameContents(back[i], observations[i]))
       <==> forall o | o in observations :: Restorable(lanes, o)
  {
  }

  /** Attributes that are not an object, or not JSON at all, are lost: rows that differ only
      in such text are the same after clearing and restoring. */
  lemma UnreadableAttributesAreLost(lanes: LaneMaps, o: Observation, json: string, other: string)
    requires Invalid(lanes, o.(attributes := NotAnObject(json))) && json != other
    ensures var x, y := o.(attributes := NotAnObject(json)), o.(attributes := NotAnObject(other));
            && RestoreRow()(ClearRow(lanes)(x)) == RestoreRow()(ClearRow(lanes)(y))
            && RestoreRow()(ClearRow(lanes)(x)).attributes == Object(map[MALFORMED := JsonBool(true)])
    ensures var z := o.(attributes := NotJson(json));
            RestoreRow()(ClearRow(lanes)(z)).attributes
            == Object(map[MALFORMED := JsonBool(true), ORIGINAL := JsonText(json)])
  {
    var x, y := o.(attributes := NotAnObject(json)), o.(attributes := NotAnObject(other));
    var z := o.(attributes := NotJson(json));
    MalformedKeysAreOrdinary();
    StashedRead(x);
    StashedRead(y);
    StashedRead(z);
    assert Decode(x.attributes) - AuditKeys() == Decode(x.attributes);
    assert Decode(z.attributes) - AuditKeys() == Decode(z.attributes);
    assert Stashed(x) == Stashed(y);
    assert Invalid(lanes, z) && Invalid(lanes, y);
  }

  lemma MalformedKeysAreOrdinary()
    ensures MALFORMED !in AuditKeys() && ORIGINAL !in AuditKeys() && MALFORMED != ORIGINAL
    ensures "version_state" != MALFORMED && "version_state" != ORIGINAL
  {
    assert |MALFORMED| == 20 && |ORIGINAL| == 18 && |"version_state"| == 13;
    assert |AUDIT_UNKNOWN| == 30 && |AUDIT_PROXY| == 26 && |AUDIT_QUALITY| == 25 && |AUDIT_TIER| == 20;
    assert MALFORMED[0] != AUDIT_TIER[0];
  }

  /** An observation cleared by its lanes whose attributes are a JSON list. */
  lemma ListAttributesAreNotRestored()
    ensures var lanes := LaneMaps(map["bout" := "draw"], map["bout" := "no_contest"]);
            var o := Observation(1, None, Some("bout"), Some("current"), None, None, Some("publication_proxy"),
                                 Some("2025-01-01"), Some("gold"), NotAnObject("[1]"));
            Invalid(lanes, o) && !SameContents(RestoreRow()(ClearRow(lanes)(o)), o)
  {
    var lanes := LaneMaps(map["bout" := "draw"], map["bout" := "no_contest"]);
    var o := Observation(1, None, Some("bout"), Some("current"), None, None, Some("publication_proxy"),
                         Some("2025-01-01"), Some("gold"), NotAnObject("[1]"));
    assert |"2025-01-01"| == 10;
    MalformedKeysAreOrdinary();
    KeysDiffer();
    assert |AUDIT_UNKNOWN| == 30 && |MALFORMED| == 20;
    assert Invalid(lanes, o);
    RestoreUndoesClearIff(lanes, o);
  }

  /** A reversed observation without a tier: it comes back with one it never had. */
  lemma EmptyTierIsNotRestored(lanes: LaneMaps)
    ensures var o := Observation(1, None, Some("bout"), Some("current"), None, None, Some("publication_proxy"),
                                 Some("2025-01-01"), None,
                                 Object(map["version_state" := JsonText("reversed_to_no_contest")]));
            Invalid(lanes, o) && RestoreRow()(ClearRow(lanes)(o)).tier == Some("silver") != o.tier
  {
    var state := map["version_state" := JsonText("reversed_to_no_contest")];
    var o := Observation(1, None, Some("bout"), Some("current"), None, None, Some("publication_proxy"),
                         Some("2025-01-01"), None, Object(state));
    assert |"version_state"| == 13 && |"2025-01-01"| == 10;
    KeysDiffer();
    assert |AUDIT_UNKNOWN| == 30 && |AUDIT_TIER| == 20;
    StashedRead(o);
  }

  // ----- cleared and restored rows by their columns -----

  /** The object a column holds: none for an empty column, a marker for what is no object. */
  ghost predicate Holds(column: Column, held: Attributes) {
    match column
    case Blank => held == map[]
    case Object(attributes) => held == attributes
    case NotAnObject(json) => held == map["malformed_attributes" := JsonBool(true)]
    case NotJson(text) =>
      held == map["malformed_attributes" := JsonBool(true), "malformed_original" := JsonText(text)]
  }

  ghost predicate HoldsAt(attributes: Attributes, key: string, value: Json) {
    key in attributes && attributes[key] == value
  }

  predicate AuditKey(key: string) {
    || key == "correction_publication_unknown" || key == "cleared_proxy_published_at"
    || key == "cleared_timestamp_quality" || key == "cleared_quality_tier"
  }

  lemma AuditKeysSpelledOut(key: string)
    ensures key in AuditKeys() <==> AuditKey(key)
  {
  }

  /** A cleared row loses its proxy time, is marked unknown and bronze, and stashes what it
      said before in its attributes, its tier only where it had one. */
  lemma ClearedColumns(lanes: LaneMaps, o: Observation, held: Attributes)
    requires Invalid(lanes, o) && Holds(o.attributes, held)
    ensures var row := ClearRow(lanes)(o);
            && row.proxy.None? && row.quality == Some("unknown") && row.tier == Some("bronze")
            && row.attributes.Object?
            && HoldsAt(row.attributes.attributes, "correction_publication_unknown", JsonBool(true))
            && HoldsAt(row.attributes.attributes, "cleared_proxy_published_at", JsonText(TextOf(o.proxy)))
            && HoldsAt(row.attributes.attributes, "cleared_timestamp_quality", JsonText(TextOf(o.quality)))
            && (NonEmpty(o.tier) ==>
                  HoldsAt(row.attributes.attributes, "cleared_quality_tier", JsonText(TextOf(o.tier))))
  {
    KeysDiffer();
  }

  lemma ClearedKeepsTheRest(lanes: LaneMaps, o: Observation, held: Attributes, key: string)
    requires Invalid(lanes, o) && Holds(o.attributes, held) && !AuditKey(key)
    ensures var row := ClearRow(lanes)(o);
            && row == o.(proxy := row.proxy, quality := row.quality, tier := row.tier, attributes := row.attributes)
            && (key in row.attributes.attributes <==> key in held)
            && (key in held ==> row.attributes.attributes[key] == held[key])
  {
    AuditKeysSpelledOut(key);
  }

  /** A stashed value as a text column stores it: a text as it is, a truth value as a digit. */
  ghost predicate StoresAs(attributes: Attributes, key: string, column: Option<string>) {
    if key !in attributes then column.None?
    else
      match attributes[key]
      case JsonNull => column.None?
      case JsonBool(b) => column == Some(if b then "1" else "0")
      case JsonText(text) => column == Some(text)
      case JsonOther(shown, _) => column == Some(shown)
  }

  /** Missing, null, false, empty or otherwise counting as false. */
  ghost predicate Absent(attributes: Attributes, key: string) {
    || key !in attributes || attributes[key] == JsonNull || attributes[key] == JsonBool(false)
    || attributes[key] == JsonText("") || (attributes[key].JsonOther? && !attributes[key].truthy)
  }

  /** A marked row gets proxy time, quality and tier back from the stash, quality and tier from
      their defaults where the stash has none; an unmarked row stays as it is. */
  lemma RestoredColumns(o: Observation, held: Attributes)
    requires Holds(o.attributes, held)
    ensures var row := RestoreRow()(o);
            if !HoldsAt(held, "correction_publication_unknown", JsonBool(true)) then row == o
            else
              && StoresAs(held, "cleared_proxy_published_at", row.proxy)
              && (if Absent(held, "cleared_timestamp_quality") then row.quality == Some("publication_proxy")
                  else StoresAs(held, "cleared_timestamp_quality", row.quality))
              && (if Absent(held, "cleared_quality_tier") then row.tier == Some("silver")
                  else StoresAs(held, "cleared_quality_tier", row.tier))
              && row.attributes == Object(held - AuditKeys())
  {
    assert held == Decode(o.attributes);
  }
}

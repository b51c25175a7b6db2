/** Result versions of bouts, raw observations of them, and the attributes an observation
    carries as JSON text. */
module ResultTables {
  import opened Prelude

  // ----- attributes -----

  /** A JSON value, as far as the migrations look into it. */
  datatype Json =
    | JsonNull
    | JsonBool(value: bool)
    | JsonText(text: string)
    | JsonOther(shown: string, truthy: bool)

  type Attributes = map<string, Json>

  /** The attributes column: empty, an object, another JSON value, or no JSON at all. */
  datatype Column = Blank | Object(attributes: Attributes) | NotAnObject(json: string) | NotJson(text: string)

  const MALFORMED := "malformed_attributes"
  const ORIGINAL := "malformed_original"

  function Decode(column: Column): Attributes {
    match column
    case Blank => map[]
    case Object(attributes) => attributes
    case NotAnObject(_) => map[MALFORMED := JsonBool(true)]
    case NotJson(text) => map[MALFORMED := JsonBool(true), ORIGINAL := JsonText(text)]
  }

  function Read(attributes: Attributes, key: string): Json {
    if key in attributes then attributes[key] else JsonNull
  }

  function Shown(value: Json): string {
    match value
    case JsonNull => ""
    case JsonBool(b) => if b then "True" else ""
    case JsonText(text) => text
    case JsonOther(shown, truthy) => if truthy then shown else ""
  }

  function TextOf(column: Option<string>): string { if column.Some? then column.value else "" }

  // ----- rows -----

  datatype Status = Linked | Unknown | Ambiguous

  /** Times are parsed UTC instants. */
  datatype Version = Version(
    id: int, boutId: string, kind: string, revision: int, resultType: Option<string>,
    effectiveAt: Option<int>, observedAt: Option<int>, status: Status, rawObservation: Option<int>)

  datatype Observation = Observation(
    id: int, entityKind: Option<string>, subjectId: Option<string>, kind: Option<string>,
    observedAt: Option<int>, effectiveAt: Option<int>,
    quality: Option<string>, proxy: Option<string>, tier: Option<string>, attributes: Column)

  predicate SameLane(v: Version, w: Version) { v.boutId == w.boutId && v.kind == w.kind }

  /** One row per bout, kind and revision. */
  ghost predicate UniqueRevisions(versions: seq<Version>) {
    forall i, j | 0 <= i < j < |versions| ::
      !(SameLane(versions[i], versions[j]) && versions[i].revision == versions[j].revision)
  }

  function VersionId(): Version -> int { (v: Version) => v.id }

  function ObservationId(): Observation -> int { (o: Observation) => o.id }

  /** Rows have distinct ids. */
  ghost predicate KeyedVersions(versions: seq<Version>) {
    forall i, j | 0 <= i < j < |versions| :: versions[i].id != versions[j].id
  }

  ghost predicate KeyedObservations(observations: seq<Observation>) {
    forall i, j | 0 <= i < j < |observations| :: observations[i].id != observations[j].id
  }
}

/** Content hashes of evidence payloads. */
module Evidence {
  datatype Value = Text(text: string) | Other(shown: string, truthy: bool)

  type Payload = map<string, Value>

  const CONTENT_HASH := "content_hash"

  /** The digest of a payload without its content hash. */
  function Digest(hash: Payload -> string, p: Payload): string { hash(p - {CONTENT_HASH}) }

  function Attach(hash: Payload -> string, p: Payload): Payload {
    (p - {CONTENT_HASH})[CONTENT_HASH := Text(Digest(hash, p))]
  }

  /** An absent or empty hash reads as the empty text. */
  function StoredHash(p: Payload): string {
    if CONTENT_HASH !in p then ""
    else
      match p[CONTENT_HASH]
      case Text(text) => text
      case Other(shown, truthy) => if truthy then shown else ""
  }

  predicate Verifies(hash: Payload -> string, p: Payload) { StoredHash(p) == Digest(hash, p) }

  lemma AttachKeepsTheBody(hash: Payload -> string, p: Payload)
    ensures Attach(hash, p) - {CONTENT_HASH} == p - {CONTENT_HASH}
  {
  }

  /** Attaching a hash yields a payload that verifies, attaching again changes nothing,
      and the body is kept. */
  lemma AttachVerifiesAndIsIdempotent(hash: Payload -> string, p: Payload)
    ensures Verifies(hash, Attach(hash, p))
    ensures Attach(hash, Attach(hash, p)) == Attach(hash, p)
  {
    AttachKeepsTheBody(hash, p);
  }

  /** One stored hash cannot stand for two contents: payloads that verify with it have bodies
      of one digest, whatever else their hash column holds. */
  lemma OneHashOneBody(hash: Payload -> string, p: Payload, q: Payload)
    requires Verifies(hash, p) && Verifies(hash, q)
    requires "content_hash" in p && "content_hash" in q && p["content_hash"] == q["content_hash"]
    ensures hash(p - {"content_hash"}) == hash(q - {"content_hash"})
  {
  }

  /** A payload with a text for a hash verifies exactly when the text is the hash of the rest. */
  lemma VerifiesByText(hash: Payload -> string, p: Payload, text: string)
    requires "content_hash" in p && p["content_hash"] == Text(text)
    ensures Verifies(hash, p) <==> text == hash(p - {"content_hash"})
  {
  }

  /** Any other value for a hash reads as what it shows, or as nothing when it counts as
      false, and so does a missing one. */
  lemma VerifiesByValue(hash: Payload -> string, p: Payload)
    requires "content_hash" in p ==> p["content_hash"].Other?
    ensures Verifies(hash, p) <==>
              hash(p - {"content_hash"})
              == if "content_hash" in p && p["content_hash"].truthy then p["content_hash"].shown else ""
  {
  }

  /** With digests that are never empty, a payload whose hash is not some other JSON value
      verifies exactly when attaching would leave it alone. */
  lemma VerifiesIffAttached(hash: Payload -> string, p: Payload)
    requires Digest(hash, p) != ""
    requires CONTENT_HASH in p ==> p[CONTENT_HASH].Text?
    ensures Verifies(hash, p) <==> Attach(hash, p) == p
  {
    if CONTENT_HASH in p {
      assert p == (p - {CONTENT_HASH})[CONTENT_HASH := p[CONTENT_HASH]];
    }
  }
}

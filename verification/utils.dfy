/** Derivation of the gateway transaction code of a payment (`encode_order_id`). The
    SHA-256 digest is a foreign library call: it is a parameter of the model, and all
    that is assumed of it is the shape of Python's `hexdigest()` output. */
module Utils {

  /** Characters of a SHA-256 hex digest. */
  const DigestLength := 64

  /** Characters kept from the digest. */
  const CodeLength := 18

  predicate IsLowerHex(ch: char) {
    ('0' <= ch <= '9') || ('a' <= ch <= 'f')
  }

  predicate IsLowerHexString(s: string) {
    forall i | 0 <= i < |s| :: IsLowerHex(s[i])
  }

  /** What `hashlib.sha256(...).hexdigest()` returns: 64 lowercase hex characters. */
  type HexDigest = s: string | |s| == DigestLength && IsLowerHexString(s)
    witness Zeros(DigestLength)

  /** A string of `n` zero digits. */
  function Zeros(n: nat): (s: string)
    ensures |s| == n && IsLowerHexString(s)
  {
    seq(n, _ => '0')
  }

  /** The four strings a transaction code is derived from. */
  datatype CodeSource = CodeSource(fullId: string, eventSlug: string, organizerSlug: string, secret: string)

  /** The hashed string: the four fields joined without any separator. */
  function HashInput(src: CodeSource): string {
    src.fullId + src.eventSlug + src.organizerSlug + src.secret
  }

  /** The transaction code of a payment. */
  function EncodeOrderId(sha256: string -> HexDigest, src: CodeSource): (code: string)
    ensures |code| == CodeLength
    ensures code <= sha256(HashInput(src))
    ensures IsLowerHexString(code)
  {
    sha256(HashInput(src))[..CodeLength]
  }

  /** The hashed string lays the fields out in the order full id, event slug,
      organizer slug, secret. */
  lemma HashInputLayout(src: CodeSource)
    ensures var data, a, b, c := HashInput(src), |src.fullId|, |src.eventSlug|, |src.organizerSlug|;
      && |data| == a + b + c + |src.secret|
      && data[..a] == src.fullId
      && data[a..a + b] == src.eventSlug
      && data[a + b..a + b + c] == src.organizerSlug
      && data[a + b + c..] == src.secret
  {
  }

  /** The code is a function of the hashed string alone: two payments whose fields
      concatenate to the same string get the same code. */
  lemma EncodeDependsOnlyOnHashInput(sha256: string -> HexDigest, src1: CodeSource, src2: CodeSource)
    requires HashInput(src1) == HashInput(src2)
    ensures EncodeOrderId(sha256, src1) == EncodeOrderId(sha256, src2)
  {
  }

  /** Because the fields are joined without separators, moving the last character of
      the full id to the front of the event slug gives a different source with the
      same code, whatever the hash function. */
  lemma SeparatorFreeCollision(sha256: string -> HexDigest, src: CodeSource)
    requires |src.fullId| > 0
    ensures var n := |src.fullId|;
      var moved := src.(fullId := src.fullId[..n - 1], eventSlug := [src.fullId[n - 1]] + src.eventSlug);
      && moved != src
      && EncodeOrderId(sha256, moved) == EncodeOrderId(sha256, src)
  {
    var n := |src.fullId|;
    var moved := src.(fullId := src.fullId[..n - 1], eventSlug := [src.fullId[n - 1]] + src.eventSlug);
    assert src.fullId == moved.fullId + [src.fullId[n - 1]];
    assert moved.fullId + moved.eventSlug == src.fullId + src.eventSlug;
    assert HashInput(moved) == HashInput(src);
    assert |moved.fullId| != |src.fullId|;
  }

  /** A concrete pair: payment P-1 of event "2x" and payment P-12 of event "x" of the
      same organizer share their transaction code. */
  lemma CollisionExample(sha256: string -> HexDigest)
    ensures EncodeOrderId(sha256, CodeSource("ABCDE-P-1", "2x", "org", "k"))
         == EncodeOrderId(sha256, CodeSource("ABCDE-P-12", "x", "org", "k"))
  {
    SeparatorFreeCollision(sha256, CodeSource("ABCDE-P-12", "x", "org", "k"));
    assert "ABCDE-P-12"[..9] == "ABCDE-P-1";
    assert ['2'] + "x" == "2x";
  }
}

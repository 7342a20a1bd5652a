/**
 * `verifyRequestSignature` (server.js:80-98): the `x-hub-signature-256`
 * header against the HMAC-SHA256 hex digest of the raw body. The digest is
 * computed by a crypto library outside this model, so it is a parameter.
 */
module Signature {
  import opened Wrappers
  import opened Text
  import opened Events

  type Bytes = seq<bv8>

  /** The HMAC-SHA256 hex digest of a body under a secret, as the crypto library computes it. */
  type Digest = (string, Bytes) -> string

  /** Returning normally (with the events logged) or throwing `Invalid signature`. */
  datatype Verdict = Passed(trace: seq<Event>) | InvalidSignature

  /**
   * `header.split('=')[1]`: the text between the first `=` and the next one
   * (or the end); absent when the header has no `=`.
   */
  function SignatureHash(header: string): (h: Option<string>)
    ensures h.None? <==> '=' !in header
    ensures h.Some? ==> '=' !in h.value
  {
    var parts := Split(header, '=');
    if '=' in header then SplitAtFirst(header, '='); assert parts[1] in parts; Some(parts[1])
    else SplitNoSeparator(header, '='); None
  }

  /**
   * A missing (or empty) header is only logged; otherwise the hash segment of
   * the header must equal the digest of the body, or the check throws. The
   * text before the `=` is not looked at.
   */
  function VerifyRequestSignature(header: Option<string>, secret: string, buf: Bytes, hmac: Digest): (v: Verdict)
    ensures v == Passed([Log(NoSignature)]) <==> header.None? || header.value == ""
    ensures v == Passed([]) <==> header.Some? && header.value != "" && SignatureHash(header.value) == Some(hmac(secret, buf))
    ensures v == InvalidSignature <==> header.Some? && header.value != "" && SignatureHash(header.value) != Some(hmac(secret, buf))
  {
    if header.None? || header.value == "" then Passed([Log(NoSignature)])
    else if SignatureHash(header.value) == Some(hmac(secret, buf)) then Passed([])
    else InvalidSignature
  }

  /** The hash segment of `prefix=rest` is the text of `rest` up to its first `=`. */
  lemma SignatureHashAfter(prefix: string, rest: string)
    requires '=' !in prefix
    ensures SignatureHash(prefix + "=" + rest) == Some(Split(rest, '=')[0])
  {
    var header := prefix + "=" + rest;
    assert header == prefix + ['='] + rest;
    assert header[|prefix|] == '=';
    SplitHead(prefix, rest, '=');
  }

  /** The hash segment of `prefix=hash`, and of `prefix=hash=anything`, is `hash`. */
  lemma SignatureHashOf(prefix: string, hash: string, trailer: Option<string>)
    requires '=' !in prefix && '=' !in hash
    ensures SignatureHash(prefix + "=" + hash + (if trailer.Some? then "=" + trailer.value else "")) == Some(hash)
  {
    var tail := if trailer.Some? then "=" + trailer.value else "";
    assert prefix + "=" + hash + tail == prefix + "=" + (hash + tail);
    SignatureHashAfter(prefix, hash + tail);
    if trailer.Some? {
      assert hash + tail == hash + ['='] + trailer.value;
      SplitHead(hash, trailer.value, '=');
    } else {
      assert hash + tail == hash;
      SplitNoSeparator(hash, '=');
    }
  }

  /** A header `sha256=<digest of this body>` is accepted (hex digests contain no `=`). */
  lemma GenuineSignatureAccepted(secret: string, buf: Bytes, hmac: Digest)
    requires '=' !in hmac(secret, buf)
    ensures VerifyRequestSignature(Some("sha256=" + hmac(secret, buf)), secret, buf, hmac) == Passed([])
  {
    SignatureHashOf("sha256", hmac(secret, buf), None);
  }

  /** A signature made for one body is refused for a body whose digest differs (a tampered body). */
  lemma TamperedBodyRejected(secret: string, signed: Bytes, received: Bytes, hmac: Digest)
    requires '=' !in hmac(secret, signed)
    requires hmac(secret, received) != hmac(secret, signed)
    ensures VerifyRequestSignature(Some("sha256=" + hmac(secret, signed)), secret, received, hmac) == InvalidSignature
  {
    SignatureHashOf("sha256", hmac(secret, signed), None);
  }

  /** A hash that is not the digest of the body is refused, whatever the prefix. */
  lemma ForgedHashRejected(prefix: string, hash: string, secret: string, buf: Bytes, hmac: Digest)
    requires '=' !in prefix && '=' !in hash
    requires hash != hmac(secret, buf)
    ensures VerifyRequestSignature(Some(prefix + "=" + hash), secret, buf, hmac) == InvalidSignature
  {
    SignatureHashOf(prefix, hash, None);
    assert prefix + "=" + hash + "" == prefix + "=" + hash;
  }

  /** A non-empty header without `=` has no hash segment, so it is always refused. */
  lemma HeaderWithoutHashRejected(header: string, secret: string, buf: Bytes, hmac: Digest)
    requires header != "" && '=' !in header
    ensures VerifyRequestSignature(Some(header), secret, buf, hmac) == InvalidSignature
  {
    assert SignatureHash(header).None?;
  }

  /**
   * The check is lax: any algorithm prefix (even none) and any `=`-separated
   * trailer after the hash are accepted alongside the right hash.
   */
  lemma PrefixAndTrailerIgnored(prefix: string, trailer: string, secret: string, buf: Bytes, hmac: Digest)
    requires '=' !in prefix && '=' !in hmac(secret, buf)
    ensures VerifyRequestSignature(Some(prefix + "=" + hmac(secret, buf) + "=" + trailer), secret, buf, hmac) == Passed([])
  {
    SignatureHashOf(prefix, hmac(secret, buf), Some(trailer));
    assert prefix + "=" + hmac(secret, buf) + ("=" + trailer) == prefix + "=" + hmac(secret, buf) + "=" + trailer;
  }
}

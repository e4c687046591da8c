/** Signed internal requests: the canonical text, the signature and its verification. */
module Security {
  import opened Text
  import opened Keys

  type Bytes = seq<bv8>

  /** SHA-256 and HMAC-SHA-256 as hex text; nothing is assumed of them here. */
  datatype Crypto = Crypto(sha: Bytes -> string, mac: (string, string) -> string)

  /** Python's `int` refuses longer texts with a plain ValueError. */
  const MAX_INT_DIGITS := 4300

  datatype Request = Request(timestamp: string, eventId: string, signature: string, body: Bytes)

  datatype Verdict =
    | Accepted
    | InvalidEventId
    | InvalidTimestamp
    | OutsideWindow
    | InvalidSignature
    | Fault  // an exception that is not a SignatureError

  predicate EventIdChar(c: char) {
    'A' <= c <= 'Z' || 'a' <= c <= 'z' || '0' <= c <= '9' || c == '.' || c == '_' || c == ':' || c == '-'
  }

  predicate ValidEventId(s: string) {
    1 <= |s| <= 200 && forall i :: 0 <= i < |s| ==> EventIdChar(s[i])
  }

  predicate ValidTimestamp(s: string) {
    s != "" && forall i :: 0 <= i < |s| ==> '0' <= s[i] <= '9'
  }

  predicate Ascii(s: string) {
    forall i :: 0 <= i < |s| ==> s[i] as int < 128
  }

  function Abs(x: int): nat { if x < 0 then -x else x }

  predicate InsideWindow(now: int, timestamp: int, ttl: int) { Abs(now - timestamp) <= ttl }

  function CanonicalRequest(crypto: Crypto, timestamp: string, eventId: string, body: Bytes): string {
    Join(Join(timestamp, '\n', eventId), '\n', crypto.sha(body))
  }

  function SignRequest(crypto: Crypto, secret: string, timestamp: string, eventId: string, body: Bytes): string {
    crypto.mac(secret, CanonicalRequest(crypto, timestamp, eventId, body))
  }

  function VerifyRequest(crypto: Crypto, secret: string, r: Request, ttl: int, now: int): Verdict {
    if !ValidEventId(r.eventId) then InvalidEventId
    else if !ValidTimestamp(r.timestamp) then InvalidTimestamp
    else if |r.timestamp| > MAX_INT_DIGITS then Fault
    else if !InsideWindow(now, Value(r.timestamp), ttl) then OutsideWindow
    else if !Ascii(Lower(r.signature)) then Fault
    else if SignRequest(crypto, secret, r.timestamp, r.eventId, r.body) != Lower(r.signature) then InvalidSignature
    else Verdict.Accepted
  }

  /** A well-formed request with the right signature is accepted exactly inside the window, with the hex
      digits in any case. */
  lemma SignedIsAccepted(crypto: Crypto, secret: string, r: Request, ttl: int, now: int)
    requires ValidEventId(r.eventId) && ValidTimestamp(r.timestamp) && |r.timestamp| <= MAX_INT_DIGITS
    requires Lower(r.signature) == SignRequest(crypto, secret, r.timestamp, r.eventId, r.body)
    requires Ascii(SignRequest(crypto, secret, r.timestamp, r.eventId, r.body))
    ensures VerifyRequest(crypto, secret, r, ttl, now).Accepted? <==> InsideWindow(now, Value(r.timestamp), ttl)
  {
  }

  /** What was signed at one time is accepted at another exactly if the two lie within the window, with the
      hex digits of the signature in any case. */
  lemma SignerIsAccepted(crypto: Crypto, secret: string, signedAt: nat, eventId: string, body: Bytes,
                         signature: string, ttl: int, now: int)
    requires ValidEventId(eventId) && |Decimal(signedAt)| <= MAX_INT_DIGITS
    requires Lower(signature) == SignRequest(crypto, secret, Decimal(signedAt), eventId, body)
    requires Ascii(Lower(signature))
    ensures VerifyRequest(crypto, secret, Request(Decimal(signedAt), eventId, signature, body), ttl, now).Accepted?
            <==> Abs(now - signedAt) <= ttl
  {
    ValueDecimal(signedAt);
    SignedIsAccepted(crypto, secret, Request(Decimal(signedAt), eventId, signature, body), ttl, now);
  }

  /** What is signed, line by line: the timestamp, the event id, the digest of the body. */
  lemma CanonicalLines(crypto: Crypto, timestamp: string, eventId: string, body: Bytes)
    ensures var s, a, b := CanonicalRequest(crypto, timestamp, eventId, body), |timestamp|, |timestamp| + 1 + |eventId|;
            && |s| == b + 1 + |crypto.sha(body)|
            && s[..a] == timestamp && s[a] == '\n' && s[a + 1..b] == eventId && s[b] == '\n'
            && s[b + 1..] == crypto.sha(body)
  {
  }

  /** Event ids are 1 to 200 letters, digits, dots, underscores, colons and dashes. */
  lemma EventIdFormat(s: string, c: char)
    requires ValidEventId(s)
    ensures ValidEventId(s + [c])
            <==> |s| < 200 && ('0' <= c <= '9' || 'A' <= c <= 'Z' || 'a' <= c <= 'z' || c in "._:-")
    ensures !ValidEventId("") && ValidEventId([s[0]])
  {
    assert forall i :: 0 <= i < |s| ==> (s + [c])[i] == s[i];
    assert (s + [c])[|s|] == c;
    assert "._:-"[0] == '.' && "._:-"[1] == '_' && "._:-"[2] == ':' && "._:-"[3] == '-';
  }

  /** The comparison refuses a text with a character beyond ASCII; the Kelvin sign is none in lower case. */
  predicate Unreadable(signature: string) {
    exists i :: 0 <= i < |signature| && signature[i] >= '\U{0080}' && signature[i] != '\U{212A}'
  }

  lemma UnreadableIffNotAscii(signature: string)
    ensures Unreadable(signature) <==> !Ascii(Lower(signature))
  {
    if Ascii(Lower(signature)) {
      forall i | 0 <= i < |signature| ensures signature[i] < '\U{0080}' || signature[i] == '\U{212A}' {
        assert Lower(signature)[i] as int < 128;
      }
    }
  }

  /** Why a request is refused: the first of the checks that it fails, in this order. A request is accepted
      exactly if it passes them all. */
  lemma RefusalsInOrder(crypto: Crypto, secret: string, r: Request, ttl: int, now: int)
    ensures var verdict := VerifyRequest(crypto, secret, r, ttl, now);
            && (verdict == InvalidEventId <==> !ValidEventId(r.eventId))
            && (verdict == InvalidTimestamp <==> ValidEventId(r.eventId) && !ValidTimestamp(r.timestamp))
            && (verdict == OutsideWindow ==> ValidTimestamp(r.timestamp) && Abs(now - Value(r.timestamp)) > ttl)
            && (verdict == Fault <==>
                  && ValidEventId(r.eventId) && ValidTimestamp(r.timestamp)
                  && (|r.timestamp| > 4300 || (Abs(now - Value(r.timestamp)) <= ttl && Unreadable(r.signature))))
            && (verdict in {Verdict.Accepted, InvalidSignature} ==>
                  && ValidTimestamp(r.timestamp) && Abs(now - Value(r.timestamp)) <= ttl
                  && (verdict == InvalidSignature <==>
                        crypto.mac(secret, r.timestamp + "\n" + r.eventId + "\n" + crypto.sha(r.body))
                          != Lower(r.signature)))
  {
    UnreadableIffNotAscii(r.signature);
    hide Unreadable, Ascii;
    if ValidEventId(r.eventId) {
      assert CanonicalRequest(crypto, r.timestamp, r.eventId, r.body)
          == r.timestamp + "\n" + r.eventId + "\n" + crypto.sha(r.body);
    }
  }

  /** Two requests that pass the format checks have the same canonical text only if they agree on
      all three parts. */
  lemma CanonicalInjective(ts1: string, id1: string, digest1: string, ts2: string, id2: string, digest2: string)
    requires ValidEventId(id1) && ValidEventId(id2)
    requires Without(digest1, '\n') && Without(digest2, '\n')
    requires Join(Join(ts1, '\n', id1), '\n', digest1) == Join(Join(ts2, '\n', id2), '\n', digest2)
    ensures ts1 == ts2 && id1 == id2 && digest1 == digest2
  {
    JoinInjective(Join(ts1, '\n', id1), digest1, Join(ts2, '\n', id2), digest2, '\n');
    JoinInjective(ts1, id1, ts2, id2, '\n');
  }

  /** One signature vouches for one timestamp, event id and body: if it is accepted for two requests
      and neither hash collides on them, they are the same request. */
  lemma SignatureBinds(crypto: Crypto, secret: string, r1: Request, r2: Request, ttl: int, now1: int, now2: int)
    requires VerifyRequest(crypto, secret, r1, ttl, now1).Accepted?
    requires VerifyRequest(crypto, secret, r2, ttl, now2).Accepted?
    requires Lower(r1.signature) == Lower(r2.signature)
    requires Without(crypto.sha(r1.body), '\n') && Without(crypto.sha(r2.body), '\n')
    requires crypto.sha(r1.body) == crypto.sha(r2.body) ==> r1.body == r2.body
    requires var c1, c2 := CanonicalRequest(crypto, r1.timestamp, r1.eventId, r1.body),
                           CanonicalRequest(crypto, r2.timestamp, r2.eventId, r2.body);
             crypto.mac(secret, c1) == crypto.mac(secret, c2) ==> c1 == c2
    ensures r1.timestamp == r2.timestamp && r1.eventId == r2.eventId && r1.body == r2.body
    ensures Abs(now1 - now2) <= 2 * ttl
  {
    CanonicalInjective(r1.timestamp, r1.eventId, crypto.sha(r1.body),
                       r2.timestamp, r2.eventId, crypto.sha(r2.body));
  }
}

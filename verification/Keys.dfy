/** The separator-joined names the gateway builds before it hashes them or uses them as keys. */
module Keys {
  import opened Wrappers

  predicate Without(s: string, separator: char) {
    forall i :: 0 <= i < |s| ==> s[i] != separator
  }

  function Join(left: string, separator: char, right: string): string {
    left + [separator] + right
  }

  lemma LastSeparator(left: string, separator: char, right: string)
    requires Without(right, separator)
    ensures var s := Join(left, separator, right);
            s[|left|] == separator && forall k :: |left| < k < |s| ==> s[k] != separator
  {
    var s := Join(left, separator, right);
    forall k | |left| < k < |s| ensures s[k] != separator {
      assert s[k] == right[k - |left| - 1];
    }
  }

  /** A join is undone at its last separator. */
  lemma JoinInjective(a: string, b: string, c: string, d: string, separator: char)
    requires Without(b, separator) && Without(d, separator)
    requires Join(a, separator, b) == Join(c, separator, d)
    ensures a == c && b == d
  {
    var s := Join(a, separator, b);
    LastSeparator(a, separator, b);
    LastSeparator(c, separator, d);
    assert |a| == |c|;
    assert a == s[..|a|] == c && b == s[|a| + 1..] == d;
  }

  // ----- decimal numbers

  function Digit(n: nat): char
    requires n < 10
  {
    '0' + n as char
  }

  function Decimal(n: nat): (s: string)
    ensures s != "" && forall i :: 0 <= i < |s| ==> '0' <= s[i] <= '9'
  {
    if n < 10 then [Digit(n)] else Decimal(n / 10) + [Digit(n % 10)]
  }

  function Value(s: string): nat
    requires forall i :: 0 <= i < |s| ==> '0' <= s[i] <= '9'
  {
    if s == "" then 0 else 10 * Value(s[..|s| - 1]) + (s[|s| - 1] as int - '0' as int)
  }

  lemma {:induction false} ValueDecimal(n: nat)
    ensures Value(Decimal(n)) == n
  {
    if n >= 10 {
      var front := Decimal(n / 10);
      assert Decimal(n)[..|front|] == front;
      ValueDecimal(n / 10);
    } else {
      assert Decimal(n)[..0] == "";
    }
  }

  // ----- idempotency names of message chunks

  function ChunkName(key: string, index: nat): string {
    Join(key, ':', Decimal(index))
  }

  lemma ChunkNameInjective(key1: string, index1: nat, key2: string, index2: nat)
    requires ChunkName(key1, index1) == ChunkName(key2, index2)
    ensures key1 == key2 && index1 == index2
  {
    JoinInjective(key1, Decimal(index1), key2, Decimal(index2), ':');
    ValueDecimal(index1);
    ValueDecimal(index2);
  }

  // ----- claim keys, ledger ids and the administrative name

  const NOTIFICATION := "notification:"
  const ALERT := "alert:"
  const FEISHU := "feishu:"
  const ADMINISTRATIVE := "administrative:"

  /** What a delivery is for. Alerts and chat events are known by a digest. */
  datatype Subject = Notice(eventId: string) | Alarm(digest: string) | Chat(digest: string)

  function ClaimKey(subject: Subject): string {
    match subject
    case Notice(id) => NOTIFICATION + id
    case Alarm(digest) => ALERT + digest
    case Chat(digest) => FEISHU + digest
  }

  /** Chat events have no ledger row. */
  function LedgerId(subject: Subject): string
    requires !subject.Chat?
  {
    if subject.Notice? then subject.eventId else ClaimKey(subject)
  }

  function AdministrativeName(eventId: string): string {
    ADMINISTRATIVE + eventId
  }

  lemma ClaimKeyInjective(a: Subject, b: Subject)
    requires ClaimKey(a) == ClaimKey(b)
    ensures a == b
  {
    var k := ClaimKey(a);
    assert k[0] == if a.Notice? then 'n' else if a.Alarm? then 'a' else 'f';
    assert k[0] == if b.Notice? then 'n' else if b.Alarm? then 'a' else 'f';
    var n := if a.Notice? then |NOTIFICATION| else if a.Alarm? then |ALERT| else |FEISHU|;
    assert k[n..] == if a.Notice? then a.eventId else a.digest;
    assert k[n..] == if b.Notice? then b.eventId else b.digest;
  }

  /** No chunk of any delivery shares its idempotency name with another chunk or with an
      administrative communication, whatever the ids are. */
  lemma NameSpacesDisjoint(a: Subject, i: nat, b: Subject, j: nat, administrative: string)
    ensures ChunkName(ClaimKey(a), i) == ChunkName(ClaimKey(b), j) <==> a == b && i == j
    ensures ChunkName(ClaimKey(a), i) != AdministrativeName(administrative)
    ensures ClaimKey(a) != AdministrativeName(administrative)
  {
    if ChunkName(ClaimKey(a), i) == ChunkName(ClaimKey(b), j) {
      ChunkNameInjective(ClaimKey(a), i, ClaimKey(b), j);
      ClaimKeyInjective(a, b);
    }
    var name, key, admin := ChunkName(ClaimKey(a), i), ClaimKey(a), AdministrativeName(administrative);
    assert name[..2] == key[..2] && admin[..2] == "ad";
    assert key[..2] == if a.Notice? then "no" else if a.Alarm? then "al" else "fe";
    assert "no"[0] == 'n' && "al"[1] == 'l' && "fe"[0] == 'f' && "ad"[0] == 'a' && "ad"[1] == 'd';
  }

  /** Two different deliveries share a ledger row exactly when one is a notification whose id spells
      the key of an alert. */
  lemma LedgerIdsCollide(a: Subject, b: Subject)
    requires !a.Chat? && !b.Chat? && a != b
    ensures LedgerId(a) == LedgerId(b)
            <==> (a.Notice? && b.Alarm? && a.eventId == ALERT + b.digest)
                 || (b.Notice? && a.Alarm? && b.eventId == ALERT + a.digest)
  {
    if a.Alarm? && b.Alarm? && LedgerId(a) == LedgerId(b) {
      ClaimKeyInjective(a, b);
    }
  }

  /** The names as the database and the provider see them; the uuids of the chunks of a delivery are stable
      across releases only as long as these are. */
  lemma NamesAsStored(id: string)
    ensures ClaimKey(Notice(id)) == "notification:" + id && LedgerId(Notice(id)) == id
    ensures ClaimKey(Alarm(id)) == "alert:" + id && LedgerId(Alarm(id)) == "alert:" + id
    ensures ClaimKey(Chat(id)) == "feishu:" + id && AdministrativeName(id) == "administrative:" + id
    ensures ChunkName(id, 0) == id + ":0" && ChunkName(id, 7) == id + ":7" && ChunkName(id, 12) == id + ":12"
  {
    assert Decimal(12) == Decimal(1) + ['2'] && Decimal(1) == "1" && Decimal(0) == "0" && Decimal(7) == "7";
    assert Join(id, ':', "12") == id + ":12" && Join(id, ':', "0") == id + ":0" && Join(id, ':', "7") == id + ":7";
  }

  // ----- alert keys

  /** The fields an alert is known by; the times are in ISO format. */
  datatype Alert = Alert(fingerprint: string, firing: bool, startsAt: string, endsAt: Option<string>)

  predicate ValidAlert(alert: Alert) {
    && Without(alert.startsAt, '|')
    && (alert.endsAt.Some? ==> alert.endsAt.value != "" && Without(alert.endsAt.value, '|'))
  }

  function StatusText(firing: bool): string { if firing then "firing" else "resolved" }

  function AlertMaterial(alert: Alert): string {
    var ending := if alert.endsAt.None? then "" else alert.endsAt.value;
    Join(Join(Join(alert.fingerprint, '|', StatusText(alert.firing)), '|', alert.startsAt), '|', ending)
  }

  /** A `|` inside the fingerprint does no harm. */
  lemma AlertMaterialInjective(a: Alert, b: Alert)
    requires ValidAlert(a) && ValidAlert(b) && AlertMaterial(a) == AlertMaterial(b)
    ensures a == b
  {
    var endA := if a.endsAt.None? then "" else a.endsAt.value;
    var endB := if b.endsAt.None? then "" else b.endsAt.value;
    var inA := Join(a.fingerprint, '|', StatusText(a.firing));
    var inB := Join(b.fingerprint, '|', StatusText(b.firing));
    JoinInjective(Join(inA, '|', a.startsAt), endA, Join(inB, '|', b.startsAt), endB, '|');
    JoinInjective(inA, a.startsAt, inB, b.startsAt, '|');
    JoinInjective(a.fingerprint, StatusText(a.firing), b.fingerprint, StatusText(b.firing), '|');
    assert "firing"[0] == 'f' && "resolved"[0] == 'r';
  }

  /** The four parts of the material, in order; an alert that is not over yet has nothing at the end. */
  lemma MaterialAsHashed(alert: Alert)
    ensures AlertMaterial(alert)
            == alert.fingerprint + "|" + (if alert.firing then "firing" else "resolved") + "|" + alert.startsAt + "|"
               + (if alert.endsAt.Some? then alert.endsAt.value else "")
  {
  }

  function AlertSubject(alert: Alert, sha: string -> string): Subject {
    Alarm(sha(AlertMaterial(alert)))
  }

  /** Two alerts share a key only if they are the same alert or SHA-256 collides on them. */
  lemma AlertKeyIdentifies(a: Alert, b: Alert, sha: string -> string)
    requires ValidAlert(a) && ValidAlert(b)
    requires sha(AlertMaterial(a)) == sha(AlertMaterial(b)) ==> AlertMaterial(a) == AlertMaterial(b)
    ensures ClaimKey(AlertSubject(a, sha)) == ClaimKey(AlertSubject(b, sha)) <==> a == b
  {
    if ClaimKey(AlertSubject(a, sha)) == ClaimKey(AlertSubject(b, sha)) {
      ClaimKeyInjective(AlertSubject(a, sha), AlertSubject(b, sha));
      AlertMaterialInjective(a, b);
    }
  }
}

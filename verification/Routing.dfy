/** Which lane a Feishu message takes: the administrative handoff or the control plane. */
module Routing {
  import opened Wrappers
  import opened Text

  /** `s.rstrip("/")` */
  function TrimSlashes(s: string): (r: string)
    ensures |r| <= |s| && r == s[..|r|] && (r != "" ==> r[|r| - 1] != '/')
    ensures forall j :: |r| <= j < |s| ==> s[j] == '/'
  {
    if s != "" && s[|s| - 1] == '/' then TrimSlashes(s[..|s| - 1]) else s
  }

  function NormalizePrefix(prefix: string): string { TrimSlashes(Strip(prefix)) }

  predicate StartsWith(s: string, prefix: string) { |prefix| <= |s| && s[..|prefix|] == prefix }

  predicate IsAdministrativeRoute(text: string, prefix: string) {
    var p, t := NormalizePrefix(prefix), Strip(text);
    p != "" && (t == p || (StartsWith(t, p) && |t| > |p| && IsSpace(t[|p|])))
  }

  /** The end of the token that begins at `i`. */
  function TokenEnd(s: string, i: nat): (k: nat)
    requires i <= |s|
    ensures i <= k <= |s| && (k < |s| ==> IsSpace(s[k]))
    ensures forall j :: i <= j < k ==> !IsSpace(s[j])
    decreases |s| - i
  {
    if i < |s| && !IsSpace(s[i]) then TokenEnd(s, i + 1) else i
  }

  lemma TokenEndIs(s: string, i: nat, k: nat)
    requires i <= k <= |s| && (k < |s| ==> IsSpace(s[k]))
    requires forall j :: i <= j < k ==> !IsSpace(s[j])
    ensures TokenEnd(s, i) == k
  {
  }

  /** The first whitespace-separated token, or nothing. */
  function FirstToken(text: string): string {
    var t := Strip(text);
    t[..TokenEnd(t, 0)]
  }

  lemma NormalPrefix(prefix: string)
    requires NoSpace(prefix)
    ensures NormalizePrefix(prefix) == TrimSlashes(prefix) && NoSpace(NormalizePrefix(prefix))
  {
    StripTrimmed(prefix);
  }

  /** Normalizing twice, as the constructor and the routing test together do, changes nothing. */
  lemma NormalizeIsIdempotent(prefix: string)
    requires NoSpace(prefix)
    ensures NormalizePrefix(NormalizePrefix(prefix)) == NormalizePrefix(prefix)
  {
    NormalPrefix(prefix);
    NormalPrefix(NormalizePrefix(prefix));
  }

  /** What is configured counts without the blanks around it and the slashes at its end. */
  lemma PaddingIsDropped(left: string, prefix: string, slashes: string, right: string)
    requires Blank(left) && Blank(right) && NoSpace(prefix) && (prefix != "" ==> prefix[|prefix| - 1] != '/')
    requires forall j :: 0 <= j < |slashes| ==> slashes[j] == '/'
    ensures NormalizePrefix(left + prefix + slashes + right) == prefix
  {
    var p := prefix + slashes;
    assert left + prefix + slashes + right == left + p + right;
    StripBlanks(left, p, right);
    var r := TrimSlashes(p);
    assert |prefix| > 0 ==> p[|prefix| - 1] != '/';
    assert forall j :: |prefix| <= j < |p| ==> p[j] == '/';
    assert r == prefix;
  }

  /** For a prefix without whitespace that is not all slashes, a text is administrative exactly if its
      first token is the prefix. */
  lemma RouteIffFirstToken(text: string, prefix: string)
    requires NoSpace(prefix) && NormalizePrefix(prefix) != ""
    ensures IsAdministrativeRoute(text, prefix) <==> FirstToken(text) == NormalizePrefix(prefix)
  {
    NormalPrefix(prefix);
    var p, t := NormalizePrefix(prefix), Strip(text);
    if IsAdministrativeRoute(text, prefix) {
      assert forall j :: 0 <= j < |p| ==> t[j] == p[j];
      TokenEndIs(t, 0, |p|);
    }
  }

  /** So it is not enough to begin with the prefix: what follows it must be whitespace or nothing. */
  lemma BeginningIsNotEnough(prefix: string, rest: string)
    requires NoSpace(prefix) && NormalizePrefix(prefix) != ""
    ensures IsAdministrativeRoute(NormalizePrefix(prefix) + rest, prefix) <==> rest == "" || IsSpace(rest[0])
  {
    NormalPrefix(prefix);
    var p := NormalizePrefix(prefix);
    var text := p + rest;
    assert text[0] == p[0] && text[|p| - 1] == p[|p| - 1];
    LeadIs(text, 0, 0);
    assert Strip(text) == text[..Trail(text, |text|)];
    if rest != "" {
      assert text[|p|] == rest[0];
    }
  }

  // ----- dispatch

  datatype Lane = Dropped | Handoff | ControlPlane

  /** A long connection: whether the administrative ingress is configured, and the route prefix. */
  datatype Connection = Connection(ingress: bool, prefix: string)

  /** The application gives the connection no prefix without an ingress. */
  function Connect(ingress: bool, prefix: string): Connection {
    Connection(ingress, NormalizePrefix(if ingress then prefix else ""))
  }

  /** The lane of one event; `text` is there for text events that are not blank. */
  function Dispatch(c: Connection, text: Option<string>, hasMetadata: bool): Lane {
    if (text.None? || Strip(text.value) == "") && (!c.ingress || !hasMetadata) then Dropped
    else if text.None? then if c.ingress && hasMetadata then Handoff else Dropped
    else if IsAdministrativeRoute(text.value, c.prefix) then if c.ingress && hasMetadata then Handoff else Dropped
    else ControlPlane
  }

  /** Each event takes at most one lane, and which one is told by its first token alone: with the ingress
      on, exactly the texts that do not begin with the prefix go to the control plane; with it off, every
      text does; and an event without text never does. */
  lemma LanesAreExclusive(ingress: bool, prefix: string, text: Option<string>, hasMetadata: bool)
    requires NoSpace(prefix) && NormalizePrefix(prefix) != ""
    requires text.Some? ==> Strip(text.value) != ""
    ensures var lane := Dispatch(Connect(ingress, prefix), text, hasMetadata);
            && (lane == ControlPlane <==>
                  text.Some? && (ingress ==> FirstToken(text.value) != NormalizePrefix(prefix)))
            && (lane == Handoff <==>
                  ingress && hasMetadata && (text.Some? ==> FirstToken(text.value) == NormalizePrefix(prefix)))
  {
    assert NormalizePrefix("") == "" && (text.Some? ==> !IsAdministrativeRoute(text.value, "")) by {
      StripTrimmed("");
    }
    assert NormalizePrefix(NormalizePrefix(prefix)) == NormalizePrefix(prefix) && NoSpace(NormalizePrefix(prefix)) by {
      NormalizeIsIdempotent(prefix);
      NormalPrefix(prefix);
    }
    hide NormalizePrefix, IsAdministrativeRoute, FirstToken, Strip, NoSpace;
    if text.Some? {
      RouteIffFirstToken(text.value, NormalizePrefix(prefix));
    }
  }

  /** A prefix of nothing but slashes routes nothing to the handoff: every readable text is for the control
      plane, and every blank one is treated as none. */
  lemma NoPrefixNoHandoff(ingress: bool, prefix: string, text: string, hasMetadata: bool)
    requires NormalizePrefix(prefix) == "" && Strip(text) != ""
    ensures Dispatch(Connect(ingress, prefix), Some(text), hasMetadata) == ControlPlane
  {
    assert NormalizePrefix("") == "" by {
      StripTrimmed("");
    }
  }
}

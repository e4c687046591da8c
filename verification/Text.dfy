/** Strings as Python's `str` methods see them: whitespace, stripping, searching and lower-casing. */
module Text {

  /** The characters for which Python's `str.isspace` holds; `strip` and `split` use the same set. */
  predicate IsSpace(c: char) {
    var n := c as int;
    || 0x09 <= n <= 0x0D || 0x1C <= n <= 0x20 || n == 0x85 || n == 0xA0 || n == 0x1680
    || 0x2000 <= n <= 0x200A || n == 0x2028 || n == 0x2029 || n == 0x202F || n == 0x205F || n == 0x3000
  }

  predicate Blank(s: string) {
    forall i :: 0 <= i < |s| ==> IsSpace(s[i])
  }

  predicate NoSpace(s: string) {
    forall i :: 0 <= i < |s| ==> !IsSpace(s[i])
  }

  /** Blank, tab, line breaks, the no-break and the ideographic space are whitespace; the zero-width space and all
      other ASCII is not. */
  lemma Whitespace(c: char)
    ensures IsSpace(' ') && IsSpace('\t') && IsSpace('\n') && IsSpace('\r')
    ensures IsSpace('\U{00A0}') && IsSpace('\U{0085}') && IsSpace('\U{3000}') && !IsSpace('\U{200B}')
    ensures '!' <= c <= '~' ==> !IsSpace(c)
  {
  }

  /** Nothing for `strip` to remove. */
  predicate Trimmed(s: string) {
    s != "" ==> !IsSpace(s[0]) && !IsSpace(s[|s| - 1])
  }

  /** The first index from `i` on that holds no whitespace. */
  function Lead(s: string, i: nat): (k: nat)
    requires i <= |s|
    ensures i <= k <= |s| && (k < |s| ==> !IsSpace(s[k]))
    ensures forall j :: i <= j < k ==> IsSpace(s[j])
    decreases |s| - i
  {
    if i < |s| && IsSpace(s[i]) then Lead(s, i + 1) else i
  }

  /** The end of `s[..n]` once trailing whitespace is taken off. */
  function Trail(s: string, n: nat): (k: nat)
    requires n <= |s|
    ensures k <= n && (k > 0 ==> !IsSpace(s[k - 1]))
    ensures forall j :: k <= j < n ==> IsSpace(s[j])
  {
    if n > 0 && IsSpace(s[n - 1]) then Trail(s, n - 1) else n
  }

  function LStrip(s: string): string { s[Lead(s, 0)..] }

  function RStrip(s: string): string { s[..Trail(s, |s|)] }

  function Strip(s: string): (r: string)
    ensures Trimmed(r)
    ensures |r| <= |s|
  {
    RStrip(LStrip(s))
  }

  lemma StripTrimmed(s: string)
    requires Trimmed(s)
    ensures LStrip(s) == s && RStrip(s) == s && Strip(s) == s
  {
    assert Lead(s, 0) == 0 && Trail(s, |s|) == |s|;
    assert LStrip(s) == s;
  }

  /** The first place that holds no whitespace is the only one `Lead` can find. */
  lemma LeadIs(s: string, i: nat, k: nat)
    requires i <= k <= |s| && (k < |s| ==> !IsSpace(s[k]))
    requires forall j :: i <= j < k ==> IsSpace(s[j])
    ensures Lead(s, i) == k
  {
  }

  lemma TrailIs(s: string, n: nat, k: nat)
    requires k <= n <= |s| && (k > 0 ==> !IsSpace(s[k - 1]))
    requires forall j :: k <= j < n ==> IsSpace(s[j])
    ensures Trail(s, n) == k
  {
  }

  /** Blanks in front of a string that does not begin with one are all that `lstrip` removes. */
  lemma LStripBlank(b: string, s: string)
    requires Blank(b) && (s != "" ==> !IsSpace(s[0]))
    ensures LStrip(b + s) == s
  {
    LeadIs(b + s, 0, |b|);
  }

  lemma RStripBlank(s: string, b: string)
    requires Blank(b) && (s != "" ==> !IsSpace(s[|s| - 1]))
    ensures RStrip(s + b) == s
  {
    TrailIs(s + b, |s + b|, |s|);
  }

  lemma StripBlanks(left: string, s: string, right: string)
    requires Blank(left) && Blank(right) && Trimmed(s)
    ensures Strip(left + s + right) == s
  {
    assert left + s + right == left + (s + right);
    if s == "" {
      assert Blank(left + right) && left + (s + right) == (left + right) + "";
      LStripBlank(left + right, "");
    } else {
      LStripBlank(left, s + right);
      RStripBlank(s, right);
    }
  }

  /** `s.rfind(c, 0, limit)`: the last index below `limit` that holds `c`, or -1. */
  function RFind(s: string, c: char, limit: nat): (at: int)
    ensures -1 <= at < |s| && at < limit
    ensures at >= 0 ==> s[at] == c
    ensures forall j :: at < j < |s| && j < limit ==> s[j] != c
    decreases limit
  {
    if limit == 0 then -1
    else if limit <= |s| && s[limit - 1] == c then limit - 1
    else RFind(s, c, limit - 1)
  }

  /** The characters of `s` that are not whitespace, in order. */
  function Visible(s: string): (v: string) {
    if s == "" then ""
    else (if IsSpace(s[0]) then "" else [s[0]]) + Visible(s[1..])
  }

  lemma {:induction false} VisibleConcat(a: string, b: string)
    ensures Visible(a + b) == Visible(a) + Visible(b)
  {
    if a == "" {
      assert a + b == b;
    } else {
      assert (a + b)[1..] == a[1..] + b;
      VisibleConcat(a[1..], b);
    }
  }

  lemma {:induction false} VisibleBlank(b: string)
    requires Blank(b)
    ensures Visible(b) == ""
  {
    if b != "" {
      VisibleBlank(b[1..]);
    }
  }

  lemma VisibleStrip(s: string)
    ensures Visible(Strip(s)) == Visible(s)
  {
    var i := Lead(s, 0);
    VisibleTail(s, i);
    var l := LStrip(s);
    VisibleInit(l, Trail(l, |l|));
  }

  lemma VisibleTail(s: string, i: nat)
    requires i <= |s| && forall j :: 0 <= j < i ==> IsSpace(s[j])
    ensures Visible(s[i..]) == Visible(s)
  {
    assert s == s[..i] + s[i..];
    VisibleConcat(s[..i], s[i..]);
    VisibleBlank(s[..i]);
  }

  lemma VisibleInit(s: string, n: nat)
    requires n <= |s| && forall j :: n <= j < |s| ==> IsSpace(s[j])
    ensures Visible(s[..n]) == Visible(s)
  {
    assert s == s[..n] + s[n..];
    VisibleConcat(s[..n], s[n..]);
    VisibleBlank(s[n..]);
  }

  /** Lower-casing as far as a comparison with an ASCII literal can tell: the ASCII capitals and
      the Kelvin sign are the only characters whose lower case is one ASCII character. */
  function LowerChar(c: char): char {
    if 'A' <= c <= 'Z' then 'a' + (c - 'A')
    else if c == '\U{212A}' then 'k'
    else c
  }

  lemma LowerCase(c: char)
    ensures LowerChar('A') == 'a' && LowerChar('M') == 'm' && LowerChar('Z') == 'z' && LowerChar('\U{212A}') == 'k'
    ensures 'A' <= c <= 'Z' ==> 'a' <= LowerChar(c) <= 'z' && LowerChar(c) as int - c as int == 32
    ensures c < 'A' || 'Z' < c < '\U{0080}' ==> LowerChar(c) == c
  {
  }

  function Lower(s: string): (r: string)
    ensures |r| == |s| && forall i :: 0 <= i < |s| ==> r[i] == LowerChar(s[i])
  {
    seq(|s|, i requires 0 <= i < |s| => LowerChar(s[i]))
  }
}

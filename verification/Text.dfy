/** The few string operations of Go's standard library that the modelled code relies on.
    A string is a sequence of Unicode code points; `Utf8Len` is its length in bytes. */
module Text {

  datatype Option<+T> = None | Some(value: T)

  datatype Result<+T> = Ok(value: T) | Err(error: string)

  datatype Halves = Halves(before: string, after: string, found: bool)

  /** Index of the first `c`, or `|s|` when there is none. */
  function Find(s: string, c: char): (k: nat)
    ensures k <= |s| && c !in s[..k]
    ensures k < |s| ==> s[k] == c
  {
    if s == "" || s[0] == c then 0 else
      var k := Find(s[1..], c) + 1;
      assert s[..k] == [s[0]] + s[1..][..k - 1];
      k
  }

  /** strings.Cut with a one-character separator. */
  function Cut(s: string, c: char): (h: Halves)
    ensures h.found ==> s == h.before + [c] + h.after
    ensures !h.found ==> h.before == s && h.after == ""
    ensures h.found <==> c in s
    ensures c !in h.before
  {
    var k := Find(s, c);
    if k < |s| then Halves(s[..k], s[k + 1..], true) else Halves(s, "", false)
  }

  lemma FindFirst(a: string, c: char, b: string)
    requires c !in a
    ensures Find(a + [c] + b, c) == |a|
  {
    if a != "" {
      assert (a + [c] + b)[1..] == a[1..] + [c] + b;
      FindFirst(a[1..], c, b);
    }
  }

  lemma CutAt(a: string, c: char, b: string)
    requires c !in a
    ensures Cut(a + [c] + b, c) == Halves(a, b, true)
  {
    FindFirst(a, c, b);
  }

  /** Index just past the last `c`, or 0 when there is none (strings.LastIndex plus one). */
  function AfterLast(s: string, c: char): (k: nat)
    ensures k <= |s| && c !in s[k..]
    ensures k > 0 ==> s[k - 1] == c
    ensures k > 0 <==> c in s
  {
    if s == "" then 0
    else if s[|s| - 1] == c then |s|
    else
      var k := AfterLast(s[..|s| - 1], c);
      assert s[k..] == s[..|s| - 1][k..] + [s[|s| - 1]];
      k
  }

  function LowerChar(c: char): char {
    if 'A' <= c <= 'Z' then c - 'A' + 'a' else c
  }

  /** strings.ToLower on ASCII letters. */
  function Lower(s: string): (t: string)
    ensures |t| == |s| && forall i :: 0 <= i < |s| ==> t[i] == LowerChar(s[i])
  {
    seq(|s|, i requires 0 <= i < |s| => LowerChar(s[i]))
  }

  lemma LowerIdempotent(s: string)
    ensures Lower(Lower(s)) == Lower(s)
  {
  }

  /** unicode.IsSpace. */
  predicate IsSpace(c: char) {
    '\t' <= c <= '\r' || c == ' ' || c == '\U{85}' || c == '\U{A0}' || c == '\U{1680}' ||
    '\U{2000}' <= c <= '\U{200a}' || c == '\U{2028}' || c == '\U{2029}' || c == '\U{202f}' ||
    c == '\U{205f}' || c == '\U{3000}'
  }

  /** unicode.IsControl. */
  predicate IsControl(c: char) {
    c < ' ' || '\U{7f}' <= c <= '\U{9f}'
  }

  predicate HasControl(s: string) {
    exists i :: 0 <= i < |s| && IsControl(s[i])
  }

  predicate Spaces(s: string) { forall i :: 0 <= i < |s| ==> IsSpace(s[i]) }

  function TrimLeft(s: string): (t: string)
    ensures t == "" || !IsSpace(t[0])
    ensures |t| <= |s| && t == s[|s| - |t|..] && Spaces(s[..|s| - |t|])
  {
    if s != "" && IsSpace(s[0]) then TrimLeft(s[1..]) else s
  }

  function TrimRight(s: string): (t: string)
    ensures t == "" || !IsSpace(t[|t| - 1])
    ensures |t| <= |s| && t == s[..|t|] && Spaces(s[|t|..])
  {
    if s != "" && IsSpace(s[|s| - 1]) then TrimRight(s[..|s| - 1]) else s
  }

  /** `t` is `raw` without the spaces at its ends. */
  ghost predicate Trims(raw: string, t: string) {
    && (t == "" || (!IsSpace(t[0]) && !IsSpace(t[|t| - 1])))
    && exists a, b :: Spaces(a) && Spaces(b) && raw == a + t + b
  }

  lemma TrimSpaceTrims(s: string)
    ensures Trims(s, TrimSpace(s))
  {
    hide *;
    TrimParts(s);
    var l := TrimLeft(s);
    var t := TrimRight(l);
    TrimsIf(s, s[..|s| - |l|], t, l[|t|..]);
  }

  lemma LeftParts(s: string)
    ensures var l := TrimLeft(s); |l| <= |s| && s == s[..|s| - |l|] + l && Spaces(s[..|s| - |l|])
  {
    hide IsSpace; hide Spaces;
  }

  lemma RightParts(l: string)
    ensures var t := TrimRight(l); |t| <= |l| && l == t + l[|t|..] && Spaces(l[|t|..])
  {
    hide IsSpace; hide Spaces;
  }

  lemma TrimSpaceIs(s: string)
    ensures var t := TrimSpace(s); t == TrimRight(TrimLeft(s)) && (t == "" || (!IsSpace(t[0]) && !IsSpace(t[|t| - 1])))
  {
    hide IsSpace; hide Spaces;
  }

  lemma Glue(a: string, t: string, b: string)
    ensures a + (t + b) == a + t + b
  {
  }

  lemma TrimParts(s: string)
    ensures var l := TrimLeft(s); var t := TrimRight(l);
      && |t| <= |l| <= |s| && TrimSpace(s) == t && Spaces(s[..|s| - |l|]) && Spaces(l[|t|..])
      && s == s[..|s| - |l|] + t + l[|t|..]
      && (t == "" || (!IsSpace(t[0]) && !IsSpace(t[|t| - 1])))
  {
    hide *;
    var l := TrimLeft(s);
    var t := TrimRight(l);
    TrimSpaceIs(s);
    LeftParts(s);
    RightParts(l);
    var a, b := s[..|s| - |l|], l[|t|..];
    assert s == a + l && l == t + b;
    Glue(a, t, b);
  }

  lemma TrimsIf(raw: string, a: string, t: string, b: string)
    requires Spaces(a) && Spaces(b) && raw == a + t + b
    requires t == "" || (!IsSpace(t[0]) && !IsSpace(t[|t| - 1]))
    ensures Trims(raw, t)
  {
    hide IsSpace;
    hide Spaces;
  }

  /** `raw[i..j]` is what is left of `raw`. */
  predicate Inner(raw: string, i: nat, j: nat) {
    && i <= j <= |raw|
    && (forall k :: 0 <= k < |raw| && (k < i || j <= k) ==> IsSpace(raw[k]))
    && (i < j ==> !IsSpace(raw[i]) && !IsSpace(raw[j - 1]))
  }

  lemma TrimsInner(raw: string, t: string) returns (i: nat, j: nat)
    requires Trims(raw, t)
    ensures Inner(raw, i, j) && t == raw[i..j]
  {
    hide IsSpace;
    var a, b :| Spaces(a) && Spaces(b) && raw == a + t + b;
    i, j := |a|, |a| + |t|;
    forall k | 0 <= k < |raw| && (k < i || j <= k) ensures IsSpace(raw[k]) {
      if k < i { assert raw[k] == a[k]; } else { assert raw[k] == b[k - j]; }
    }
  }

  /** Where the text starts and ends is not a matter of choice. */
  lemma TrimsOnce(raw: string, t: string, u: string)
    requires Trims(raw, t) && Trims(raw, u)
    ensures t == u
  {
    hide IsSpace;
    hide Trims;
    var i, j := TrimsInner(raw, t);
    var k, l := TrimsInner(raw, u);
  }

  /** strings.TrimSpace: what is left starts and ends with a non-space. */
  function TrimSpace(s: string): (t: string)
    ensures t == "" || (!IsSpace(t[0]) && !IsSpace(t[|t| - 1]))
  {
    TrimRight(TrimLeft(s))
  }

  function Utf8Len(s: string): (n: nat)
    ensures n >= |s|
  {
    if s == "" then 0 else
      (if s[0] < '\U{80}' then 1 else if s[0] < '\U{800}' then 2 else if s[0] < '\U{10000}' then 3 else 4)
      + Utf8Len(s[1..])
  }

  /** strings.Split with a one-character separator. */
  function Split(s: string, c: char): (parts: seq<string>)
    ensures |parts| >= 1
    ensures Join(parts, c) == s
    ensures forall i :: 0 <= i < |parts| ==> c !in parts[i]
    decreases |s|
  {
    var h := Cut(s, c);
    if h.found then
      var rest := Split(h.after, c);
      assert ([h.before] + rest)[1..] == rest;
      [h.before] + rest
    else [s]
  }

  function Join(parts: seq<string>, c: char): string
    requires |parts| >= 1
  {
    if |parts| == 1 then parts[0] else parts[0] + [c] + Join(parts[1..], c)
  }

  /** Splitting undoes joining, so the parts of a string are unique. */
  lemma {:induction false} SplitJoin(parts: seq<string>, c: char)
    requires |parts| >= 1
    requires forall i :: 0 <= i < |parts| ==> c !in parts[i]
    ensures Split(Join(parts, c), c) == parts
  {
    if |parts| > 1 {
      var rest := Join(parts[1..], c);
      SplitJoin(parts[1..], c);
      CutAt(parts[0], c, rest);
      assert Split(parts[0] + [c] + rest, c) == [parts[0]] + Split(rest, c);
    }
  }
}

/** The order that sort.Strings sorts by, the sorted form of a list, and a sort in place. */
module Ordering {

  predicate Less(a: string, b: string) {
    b != "" && (a == "" || a[0] < b[0] || (a[0] == b[0] && Less(a[1..], b[1..])))
  }

  lemma Asymmetric(a: string, b: string)
    ensures !(Less(a, b) && Less(b, a))
    ensures !Less(a, b) && !Less(b, a) ==> a == b
  {
    if a != "" && b != "" && a[0] == b[0] {
      Asymmetric(a[1..], b[1..]);
      assert a == [a[0]] + a[1..] && b == [b[0]] + b[1..];
    }
  }

  lemma Transitive(a: string, b: string, c: string)
    requires !Less(b, a) && !Less(c, b)
    ensures !Less(c, a)
  {
    if Less(c, a) && b != "" && c != "" && a[0] == b[0] == c[0] {
      Transitive(a[1..], b[1..], c[1..]);
    }
  }

  predicate Sorted(s: seq<string>) {
    forall i, j :: 0 <= i < j < |s| ==> !Less(s[j], s[i])
  }

  function Insert(x: string, s: seq<string>): seq<string> {
    if s == [] || !Less(s[0], x) then [x] + s else [s[0]] + Insert(x, s[1..])
  }

  /** The sorted form of `s`. */
  function Sort(s: seq<string>): seq<string> {
    if s == [] then [] else Insert(s[0], Sort(s[1..]))
  }

  lemma InsertSorts(x: string, s: seq<string>)
    requires Sorted(s)
    ensures Sorted(Insert(x, s)) && multiset(Insert(x, s)) == multiset([x]) + multiset(s)
  {
    if s == [] || !Less(s[0], x) {
      forall i | 0 <= i < |s| ensures !Less(s[i], x) {
        if i > 0 { Transitive(x, s[0], s[i]); }
      }
    } else {
      var t := Insert(x, s[1..]);
      InsertSorts(x, s[1..]);
      assert s == [s[0]] + s[1..];
      Asymmetric(s[0], x);
      forall j | 0 <= j < |t| ensures !Less(t[j], s[0]) {
        assert t[j] in multiset(t);
        assert t[j] == x || t[j] in s[1..];
      }
    }
  }

  lemma SortSorts(s: seq<string>)
    ensures Sorted(Sort(s)) && multiset(Sort(s)) == multiset(s)
  {
    if s != [] {
      SortSorts(s[1..]);
      InsertSorts(s[0], Sort(s[1..]));
      assert s == [s[0]] + s[1..];
    }
  }

  lemma SameFirst(s: seq<string>, t: seq<string>)
    requires Sorted(s) && Sorted(t) && multiset(s) == multiset(t) && s != []
    ensures t != [] && s[0] == t[0]
  {
    assert |multiset(s)| == |multiset(t)|;
    assert s[0] in multiset(t) && t[0] in multiset(s);
    var i :| 0 <= i < |t| && t[i] == s[0];
    var j :| 0 <= j < |s| && s[j] == t[0];
    Asymmetric(s[0], t[0]);
  }

  lemma {:induction false} SortedUnique(s: seq<string>, t: seq<string>)
    requires Sorted(s) && Sorted(t) && multiset(s) == multiset(t)
    ensures s == t
  {
    if s == [] {
      assert |multiset(t)| == 0;
    } else {
      SameFirst(s, t);
      assert s == [s[0]] + s[1..] && t == [t[0]] + t[1..];
      assert multiset(s[1..]) == multiset(s) - multiset{s[0]};
      assert multiset(t[1..]) == multiset(t) - multiset{t[0]};
      SortedUnique(s[1..], t[1..]);
    }
  }

  /** Two lists have one sorted form exactly when each is a permutation of the other. */
  lemma SortDecides(s: seq<string>, t: seq<string>)
    ensures Sort(s) == Sort(t) <==> multiset(s) == multiset(t)
  {
    SortSorts(s);
    SortSorts(t);
    if multiset(s) == multiset(t) {
      SortedUnique(Sort(s), Sort(t));
    }
  }

  /** In order but perhaps for `s[j]`, which is in order with its left neighbour. */
  lemma Placed(s: seq<string>, j: nat)
    requires j < |s| && forall p, q :: 0 <= p < q < |s| && q != j ==> !Less(s[q], s[p])
    requires j > 0 ==> !Less(s[j], s[j - 1])
    ensures Sorted(s)
  {
    hide Less;
    forall p | 0 <= p < j ensures !Less(s[j], s[p]) {
      if p < j - 1 { Transitive(s[p], s[j - 1], s[j]); }
    }
  }

  method SwapDown(a: array<string>, j: nat)
    requires 0 < j < a.Length
    modifies a
    ensures a[j] == old(a[j - 1]) && a[j - 1] == old(a[j])
    ensures forall p :: 0 <= p < a.Length && p != j && p != j - 1 ==> a[p] == old(a[p])
    ensures multiset(a[..]) == multiset(old(a[..]))
  {
    a[j], a[j - 1] := a[j - 1], a[j];
  }

  /** Moves `a[n]` down to its place in the sorted stretch `a[..n]`. */
  method Sink(a: array<string>, n: nat)
    requires n < a.Length && Sorted(a[..n])
    modifies a
    ensures Sorted(a[..n + 1]) && multiset(a[..]) == multiset(old(a[..]))
  {
    hide Less;
    var j := n;
    while j > 0 && Less(a[j], a[j - 1])
      invariant 0 <= j <= n
      invariant multiset(a[..]) == multiset(old(a[..]))
      invariant forall p, q :: 0 <= p < q <= n && q != j ==> !Less(a[q], a[p])
    {
      Asymmetric(a[j], a[j - 1]);
      SwapDown(a, j);
      j := j - 1;
    }
    Placed(a[..n + 1], j);
  }

  /** Stands for sort.Strings. */
  method SortStrings(a: array<string>)
    modifies a
    ensures a[..] == Sort(old(a[..]))
  {
    ghost var was := a[..];
    for n := 0 to a.Length
      invariant Sorted(a[..n]) && multiset(a[..]) == multiset(was)
    {
      Sink(a, n);
    }
    assert a[..a.Length] == a[..];
    SortSorts(was);
    SortedUnique(a[..], Sort(was));
  }
}

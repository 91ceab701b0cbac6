/** SPIRE entries as the reconciler sees them, their wire form, and the comparison of two entries. */
module Entries {
  import opened Text
  import opened Ordering
  import opened Spiffe

  /** An entry without its ID, which the server keeps as the key. */
  datatype Entry = Entry(spiffeId: string, parentId: string, selectors: seq<string>, ttl: int, hint: string)

  datatype Selector = Selector(kind: string, value: string)

  datatype Proto = Proto(spiffeId: SpiffeId, parentId: SpiffeId, selectors: seq<Selector>, ttl: int, hint: string)

  // ---- Selectors ----

  function ParseSelector(raw: string): Result<Selector> {
    var h := Cut(raw, ':');
    if !h.found || h.before == "" || h.after == "" then Err("selector must use type:value format")
    else Ok(Selector(h.before, h.after))
  }

  function SelectorText(s: Selector): string { s.kind + ":" + s.value }

  predicate WellFormedSelector(s: Selector) {
    s.kind != "" && s.value != "" && ':' !in s.kind
  }

  /** A selector survives the cut at the first colon, whatever colons its value holds. */
  lemma SelectorRoundTrip(raw: string, s: Selector)
    ensures ParseSelector(raw) == Ok(s) <==> WellFormedSelector(s) && SelectorText(s) == raw
  {
    if WellFormedSelector(s) {
      CutAt(s.kind, ':', s.value);
      assert s.kind + [':'] + s.value == SelectorText(s);
    }
  }

  function ParseSelectors(raws: seq<string>): (r: Result<seq<Selector>>)
    ensures r.Ok? ==> |r.value| == |raws|
    ensures r.Ok? ==> forall i :: 0 <= i < |raws| ==> ParseSelector(raws[i]) == Ok(r.value[i])
  {
    if raws == [] then Ok([])
    else match ParseSelectors(raws[..|raws| - 1])
      case Err(e) => Err(e)
      case Ok(ss) => match ParseSelector(raws[|raws| - 1])
                     case Err(e) => Err(e)
                     case Ok(s) => Ok(ss + [s])
  }

  function SelectorTexts(ss: seq<Selector>): seq<string> {
    seq(|ss|, i requires 0 <= i < |ss| => SelectorText(ss[i]))
  }

  lemma {:induction false} AllParse(raws: seq<string>)
    requires forall i :: 0 <= i < |raws| ==> ParseSelector(raws[i]).Ok?
    ensures ParseSelectors(raws).Ok?
  {
    if raws != [] {
      AllParse(raws[..|raws| - 1]);
    }
  }

  /** A list of selectors parses exactly when it is the text of well-formed selectors. */
  lemma SelectorsRoundTrip(raws: seq<string>, ss: seq<Selector>)
    ensures ParseSelectors(raws) == Ok(ss) <==>
            (forall i :: 0 <= i < |ss| ==> WellFormedSelector(ss[i])) && SelectorTexts(ss) == raws
  {
    if |raws| == |ss| {
      forall i | 0 <= i < |ss|
        ensures ParseSelector(raws[i]) == Ok(ss[i]) <==> WellFormedSelector(ss[i]) && SelectorText(ss[i]) == raws[i]
      {
        SelectorRoundTrip(raws[i], ss[i]);
      }
      if forall i :: 0 <= i < |ss| ==> ParseSelector(raws[i]) == Ok(ss[i]) {
        AllParse(raws);
        assert ParseSelectors(raws).value == ss;
        assert SelectorTexts(ss) == raws;
      }
    }
  }

  // ---- Conversion ----

  function ToProto(e: Entry): Result<Proto> {
    match ParseSpiffeId(e.spiffeId)
    case Err(x) => Err("invalid workload SPIFFE ID: " + x)
    case Ok(workload) => match ParseSpiffeId(e.parentId)
      case Err(x) => Err("invalid parent SPIFFE ID: " + x)
      case Ok(parent) => match ParseSelectors(e.selectors)
        case Err(x) => Err(x)
        case Ok(ss) => if ss == [] then Err("at least one selector is required")
                       else Ok(Proto(workload, parent, ss, e.ttl, e.hint))
  }

  function FromProto(p: Proto): Entry {
    Entry(FormatSpiffeId(p.spiffeId), FormatSpiffeId(p.parentId), SelectorTexts(p.selectors), p.ttl, p.hint)
  }

  /** What the server holds: parsed IDs and at least one proper selector. */
  predicate WellFormedProto(p: Proto) {
    && WellFormed(p.spiffeId) && WellFormed(p.parentId)
    && p.selectors != [] && forall i :: 0 <= i < |p.selectors| ==> WellFormedSelector(p.selectors[i])
  }

  lemma ToProtoWellFormed(e: Entry)
    requires ToProto(e).Ok?
    ensures WellFormedProto(ToProto(e).value)
  {
    var s1, h1 := SpellingOfParsed(e.spiffeId);
    var s2, h2 := SpellingOfParsed(e.parentId);
    SelectorsRoundTrip(e.selectors, ToProto(e).value.selectors);
  }

  /** Everything survives the wire except a non-canonical spelling of an ID. */
  lemma EntryRoundTrip(e: Entry)
    requires ToProto(e).Ok?
    ensures var back := FromProto(ToProto(e).value);
            && (back == e <==> Canonical(e.spiffeId) && Canonical(e.parentId))
            && back.selectors == e.selectors && back.ttl == e.ttl && back.hint == e.hint
  {
    SelectorsRoundTrip(e.selectors, ToProto(e).value.selectors);
  }

  lemma ProtoRoundTrip(p: Proto)
    requires WellFormedProto(p) && PlainId(p.spiffeId) && PlainId(p.parentId)
    ensures ToProto(FromProto(p)) == Ok(p)
  {
    ParseFormat(p.spiffeId);
    ParseFormat(p.parentId);
    SelectorsRoundTrip(SelectorTexts(p.selectors), p.selectors);
  }

  lemma OneMoreSelector(raws: seq<string>, i: nat, ss: seq<Selector>)
    requires i < |raws| && ParseSelectors(raws[..i]) == Ok(ss)
    ensures match ParseSelector(raws[i])
            case Ok(s) => ParseSelectors(raws[..i + 1]) == Ok(ss + [s])
            case Err(e) => ParseSelectors(raws) == Err(e)
  {
    hide ParseSelector;
    assert raws[..i + 1][..i] == raws[..i];
    if ParseSelector(raws[i]).Err? { FirstBad(raws, i + 1); }
  }

  method ToProtoEntry(e: Entry) returns (r: Result<Proto>)
    ensures r == ToProto(e)
  {
    hide ParseSpiffeId;
    hide ParseSelector;
    var workload := ParseSpiffeId(e.spiffeId);
    if workload.Err? { return Err("invalid workload SPIFFE ID: " + workload.error); }
    var parent := ParseSpiffeId(e.parentId);
    if parent.Err? { return Err("invalid parent SPIFFE ID: " + parent.error); }
    var selectors: seq<Selector> := [];
    for i := 0 to |e.selectors|
      invariant ParseSelectors(e.selectors[..i]) == Ok(selectors)
    {
      var s := ParseSelector(e.selectors[i]);
      OneMoreSelector(e.selectors, i, selectors);
      if s.Err? { return Err(s.error); }
      selectors := selectors + [s.value];
    }
    assert e.selectors[..|e.selectors|] == e.selectors;
    if |selectors| == 0 { return Err("at least one selector is required"); }
    return Ok(Proto(workload.value, parent.value, selectors, e.ttl, e.hint));
  }

  lemma {:induction false} FirstBad(raws: seq<string>, n: nat)
    requires n <= |raws| && ParseSelectors(raws[..n]).Err?
    ensures ParseSelectors(raws) == Err(ParseSelectors(raws[..n]).error)
    decreases |raws|
  {
    if n < |raws| {
      var m := |raws| - 1;
      assert raws[..m][..n] == raws[..n];
      FirstBad(raws[..m], n);
    } else {
      assert raws[..n] == raws;
    }
  }

  method FromProtoEntry(p: Proto) returns (e: Entry)
    ensures e == FromProto(p)
  {
    var selectors: seq<string> := [];
    for i := 0 to |p.selectors|
      invariant selectors == SelectorTexts(p.selectors[..i])
    {
      selectors := selectors + [p.selectors[i].kind + ":" + p.selectors[i].value];
    }
    assert p.selectors[..|p.selectors|] == p.selectors;
    e := Entry(FormatSpiffeId(p.spiffeId), FormatSpiffeId(p.parentId), selectors, p.ttl, p.hint);
  }

  // ---- What the server stores and returns ----

  /** The server keeps selectors in an order of its own; sorted order stands for it. */
  function Arrange(p: Proto): (q: Proto)
    requires WellFormedProto(p)
    ensures WellFormedProto(q) && q == p.(selectors := q.selectors)
    ensures SelectorTexts(q.selectors) == Sort(SelectorTexts(p.selectors))
  {
    var texts := SelectorTexts(p.selectors);
    ArrangeParses(p.selectors);
    var ss := ParseSelectors(Sort(texts)).value;
    SelectorsRoundTrip(Sort(texts), ss);
    assert ss != [];
    p.(selectors := ss)
  }

  lemma ArrangeParses(ss: seq<Selector>)
    requires ss != [] && forall i :: 0 <= i < |ss| ==> WellFormedSelector(ss[i])
    ensures ParseSelectors(Sort(SelectorTexts(ss))).Ok? && Sort(SelectorTexts(ss)) != []
  {
    var texts := SelectorTexts(ss);
    SortSorts(texts);
    var sorted := Sort(texts);
    assert |multiset(sorted)| == |multiset(texts)|;
    forall k | 0 <= k < |sorted| ensures ParseSelector(sorted[k]).Ok? {
      assert sorted[k] in multiset(sorted);
      assert sorted[k] in texts;
      var i :| 0 <= i < |texts| && texts[i] == sorted[k];
      SelectorRoundTrip(sorted[k], ss[i]);
    }
    AllParse(sorted);
  }

  /** How `e` reads back once the server has stored it; None when it cannot be sent. */
  function Stored(e: Entry): Option<Entry> {
    match ToProto(e)
    case Err(_) => None
    case Ok(p) => ToProtoWellFormed(e); Some(FromProto(Arrange(p)))
  }

  /** Equal up to the order of selectors. */
  predicate Equivalent(a: Entry, b: Entry) {
    && a.spiffeId == b.spiffeId && a.parentId == b.parentId && a.ttl == b.ttl && a.hint == b.hint
    && multiset(a.selectors) == multiset(b.selectors)
  }

  predicate CanonicalEntry(e: Entry) {
    Canonical(e.spiffeId) && Canonical(e.parentId)
  }

  /** A stored entry agrees with what was sent exactly when the IDs sent were canonical. */
  lemma StoredAgrees(e: Entry)
    requires Stored(e).Some?
    ensures var n := Stored(e).value;
            && (Equivalent(n, e) <==> CanonicalEntry(e))
            && n.hint == e.hint && n.ttl == e.ttl
            && multiset(n.selectors) == multiset(e.selectors)
            && ParseSpiffeId(e.spiffeId).Ok? && ParseSpiffeId(e.parentId).Ok?
            && n.spiffeId == FormatSpiffeId(ParseSpiffeId(e.spiffeId).value)
            && n.parentId == FormatSpiffeId(ParseSpiffeId(e.parentId).value)
  {
    ToProtoWellFormed(e);
    EntryRoundTrip(e);
    SortSorts(e.selectors);
  }

  predicate PlainEntry(e: Entry) { InAlphabet(e.spiffeId) && InAlphabet(e.parentId) }

  /** Over the alphabet, what is stored reads back in canonical form. */
  lemma StoredIsCanonical(e: Entry)
    requires Stored(e).Some? && PlainEntry(e)
    ensures CanonicalEntry(Stored(e).value)
  {
    ToProtoWellFormed(e);
    var p := ToProto(e).value;
    ParsedIsPlain(e.spiffeId);
    ParsedIsPlain(e.parentId);
    ParseFormat(p.spiffeId);
    ParseFormat(p.parentId);
  }

  /** The server's test for an entry already there: same IDs and the same set of selectors. */
  predicate SameKey(a: Entry, b: Entry) {
    && a.spiffeId == b.spiffeId && a.parentId == b.parentId
    && (forall s :: s in a.selectors ==> s in b.selectors)
    && (forall s :: s in b.selectors ==> s in a.selectors)
  }

  // ---- The comparison, as written ----

  /** entriesEquivalent: sorts copies of both selector lists and compares them in step. */
  method EntriesEquivalent(actual: Entry, desired: Entry) returns (same: bool)
    ensures same <==> Equivalent(actual, desired)
  {
    if actual.spiffeId != desired.spiffeId || actual.parentId != desired.parentId ||
       actual.ttl != desired.ttl || actual.hint != desired.hint {
      return false;
    }
    var left := new string[|actual.selectors|](i requires 0 <= i < |actual.selectors| => actual.selectors[i]);
    var right := new string[|desired.selectors|](i requires 0 <= i < |desired.selectors| => desired.selectors[i]);
    assert left[..] == actual.selectors;
    SortStrings(left);
    assert right[..] == desired.selectors;
    SortStrings(right);
    SortDecides(actual.selectors, desired.selectors);
    if left.Length != right.Length {
      return false;
    }
    for i := 0 to left.Length
      invariant left[..i] == right[..i]
    {
      if left[i] != right[i] {
        assert left[..][i] != right[..][i];
        return false;
      }
    }
    assert left[..] == left[..left.Length] && right[..] == right[..right.Length];
    return true;
  }
}

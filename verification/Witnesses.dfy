/** Concrete worlds and histories in which recovery takes two runs, and in which `converged` is not true. */
module Witnesses {
  import opened Text
  import opened Spiffe
  import opened Entries
  import opened Registration
  import opened Backends
  import opened Protocol
  import opened Frame
  import opened Goals
  import opened Runs
  import opened Convergence
  import opened Obstacles
  import opened Crashes
  import opened Idempotence
  import opened System
  import opened Histories
  import opened Marking

  // ---- Sample rules ----

  /** spiffe://td/ and one letter. */
  function SampleId(c: char): string { FormatSpiffeId(SpiffeId("td", ['/', c])) }

  /** unix:uid:1 */
  const SELECTOR := SelectorText(Selector("unix", "uid:1"))

  function Sample(id: string, c: char, state: string, ttl: int, binding: Option<EntryId>): Rule {
    Rule(id, "org", "workload", SampleId(c), [SELECTOR], state, 1, Some(SampleId('n')), ttl, binding, Pending, None)
  }

  lemma SampleParses(c: char)
    requires 'a' <= c <= 'z'
    ensures ParseSpiffeId(SampleId(c)) == Ok(SpiffeId("td", ['/', c])) && Canonical(SampleId(c)) && SampleId(c) != ""
  {
    assert Lower("td") == "td";
    ParseFormat(SpiffeId("td", ['/', c]));
  }

  lemma OneText()
    ensures SelectorTexts([Selector("unix", "uid:1")]) == [SELECTOR]
    ensures WellFormedSelector(Selector("unix", "uid:1"))
  {
    hide SelectorText;
  }

  lemma SelectorParses()
    ensures ParseSelectors([SELECTOR]) == Ok([Selector("unix", "uid:1")])
  {
    hide SelectorTexts;
    hide ParseSelectors;
    hide ParseSelector;
    SelectorRoundTrip(SELECTOR, Selector("unix", "uid:1"));
    OneText();
    SelectorsRoundTrip([SELECTOR], [Selector("unix", "uid:1")]);
  }

  lemma SampleDesired(id: string, c: char, ttl: int, binding: Option<EntryId>)
    requires SampleId('n') != "" && 60 <= ttl <= 86400
    ensures var r := Sample(id, c, "present", ttl, binding);
      r.desiredState == "present"
      && DesiredEntry(r) == Ok(Entry(SampleId(c), SampleId('n'), [SELECTOR], ttl, OwnerHint(id)))
  {
    hide OwnerHint;
    hide SampleId;
  }

  lemma CanonicalMeans(r: Rule, e: Entry)
    requires DesiredEntry(r) == Ok(e) && Canonical(e.spiffeId) && Canonical(e.parentId)
    ensures CanonicalRule(r)
  {
    hide Canonical;
    hide DesiredEntry;
  }

  /** Every sample rule has something to send, under its own hint and identity. */
  lemma SampleSends(id: string, c: char, ttl: int, binding: Option<EntryId>)
    requires 'a' <= c <= 'z' && 60 <= ttl <= 86400
    ensures var r := Sample(id, c, "present", ttl, binding);
      && Sendable(r) && CanonicalRule(r)
      && DesiredEntry(r) == Ok(Entry(SampleId(c), SampleId('n'), [SELECTOR], ttl, OwnerHint(id)))
      && var n := Stored(DesiredEntry(r).value).value; n.hint == OwnerHint(id)
  {
    hide *;
    var r := Sample(id, c, "present", ttl, binding);
    SampleParses(c);
    SampleParses('n');
    SelectorParses();
    SampleDesired(id, c, ttl, binding);
    var e := Entry(SampleId(c), SampleId('n'), [SELECTOR], ttl, OwnerHint(id));
    Converts(e);
    SendsStored(e);
    StoredAgrees(e);
    SendableMeans(r);
    CanonicalMeans(r, e);
  }

  lemma SendsStored(e: Entry)
    requires ToProto(e).Ok?
    ensures Stored(e).Some?
  {
    ToProtoWellFormed(e);
  }

  lemma SampleIdentity(id: string, c: char, state: string, ttl: int, binding: Option<EntryId>)
    requires 'a' <= c <= 'z'
    ensures Identity(Sample(id, c, state, ttl, binding)) == Some(SampleId(c))
  {
    SampleParses(c);
    hide ParseSpiffeId;
  }

  lemma SampleIdsDiffer(c: char, d: char)
    requires c != d
    ensures SampleId(c) != SampleId(d)
  {
    assert SampleId(c)[12] == c && SampleId(d)[12] == d;
  }

  // ---- A rule whose way is cleared too late ----

  function InNeed(): Rule { Sample("x", 'a', "present", 60, None) }

  function Leaving(): Rule { Sample("y", 'b', "absent", 60, Some(0)) }

  /** What row x would create. */
  function Needed(): Entry
    requires Sendable(InNeed())
  {
    Stored(DesiredEntry(InNeed()).value).value
  }

  /** Row x has no entry yet; row y is absent and still bound to an entry with the key of x's. */
  function LateWorld(): World
    requires Sendable(InNeed())
  {
    World(map["x" := InNeed(), "y" := Leaving()], map[0 := Needed().(hint := OwnerHint("y"))], 1, [])
  }

  /** What matters of it: `e` is the entry in the way, `n` the one needed. */
  predicate Late(w: World, e: Entry, n: Entry) {
    && w.rows.Keys == {"x", "y"} && w.entries == map[0 := e] && w.next == 1
    && w.rows["x"].id == "x" && w.rows["x"].binding.None? && w.rows["x"].status == Pending
    && w.rows["x"].desiredState == "present" && DesiredEntry(w.rows["x"]).Ok?
    && Stored(DesiredEntry(w.rows["x"]).value) == Some(n)
    && w.rows["y"].id == "y" && w.rows["y"].binding == Some(0) && w.rows["y"].status == Pending
    && w.rows["y"].desiredState == "absent"
    && OtherIdentity(w.rows["x"], w.rows["y"]) && OtherIdentity(w.rows["y"], w.rows["x"])
    && OwnedBy(e, "y") && !OwnedBy(e, "x") && SameKey(e, n)
  }

  lemma InNeedIs()
    ensures InNeed() == Sample("x", 'a', "present", 60, None)
    ensures Sendable(InNeed()) ==>
      && Needed() == Stored(DesiredEntry(InNeed()).value).value
      && LateWorld() == World(map["x" := InNeed(), "y" := Leaving()], map[0 := Needed().(hint := OwnerHint("y"))], 1, [])
  {
    hide OwnerHint;
    hide Stored;
    hide Sample;
  }

  lemma SendableMeans(r: Rule)
    ensures Sendable(r) <==> r.desiredState == "present" && DesiredEntry(r).Ok? && Stored(DesiredEntry(r).value).Some?
  {
    hide Stored;
    hide DesiredEntry;
  }

  lemma LateIf(x: Rule, y: Rule, n: Entry)
    requires x.id == "x" && x.binding.None? && x.status == Pending && x.desiredState == "present"
    requires DesiredEntry(x).Ok? && Stored(DesiredEntry(x).value) == Some(n) && n.hint == OwnerHint("x")
    requires y.id == "y" && y.binding == Some(0) && y.status == Pending && y.desiredState == "absent"
    requires Identity(x).Some? && Identity(y).Some? && Identity(x) != Identity(y)
    ensures var e := n.(hint := OwnerHint("y")); Late(World(map["x" := x, "y" := y], map[0 := e], 1, []), e, n)
  {
    HintInjective("x", "y");
    hide Identity;
    hide OwnerHint;
    hide Stored;
    hide DesiredEntry;
  }

  lemma LateWorldIs()
    ensures Sendable(InNeed()) && Late(LateWorld(), Needed().(hint := OwnerHint("y")), Needed())
  {
    hide *;
    SampleSends("x", 'a', 60, None);
    InNeedIs();
    LateRows();
    SendableMeans(InNeed());
    LateIf(InNeed(), Leaving(), Needed());
  }

  lemma LateRows()
    ensures var x, y := InNeed(), Leaving();
      && x.id == "x" && y.id == "y" && x.binding.None? && y.binding == Some(0)
      && x.status == y.status == Pending && x.desiredState == "present" && y.desiredState == "absent"
      && Identity(x).Some? && Identity(y).Some? && Identity(x) != Identity(y)
  {
    SampleIdentity("x", 'a', "present", 60, None);
    SampleIdentity("y", 'b', "absent", 60, Some(0));
    SampleIdsDiffer('a', 'b');
    hide SampleId;
    hide Identity;
  }

  lemma LateSound(w: World, e: Entry, n: Entry)
    requires Late(w, e, n)
    ensures Sound(w) && DistinctIdentities(w)
  {
    hide OwnedBy;
    hide OtherIdentity;
    hide SameKey;
    hide Stored;
    hide DesiredEntry;
  }

  lemma LateMoves(w: World, e: Entry, n: Entry)
    requires Late(w, e, n)
    ensures Moved(w, {"y"}) == {0} && Moved(w, {}) == {}
  {
    LateAim(w, e, n);
    hide Late;
    hide Moves;
    hide Moved;
    forall k ensures k in Moved(w, {"y"}) <==> k == 0 {
      MovedIs(w, {"y"}, k);
      if Moves(w, "y", k) { MovesBound(w, "y", k); }
    }
    NothingMoved(w);
  }

  lemma MovesBound(w: World, y: string, k: EntryId)
    requires Moves(w, y, k)
    ensures y in w.rows && w.rows[y].binding == Some(k)
  {
    hide AimOf;
    hide OwnedBy;
  }

  lemma LateAim(w: World, e: Entry, n: Entry)
    requires Late(w, e, n)
    ensures Moves(w, "y", 0) && "y" in w.rows && w.rows["y"].binding == Some(0)
  {
    hide OwnedBy;
    hide OtherIdentity;
    hide SameKey;
    hide Stored;
    hide DesiredEntry;
  }

  /** Row x sees row y's entry unless it has moved. */
  lemma LateFinds(w: World, e: Entry, n: Entry, s: set<string>)
    requires Late(w, e, n) && (s == {} || s == {"y"})
    ensures "x" in w.rows && (Unconflicted(Cleared(w, s), "x") <==> s == {"y"})
  {
    LateMoves(w, e, n);
    hide Moved;
    var c := Cleared(w, s);
    assert c.entries == if s == {} then map[0 := e] else map[];
    LateSeeks(w, e, n, c);
    hide Stored;
    hide DesiredEntry;
    hide Seeks;
    hide OtherIdentity;
    hide OwnedBy;
    OnlyEntry(c.entries, e, n);
    hide Similar;
    hide SameKey;
  }

  lemma OnlyEntry(entries: map<EntryId, Entry>, e: Entry, n: Entry)
    requires SameKey(e, n) && (entries == map[0 := e] || entries == map[])
    ensures Similar(entries, n) == if entries == map[] then None else Some(0)
  {
    if entries != map[] { assert SameKey(entries[0], n); }
  }

  lemma LateSeeks(w: World, e: Entry, n: Entry, c: World)
    requires Late(w, e, n) && c.rows == w.rows
    ensures "x" in c.rows && Seeks(c, "x") == Some(n) && !Bound(c.entries, c.rows["x"]) && Sendable(w.rows["x"])
  {
    hide Stored;
    hide DesiredEntry;
    hide OwnedBy;
    hide SameKey;
    hide OtherIdentity;
  }

  lemma LateOrder(w: World, e: Entry, n: Entry)
    requires Late(w, e, n)
    ensures var order := ["x", "y"];
      Enumerates(w, order) && order[0] == "x" && "x" in w.rows && Before(order, 0) == {} && Others(order, 0) == {"y"}
  {
    hide OwnedBy;
    hide SameKey;
    hide OtherIdentity;
    hide Stored;
    hide DesiredEntry;
    var order := ["x", "y"];
    assert order[1] == "y";
  }

  /** Listed before the row that is to clear its way, a row needs two undisturbed runs: the first
      reports a conflict, the second converges. */
  lemma TwoRunsNeeded()
    ensures Sendable(InNeed())
    ensures var w, order := LateWorld(), ["x", "y"];
      && Sound(w) && DistinctIdentities(w) && Enumerates(w, order) && !Recovers(w, order, "x")
      && var once, twice := Recovered(w, [], order, NO_FAULTS), Recovered(w, [NO_FAULTS], order, NO_FAULTS);
      && "x" in once.rows && once.rows["x"].status == Errored
      && "x" in twice.rows && twice.rows["x"].status == Converged
  {
    hide *;
    LateWorldIs();
    var w, order, n := LateWorld(), ["x", "y"], Needed();
    var e := n.(hint := OwnerHint("y"));
    LateSound(w, e, n);
    LateOrder(w, e, n);
    LateFinds(w, e, n, {});
    LateFinds(w, e, n, {"y"});
    LateSeeks(w, e, n, w);
    TimelyIs(w, order, 0);
    UntimelyDiffers(w, order, 0);
    CrashRecovery(w, order, 0);
  }

  // ---- A mark on a revision that was never reconciled ----

  function Fresh(): State { State(World(map[], map[], 0, []), map[], Idle, map[]) }

  /** A replacement that only asks for another TTL. */
  function LongerTtl(): ReplaceInput { ReplaceInput(1, "present", [SELECTOR], SampleId('n'), 120) }

  /** A rule is added and a run starts on it. */
  function Early(): seq<Step> { [AddRule(InNeed()), Begin(["x"])] }

  /** The run creates the entry and audits it; then the replacement commits. */
  function Meanwhile(): seq<Step> { [Step.Call(Fine(0)), Step.Call(Fine(0)), Replace("x", LongerTtl())] }

  /** A run on rule `r` alone, at point `p`, with what it has made. */
  predicate OnRun(s: State, r: Rule, entries: map<EntryId, Entry>, p: Point) {
    && s.w.rows == map[r.id := r] && s.w.entries == entries
    && s.run.Active? && s.run.todo == [] && s.run.current == r && s.run.point == p
  }

  lemma FirstSteps(r: Rule, d: Entry)
    requires r.id == "x" && r.binding.None? && r.status == Pending && r.lastError.None?
    requires r.desiredState == "present" && DesiredEntry(r) == Ok(d)
    ensures OnRun(Play(Fresh(), [AddRule(r), Begin(["x"])]), r, map[], Create(d))
    ensures Play(Fresh(), [AddRule(r), Begin(["x"])]).w.next == 0
  {
    hide DesiredEntry;
    hide OwnerHint;
    hide OtherIdentity;
    var s0, order := Fresh(), ["x"];
    assert Enabled(s0, AddRule(r));
    var s1 := Next(s0, AddRule(r));
    assert s1.w.rows == map["x" := r] && s1.w.entries == map[] && s1.run.Idle?;
    assert Enabled(s1, Begin(order));
    var s2 := Next(s1, Begin(order));
    assert ListRows(s1.w, order) == [r];
    assert [r][1..] == [];
    PlayTwo(s0, AddRule(r), Begin(order));
  }

  lemma PlayTwo(s: State, a: Step, b: Step)
    requires Enabled(s, a) && Enabled(Next(s, a), b)
    ensures Play(s, [a, b]) == Next(Next(s, a), b)
  {
    hide Enabled;
    hide Next;
    assert [a, b][1..] == [b] && [b][1..] == [];
    assert Play(Next(s, a), [b]) == Play(Next(Next(s, a), b), []);
  }

  lemma PlayThree(s: State, a: Step, b: Step, c: Step)
    requires Enabled(s, a) && Enabled(Next(s, a), b) && Enabled(Next(Next(s, a), b), c)
    requires !Disturbs(s, a) && !Disturbs(Next(s, a), b) && !Disturbs(Next(Next(s, a), b), c)
    ensures Play(s, [a, b, c]) == Next(Next(Next(s, a), b), c) && Undisturbed(s, [a, b, c])
  {
    hide Enabled;
    hide Next;
    hide Disturbs;
    assert [a, b, c][1..] == [b, c] && [b, c][1..] == [c] && [c][1..] == [];
    var s1 := Next(s, a);
    var s2 := Next(s1, b);
    assert Undisturbed(Next(s2, c), []);
    assert Undisturbed(s2, [c]);
    assert Undisturbed(s1, [b, c]);
    assert Play(s2, [c]) == Play(Next(s2, c), []);
    assert Play(s1, [b, c]) == Play(s2, [c]);
  }

  lemma CreateFirst(s: State, r: Rule, d: Entry, n: Entry)
    requires OnRun(s, r, map[], Create(d)) && s.w.next == 0 && Stored(d) == Some(n) && OwnedBy(n, r.id)
    ensures Enabled(s, Step.Call(Fine(0)))
    ensures OnRun(Next(s, Step.Call(Fine(0))), r, map[0 := n], Record("create", Some(0), Some(0), true))
  {
    NothingSimilar(n);
    hide Stored;
    hide OwnedBy;
    hide Similar;
  }

  lemma NothingSimilar(n: Entry)
    ensures Similar(map[], n) == None
  {
  }

  lemma AppendNext(s: State, r: Rule, n: Entry)
    requires OnRun(s, r, map[0 := n], Record("create", Some(0), Some(0), true))
    ensures Enabled(s, Step.Call(Fine(0))) && OnRun(Next(s, Step.Call(Fine(0))), r, map[0 := n], Mark(Some(0), true))
  {
  }

  lemma ReplaceNext(s: State, r: Rule, n: Entry, input: ReplaceInput)
    requires OnRun(s, r, map[0 := n], Mark(Some(0), true)) && r.id == "x" && r.revision == input.expectedRevision
    ensures Enabled(s, Replace("x", input))
    ensures var s' := Next(s, Replace("x", input));
      s'.run == s.run && s'.w.entries == s.w.entries && s'.w.rows == map["x" := Replaced(r, input)]
  {
  }

  /** The replaced rule asks for another TTL, so for another entry. */
  lemma WishDiffers()
    ensures var row := Replaced(InNeed(), LongerTtl());
      CanonicalRule(InNeed()) && CanonicalRule(row) && !SameWish(InNeed(), row) && row.revision == 2 && row.id == "x"
  {
    SampleSends("x", 'a', 60, None);
    SampleSends("x", 'a', 120, None);
    ReplacedDesire();
    hide OwnerHint;
    hide CanonicalEntry;
    hide SampleId;
    hide Stored;
  }

  lemma ReplacedDesire()
    ensures var row, other := Replaced(InNeed(), LongerTtl()), Sample("x", 'a', "present", 120, None);
      && DesiredEntry(row) == DesiredEntry(other) && row.desiredState == other.desiredState
      && row.revision == 2 && row.id == "x"
  {
    hide OwnerHint;
    hide SampleId;
  }

  lemma StepsAre()
    ensures Early() == [AddRule(InNeed()), Begin(["x"])]
    ensures Meanwhile() == [Step.Call(Fine(0)), Step.Call(Fine(0)), Replace("x", LongerTtl())]
  {
  }

  lemma LaterSteps(s: State, r: Rule, d: Entry, n: Entry, input: ReplaceInput)
    requires OnRun(s, r, map[], Create(d)) && s.w.next == 0 && Stored(d) == Some(n) && n.hint == OwnerHint(r.id)
    requires r.id == "x" && r.revision == input.expectedRevision
    ensures var late := [Step.Call(Fine(0)), Step.Call(Fine(0)), Replace("x", input)];
      && Undisturbed(s, late)
      && var s' := Play(s, late);
         && s'.run.Active? && s'.run.current == r && s'.run.point == Mark(Some(0), true)
         && s'.w.rows == map["x" := Replaced(r, input)]
    ensures s.run.Active? && s.run.point.Create?
  {
    hide Stored;
    hide OwnerHint;
    hide Next;
    hide Enabled;
    CreateFirst(s, r, d, n);
    var s3 := Next(s, Step.Call(Fine(0)));
    AppendNext(s3, r, n);
    var s4 := Next(s3, Step.Call(Fine(0)));
    ReplaceNext(s4, r, n, input);
    PlayThree(s, Step.Call(Fine(0)), Step.Call(Fine(0)), Replace("x", input));
  }

  lemma AtMarkIf(s0: State, early: seq<Step>, late: seq<Step>, r: Rule)
    requires Init(s0) && Undisturbed(Play(s0, early), late)
    requires var before := Play(s0, early).run; before.Active? && before.point.Create?
    requires var run := Play(Play(s0, early), late).run; run.Active? && run.point.Mark?
    ensures AtMark(s0, early, late)
  {
    hide Play;
    hide Init;
    hide Undisturbed;
  }

  lemma HistoryAtMark()
    ensures AtMark(Fresh(), Early(), Meanwhile())
    ensures var s := Play(Play(Fresh(), Early()), Meanwhile());
      && s.run.current == InNeed() && s.w.rows == map["x" := Replaced(InNeed(), LongerTtl())]
  {
    hide *;
    var r := InNeed();
    SampleSends("x", 'a', 60, None);
    InNeedIs();
    SendableMeans(r);
    InNeedFacts();
    StepsAre();
    FirstSteps(r, DesiredEntry(r).value);
    LaterSteps(Play(Fresh(), Early()), r, DesiredEntry(r).value, Stored(DesiredEntry(r).value).value, LongerTtl());
    AtMarkIf(Fresh(), Early(), Meanwhile(), r);
  }

  lemma InNeedFacts()
    ensures var r := InNeed();
      && r.id == "x" && r.binding.None? && r.status == Pending && r.lastError.None?
      && r.desiredState == "present" && r.revision == 1 && LongerTtl().expectedRevision == 1
    ensures Init(Fresh())
  {
    hide SampleId;
  }

  /** Add a rule, begin a run, create its entry, audit it, replace the rule, mark it: the row says
      converged at a revision that SPIRE knows nothing of. */
  lemma MarkedButNotTrue()
    ensures var s := Play(Play(Fresh(), Early()), Meanwhile());
      && Enabled(s, Step.Call(Fine(0)))
      && var w := Next(s, Step.Call(Fine(0))).w;
         "x" in w.rows && w.rows["x"].status == Converged && w.rows["x"].revision == 2 && !Agrees(w, "x")
  {
    hide *;
    HistoryAtMark();
    WishDiffers();
    InNeedFacts();
    var s := Play(Play(Fresh(), Early()), Meanwhile());
    CanMark(Fresh(), Early(), Meanwhile());
    StaleMark(Fresh(), Early(), Meanwhile(), 0);
    StaleMarkDecides(Fresh(), Early(), Meanwhile(), 0);
    SameRevision(Next(s, Step.Call(Fine(0))).w.rows["x"], s.w.rows["x"]);
  }

  lemma CanMark(s0: State, early: seq<Step>, late: seq<Step>)
    requires AtMark(s0, early, late)
    ensures Enabled(Play(Play(s0, early), late), Step.Call(Fine(0)))
  {
    hide Play;
    hide Init;
    hide Undisturbed;
  }

  lemma SameRevision(r: Rule, q: Rule)
    requires Desire(r) == Desire(q)
    ensures r.revision == q.revision
  {
    assert Desire(r).revision == r.revision && Desire(q).revision == q.revision;
  }
}

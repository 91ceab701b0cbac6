/** A second run after a clean one does nothing exactly when the IDs in use are canonical. */
module Idempotence {
  import opened Text
  import opened Spiffe
  import opened Entries
  import opened Registration
  import opened Backends
  import opened Protocol
  import opened Frame
  import opened Goals
  import opened Recovery
  import opened Runs
  import opened Convergence

  /** The row needs nothing more: absent, or bound to an entry that compares equal. */
  predicate Calm(w: World, x: string)
    requires x in w.rows
  {
    var r := w.rows[x];
    r.desiredState == "present" ==> DesiredEntry(r).Ok? && Bound(w.entries, r) &&
                                    Equivalent(w.entries[r.binding.value], DesiredEntry(r).value)
  }

  lemma CalmPass(w: World, fs: Faults, x: string)
    requires x in w.rows && w.rows[x].id == x && Agrees(w, x) && Calm(w, x) && FaultFree(fs)
    ensures var end := Pass(w, fs, w.rows[x], Start(w.rows[x]));
            end.w == w && end.outcome == Settled(false) && FaultFree(end.fs)
  {
    hide Stored;
    hide OwnerHint;
    hide Equivalent;
    var r := w.rows[x];
    if r.desiredState == "present" {
      var p := Start(r);
      PassOn(w, fs, r, p);
      FaultFreeStays(fs, NextCall(p));
      PassOver(w, After(fs, NextCall(p)), r, Settled(false));
    } else {
      PassOver(w, fs, r, Settled(false));
    }
  }

  /** A bound entry that agrees but does not compare equal is written again: the pass reports a change. */
  lemma RestlessPass(w: World, fs: Faults, x: string)
    requires Sound(w) && x in w.rows && Agrees(w, x) && !Calm(w, x) && FaultFree(fs)
    ensures Pass(w, fs, w.rows[x], Start(w.rows[x])).outcome == Settled(true)
  {
    var r := w.rows[x];
    var k := r.binding.value;
    var d := DesiredEntry(r).value;
    assert r.id == x && Stored(d) == Some(w.entries[k]);
    RestlessSteps(w, fs, x, k, d);
  }

  lemma RestlessSteps(w: World, fs: Faults, x: string, k: EntryId, d: Entry)
    requires Sound(w) && x in w.rows && FaultFree(fs)
    requires var r := w.rows[x]; r.desiredState == "present" && DesiredEntry(r) == Ok(d) && r.binding == Some(k)
    requires k in w.entries && OwnedBy(w.entries[k], x) && !Equivalent(w.entries[k], d) && Stored(d) == Some(w.entries[k])
    ensures Pass(w, fs, w.rows[x], Start(w.rows[x])).outcome == Settled(true)
  {
    hide Stored;
    hide OwnerHint;
    hide Equivalent;
    hide Pass;
    var r := w.rows[x];
    assert r.id == x;
    PassOn(w, fs, r, FetchPresent(k, d));
    FaultFreeStays(fs, GetEntry(k));
    var fs1 := After(fs, GetEntry(k));
    assert w.entries[k := w.entries[k]] == w.entries;
    PassOn(w, fs1, r, UpdateBound(k, d));
    FaultFreeStays(fs1, UpdateEntry(k, d));
    var fs2 := After(fs1, UpdateEntry(k, d));
    RecordedPass(w, fs2, x, k);
  }

  lemma NotTaken(w: World, x: string, k: EntryId)
    requires Sound(w) && x in w.rows && k in w.entries && OwnedBy(w.entries[k], x)
    ensures w.rows[x].id == x && !Taken(w.rows, x, Some(k))
  {
    hide OwnedBy;
    assert forall y :: y in w.rows && y != x && w.rows[y].binding == Some(k) ==> !Apart(w, y, x);
  }

  lemma RecordedPass(w: World, fs: Faults, x: string, k: EntryId)
    requires Sound(w) && x in w.rows && FaultFree(fs) && k in w.entries && OwnedBy(w.entries[k], x)
    ensures Pass(w, fs, w.rows[x], Record("update", Some(k), Some(k), true)).outcome == Settled(true)
  {
    hide OwnerHint;
    hide Pass;
    hide Sound;
    hide OwnedBy;
    hide FaultFree;
    NotTaken(w, x, k);
    hide Taken;
    var r := w.rows[x];
    PassOn(w, fs, r, Record("update", Some(k), Some(k), true));
    FaultFreeStays(fs, Append("update", Some(k)));
    var fs1 := After(fs, Append("update", Some(k)));
    var w1 := w.(log := w.log + [Reconciled(x, "update", Some(k))]);
    PassOn(w1, fs1, r, Mark(Some(k), true));
    FaultFreeStays(fs1, MarkConverged(Some(k)));
    PassOver(Exec(w1, x, MarkConverged(Some(k)), FaultFor(fs1, MarkConverged(Some(k)))).0,
             After(fs1, MarkConverged(Some(k))), r, Settled(true));
  }

  predicate AllQuiet(outcomes: seq<Outcome>) {
    forall i :: 0 <= i < |outcomes| ==> outcomes[i] == Settled(false)
  }

  predicate Silent(w: World, end: RunEnd) { end.w == w && AllQuiet(end.outcomes) }

  predicate AllCalm(w: World, rules: seq<Rule>)
    requires Listed(w, rules)
  {
    forall i :: 0 <= i < |rules| ==> Calm(w, rules[i].id)
  }

  lemma SilentNone(w: World, fs: Faults)
    ensures Silent(w, RunOver(w, fs, [])) && Listed(w, []) && AllCalm(w, [])
  {
  }

  /** A run over agreeing rows is silent exactly when all of them are calm. */
  lemma {:induction false} SilentRun(w: World, fs: Faults, rules: seq<Rule>)
    requires Sound(w) && DistinctIdentities(w) && Listed(w, rules) && FaultFree(fs)
    requires forall i :: 0 <= i < |rules| ==> Agrees(w, rules[i].id)
    ensures Silent(w, RunOver(w, fs, rules)) <==> AllCalm(w, rules)
    decreases |rules|
  {
    hide Pass;
    hide Touches;
    hide Met;
    hide Keeps;
    hide RunOver;
    hide Sound;
    hide DistinctIdentities;
    hide FaultFree;
    hide Agrees;
    hide Calm;
    hide AllQuiet;
    hide AllCalm;
    hide Start;
    if rules == [] {
      SilentNone(w, fs);
    } else {
      var x := rules[0].id;
      var first := HeadPass(w, fs, rules);
      IsListed(w, rules, 0);
      RunOn(w, fs, rules);
      var tail := rules[1..];
      CalmSplit(w, rules);
      if Calm(w, x) {
        CalmPass(w, fs, x);
        assert forall i :: 0 <= i < |tail| ==> tail[i] == rules[i + 1];
        SilentRun(w, first.fs, tail);
        QuietSplit(first.outcome, RunOver(w, first.fs, tail).outcomes);
      } else {
        RestlessPass(w, fs, x);
        QuietSplit(first.outcome, RunOver(first.w, first.fs, tail).outcomes);
      }
    }
  }

  lemma QuietSplit(o: Outcome, outcomes: seq<Outcome>)
    ensures AllQuiet([o] + outcomes) <==> o == Settled(false) && AllQuiet(outcomes)
  {
    var all := [o] + outcomes;
    assert all[0] == o;
    assert forall i :: 0 <= i < |outcomes| ==> all[i + 1] == outcomes[i];
    assert forall i :: 0 < i < |all| ==> all[i] == outcomes[i - 1];
  }

  lemma CalmSplit(w: World, rules: seq<Rule>)
    requires rules != [] && Listed(w, rules)
    ensures Listed(w, rules[1..])
    ensures AllCalm(w, rules) <==> Calm(w, rules[0].id) && AllCalm(w, rules[1..])
  {
    hide Calm;
    var tail := rules[1..];
    assert forall i :: 0 <= i < |tail| ==> tail[i] == rules[i + 1];
    assert forall i :: 0 < i < |rules| ==> rules[i] == tail[i - 1];
  }

  /** The server's entries are read back in canonical form. */
  predicate ReadsCanonical(w: World) {
    forall k :: k in w.entries ==> CanonicalEntry(w.entries[k])
  }

  /** The row's own IDs are over the alphabet. */
  predicate PlainRule(r: Rule) {
    InAlphabet(r.workloadSpiffeId) && (r.parent.Some? ==> InAlphabet(r.parent.value))
  }

  /** What point `p` wants to write is the rule's desired entry. */
  predicate Intends(r: Rule, p: Point) {
    p.FetchPresent? || p.Create? || p.UpdateBound? || p.UpdateExisting? ==> DesiredEntry(r) == Ok(p.desired)
  }

  lemma IntendsOn(r: Rule, p: Point, reply: Reply)
    requires !p.End? && Intends(r, p)
    ensures Intends(r, Advance(r, p, reply))
  {
    hide DesiredEntry;
    hide Equivalent;
    hide OwnedBy;
  }

  lemma EffectReads(w: World, r: Rule, p: Point, skip: nat)
    requires ReadsCanonical(w) && PlainRule(r) && !p.End? && Intends(r, p)
    ensures ReadsCanonical(Effect(w, r.id, NextCall(p), skip).0)
  {
    hide Stored;
    hide CanonicalEntry;
    hide Similar;
    hide OwnerHint;
    hide InAlphabet;
    if p.Create? || p.UpdateBound? || p.UpdateExisting? {
      if Stored(p.desired).Some? { StoredIsCanonical(p.desired); }
    }
  }

  lemma StepReads(w: World, r: Rule, p: Point, f: Fault)
    requires ReadsCanonical(w) && PlainRule(r) && !p.End? && Intends(r, p)
    ensures ReadsCanonical(Exec(w, r.id, NextCall(p), f).0)
  {
    hide Effect;
    hide ReadsCanonical;
    hide NextCall;
    if !f.Refused? { EffectReads(w, r, p, f.skip); }
  }

  lemma {:induction false} PassReads(w: World, fs: Faults, r: Rule, p: Point)
    requires ReadsCanonical(w) && PlainRule(r) && Intends(r, p)
    ensures ReadsCanonical(Pass(w, fs, r, p).w)
    decreases Rank(p)
  {
    hide ReadsCanonical;
    hide Intends;
    hide PlainRule;
    hide Exec;
    hide NextCall;
    hide Advance;
    if !p.End? {
      var call := NextCall(p);
      var (w', reply) := Exec(w, r.id, call, FaultFor(fs, call));
      StepReads(w, r, p, FaultFor(fs, call));
      IntendsOn(r, p, reply);
      RankFalls(r, p, reply);
      PassReads(w', After(fs, call), r, Advance(r, p, reply));
    }
  }

  lemma StartIntends(r: Rule)
    ensures Intends(r, Start(r))
  {
    hide DesiredEntry;
  }

  /** Rows over the alphabet only ever put canonical entries on the server. */
  lemma {:induction false} RunReads(w: World, fs: Faults, rules: seq<Rule>)
    requires ReadsCanonical(w) && forall i :: 0 <= i < |rules| ==> PlainRule(rules[i])
    ensures ReadsCanonical(RunOver(w, fs, rules).w)
    decreases |rules|
  {
    hide ReadsCanonical;
    hide PlainRule;
    hide Pass;
    hide Start;
    if rules != [] {
      StartIntends(rules[0]);
      PassReads(w, fs, rules[0], Start(rules[0]));
      var first := Pass(w, fs, rules[0], Start(rules[0]));
      RunReads(first.w, first.fs, rules[1..]);
    }
  }

  /** What is wanted compares equal exactly when the desired IDs are canonical. */
  lemma CanonicalDecides(e: Entry, d: Entry)
    requires CanonicalEntry(e) && Wanted(e, d)
    ensures Equivalent(e, d) <==> CanonicalEntry(d)
  {
    hide Stored;
    if Stored(d) == Some(e) { StoredAgrees(d); }
    hide Spiffe.Canonical;
  }

  predicate CanonicalRule(r: Rule) {
    r.desiredState == "present" ==> DesiredEntry(r).Ok? && CanonicalEntry(DesiredEntry(r).value)
  }

  /** Every listed rule counts as converged. */
  predicate AllSettled(end: RunEnd) {
    forall i :: 0 <= i < |end.outcomes| ==> end.outcomes[i].Settled?
  }

  predicate AllCanonical(rules: seq<Rule>) {
    forall i :: 0 <= i < |rules| ==> CanonicalRule(rules[i])
  }

  lemma ListedIds(w: World, order: seq<string>, i: nat)
    requires Sound(w) && Enumerates(w, order) && i < |order|
    ensures ListRows(w, order)[i].id == order[i]
  {
  }

  /** Entry `e` is what row `r` says, its IDs as the server writes them. */
  predicate DeliversExactly(e: Entry, r: Rule) {
    && Delivers(e, r) && r.parent.Some?
    && ParseSpiffeId(r.workloadSpiffeId).Ok? && ParseSpiffeId(r.parent.value).Ok?
    && e.spiffeId == FormatSpiffeId(ParseSpiffeId(r.workloadSpiffeId).value)
    && e.parentId == FormatSpiffeId(ParseSpiffeId(r.parent.value).value)
  }

  lemma CanonicalDelivers(e: Entry, r: Rule)
    requires CanonicalEntry(e) && Delivers(e, r)
    ensures DeliversExactly(e, r)
  {
    hide ParseSpiffeId;
    hide FormatSpiffeId;
  }

  /** Over the alphabet both IDs are the formatted parse of the row's. */
  lemma ConvergedDeliversExactly(w: World, fs: Faults, rules: seq<Rule>, i: nat)
    requires Sound(w) && DistinctIdentities(w) && Listed(w, rules) && i < |rules| && rules[i].desiredState == "present"
    requires ReadsCanonical(w) && forall j :: 0 <= j < |rules| ==> PlainRule(rules[j])
    ensures var end, x := RunOver(w, fs, rules), rules[i].id;
      end.outcomes[i].Settled? ==>
        x in end.w.rows && Bound(end.w.entries, end.w.rows[x])
        && DeliversExactly(end.w.entries[end.w.rows[x].binding.value], rules[i])
  {
    hide *;
    var end, x := RunOver(w, fs, rules), rules[i].id;
    ConvergedDelivers(w, fs, rules, i);
    RunReads(w, fs, rules);
    if end.outcomes[i].Settled? {
      DeliveredMeans(end.w, rules[i]);
      var k := end.w.rows[x].binding.value;
      ReadsAt(end.w, k);
      CanonicalDelivers(end.w.entries[k], rules[i]);
    }
  }

  lemma DeliveredMeans(w: World, r: Rule)
    requires IsDelivered(w, r)
    ensures r.id in w.rows && Bound(w.entries, w.rows[r.id]) && w.rows[r.id].binding.Some?
    ensures w.rows[r.id].binding.value in w.entries && Delivers(w.entries[w.rows[r.id].binding.value], r)
  {
    hide Delivers;
  }

  lemma ReadsAt(w: World, k: EntryId)
    requires ReadsCanonical(w) && k in w.entries
    ensures CanonicalEntry(w.entries[k])
  {
    hide CanonicalEntry;
  }

  /** Idempotence: after any run, faulty or not, in which every rule converged, an undisturbed one
      changes nothing at all and reports no change, if and only if every present rule's workload
      and parent IDs are canonical. */
  lemma SecondRunSilent(w: World, fs: Faults, fs': Faults, order: seq<string>)
    requires Sound(w) && DistinctIdentities(w) && ReadsCanonical(w) && FaultFree(fs')
    requires Enumerates(w, order) && forall i :: 0 <= i < |order| ==> PlainRule(ListRows(w, order)[i])
    requires AllSettled(RunOver(w, fs, ListRows(w, order)))
    ensures var w1 := RunOver(w, fs, ListRows(w, order)).w;
      Enumerates(w1, order) &&
      (Silent(w1, RunOver(w1, fs', ListRows(w1, order))) <==> AllCanonical(ListRows(w, order)))
  {
    hide Sound;
    hide DistinctIdentities;
    hide ReadsCanonical;
    hide FaultFree;
    hide RunOver;
    hide Calm;
    hide Agrees;
    hide CanonicalRule;
    hide PlainRule;
    var rules := ListRows(w, order);
    var w1 := RunOver(w, fs, rules).w;
    ListRowsListed(w, order);
    RunSound(w, fs, rules);
    ListRowsListed(w1, order);
    RunReads(w, fs, rules);
    OutcomePerRule(w, fs, rules);
    var again := ListRows(w1, order);
    forall i | 0 <= i < |rules|
      ensures again[i].id == order[i] && Agrees(w1, order[i]) && (Calm(w1, order[i]) <==> CanonicalRule(rules[i]))
    {
      ListedIds(w, order, i);
      ListedIds(w1, order, i);
      ConvergedIsTrue(w, fs, rules, i);
      IsListed(w, rules, i);
      DesireRuns(w, fs, rules, order[i]);
      CalmDecides(w1, order[i], rules[i]);
    }
    SilentRun(w1, fs', again);
  }

  lemma CalmDecides(w: World, x: string, r: Rule)
    requires x in w.rows && Agrees(w, x) && ReadsCanonical(w) && Desire(w.rows[x]) == Desire(r)
    ensures Calm(w, x) <==> CanonicalRule(r)
  {
    DesireSame(r, w.rows[x]);
    hide Desire;
    hide DesiredEntry;
    hide Wanted;
    hide CanonicalEntry;
    hide Equivalent;
    if r.desiredState == "present" {
      CanonicalDecides(w.entries[w.rows[x].binding.value], DesiredEntry(r).value);
    }
  }

  lemma DesireSame(r: Rule, s: Rule)
    requires Desire(r) == Desire(s)
    ensures DesiredEntry(r) == DesiredEntry(s) && r.desiredState == s.desiredState
  {
    hide OwnerHint;
    assert DesiredEntry(Desire(r)) == DesiredEntry(r) && DesiredEntry(Desire(s)) == DesiredEntry(s);
    assert Desire(r).desiredState == r.desiredState;
  }

  // ---- A dead process ----

  predicate Silenced(s: seq<Fault>, n: nat) {
    n <= |s| && forall i :: 0 <= i < n ==> s[i].Refused?
  }

  predicate AllSilenced(fs: Faults, n: nat) {
    Silenced(fs.rules, n) && Silenced(fs.spire, n) && Silenced(fs.audit, n)
  }

  /** From any point of a pass, calls that reach no store change nothing and end the pass. */
  lemma DeadPass(w: World, fs: Faults, r: Rule, p: Point, n: nat) returns (end: PassEnd)
    requires n > 0 && AllSilenced(fs, n)
    ensures end == Pass(w, fs, r, p) && end.w == w && AllSilenced(end.fs, n - 1)
  {
    hide OwnerHint;
    hide Equivalent;
    end := Pass(w, fs, r, p);
    if !p.End? {
      var call := NextCall(p);
      PassOn(w, fs, r, p);
      Derails(r, p);
      var fs1 := After(fs, call);
      var q := Advance(r, p, Failed);
      if q.Fail? {
        PassOn(w, fs1, r, q);
        FailEnds(r, q.code, Failed);
        PassOver(w, After(fs1, MarkError(q.code)), r, Broken);
      } else {
        PassOver(w, fs1, r, Broken);
      }
    }
  }

  lemma {:induction false} DeadRules(w: World, fs: Faults, rules: seq<Rule>)
    requires AllSilenced(fs, |rules|)
    ensures RunOver(w, fs, rules).w == w
    decreases |rules|
  {
    if rules != [] {
      var first := DeadPass(w, fs, rules[0], Start(rules[0]), |rules|);
      DeadRules(w, first.fs, rules[1..]);
    }
  }

  /** A process whose calls no longer reach any store changes nothing, so a run cut after any call
      of any pass leaves the world as it is when the rest of that run's calls are refused. */
  lemma DeadRun(w: World, fs: Faults, r: Rule, p: Point, rest: seq<Rule>)
    requires AllSilenced(fs, |rest| + 1)
    ensures var cut := Pass(w, fs, r, p); cut.w == w && RunOver(cut.w, cut.fs, rest).w == w
  {
    var cut := DeadPass(w, fs, r, p, |rest| + 1);
    DeadRules(w, cut.fs, rest);
  }
}

/** What runs achieve: truth of `converged` and self-stabilisation. */
module Convergence {
  import opened Text
  import opened Spiffe
  import opened Entries
  import opened Registration
  import opened Backends
  import opened Protocol
  import opened Frame
  import opened Goals
  import opened Recovery
  import opened Runs

  // ---- Any number of runs ----

  lemma ListRowsListed(w: World, order: seq<string>)
    requires Sound(w) && Enumerates(w, order)
    ensures Listed(w, ListRows(w, order))
  {
  }

  lemma {:induction false} RunSound(w: World, fs: Faults, rules: seq<Rule>)
    requires Sound(w) && DistinctIdentities(w) && Listed(w, rules)
    ensures var w' := RunOver(w, fs, rules).w;
            Sound(w') && DistinctIdentities(w') && w'.rows.Keys == w.rows.Keys
    decreases |rules|
  {
    if rules != [] {
      var first := HeadPass(w, fs, rules);
      RunSound(first.w, first.fs, rules[1..]);
    }
  }

  /** The world after any number of runs, each hit by its own faults or cut short. */
  function AfterRuns(w: World, runs: seq<Faults>, order: seq<string>): World
    requires Sound(w) && DistinctIdentities(w) && Enumerates(w, order)
    decreases |runs|
  {
    if runs == [] then w
    else
      ListRowsListed(w, order);
      RunSound(w, runs[0], ListRows(w, order));
      AfterRuns(RunOver(w, runs[0], ListRows(w, order)).w, runs[1..], order)
  }

  /** How many entries carry a rule's hint, read off its picture. */
  lemma HoldingsCount(w: World, x: string)
    requires x in w.rows
    ensures var p := PictureOf(w, x);
            |Holdings(w.entries, x)| == |p.others| + (if p.anchor.Holds? then 1 else 0)
  {
    var own := Holdings(w.entries, x);
    var p := PictureOf(w, x);
    if p.anchor.Holds? {
      var b := w.rows[x].binding.value;
      assert own == p.others[b := own[b]];
    }
  }

  // ---- Truth of success ----

  /** SPIRE's entry is what the rule asks for: equal up to the order of selectors, or what the
      server makes of the desired entry. */
  predicate Wanted(e: Entry, d: Entry) { Equivalent(e, d) || Stored(d) == Some(e) }

  /** The row says converged, and SPIRE agrees. */
  predicate Agrees(w: World, x: string)
    requires x in w.rows
  {
    var r := w.rows[x];
    && r.status == Converged && r.lastError.None?
    && (r.desiredState == "present" ==>
          && DesiredEntry(r).Ok? && Bound(w.entries, r)
          && OwnedBy(w.entries[r.binding.value], x) && Wanted(w.entries[r.binding.value], DesiredEntry(r).value))
    && (r.desiredState == "absent" ==> r.binding.None?)
    && (r.desiredState == "present" || r.desiredState == "absent")
  }

  /** `id` is the ID that the text `raw` stands for: that text, or what its parse is formatted to. */
  predicate StandsFor(id: string, raw: string) {
    id == raw || (ParseSpiffeId(raw).Ok? && id == FormatSpiffeId(ParseSpiffeId(raw).value))
  }

  /** Entry `e` is what row `r` says, field by field. */
  predicate Delivers(e: Entry, r: Rule) {
    && r.parent.Some? && StandsFor(e.spiffeId, r.workloadSpiffeId) && StandsFor(e.parentId, r.parent.value)
    && multiset(e.selectors) == multiset(r.selectors) && e.ttl == r.ttl && e.hint == "wtp-rule:" + r.id
  }

  /** What a rule wants is what its row says. */
  lemma WantedDelivers(e: Entry, r: Rule)
    requires DesiredEntry(r).Ok? && Wanted(e, DesiredEntry(r).value)
    ensures Delivers(e, r)
  {
    hide Stored; hide ParseSpiffeId; hide FormatSpiffeId;
    var d := DesiredEntry(r).value;
    if Stored(d) == Some(e) { StoredAgrees(d); }
  }

  lemma BoundFacts(w: World, x: string)
    requires x in w.rows && Agrees(w, x) && w.rows[x].desiredState == "present"
    ensures var r := w.rows[x];
      DesiredEntry(r).Ok? && Bound(w.entries, r) && r.binding.Some? && r.binding.value in w.entries
      && Wanted(w.entries[r.binding.value], DesiredEntry(r).value)
  {
    hide Wanted;
    hide DesiredEntry;
    hide OwnedBy;
  }

  /** A present row that agrees is bound to an entry that is what the row says. */
  lemma AgreesDelivers(w: World, x: string)
    requires x in w.rows && Agrees(w, x) && w.rows[x].desiredState == "present"
    ensures Bound(w.entries, w.rows[x]) && Delivers(w.entries[w.rows[x].binding.value], w.rows[x])
  {
    BoundFacts(w, x);
    WantedDelivers(w.entries[w.rows[x].binding.value], w.rows[x]);
    hide *;
  }

  lemma ConvergedGoal(w: World, x: string)
    requires x in w.rows && Goal(w, x).row.status == Converged && !AimOf(w.entries, w.rows[x]).Reject?
    requires w.rows[x].id == x
    ensures var r := w.rows[x];
      && (r.desiredState == "present" ==>
            Goal(w, x).anchor.Holds? && DesiredEntry(r).Ok? && Wanted(Goal(w, x).anchor.entry, DesiredEntry(r).value))
      && (r.desiredState == "absent" ==> Goal(w, x).anchor.Unbound?)
      && (r.desiredState == "present" || r.desiredState == "absent")
      && Goal(w, x).row.lastError.None?
  {
    hide Stored;
    hide OwnerHint;
    hide Equivalent;
    hide Similar;
  }

  lemma MetAgrees(w: World, x: string, o: Outcome)
    requires Sound(w) && x in w.rows && Met(w, x, o) && o.Settled?
    ensures Agrees(w, x)
  {
    assert w.rows[x].id == x;
    assert Goal(w, x).row.status == Converged;
    RejectErrs(w, x);
    ConvergedGoal(w, x);
    hide Sound;
    hide Goal;
    hide AimOf;
    hide Wanted;
    hide OwnerHint;
    hide DesiredEntry;
    assert PictureOf(w, x) == Goal(w, x);
    assert Goal(w, x).anchor.Holds? ==> Bound(w.entries, w.rows[x]);
    SameDesired(w.rows[x]);
  }

  lemma SameDesired(r: Rule)
    ensures DesiredEntry(r.(binding := None)) == DesiredEntry(r)
  {
  }

  /** Another rule's pass does not undo agreement. */
  lemma AgreesStays(w: World, w': World, r: Rule, x: string)
    requires Sound(w) && Touches(w, w', r) && r.id in w.rows && r.id != x && x in w.rows && Agrees(w, x)
    ensures x in w'.rows && Agrees(w', x)
  {
    hide Wanted;
    hide OwnerHint;
    hide DesiredEntry;
    BoundKept(w, w', r, x);
  }

  lemma {:induction false} AgreesPasses(w: World, fs: Faults, rules: seq<Rule>, x: string)
    requires Sound(w) && DistinctIdentities(w) && Listed(w, rules) && x in w.rows && Agrees(w, x)
    requires forall i :: 0 <= i < |rules| ==> rules[i].id != x
    ensures var end := RunOver(w, fs, rules); x in end.w.rows && Agrees(end.w, x)
    decreases |rules|
  {
    hide Sound;
    hide DistinctIdentities;
    hide Touches;
    hide Agrees;
    hide Keeps;
    hide Met;
    hide FaultFree;
    hide Pass;
    hide Start;
    if rules != [] {
      var first := HeadPass(w, fs, rules);
      IsListed(w, rules, 0);
      AgreesStays(w, first.w, rules[0], x);
      var tail := rules[1..];
      assert forall i :: 0 <= i < |tail| ==> tail[i] == rules[i + 1];
      AgreesPasses(first.w, first.fs, tail, x);
    }
  }

  /** Truth of `converged`: under every fault schedule, a rule that the run counts as converged
      has stored status converged at the end of the run and a binding that agrees with SPIRE. */
  lemma {:induction false} ConvergedIsTrue(w: World, fs: Faults, rules: seq<Rule>, i: nat)
    requires Sound(w) && DistinctIdentities(w) && Listed(w, rules) && i < |rules|
    ensures var end := RunOver(w, fs, rules);
      rules[i].id in end.w.rows && (end.outcomes[i].Settled? ==> Agrees(end.w, rules[i].id))
    decreases |rules|
  {
    hide Sound;
    hide DistinctIdentities;
    hide Touches;
    hide Agrees;
    hide Met;
    hide FaultFree;
    hide Pass;
    hide Start;
    hide Listed;
    var first := HeadPass(w, fs, rules);
    var tail := rules[1..];
    IsListed(w, rules, i);
    RunKeepsRows(w, fs, rules);
    RunOn(w, fs, rules);
    if i > 0 {
      assert tail[i - 1] == rules[i];
      ConvergedIsTrue(first.w, first.fs, tail, i - 1);
    } else if first.outcome.Settled? {
      MetAgrees(first.w, rules[0].id, first.outcome);
      OthersFollow(w, rules);
      AgreesPasses(first.w, first.fs, tail, rules[0].id);
    }
  }

  lemma OthersFollow(w: World, rules: seq<Rule>)
    requires rules != [] && Listed(w, rules)
    ensures forall i :: 0 <= i < |rules[1..]| ==> rules[1..][i].id != rules[0].id
  {
    assert forall i :: 0 <= i < |rules[1..]| ==> rules[1..][i] == rules[i + 1];
  }

  lemma RunKeepsRows(w: World, fs: Faults, rules: seq<Rule>)
    requires Sound(w)
    ensures RunOver(w, fs, rules).w.rows.Keys == w.rows.Keys
  {
    ForeignFrame(w, fs, rules);
  }

  // ---- Self-stabilisation ----

  /** The row is present and has something to send. */
  predicate Sendable(r: Rule) {
    r.desiredState == "present" && DesiredEntry(r).Ok? && Stored(DesiredEntry(r).value).Some?
  }

  /** A row the reconciler can act on: absent, or present with a desired entry that can be sent. */
  predicate Actionable(r: Rule) { r.desiredState == "absent" || Sendable(r) }

  /** The entry the row is bound to, or would find in creating its own, is the row's own. */
  predicate Unconflicted(w: World, x: string)
    requires x in w.rows
  {
    && (Bound(w.entries, w.rows[x]) ==> OwnedBy(w.entries[w.rows[x].binding.value], x))
    && (Seeks(w, x).Some? ==>
          var f := Similar(w.entries, Seeks(w, x).value); f.Some? ==> OwnedBy(w.entries[f.value], x))
  }

  lemma ConflictDecides(w: World, x: string)
    requires x in w.rows && w.rows[x].id == x && Actionable(w.rows[x])
    ensures AimOf(w.entries, w.rows[x]).Reject? <==> !Unconflicted(w, x)
    ensures Unconflicted(w, x) ==> Firm(w, x)
  {
    FirmWhenUnconflicted(w, x);
    hide Stored;
    hide OwnerHint;
    hide Equivalent;
    hide DesiredEntry;
    hide Firm;
  }

  lemma FirmWhenUnconflicted(w: World, x: string)
    requires x in w.rows
    ensures Unconflicted(w, x) ==> Firm(w, x)
  {
    forall y | y in w.rows && y != x ensures OwnerHint(y) != OwnerHint(x) { HintInjective(x, y); }
    hide Seeks;
    hide OwnerHint;
  }

  /** IDs in use after a run were in use before with the same hint, or are new. */
  predicate HintsStay(w: World, w': World) {
    && w.next <= w'.next
    && forall k :: k in w'.entries && k < w.next ==> k in w.entries && w'.entries[k].hint == w.entries[k].hint
  }

  lemma SameHints(w: World)
    ensures HintsStay(w, w)
  {
  }

  lemma HintsChain(w0: World, w1: World, w2: World)
    requires HintsStay(w0, w1) && HintsStay(w1, w2)
    ensures HintsStay(w0, w2)
  {
  }

  lemma {:induction false} RunHints(w: World, fs: Faults, rules: seq<Rule>)
    requires IdsBelow(w)
    ensures HintsStay(w, RunOver(w, fs, rules).w)
    decreases |rules|
  {
    hide Touches;
    hide Pass;
    hide HintsStay;
    hide IdsBelow;
    hide Start;
    if rules == [] {
      SameHints(w);
    } else {
      var first := Pass(w, fs, rules[0], Start(rules[0]));
      StartPoised(w, rules[0]);
      PassTouches(w, fs, rules[0], Start(rules[0]));
      TouchesHints(w, first.w, rules[0]);
      RunHints(first.w, first.fs, rules[1..]);
      HintsChain(w, first.w, RunOver(w, fs, rules).w);
    }
  }

  lemma TouchesHints(w: World, w': World, r: Rule)
    requires Touches(w, w', r) && IdsBelow(w)
    ensures HintsStay(w, w') && IdsBelow(w')
  {
    forall k | k in w'.entries && k < w.next ensures k in w.entries && w'.entries[k].hint == w.entries[k].hint {
      assert Own(w, w', r, k);
    }
  }

  /** The rule as listed is bound to an entry that is what its row said. */
  predicate IsDelivered(w: World, r: Rule) {
    && r.id in w.rows && Bound(w.entries, w.rows[r.id]) && Delivers(w.entries[w.rows[r.id].binding.value], r)
  }

  lemma DeliversSame(e: Entry, r: Rule, q: Rule)
    requires Desire(r) == Desire(q) && Delivers(e, r)
    ensures Delivers(e, q) && r.desiredState == q.desiredState
  {
    var d := Desire(r);
    assert d.parent == r.parent && d.workloadSpiffeId == r.workloadSpiffeId && d.selectors == r.selectors;
    assert d.ttl == r.ttl && d.id == r.id && d.desiredState == r.desiredState;
    hide StandsFor;
  }

  /** What a success is worth in the row's own terms: whatever goes wrong, a present rule that the
      run counts converged is bound to an entry with its row's IDs, selectors, TTL and hint. */
  lemma ConvergedDelivers(w: World, fs: Faults, rules: seq<Rule>, i: nat)
    requires Sound(w) && DistinctIdentities(w) && Listed(w, rules) && i < |rules| && rules[i].desiredState == "present"
    ensures var end := RunOver(w, fs, rules); end.outcomes[i].Settled? ==> IsDelivered(end.w, rules[i])
  {
    hide *;
    var end, x := RunOver(w, fs, rules), rules[i].id;
    ConvergedIsTrue(w, fs, rules, i);
    IsListed(w, rules, i);
    DesireRuns(w, fs, rules, x);
    if end.outcomes[i].Settled? {
      SameState(rules[i], end.w.rows[x]);
      AgreesDelivers(end.w, x);
      BoundFacts(end.w, x);
      DeliversSame(end.w.entries[end.w.rows[x].binding.value], end.w.rows[x], rules[i]);
      DeliveredIf(end.w, rules[i]);
    }
  }

  lemma SameState(r: Rule, q: Rule)
    requires Desire(r) == Desire(q)
    ensures r.desiredState == q.desiredState
  {
    assert Desire(r).desiredState == r.desiredState && Desire(q).desiredState == q.desiredState;
  }

  lemma DeliveredIf(w: World, r: Rule)
    requires r.id in w.rows && Bound(w.entries, w.rows[r.id]) && Delivers(w.entries[w.rows[r.id].binding.value], r)
    ensures IsDelivered(w, r)
  {
    hide Delivers;
  }

  lemma DesireRuns(w: World, fs: Faults, rules: seq<Rule>, x: string)
    requires Sound(w) && x in w.rows
    ensures var w1 := RunOver(w, fs, rules).w; x in w1.rows && Desire(w1.rows[x]) == Desire(w.rows[x])
  {
    ForeignFrame(w, fs, rules);
  }

  /** Self-stabilisation: from any statuses, bindings and SPIRE contents that are `Sound`, one
      undisturbed run brings every actionable, unconflicted rule to agreement with SPIRE, and a
      row it unbound as absent leaves no entry under the old ID. No later pass undoes this. */
  lemma SelfStabilises(w: World, fs: Faults, rules: seq<Rule>, i: nat)
    requires Sound(w) && DistinctIdentities(w) && Listed(w, rules) && i < |rules| && FaultFree(fs)
    requires Actionable(rules[i]) && Unconflicted(w, rules[i].id)
    ensures var end := RunOver(w, fs, rules); var x := rules[i].id;
      && i < |end.outcomes| && end.outcomes[i].Settled? && x in end.w.rows && Agrees(end.w, x)
      && (rules[i].desiredState == "absent" && rules[i].binding.Some? ==>
            rules[i].binding.value !in end.w.entries)
      && (rules[i].desiredState == "present" ==> IsDelivered(end.w, rules[i]))
  {
    var end := RunOver(w, fs, rules);
    var x := rules[i].id;
    if rules[i].desiredState == "present" { ConvergedDelivers(w, fs, rules, i); }
    hide IsDelivered;
    ConflictDecides(w, x);
    RunMeets(w, fs, rules, i);
    GoalConverges(w, x);
    MetAgrees(end.w, x, end.outcomes[i]);
    if rules[i].desiredState == "absent" && rules[i].binding.Some? {
      RunHints(w, fs, rules);
      ReleasedIsGone(w, end.w, x);
    }
  }

  /** After an undisturbed run a row looks as its goal says, and its outcome says whether that is
      convergence. */
  lemma ReportsGoal(w: World, fs: Faults, rules: seq<Rule>, i: nat)
    requires Sound(w) && DistinctIdentities(w) && Listed(w, rules) && i < |rules| && FaultFree(fs)
    requires Firm(w, rules[i].id)
    ensures var end := RunOver(w, fs, rules); var x := rules[i].id;
      && i < |end.outcomes| && x in end.w.rows && PictureOf(end.w, x) == Goal(w, x)
      && end.w.rows[x].status == Goal(w, x).row.status && end.w.rows[x].lastError == Goal(w, x).row.lastError
      && (end.outcomes[i].Settled? <==> Goal(w, x).row.status == Converged)
  {
    hide Sound;
    hide Firm;
    hide Goal;
    hide DistinctIdentities;
    hide RunOver;
    hide Holdings;
    RunMeets(w, fs, rules, i);
    IsListed(w, rules, i);
  }

  /** A conflict with an entry that no listed row owns is reported, and nothing is bound. */
  lemma ConflictIsReported(w: World, fs: Faults, rules: seq<Rule>, i: nat)
    requires Sound(w) && DistinctIdentities(w) && Listed(w, rules) && i < |rules| && FaultFree(fs)
    requires Actionable(rules[i]) && Firm(w, rules[i].id) && !Unconflicted(w, rules[i].id)
    ensures var end := RunOver(w, fs, rules); var x := rules[i].id;
      && i < |end.outcomes| && end.outcomes[i] == Broken && x in end.w.rows
      && end.w.rows[x].status == Errored && end.w.rows[x].lastError == Some("ownership_mismatch")
      && PictureOf(end.w, x).anchor == PictureOf(w, x).anchor
      && PictureOf(end.w, x).others == PictureOf(w, x).others
  {
    hide *;
    var x := rules[i].id;
    RunMeets(w, fs, rules, i);
    IsListed(w, rules, i);
    ConflictCode(w, x);
    GoalOfReject(w, x, "ownership_mismatch");
    ReportsGoal(w, fs, rules, i);
  }

  /** Entries under a row's hint carry that row's workload ID, as they do when only the
      reconciler writes them. */
  predicate HintFaithful(w: World) {
    forall k, x :: k in w.entries && x in w.rows && OwnedBy(w.entries[k], x) ==>
      Identity(w.rows[x]) == Some(w.entries[k].spiffeId)
  }

  lemma FaithfulIsFirm(w: World, x: string)
    requires HintFaithful(w) && DistinctIdentities(w) && x in w.rows
    ensures Firm(w, x)
  {
    if Seeks(w, x).Some? {
      SeeksOwnIdentity(w, x);
      var f := Similar(w.entries, Seeks(w, x).value);
      forall y | f.Some? && y in w.rows && y != x ensures !OwnedBy(w.entries[f.value], y) {
        assert OtherIdentity(w.rows[y], w.rows[x]);
      }
    }
  }

  lemma GoalConverges(w: World, x: string)
    requires x in w.rows && !AimOf(w.entries, w.rows[x]).Reject?
    ensures Goal(w, x).row.status == Converged
  {
    hide AimOf;
    hide OwnedBy;
  }

  lemma GoalOfReject(w: World, x: string, code: string)
    requires x in w.rows && AimOf(w.entries, w.rows[x]) == Reject(code)
    ensures Goal(w, x).row.status == Errored && Goal(w, x).row.lastError == Some(code)
    ensures Goal(w, x).anchor == PictureOf(w, x).anchor && Goal(w, x).others == PictureOf(w, x).others
  {
    hide AimOf;
    hide OwnedBy;
  }

  lemma ConflictCode(w: World, x: string)
    requires x in w.rows && w.rows[x].id == x && Actionable(w.rows[x]) && !Unconflicted(w, x)
    ensures AimOf(w.entries, w.rows[x]) == Reject("ownership_mismatch")
  {
    hide Stored;
    hide OwnerHint;
    hide Equivalent;
    hide DesiredEntry;
  }

  lemma ReleaseAim(w: World, x: string)
    requires x in w.rows && w.rows[x].id == x && w.rows[x].desiredState == "absent" && Unconflicted(w, x)
    ensures AimOf(w.entries, w.rows[x]) == Release
  {
    hide OwnedBy;
  }

  lemma ReleaseGoal(w: World, x: string)
    requires x in w.rows && AimOf(w.entries, w.rows[x]) == Release && w.rows[x].binding.Some?
    ensures Goal(w, x).anchor == Unbound && w.rows[x].binding.value !in Goal(w, x).others
  {
    hide AimOf;
  }

  lemma UnboundPicture(w: World, x: string)
    requires x in w.rows && PictureOf(w, x).anchor == Unbound
    ensures PictureOf(w, x).others == Holdings(w.entries, x)
  {
    hide Holdings;
  }

  lemma ReleasedHint(w: World, w': World, x: string)
    requires x in w.rows && Sound(w) && HintsStay(w, w')
    requires w.rows[x].desiredState == "absent" && w.rows[x].binding.Some? && Unconflicted(w, x)
    ensures var b := w.rows[x].binding.value; b in w'.entries ==> OwnedBy(w'.entries[b], x)
  {
  }

  lemma ReleasedIsGone(w: World, w': World, x: string)
    requires x in w.rows && x in w'.rows && Sound(w) && HintsStay(w, w')
    requires w.rows[x].desiredState == "absent" && w.rows[x].binding.Some? && Unconflicted(w, x)
    requires PictureOf(w', x) == Goal(w', x) && Goal(w', x) == Goal(w, x)
    ensures w.rows[x].binding.value !in w'.entries
  {
    hide Sound;
    hide Goal;
    hide PictureOf;
    hide AimOf;
    hide OwnedBy;
    var b := w.rows[x].binding.value;
    FiledUnder(w, x);
    ReleaseAim(w, x);
    ReleaseGoal(w, x);
    ReleasedHint(w, w', x);
    UnboundPicture(w', x);
    assert b in w'.entries ==> b in Holdings(w'.entries, x);
  }
}

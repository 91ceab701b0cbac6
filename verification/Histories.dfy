/** What holds over every history of the system. */
module Histories {
  import opened Text
  import opened Spiffe
  import opened Entries
  import opened Registration
  import opened Backends
  import opened Protocol
  import opened Frame
  import opened Goals
  import opened Runs
  import opened Convergence
  import opened Obstacles
  import opened Crashes
  import opened System

  /** Plays the steps in order; one that cannot happen is skipped. */
  function Play(s: State, steps: seq<Step>): State
    decreases |steps|
  {
    if steps == [] then s
    else Play(if Enabled(s, steps[0]) then Next(s, steps[0]) else s, steps[1..])
  }

  lemma {:induction false} PlayKeepsInv(s: State, steps: seq<Step>)
    requires Inv(s)
    ensures Inv(Play(s, steps))
    decreases |steps|
  {
    if steps != [] {
      if Enabled(s, steps[0]) { StepKeepsInv(s, steps[0]); }
      hide Inv;
      hide Next;
      hide Enabled;
      PlayKeepsInv(if Enabled(s, steps[0]) then Next(s, steps[0]) else s, steps[1..]);
    }
  }

  // ---- Orphans ----

  /** Orphan bound: over every history, the entries that carry a rule's hint without being bound
      in its row are at most the passes of that rule that created an entry and were lost before
      binding it, plus the one entry a pass under way has just created. */
  lemma OrphanBound(s0: State, steps: seq<Step>, x: string)
    requires Init(s0)
    ensures var s := Play(s0, steps);
      x in s.w.rows ==>
        && |Orphans(s.w, x)| <= LostPasses(s, x) + |InHand(s, x)|
        && |InHand(s, x)| <= 1
        && (s.run.Idle? ==> |Orphans(s.w, x)| <= LostPasses(s, x))
  {
    InitInv(s0);
    PlayKeepsInv(s0, steps);
    var s := Play(s0, steps);
    if x in s.w.rows {
      assert OrphansOk(s, x);
      var all, hand := Orphans(s.w, x), InHand(s, x);
      Smaller(all, (all - hand) + hand);
      assert |(all - hand) + hand| == |all - hand| + |hand|;
    }
  }

  // ---- Bindings ----

  /** The unique index on bindings. */
  predicate BindingsUnique(w: World) {
    forall x, y :: x in w.rows && y in w.rows && x != y ==> w.rows[x].binding.None? || w.rows[x].binding != w.rows[y].binding
  }

  /** Binding invariant: over every history each bound ID is gone from SPIRE or carries its own
      row's hint, no ID is bound twice, and the marking that comes next never hits the unique
      index on bindings. */
  lemma BindingInvariant(s0: State, steps: seq<Step>)
    requires Init(s0)
    ensures var s := Play(s0, steps);
      && (forall x :: x in s.w.rows && Bound(s.w.entries, s.w.rows[x]) ==>
            OwnedBy(s.w.entries[s.w.rows[x].binding.value], x))
      && BindingsUnique(s.w)
      && (s.run.Active? && s.run.point.Mark? ==> !Taken(s.w.rows, s.run.current.id, s.run.point.binding))
  {
    InitInv(s0);
    PlayKeepsInv(s0, steps);
    BindingsApart(Play(s0, steps));
  }

  lemma BindingsApart(s: State)
    requires Inv(s)
    ensures forall x :: x in s.w.rows && Bound(s.w.entries, s.w.rows[x]) ==>
              OwnedBy(s.w.entries[s.w.rows[x].binding.value], x)
    ensures BindingsUnique(s.w)
    ensures s.run.Active? && s.run.point.Mark? ==> !Taken(s.w.rows, s.run.current.id, s.run.point.binding)
  {
    forall x, y | OwnerHint(x) == OwnerHint(y) ensures x == y { HintInjective(x, y); }
    hide OwnerHint;
    hide OrphansOk;
    hide DistinctIdentities;
  }

  /** Only MarkConverged changes a binding, for the row being reconciled, to the ID it is called with. */
  lemma OnlyMarkingBinds(s: State, step: Step, x: string)
    requires Inv(s) && Enabled(s, step) && x in s.w.rows
    requires x in Next(s, step).w.rows ==> Next(s, step).w.rows[x].binding != s.w.rows[x].binding
    ensures step.Call? && s.run.current.id == x && s.run.point.Mark? && x in Next(s, step).w.rows
    ensures Next(s, step).w.rows[x].binding == s.run.point.binding
  {
    hide OrphansOk;
    hide DistinctIdentities;
    hide OwnerHint;
    if step.Call? {
      var y := s.run.current.id;
      var c := ExecChanges(s.w, y, s.run.point, step.fault);
      AfterCallParts(s, step.fault);
      hide Exec;
      hide AfterCall;
      ChangeKeepsRows(s.w, y, s.run.point, c);
    }
  }

  // ---- From any history to convergence ----

  lemma InvSound(s: State)
    requires Inv(s)
    ensures Sound(s.w) && DistinctIdentities(s.w)
  {
    BindingsApart(s);
    forall x, y | x in s.w.rows && y in s.w.rows && x != y ensures Apart(s.w, x, y) {
      HintInjective(x, y);
    }
    hide OwnerHint;
    hide OrphansOk;
  }

  /** Truth after any history, edits by others included: a rule that the next run counts as
      converged, whatever goes wrong in it, says so in its row and agrees with SPIRE. */
  lemma TruthAfterAnyHistory(s0: State, steps: seq<Step>, order: seq<string>, fs: Faults, i: nat)
    requires Init(s0) && Enumerates(Play(s0, steps).w, order) && i < |order|
    ensures var w := Play(s0, steps).w;
      var end := RunOver(w, fs, ListRows(w, order));
      order[i] in end.w.rows && (end.outcomes[i].Settled? ==> Agrees(end.w, order[i]))
  {
    hide *;
    InitInv(s0);
    PlayKeepsInv(s0, steps);
    var w := Play(s0, steps).w;
    InvSound(Play(s0, steps));
    ListRowsListed(w, order);
    OrderIds(w, order);
    ConvergedIsTrue(w, fs, ListRows(w, order), i);
  }

  /** Repair: whatever happened before, replacements in mid-run included, the next undisturbed
      run brings every actionable, unconflicted rule to agreement with its current revision. */
  lemma RepairAfterAnyHistory(s0: State, steps: seq<Step>, order: seq<string>, fs: Faults, i: nat)
    requires Init(s0) && FaultFree(fs) && i < |order|
    requires var s := Play(s0, steps);
      Enumerates(s.w, order) && Actionable(s.w.rows[order[i]]) && Unconflicted(s.w, order[i])
    ensures var s := Play(s0, steps);
      var end := RunOver(s.w, fs, ListRows(s.w, order));
      order[i] in end.w.rows && Agrees(end.w, order[i]) &&
      Desire(end.w.rows[order[i]]) == Desire(s.w.rows[order[i]])
  {
    var s := Play(s0, steps);
    InitInv(s0);
    PlayKeepsInv(s0, steps);
    InvSound(s);
    hide Inv;
    hide Play;
    var rules := ListRows(s.w, order);
    ListRowsListed(s.w, order);
    assert s.w.rows[order[i]].id == order[i];
    SelfStabilises(s.w, fs, rules, i);
    ForeignFrame(s.w, fs, rules);
  }

  // ---- Entries stay under their own identity ----

  predicate NoEdits(steps: seq<Step>) { forall i :: 0 <= i < |steps| ==> !steps[i].OutsideEdit? }

  /** What the current pass would write goes under its own workload's ID. */
  predicate PointFaithful(s: State) {
    s.run.Active? ==>
      && (forall i :: 0 <= i < |s.run.todo| ==> SameWorkload(s.w, s.run.todo[i]))
      && SameWorkload(s.w, s.run.current)
      && var p := s.run.point;
         (p.FetchPresent? || p.Create? || p.UpdateBound? || p.UpdateExisting? ==>
            p.desired.spiffeId == s.run.current.workloadSpiffeId)
  }

  predicate SameWorkload(w: World, r: Rule) {
    r.id in w.rows && r.workloadSpiffeId == w.rows[r.id].workloadSpiffeId
  }

  predicate Faithful(s: State) { HintFaithful(s.w) && PointFaithful(s) }

  lemma InvPoised(s: State)
    requires Inv(s) && PointFaithful(s) && s.run.Active? && !s.run.point.End?
    ensures Poised(s.w, s.run.current, s.run.point)
  {
    hide OwnerHint;
    hide OrphansOk;
    hide DistinctIdentities;
  }

  lemma TouchesFaithful(w: World, w': World, r: Rule)
    requires HintFaithful(w) && Touches(w, w', r) && SameWorkload(w, r)
    ensures HintFaithful(w')
  {
    forall x | x in w.rows ensures w'.rows[x].workloadSpiffeId == w.rows[x].workloadSpiffeId {
      assert Desire(w'.rows[x]).workloadSpiffeId == Desire(w.rows[x]).workloadSpiffeId;
    }
    forall k, x | k in w'.entries && x in w'.rows && OwnedBy(w'.entries[k], x)
      ensures Identity(w'.rows[x]) == Some(w'.entries[k].spiffeId)
    {
      HintInjective(x, r.id);
      assert Own(w, w', r, k);
    }
  }

  lemma AdvanceFaithful(r: Rule, p: Point, reply: Reply)
    requires !p.End?
    requires p.FetchPresent? || p.Create? || p.UpdateBound? || p.UpdateExisting? ==> p.desired.spiffeId == r.workloadSpiffeId
    ensures var q := Advance(r, p, reply);
      q.FetchPresent? || q.Create? || q.UpdateBound? || q.UpdateExisting? ==> q.desired.spiffeId == r.workloadSpiffeId
  {
    hide Equivalent;
    hide OwnedBy;
  }

  lemma CallFaithful(s: State, f: Fault)
    requires Inv(s) && Faithful(s) && s.run.Active? && !s.run.point.End?
    ensures Faithful(AfterCall(s, f))
  {
    InvPoised(s);
    assert IdsBelow(s.w);
    var r, p := s.run.current, s.run.point;
    StepTouches(s.w, r, p, f);
    AfterCallParts(s, f);
    var s' := AfterCall(s, f);
    TouchesFaithful(s.w, s'.w, r);
    AdvanceFaithful(r, p, Exec(s.w, r.id, NextCall(p), f).1);
    assert s'.run.point == Advance(r, p, Exec(s.w, r.id, NextCall(p), f).1);
    TouchesWorkloads(s, s'.w);
    hide AfterCall;
    hide Advance;
    hide Exec;
    hide NextCall;
    hide Touches;
    hide Inv;
    hide HintFaithful;
    hide Poised;
  }

  lemma TouchesWorkloads(s: State, w': World)
    requires s.run.Active? && PointFaithful(s) && Touches(s.w, w', s.run.current)
    ensures SameWorkload(w', s.run.current)
    ensures forall i :: 0 <= i < |s.run.todo| ==> SameWorkload(w', s.run.todo[i])
  {
    forall x | x in s.w.rows ensures w'.rows[x].workloadSpiffeId == s.w.rows[x].workloadSpiffeId {
      assert Desire(w'.rows[x]).workloadSpiffeId == Desire(s.w.rows[x]).workloadSpiffeId;
    }
    hide Touches;
  }

  lemma StartFaithful(s: State, rules: seq<Rule>, lost: map<string, nat>)
    requires HintFaithful(s.w) && forall i :: 0 <= i < |rules| ==> SameWorkload(s.w, rules[i])
    ensures Faithful(s.(run := StartRule(rules), lost := lost))
  {
    hide HintFaithful;
    if rules != [] {
      assert forall i :: 0 <= i < |rules[1..]| ==> rules[1..][i] == rules[i + 1];
      StartOwn(rules[0]);
      hide Start;
    }
  }

  lemma StartOwn(r: Rule)
    ensures var q := Start(r);
      q.FetchPresent? || q.Create? || q.UpdateBound? || q.UpdateExisting? ==> q.desired.spiffeId == r.workloadSpiffeId
  {
    hide OwnerHint;
  }

  lemma FaithfulParts(s: State)
    ensures Faithful(s) <==> HintFaithful(s.w) && PointFaithful(s)
  {
  }

  lemma OperateFaithfulPoint(s: State, r: Rule, operation: string)
    requires Inv(s) && Faithful(s) && Operator(s, r)
    ensures PointFaithful(s.(w := Operate(s.w, r, operation)))
  {
    hide OrphansOk;
    hide RunOk;
    hide BornOk;
    hide RowsOk;
    hide HintFaithful;
    hide DistinctIdentities;
    hide Enabled;
  }

  lemma OperateFaithfulHints(s: State, r: Rule, operation: string)
    requires Inv(s) && Faithful(s) && Operator(s, r)
    ensures HintFaithful(Operate(s.w, r, operation))
  {
    hide OrphansOk;
    hide RunOk;
    hide PointFaithful;
    hide DistinctIdentities;
    hide OwnerHint;
    hide Identity;
    var w' := Operate(s.w, r, operation);
    forall k, x | k in w'.entries && x in w'.rows && OwnedBy(w'.entries[k], x)
      ensures Identity(w'.rows[x]) == Some(w'.entries[k].spiffeId)
    {
      if x in s.w.rows { SameIdentity(s.w.rows[x], w'.rows[x]); }
    }
  }

  lemma OperateFaithful(s: State, r: Rule, operation: string)
    requires Inv(s) && Faithful(s) && Operator(s, r)
    ensures Faithful(s.(w := Operate(s.w, r, operation)))
  {
    hide *;
    OperateFaithfulPoint(s, r, operation);
    OperateFaithfulHints(s, r, operation);
    FaithfulParts(s);
    FaithfulParts(s.(w := Operate(s.w, r, operation)));
  }

  lemma InsertKeepsHints(w: World, k: EntryId, e: Entry, next: EntryId)
    requires HintFaithful(w) && !("wtp-rule:" <= e.hint)
    ensures HintFaithful(w.(entries := w.entries[k := e], next := next))
  {
    forall x ensures "wtp-rule:" <= OwnerHint(x) {}
    hide OwnerHint;
    hide Identity;
  }

  lemma DeleteKeepsHints(w: World, k: EntryId)
    requires HintFaithful(w)
    ensures HintFaithful(w.(entries := w.entries - {k}))
  {
    hide OwnerHint;
    hide Identity;
  }

  lemma OutsideFaithful(s: State, step: Step)
    requires Inv(s) && Faithful(s) && Enabled(s, step) && (step.OutsideDelete? || step.OutsideInsert?)
    ensures Faithful(Next(s, step))
  {
    hide HintFaithful; hide PointFaithful; hide Inv;
    var s' := Next(s, step);
    if step.OutsideInsert? {
      InsertKeepsHints(s.w, s.w.next + step.skip, step.entry, s.w.next + step.skip + 1);
    } else {
      DeleteKeepsHints(s.w, step.id);
    }
    SameRowsPoint(s, s');
  }

  lemma SameRowsPoint(s: State, s': State)
    requires PointFaithful(s) && s'.w.rows == s.w.rows && s'.run == s.run
    ensures PointFaithful(s')
  {
  }

  lemma StepFaithful(s: State, step: Step)
    requires Inv(s) && Faithful(s) && Enabled(s, step) && !step.OutsideEdit?
    ensures Faithful(Next(s, step))
  {
    match step {
      case Begin(order) => BeginFaithful(s, order);
      case Call(f) => hide Inv; hide Faithful; CallFaithful(s, f);
      case NextRule => hide Inv; hide HintFaithful; StartFaithful(s, s.run.todo, Forget(s));
      case Crash => hide Inv; hide HintFaithful; StartFaithful(s, [], Forget(s));
      case Replace(x, input) => ReplaceFaithful(s, x, input);
      case AddRule(r) => hide Inv; hide Faithful; OperateFaithful(s, r, "create");
      case _ => hide Inv; hide Faithful; OutsideFaithful(s, step);
    }
  }

  lemma BeginFaithful(s: State, order: seq<string>)
    requires Inv(s) && Faithful(s) && Enabled(s, Begin(order))
    ensures Faithful(Next(s, Begin(order)))
  {
    assert forall i :: 0 <= i < |order| ==> s.w.rows[order[i]].id == order[i];
    hide Inv;
    hide HintFaithful;
    StartFaithful(s, ListRows(s.w, order), s.lost);
    assert s.(run := StartRule(ListRows(s.w, order)), lost := s.lost) == Next(s, Begin(order));
  }

  lemma ReplaceFaithful(s: State, x: string, input: ReplaceInput)
    requires Inv(s) && Faithful(s) && Enabled(s, Replace(x, input))
    ensures Faithful(Next(s, Replace(x, input)))
  {
    hide Faithful; hide Inv; hide Operate; hide Operator;
    ReplaceIsOperator(s, x, input);
    OperateFaithful(s, Replaced(s.w.rows[x], input), "replace");
  }

  lemma ReplaceIsOperator(s: State, x: string, input: ReplaceInput)
    requires Inv(s) && x in s.w.rows
    ensures Operator(s, Replaced(s.w.rows[x], input))
  {
    hide OrphansOk; hide DistinctIdentities; hide RunOk; hide BornOk; hide Enabled;
  }

  lemma {:induction false} PlayFaithful(s: State, steps: seq<Step>)
    requires Inv(s) && Faithful(s) && NoEdits(steps)
    ensures Inv(Play(s, steps)) && Faithful(Play(s, steps))
    decreases |steps|
  {
    if steps != [] {
      if Enabled(s, steps[0]) {
        StepKeepsInv(s, steps[0]);
        StepFaithful(s, steps[0]);
      }
      hide Inv;
      hide Faithful;
      hide Next;
      hide Enabled;
      PlayFaithful(if Enabled(s, steps[0]) then Next(s, steps[0]) else s, steps[1..]);
    }
  }

  /** While nobody else edits entries, entries under a rule's hint stay under its workload's ID,
      so no row's create can run into another row's entry, and from any such history every row
      recovers from crashes. */
  lemma RecoveryAfterAnyHistory(s0: State, steps: seq<Step>, order: seq<string>, i: nat)
    requires Init(s0) && NoEdits(steps) && Enumerates(Play(s0, steps).w, order) && i < |order|
    ensures var w := Play(s0, steps).w;
      Sound(w) && DistinctIdentities(w) && order[i] in w.rows && Recovers(w, order, order[i])
  {
    hide *;
    InitInv(s0);
    InitFaithful(s0);
    PlayFaithful(s0, steps);
    var s := Play(s0, steps);
    InvSound(s);
    FaithfulParts(s);
    BeforeIds(s.w, order, i);
    FaithfulIsFirm(s.w, order[i]);
    FirmIsTimely(s.w, order, i);
    CrashRecovery(s.w, order, i);
  }

  lemma InitFaithful(s: State)
    requires Init(s)
    ensures Faithful(s)
  {
  }
}

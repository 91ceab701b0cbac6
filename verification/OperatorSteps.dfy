/** What committed requests are to the reconciler: each is one operator step of its system, or none. */
module OperatorSteps {
  import opened Text
  import opened Spiffe
  import opened Registration
  import opened Backends
  import opened Frame
  import opened Runs
  import opened PolicyRules
  import opened Tables
  import opened PolicyHistory
  import opened Revisions
  import System

  // ---- One database seen from both sides ----

  /** The system and the tables have the same rules. */
  predicate SameRules(s: System.State, t: Tables) { s.w.rows == t.rules }

  /** An operator's audit event as the reconciler's world records it. */
  function Echo(e: Event): seq<AuditEvent> {
    match e
    case RuleCreated(target, revision) => [Operated(Lower(target), "create", revision)]
    case RuleReplaced(target, _, revision) => [Operated(Lower(target), "replace", revision)]
    case _ => []
  }

  function EchoAll(events: seq<Event>): seq<AuditEvent> {
    if events == [] then [] else Echo(events[0]) + EchoAll(events[1..])
  }

  /** The system after the tables went from `t` to `t'` beside it. */
  function Reflect(s: System.State, t: Tables, t': Tables): System.State
    requires |t.log| <= |t'.log|
  {
    s.(w := s.w.(rows := t'.rules, log := s.w.log + EchoAll(t'.log[|t.log|..])))
  }

  lemma EchoOne(t: Tables, t': Tables, e: Event)
    requires t'.log == t.log + [e]
    ensures EchoAll(t'.log[|t.log|..]) == Echo(e)
  {
    assert t'.log[|t.log|..] == [e] && [e][1..] == [];
    assert EchoAll([e]) == Echo(e) + EchoAll([]);
  }

  lemma EchoNone(s: System.State, t: Tables, t': Tables)
    requires t'.log == t.log && t'.rules == t.rules && SameRules(s, t)
    ensures Reflect(s, t, t') == s
  {
    assert t'.log[|t.log|..] == [];
    assert s.w.log + [] == s.w.log;
  }

  // ---- What the tables' own constraints say of rules ----

  /** The workloads, each under a canonical ID of its own. */
  predicate WorkloadsOk(t: Tables) {
    && (forall a :: a in t.workloads ==> Canonical(t.workloads[a].spiffeId))
    && (forall a, b :: a in t.workloads && b in t.workloads && a != b ==> t.workloads[a].spiffeId != t.workloads[b].spiffeId)
  }

  /** A rule is filed under its ID and carries its workload's SPIFFE ID, as the query joins it. */
  predicate Joined(t: Tables, x: string)
    requires x in t.rules
  {
    var r := t.rules[x];
    r.id == x && r.workloadId in t.workloads && r.workloadSpiffeId == t.workloads[r.workloadId].spiffeId
  }

  /** At most one rule per workload. */
  predicate RulesOk(t: Tables) {
    && WorkloadsOk(t)
    && (forall x :: x in t.rules ==> Joined(t, x))
    && (forall x, y :: x in t.rules && y in t.rules && x != y ==> t.rules[x].workloadId != t.rules[y].workloadId)
  }

  /** A hint with the rules' prefix in SPIRE is the hint of a row there is. */
  predicate HintsOfRows(s: System.State) {
    forall k :: k in s.born && "wtp-rule:" <= s.born[k] ==> s.born[k][9..] in s.w.rows
  }

  // ---- Requests ----

  predicate Replaces(op: Op) { op.Requested? && op.req.ReplaceRule? && Succeeded(op.reply) }

  predicate Creates(op: Op) { op.Requested? && op.req.CreateRule? && Succeeded(op.reply) }

  /** The row a successful create inserts. */
  function RowOf(t: Tables, op: Op): Rule
    requires op.Requested? && op.req.CreateRule?
  {
    var wid := Lower(op.req.desired.workloadId);
    var w := if wid in t.workloads then t.workloads[wid] else Workload("", "");
    NewRule(op.ids.row, w.organizationId, w.spiffeId, op.req.desired.(workloadId := wid))
  }

  /** The operator steps of the system that an operation on the tables amounts to. */
  function StepsOf(t: Tables, op: Op): seq<System.Step> {
    if Replaces(op) then [System.Step.Replace(Lower(op.req.ruleId), op.req.input)]
    else if Creates(op) then [System.Step.AddRule(RowOf(t, op))]
    else []
  }

  lemma ReplacedRow(t: Tables, op: Op)
    requires Replaces(op) && Honest(t, op)
    ensures var x, i, t' := Lower(op.req.ruleId), op.req.input, AfterOp(t, op);
      && x in t.rules && t.rules[x].revision == i.expectedRevision
      && t'.rules == t.rules[x := Replaced(t.rules[x], i)] && t'.workloads == t.workloads
      && t'.log == t.log + [RuleReplaced(op.req.ruleId, t.rules[x].revision, t.rules[x].revision + 1)]
  {
    hide IsUuid; hide AcceptedFields; hide Lower;
    Puts(t, Decide(t, op.req, op.ids).writes);
  }

  lemma CreatedRow(t: Tables, op: Op)
    requires Creates(op) && Honest(t, op)
    ensures var wid, t' := Lower(op.req.desired.workloadId), AfterOp(t, op);
      && wid in t.workloads && !WorkloadTaken(t, wid) && op.ids.row !in t.rules && Lower(op.ids.row) == op.ids.row
      && t'.rules == t.rules[op.ids.row := RowOf(t, op)] && t'.workloads == t.workloads
      && t'.log == t.log + [RuleCreated(op.ids.row, 1)]
  {
    hide IsUuid; hide AcceptedFields; hide WorkloadTaken; hide Lower;
    Puts(t, Decide(t, op.req, op.ids).writes);
  }

  /** A committed replacement is one operator step of the system. */
  lemma ReplaceIsStep(s: System.State, t: Tables, op: Op)
    requires SameRules(s, t) && RulesOk(t) && Replaces(op) && Honest(t, op)
    ensures var step := System.Step.Replace(Lower(op.req.ruleId), op.req.input); var t' := AfterOp(t, op);
      System.Enabled(s, step) && |t.log| <= |t'.log| && System.Next(s, step) == Reflect(s, t, t')
  {
    hide Honest; hide AfterOp; hide Lower; hide WorkloadsOk;
    ReplacedRow(t, op);
    var x := Lower(op.req.ruleId);
    assert Joined(t, x);
    EchoOne(t, AfterOp(t, op), RuleReplaced(op.req.ruleId, t.rules[x].revision, t.rules[x].revision + 1));
  }

  /** A new row stands for a new identity: its workload has no rule yet. */
  lemma NewIdentity(t: Tables, op: Op, x: string)
    requires RulesOk(t) && Creates(op) && Honest(t, op) && x in t.rules
    ensures OtherIdentity(t.rules[x], RowOf(t, op)) && OtherIdentity(RowOf(t, op), t.rules[x])
  {
    hide Honest; hide AfterOp; hide Lower; hide Canonical;
    CreatedRow(t, op);
    assert Joined(t, x);
    var r, row := t.rules[x], RowOf(t, op);
    assert r.workloadId != row.workloadId;
    assert r.workloadSpiffeId != row.workloadSpiffeId;
    CanonicalIdentity(r);
    CanonicalIdentity(row);
    hide Identity;
  }

  lemma CanonicalIdentity(r: Rule)
    requires Canonical(r.workloadSpiffeId)
    ensures Identity(r) == Some(r.workloadSpiffeId)
  {
    hide ParseSpiffeId;
  }

  lemma NewHint(s: System.State, x: string)
    requires HintsOfRows(s) && x !in s.w.rows
    ensures forall k :: k in s.born ==> s.born[k] != OwnerHint(x)
  {
    assert OwnerHint(x)[9..] == x;
  }

  /** A committed new rule is one operator step: its identity and its hint are new. */
  lemma CreateIsStep(s: System.State, t: Tables, op: Op)
    requires SameRules(s, t) && RulesOk(t) && HintsOfRows(s) && Creates(op) && Honest(t, op)
    ensures var step := System.Step.AddRule(RowOf(t, op)); var t' := AfterOp(t, op);
      System.Enabled(s, step) && |t.log| <= |t'.log| && System.Next(s, step) == Reflect(s, t, t')
  {
    hide Honest; hide AfterOp; hide OtherIdentity; hide OwnerHint; hide RowOf; hide HintsOfRows; hide RulesOk; hide Lower;
    CreatedRow(t, op);
    RowIsNew(t, op);
    NewHint(s, op.ids.row);
    forall x | x in s.w.rows
      ensures OtherIdentity(s.w.rows[x], RowOf(t, op)) && OtherIdentity(RowOf(t, op), s.w.rows[x])
    {
      NewIdentity(t, op, x);
    }
    EchoOne(t, AfterOp(t, op), RuleCreated(op.ids.row, 1));
  }

  lemma RowIsNew(t: Tables, op: Op)
    requires op.Requested? && op.req.CreateRule?
    ensures var r := RowOf(t, op);
      r.id == op.ids.row && r.binding.None? && r.status == Pending && r.lastError.None? && r.revision == 1
  {
    hide Lower;
  }

  lemma PolicyLog(t: Tables, req: Request, ids: Ids)
    requires OnPolicies(req, Perform(t, req, ids).1)
    ensures var t' := Perform(t, req, ids).0;
      |t'.log| == |t.log| + 1 && t'.log == t.log + [t'.log[|t.log|]] && PolicyEvent(t'.log[|t.log|])
  {
    hide Perform;
    if req.CreatePolicy? { PolicyHistory.CreateWrites(t, req, ids); }
    else if req.AppendVersion? { AppendWrites(t, req, ids); }
    else { ActivateWrites(t, req, ids); }
  }

  /** Any other request leaves the system as it is. */
  lemma RestIsNothing(s: System.State, t: Tables, op: Op)
    requires SameRules(s, t) && op.Requested? && Honest(t, op) && !Replaces(op) && !Creates(op)
    ensures var t' := AfterOp(t, op); t'.rules == t.rules && |t.log| <= |t'.log| && Reflect(s, t, t') == s
  {
    hide Perform; hide FreshIds;
    if Succeeded(op.reply) {
      SuccessMatches(t, op.req, op.ids);
      PoliciesKeepRules(t, op.req, op.ids);
      PolicyLog(t, op.req, op.ids);
      var t' := AfterOp(t, op);
      EchoOne(t, t', t'.log[|t.log|]);
      assert s.w.log + [] == s.w.log;
    } else {
      FailureWritesNothing(t, op.req, op.ids);
      EchoNone(s, t, AfterOp(t, op));
    }
  }

  /** Whatever is requested, the system takes the steps that it amounts to. */
  lemma RequestIsSteps(s: System.State, t: Tables, op: Op)
    requires SameRules(s, t) && RulesOk(t) && HintsOfRows(s) && op.Requested? && Honest(t, op)
    ensures var t', steps := AfterOp(t, op), StepsOf(t, op);
      && |t.log| <= |t'.log| && |steps| <= 1
      && (steps == [] ==> Reflect(s, t, t') == s)
      && (steps != [] ==> System.Enabled(s, steps[0]) && System.Next(s, steps[0]) == Reflect(s, t, t'))
  {
    hide *;
    StepsOfIs(t, op);
    if Replaces(op) { ReplaceIsStep(s, t, op); }
    else if Creates(op) { CreateIsStep(s, t, op); }
    else { RestIsNothing(s, t, op); }
  }

  lemma StepsOfIs(t: Tables, op: Op)
    ensures Replaces(op) ==> op.Requested? && op.req.ReplaceRule?
                             && StepsOf(t, op) == [System.Step.Replace(Lower(op.req.ruleId), op.req.input)]
    ensures Creates(op) ==> op.Requested? && op.req.CreateRule? && !Replaces(op)
                            && StepsOf(t, op) == [System.Step.AddRule(RowOf(t, op))]
    ensures !Replaces(op) && !Creates(op) ==> StepsOf(t, op) == []
  {
    hide RowOf; hide Lower;
  }

  /** The reconciler's row writes are the `Marked` operations of the tables. */
  lemma MarkIsCall(r: Rule, binding: Option<EntryId>, code: string)
    ensures Converge(r, binding) == MarkRow(r, Marked(r.id, binding, Converged, None))
    ensures Errs(r, code) == MarkRow(r, Marked(r.id, r.binding, Errored, Some(code)))
  {
  }

  // ---- Every operation keeps the constraints ----

  lemma ReplaceKeepsRules(t: Tables, op: Op)
    requires RulesOk(t) && Replaces(op) && Honest(t, op)
    ensures RulesOk(AfterOp(t, op))
  {
    hide Honest; hide AfterOp; hide Lower; hide Canonical;
    ReplacedRow(t, op);
    var t' := AfterOp(t, op);
    forall y | y in t'.rules ensures Joined(t', y) { assert Joined(t, y); }
  }

  lemma CreateKeepsRules(t: Tables, op: Op)
    requires RulesOk(t) && Creates(op) && Honest(t, op)
    ensures RulesOk(AfterOp(t, op))
  {
    hide Honest; hide AfterOp; hide Lower; hide Canonical;
    CreatedRow(t, op);
    var t' := AfterOp(t, op);
    forall y | y in t'.rules ensures Joined(t', y) { if y in t.rules { assert Joined(t, y); } }
  }

  lemma MarkKeepsRules(t: Tables, op: Op)
    requires RulesOk(t) && op.Marked?
    ensures RulesOk(AfterOp(t, op))
  {
    hide Canonical;
    var t' := AfterOp(t, op);
    forall y | y in t'.rules ensures Joined(t', y) { assert Joined(t, y); }
  }

  lemma PutsKeepWorkloads(t: Tables, ws: seq<Write>)
    ensures PutAll(t, ws).workloads == t.workloads
  {
  }

  lemma RestKeepsWorkloads(t: Tables, op: Op)
    requires op.Requested? && Honest(t, op)
    ensures AfterOp(t, op).workloads == t.workloads
  {
    hide Decide;
    hide FreshIds;
    PutsKeepWorkloads(t, Decide(t, op.req, op.ids).writes);
  }

  lemma SameKeepsRules(t: Tables, t': Tables)
    requires RulesOk(t) && t'.rules == t.rules && t'.workloads == t.workloads
    ensures RulesOk(t')
  {
    hide Canonical;
    forall y | y in t'.rules ensures Joined(t', y) { assert Joined(t, y); }
  }

  lemma OpKeepsRules(s: System.State, t: Tables, op: Op)
    requires SameRules(s, t) && RulesOk(t) && Honest(t, op)
    ensures RulesOk(AfterOp(t, op))
  {
    hide *;
    OpCases(op);
    if op.Marked? { MarkKeepsRules(t, op); }
    else if Replaces(op) { ReplaceKeepsRules(t, op); }
    else if Creates(op) { CreateKeepsRules(t, op); }
    else {
      RestIsNothing(s, t, op);
      RestKeepsWorkloads(t, op);
      SameKeepsRules(t, AfterOp(t, op));
    }
  }

  lemma OpCases(op: Op)
    ensures op.Marked? || op.Requested?
  {
  }
}

/** The reconciler and the operators' transactions on one database.

    Calls of the reconciler, statements of any number of transactions and steps of other users of
    SPIRE interleave freely. A transaction may be open across a whole run; the reconciler's write
    to a row waits for the row's lock like any other statement. */
module Joint {
  import opened Text
  import opened Entries
  import opened Registration
  import opened Backends
  import opened Protocol
  import opened Goals
  import opened Runs
  import opened Tables
  import opened Serialization
  import opened OperatorSteps
  import System
  import Histories
  import Transactions
  import Interleaving

  /** The reconciler's system and the transaction machine. */
  datatype State = State(s: System.State, q: Transactions.State)

  /** The operators act through transactions only, and the rows are marked by the reconciler only. */
  datatype Step = Recon(call: System.Step) | Serve(statement: Transactions.Step)

  predicate ByOperator(step: System.Step) { step.Replace? || step.AddRule? }

  /** The reconciler's next call is a write to its row that takes effect. */
  predicate WritesRow(s: System.State, step: System.Step) {
    && step.Call? && s.run.Active? && (s.run.point.Mark? || s.run.point.Fail?) && !step.fault.Refused?
    && s.run.current.id in s.w.rows
    && (s.run.point.Mark? ==> !Taken(s.w.rows, s.run.current.id, s.run.point.binding))
  }

  /** That write, as a step of the transaction machine. */
  function RowWrite(s: System.State): Transactions.Step
    requires s.run.Active? && (s.run.point.Mark? || s.run.point.Fail?) && s.run.current.id in s.w.rows
  {
    var x := s.run.current.id;
    if s.run.point.Mark? then Transactions.Mark(x, s.run.point.binding, Converged, None)
    else Transactions.Mark(x, s.w.rows[x].binding, Errored, Some(s.run.point.code))
  }

  predicate Enabled(j: State, step: Step) {
    match step
    case Recon(st) =>
      && !ByOperator(st) && System.Enabled(j.s, st)
      && (WritesRow(j.s, st) ==> Transactions.Enabled(j.q, RowWrite(j.s)))
    case Serve(st) => !st.Mark? && Transactions.Enabled(j.q, st)
  }

  function Next(j: State, step: Step): State
    requires Enabled(j, step)
  {
    match step
    case Recon(st) =>
      State(System.Next(j.s, st), if WritesRow(j.s, st) then Transactions.Next(j.q, RowWrite(j.s)) else j.q)
    case Serve(st) =>
      var q' := Transactions.Next(j.q, st);
      State(if |j.q.tables.log| <= |q'.tables.log| then Reflect(j.s, j.q.tables, q'.tables) else j.s, q')
  }

  // ---- What each half sees of a step ----

  /** The operation that a statement of client `c` completes, if it ends the client with success. */
  function OpOf(q: Transactions.State, st: Transactions.Step): seq<Op>
    requires Transactions.Enabled(q, st)
  {
    if st.Go? then Transactions.Answered(st.c, Transactions.Moved(q.tables, q.clients[st.c])) else []
  }

  /** The steps of the system that a joint step amounts to. */
  function SystemSteps(j: State, step: Step): seq<System.Step>
    requires Enabled(j, step)
  {
    match step
    case Recon(st) => [st]
    case Serve(st) => var ops := OpOf(j.q, st); if ops == [] then [] else StepsOf(j.q.tables, ops[0])
  }

  /** The steps of the transaction machine that it amounts to. */
  function TransactionSteps(j: State, step: Step): seq<Transactions.Step>
    requires Enabled(j, step)
  {
    match step
    case Recon(st) => if WritesRow(j.s, st) then [RowWrite(j.s)] else []
    case Serve(st) => [st]
  }

  /** Both halves are in order and see the same rules. */
  predicate Inv(t: Tables, j: State) {
    && System.Inv(j.s) && Interleaving.Inv(t, j.q)
    && SameRules(j.s, j.q.tables) && RulesOk(j.q.tables) && HintsOfRows(j.s)
  }

  // ---- The reconciler's side ----

  lemma EffectRows(w: World, x: string, p: Point, skip: nat)
    requires !p.End?
    ensures var w' := Effect(w, x, NextCall(p), skip).0;
      if p.Mark? && x in w.rows && !Taken(w.rows, x, p.binding) then w'.rows == w.rows[x := Converge(w.rows[x], p.binding)]
      else if p.Fail? && x in w.rows then w'.rows == w.rows[x := Errs(w.rows[x], p.code)]
      else w'.rows == w.rows
  {
    hide Taken;
    hide Stored;
    hide Similar;
  }

  lemma CallRows(s: System.State, f: Fault)
    requires s.run.Active? && !s.run.point.End?
    ensures var s', x, p := System.AfterCall(s, f), s.run.current.id, s.run.point;
      if !WritesRow(s, System.Step.Call(f)) then s'.w.rows == s.w.rows
      else s'.w.rows == s.w.rows[x := if p.Mark? then Converge(s.w.rows[x], p.binding) else Errs(s.w.rows[x], p.code)]
  {
    hide Effect;
    hide NextCall;
    hide Advance;
    hide Taken;
    if !f.Refused? { EffectRows(s.w, s.run.current.id, s.run.point, f.skip); }
  }

  lemma ReconRows(s: System.State, st: System.Step)
    requires !ByOperator(st) && System.Enabled(s, st) && !WritesRow(s, st)
    ensures System.Next(s, st).w.rows == s.w.rows
  {
    if st.Call? {
      CallRows(s, st.fault);
      CallIs(s, st.fault);
      hide *;
    }
  }

  lemma CallIs(s: System.State, f: Fault)
    requires System.Enabled(s, System.Step.Call(f))
    ensures s.run.Active? && !s.run.point.End? && System.Next(s, System.Step.Call(f)) == System.AfterCall(s, f)
  {
    hide System.AfterCall;
  }

  lemma WritesRowIs(s: System.State, st: System.Step)
    requires WritesRow(s, st)
    ensures st.Call? && st == System.Step.Call(st.fault) && s.run.Active? && (s.run.point.Mark? || s.run.point.Fail?)
    ensures var x := s.run.current.id;
      x in s.w.rows && RowWrite(s) ==
        if s.run.point.Mark? then Transactions.Mark(x, s.run.point.binding, Converged, None)
        else Transactions.Mark(x, s.w.rows[x].binding, Errored, Some(s.run.point.code))
  {
    hide Taken;
  }

  lemma SameRulesIs(s: System.State, t: Tables)
    ensures SameRules(s, t) <==> s.w.rows == t.rules
  {
  }

  lemma RowIdIs(t: Tables, x: string)
    requires RulesOk(t)
    ensures x in t.rules ==> t.rules[x].id == x
  {
    if x in t.rules { assert Joined(t, x); }
  }

  lemma MarkNext(q: Transactions.State, m: Transactions.Step)
    requires m.Mark? && Transactions.Enabled(q, m)
    ensures var op := Marked(m.ruleId, m.binding, m.status, m.lastError);
      && m.ruleId in q.tables.rules
      && Transactions.Next(q, m).tables.rules == q.tables.rules[m.ruleId := MarkRow(q.tables.rules[m.ruleId], op)]
      && Transactions.Next(q, m).tables == AfterOp(q.tables, op)
  {
    hide MarkRow;
  }

  /** The reconciler's write is the same write on both sides. */
  lemma WriteIsMark(s: System.State, q: Transactions.State, st: System.Step)
    requires SameRules(s, q.tables) && RulesOk(q.tables) && System.Enabled(s, st) && WritesRow(s, st)
    requires Transactions.Enabled(q, RowWrite(s))
    ensures SameRules(System.Next(s, st), Transactions.Next(q, RowWrite(s)).tables)
  {
    hide *;
    WritesRowIs(s, st);
    var x := s.run.current.id;
    RowIdIs(q.tables, x);
    SameRulesIs(s, q.tables);
    CallIs(s, st.fault);
    CallRows(s, st.fault);
    MarkNext(q, RowWrite(s));
    SameRulesIs(System.Next(s, st), Transactions.Next(q, RowWrite(s)).tables);
    if s.run.point.Mark? {
      MarkIsCall(s.w.rows[x], s.run.point.binding, "");
    } else {
      MarkIsCall(s.w.rows[x], None, s.run.point.code);
    }
  }

  /** The reconciler hands out IDs under the hint of a row there is, and others not under such hints. */
  lemma StepKeepsHints(s: System.State, st: System.Step)
    requires System.Inv(s) && HintsOfRows(s) && System.Enabled(s, st)
    ensures HintsOfRows(System.Next(s, st))
  {
    match st {
      case Call(f) => CallKeepsHints(s, f);
      case Begin(_) =>
      case NextRule =>
      case Crash =>
      case Replace(_, _) =>
      case AddRule(_) =>
      case OutsideDelete(_) =>
      case OutsideInsert(_, _) =>
      case OutsideEdit(_, _) =>
    }
  }

  lemma CallKeepsHints(s: System.State, f: Fault)
    requires System.Inv(s) && HintsOfRows(s) && s.run.Active? && !s.run.point.End?
    ensures HintsOfRows(System.AfterCall(s, f))
  {
    var s', x := System.AfterCall(s, f), s.run.current.id;
    CurrentIsRow(s);
    System.AfterCallParts(s, f);
    CallRows(s, f);
    assert OwnerHint(x)[9..] == x;
    hide System.AfterCall;
    hide Exec;
    hide NextCall;
    hide WritesRow;
    hide OwnerHint;
    hide System.Inv;
  }

  lemma CurrentIsRow(s: System.State)
    requires System.Inv(s) && s.run.Active?
    ensures s.run.current.id in s.w.rows
  {
    hide System.BornOk;
    hide System.RowsOk;
    hide DistinctIdentities;
    hide System.OrphansOk;
    hide System.PointOk;
  }

  // ---- The operators' side ----

  lemma ServeTables(t: Tables, q: Transactions.State, st: Transactions.Step)
    requires Interleaving.Inv(t, q) && Transactions.Enabled(q, st) && !st.Mark?
    ensures var ops, q' := OpOf(q, st), Transactions.Next(q, st);
      && |ops| <= 1
      && (ops == [] ==> q'.tables == q.tables)
      && (ops != [] ==> ops[0].Requested? && Honest(q.tables, ops[0]) && q'.tables == AfterOp(q.tables, ops[0]))
  {
    if st.Go? {
      GoTables(t, q, st.c);
    }
    hide Interleaving.Inv;
    hide Transactions.Moved;
    hide Honest;
    hide AfterOp;
  }

  lemma GoTables(t: Tables, q: Transactions.State, c: nat)
    requires Interleaving.Inv(t, q) && Transactions.Enabled(q, Transactions.Go(c))
    ensures var ops, q' := OpOf(q, Transactions.Go(c)), Transactions.Next(q, Transactions.Go(c));
      && |ops| <= 1
      && (ops == [] ==> q'.tables == q.tables)
      && (ops != [] ==> ops[0].Requested? && Honest(q.tables, ops[0]) && q'.tables == AfterOp(q.tables, ops[0]))
  {
    hide NoDangling;
    hide Interleaving.Disjoint;
    hide Interleaving.Ledger;
    hide Interleaving.Serial;
    hide Interleaving.ClientsOk;
    hide Perform;
    hide FreshIds;
    hide Transactions.Run;
    hide Transactions.Resume;
    hide Transactions.NextStmt;
    hide Transactions.LocksOf;
    Interleaving.GoIsAtomic(q, c);
    Interleaving.MovedAsks(q.tables, q.clients[c]);
  }

  // ---- Joint steps ----

  /** Every joint step is at most one step of the system and at most one of the transaction machine,
      and keeps both in order. */
  lemma StepIsBoth(t: Tables, j: State, step: Step)
    requires Inv(t, j) && Enabled(j, step)
    ensures Inv(t, Next(j, step))
    ensures var ss := SystemSteps(j, step);
      && |ss| <= 1
      && (if ss == [] then Next(j, step).s == j.s
          else System.Enabled(j.s, ss[0]) && Next(j, step).s == System.Next(j.s, ss[0]))
    ensures var ts := TransactionSteps(j, step);
      && |ts| <= 1
      && (if ts == [] then Next(j, step).q == j.q
          else Transactions.Enabled(j.q, ts[0]) && Next(j, step).q == Transactions.Next(j.q, ts[0]))
  {
    hide *;
    InvIs(t, j);
    InvIs(t, Next(j, step));
    StepIs(j, step);
    match step
    case Recon(st) =>
      System.StepKeepsInv(j.s, st);
      StepKeepsHints(j.s, st);
      if WritesRow(j.s, st) { WriteHolds(t, j, st); } else { QuietHolds(t, j, st); }
    case Serve(st) => ServeHolds(t, j, st);
  }

  lemma InvIs(t: Tables, j: State)
    ensures Inv(t, j) <==> System.Inv(j.s) && Interleaving.Inv(t, j.q)
                           && SameRules(j.s, j.q.tables) && RulesOk(j.q.tables) && HintsOfRows(j.s)
  {
    hide System.Inv;
    hide Interleaving.Inv;
    hide SameRules;
    hide RulesOk;
    hide HintsOfRows;
  }

  lemma StepIs(j: State, step: Step)
    requires Enabled(j, step)
    ensures step.Recon? ==>
      var st := step.call;
      && !ByOperator(st) && System.Enabled(j.s, st)
      && SystemSteps(j, step) == [st] && Next(j, step).s == System.Next(j.s, st)
      && (if WritesRow(j.s, st) then
            Transactions.Enabled(j.q, RowWrite(j.s)) && TransactionSteps(j, step) == [RowWrite(j.s)]
            && Next(j, step).q == Transactions.Next(j.q, RowWrite(j.s))
          else TransactionSteps(j, step) == [] && Next(j, step).q == j.q)
    ensures step.Serve? ==>
      var st := step.statement;
      && !st.Mark? && Transactions.Enabled(j.q, st) && TransactionSteps(j, step) == [st]
      && var q', ops := Transactions.Next(j.q, st), OpOf(j.q, st);
         && Next(j, step).q == q'
         && (|j.q.tables.log| <= |q'.tables.log| ==> Next(j, step).s == Reflect(j.s, j.q.tables, q'.tables))
         && SystemSteps(j, step) == if ops == [] then [] else StepsOf(j.q.tables, ops[0])
  {
    hide System.Enabled;
    hide System.Next;
    hide Transactions.Enabled;
    hide Transactions.Next;
    hide WritesRow;
    hide RowWrite;
    hide OpOf;
    hide StepsOf;
    hide Reflect;
  }

  lemma WriteHolds(t: Tables, j: State, st: System.Step)
    requires Inv(t, j) && System.Enabled(j.s, st) && WritesRow(j.s, st) && Transactions.Enabled(j.q, RowWrite(j.s))
    ensures var q' := Transactions.Next(j.q, RowWrite(j.s));
      Interleaving.Inv(t, q') && RulesOk(q'.tables) && SameRules(System.Next(j.s, st), q'.tables)
  {
    hide *;
    InvIs(t, j);
    WritesRowIs(j.s, st);
    WriteIsMark(j.s, j.q, st);
    Interleaving.StepKeepsInv(t, j.q, RowWrite(j.s));
    var m := RowWrite(j.s);
    MarkNext(j.q, m);
    MarkKeepsRules(j.q.tables, Marked(m.ruleId, m.binding, m.status, m.lastError));
  }

  lemma QuietHolds(t: Tables, j: State, st: System.Step)
    requires Inv(t, j) && System.Enabled(j.s, st) && !ByOperator(st) && !WritesRow(j.s, st)
    ensures SameRules(System.Next(j.s, st), j.q.tables)
  {
    hide *;
    InvIs(t, j);
    ReconRows(j.s, st);
    SameRulesIs(j.s, j.q.tables);
    SameRulesIs(System.Next(j.s, st), j.q.tables);
  }

  lemma ServeHolds(t: Tables, j: State, st: Transactions.Step)
    requires Inv(t, j) && Transactions.Enabled(j.q, st) && !st.Mark?
    ensures var q', ops := Transactions.Next(j.q, st), OpOf(j.q, st);
      var ss := if ops == [] then [] else StepsOf(j.q.tables, ops[0]);
      && |j.q.tables.log| <= |q'.tables.log| && |ss| <= 1
      && var s' := Reflect(j.s, j.q.tables, q'.tables);
         && Inv(t, State(s', q'))
         && if ss == [] then s' == j.s else System.Enabled(j.s, ss[0]) && s' == System.Next(j.s, ss[0])
  {
    hide *;
    InvIs(t, j);
    Interleaving.StepKeepsInv(t, j.q, st);
    ServeTables(t, j.q, st);
    var q', ops := Transactions.Next(j.q, st), OpOf(j.q, st);
    SameRulesIs(j.s, j.q.tables);
    if ops == [] {
      EchoNone(j.s, j.q.tables, q'.tables);
    } else {
      RequestIsSteps(j.s, j.q.tables, ops[0]);
      OpKeepsRules(j.s, j.q.tables, ops[0]);
      var ss := StepsOf(j.q.tables, ops[0]);
      if ss != [] {
        System.StepKeepsInv(j.s, ss[0]);
        StepKeepsHints(j.s, ss[0]);
      }
    }
    var s' := Reflect(j.s, j.q.tables, q'.tables);
    ReflectRows(j.s, j.q.tables, q'.tables);
    SameRulesIs(s', q'.tables);
    InvIs(t, State(s', q'));
  }

  lemma ReflectRows(s: System.State, t: Tables, t': Tables)
    requires |t.log| <= |t'.log|
    ensures Reflect(s, t, t').w.rows == t'.rules
  {
    hide EchoAll;
  }

  // ---- Joint runs ----

  predicate Possible(j: State, steps: seq<Step>)
    decreases |steps|
  {
    steps == [] || (Enabled(j, steps[0]) && Possible(Next(j, steps[0]), steps[1..]))
  }

  function Play(j: State, steps: seq<Step>): State
    requires Possible(j, steps)
    decreases |steps|
  {
    if steps == [] then j else Play(Next(j, steps[0]), steps[1..])
  }

  function AllSystemSteps(j: State, steps: seq<Step>): seq<System.Step>
    requires Possible(j, steps)
    decreases |steps|
  {
    if steps == [] then [] else SystemSteps(j, steps[0]) + AllSystemSteps(Next(j, steps[0]), steps[1..])
  }

  function AllTransactionSteps(j: State, steps: seq<Step>): seq<Transactions.Step>
    requires Possible(j, steps)
    decreases |steps|
  {
    if steps == [] then [] else TransactionSteps(j, steps[0]) + AllTransactionSteps(Next(j, steps[0]), steps[1..])
  }

  lemma SystemOnward(s: System.State, ss: seq<System.Step>, rest: seq<System.Step>)
    requires |ss| <= 1 && (ss != [] ==> System.Enabled(s, ss[0]))
    ensures Histories.Play(s, ss + rest) == Histories.Play(if ss == [] then s else System.Next(s, ss[0]), rest)
  {
    hide System.Enabled;
    hide System.Next;
    if ss == [] { assert ss + rest == rest; } else { assert (ss + rest)[1..] == rest; }
  }

  lemma TransactionsOnward(q: Transactions.State, ts: seq<Transactions.Step>, rest: seq<Transactions.Step>)
    requires |ts| <= 1 && (ts != [] ==> Transactions.Enabled(q, ts[0]))
    requires Interleaving.Possible(if ts == [] then q else Transactions.Next(q, ts[0]), rest)
    ensures Interleaving.Possible(q, ts + rest)
    ensures Interleaving.Play(q, ts + rest)
         == Interleaving.Play(if ts == [] then q else Transactions.Next(q, ts[0]), rest)
  {
    hide Transactions.Enabled;
    hide Transactions.Next;
    if ts == [] { assert ts + rest == rest; } else { assert (ts + rest)[1..] == rest; }
  }

  /** Every joint run is a history of the system, in which committed replacements and new rules are
      the operators' steps, and at the same time a run of the transaction machine, in which the
      reconciler's row writes are the marks. */
  lemma {:induction false} RunIsBoth(t: Tables, j: State, steps: seq<Step>)
    requires Inv(t, j) && Possible(j, steps)
    ensures var j' := Play(j, steps);
      && Inv(t, j')
      && j'.s == Histories.Play(j.s, AllSystemSteps(j, steps))
      && Interleaving.Possible(j.q, AllTransactionSteps(j, steps))
      && j'.q == Interleaving.Play(j.q, AllTransactionSteps(j, steps))
    decreases |steps|
  {
    hide Inv;
    hide Enabled;
    hide Next;
    hide SystemSteps;
    hide TransactionSteps;
    hide System.Enabled;
    hide System.Next;
    hide Transactions.Enabled;
    hide Transactions.Next;
    if steps != [] {
      var j1 := Next(j, steps[0]);
      StepIsBoth(t, j, steps[0]);
      RunIsBoth(t, j1, steps[1..]);
      SystemOnward(j.s, SystemSteps(j, steps[0]), AllSystemSteps(j1, steps[1..]));
      TransactionsOnward(j.q, TransactionSteps(j, steps[0]), AllTransactionSteps(j1, steps[1..]));
    }
  }

  /** The start: no rules, no run, no transaction. */
  predicate Init(j: State) {
    && System.Init(j.s) && j.q == Transactions.State(j.q.tables, map[], [])
    && j.q.tables.rules == map[] && NoDangling(j.q.tables) && WorkloadsOk(j.q.tables)
  }

  lemma InitInv(j: State)
    requires Init(j)
    ensures Inv(j.q.tables, j)
  {
    System.InitInv(j.s);
    hide WorkloadsOk;
    hide NoDangling;
  }

  /** From the start, whatever interleaves: the reconciler's side is a history of the system, and the
      transactions' side is serialisable, with the reconciler's row writes among its operations; the
      rules are the same on both sides. */
  lemma JointRuns(j: State, steps: seq<Step>)
    requires Init(j) && Possible(j, steps)
    ensures var j' := Play(j, steps);
      && j'.s == Histories.Play(j.s, AllSystemSteps(j, steps)) && j'.s.w.rows == j'.q.tables.rules
      && j'.q.tables == Replay(j.q.tables, j'.q.history) && AllHonest(j.q.tables, j'.q.history)
      && Interleaving.Ledger(j'.q)
  {
    hide *;
    InitInv(j);
    RunIsBoth(j.q.tables, j, steps);
    InvIs(j.q.tables, Play(j, steps));
    SameRulesIs(Play(j, steps).s, Play(j, steps).q.tables);
    SerialIs(j.q.tables, Play(j, steps).q);
  }

  lemma SerialIs(t: Tables, q: Transactions.State)
    requires Interleaving.Inv(t, q)
    ensures q.tables == Replay(t, q.history) && AllHonest(t, q.history) && Interleaving.Ledger(q)
  {
    hide Replay;
    hide AllHonest;
    hide Interleaving.Ledger;
    hide NoDangling;
    hide Interleaving.Disjoint;
    hide Interleaving.ClientsOk;
  }

  /** What holds of the system's histories holds on the shared database. */
  lemma JointGuarantees(j: State, steps: seq<Step>, x: string)
    requires Init(j) && Possible(j, steps)
    ensures var s := Play(j, steps).s;
      && Histories.BindingsUnique(s.w)
      && (x in s.w.rows ==>
            && (Bound(s.w.entries, s.w.rows[x]) ==> OwnedBy(s.w.entries[s.w.rows[x].binding.value], x))
            && |System.Orphans(s.w, x)| <= System.LostPasses(s, x) + |System.InHand(s, x)|)
  {
    hide *;
    JointRuns(j, steps);
    InitIs(j);
    Histories.OrphanBound(j.s, AllSystemSteps(j, steps), x);
    Histories.BindingInvariant(j.s, AllSystemSteps(j, steps));
  }

  lemma InitIs(j: State)
    requires Init(j)
    ensures System.Init(j.s)
  {
    hide System.Init;
    hide WorkloadsOk;
    hide NoDangling;
  }

  /** While a transaction holds a rule's row, from reading it to its end, the reconciler does not
      write it. */
  lemma LockedRowIsStill(j: State, st: System.Step, c: nat, x: string)
    requires Enabled(j, Recon(st)) && c in j.q.clients && Transactions.RuleRow(x) in j.q.clients[c].held
    ensures var w := Next(j, Recon(st)).s.w;
      (x in w.rows <==> x in j.s.w.rows) && (x in w.rows ==> w.rows[x] == j.s.w.rows[x])
  {
    hide *;
    StepIs(j, Recon(st));
    if WritesRow(j.s, st) {
      WritesRowIs(j.s, st);
      CallIs(j.s, st.fault);
      CallRows(j.s, st.fault);
      MarkNeedsLock(j.q, RowWrite(j.s));
    } else {
      ReconRows(j.s, st);
    }
  }

  lemma MarkNeedsLock(q: Transactions.State, m: Transactions.Step)
    requires m.Mark? && Transactions.Enabled(q, m)
    ensures forall d :: d in q.clients ==> Transactions.RuleRow(m.ruleId) !in q.clients[d].held
  {
  }
}

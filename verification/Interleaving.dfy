/** The machine of many clients: its invariant, and the serial history behind every run. */
module Interleaving {
  import opened Text
  import opened Registration
  import opened PolicyRules
  import opened Tables
  import opened Transactions
  import opened Serialization

  predicate Disjoint(s: State) {
    forall c, d :: c in s.clients && d in s.clients && c != d ==> s.clients[c].held !! s.clients[d].held
  }

  /** A version number is only ever claimed behind its policy's row lock. */
  predicate Backed(c: Client) {
    forall l :: l in c.held && l.VersionNumber? ==> PolicyRow(l.policyId) in c.held
  }

  predicate ClientsOk(s: State) {
    forall c :: c in s.clients ==> ClientOk(s.tables, s.clients[c]) && Backed(s.clients[c])
  }

  /** Each answered client has exactly one entry in the history, and nobody else has any. */
  predicate Ledger(s: State) {
    && (forall c :: c in s.clients && s.clients[c].point.Ended? ==> EntryOf(s, c) in s.history)
    && (forall i :: 0 <= i < |s.history| && s.history[i].Requested? ==>
          var c := s.history[i].client; c in s.clients && s.clients[c].point.Ended? && s.history[i] == EntryOf(s, c))
    && (forall i, j :: 0 <= i < j < |s.history| && s.history[i].Requested? && s.history[j].Requested? ==>
          s.history[i].client != s.history[j].client)
  }

  function EntryOf(s: State, c: nat): Op
    requires c in s.clients && s.clients[c].point.Ended?
  {
    Requested(c, s.clients[c].req, s.clients[c].ids, s.clients[c].point.reply)
  }

  /** The tables are what the history, run serially from `t`, makes of them. */
  predicate Serial(t: Tables, s: State) {
    s.tables == Replay(t, s.history) && AllHonest(t, s.history)
  }

  predicate Inv(t: Tables, s: State) {
    NoDangling(s.tables) && Disjoint(s) && ClientsOk(s) && Ledger(s) && Serial(t, s)
  }

  // ---- What a commit writes lies behind its own locks ----

  lemma CommitCovered(t: Tables, c: Client)
    requires ClientOk(t, c) && c.point.Recorded?
    ensures AllCovered(t, c.staged, c.held)
  {
    hide IsUuid; hide Accepted; hide Normalize; hide TrimSpace; hide ValidRule;
    match c.req
    case CreatePolicy(_, _, _) => ThreeWrites(t, c.staged);
    case AppendVersion(_, _, _) => ThreeWrites(t, c.staged);
    case Activate(_, _, _) => TwoWrites(t, c.staged);
    case CreateRule(_) => TwoWrites(t, c.staged);
    case ReplaceRule(_, _) => TwoWrites(t, c.staged);
  }

  lemma TwoWrites(t: Tables, ws: seq<Write>)
    requires |ws| == 2
    ensures PutAll(t, ws[..0]) == t && PutAll(t, ws[..1]) == Put(t, ws[0])
  {
    assert ws[..1][..0] == ws[..0];
  }

  lemma ThreeWrites(t: Tables, ws: seq<Write>)
    requires |ws| == 3
    ensures PutAll(t, ws[..0]) == t && PutAll(t, ws[..1]) == Put(t, ws[0])
            && PutAll(t, ws[..2]) == Put(Put(t, ws[0]), ws[1])
  {
    assert ws[..1][..0] == ws[..0] && ws[..2][..1] == ws[..1] && ws[..2][1] == ws[1];
  }

  lemma PerformKeepsNoDangling(t: Tables, req: Request, ids: Ids)
    requires NoDangling(t)
    ensures NoDangling(Perform(t, req, ids).0)
  {
    hide Accepted; hide Normalize; hide TrimSpace; hide ValidRule; hide NextNumber; hide NameTaken;
    var d := Decide(t, req, ids);
    if |d.writes| == 3 {
      ThreeWrites(t, d.writes);
      assert PutAll(t, d.writes) == Put(PutAll(t, d.writes[..2]), d.writes[2]);
    } else if |d.writes| == 2 {
      TwoWrites(t, d.writes);
      assert PutAll(t, d.writes) == Put(PutAll(t, d.writes[..1]), d.writes[1]);
    }
  }

  // ---- One step ----

  lemma OtherKept(t: Tables, c: Client, other: Client)
    requires ClientOk(t, c) && c.point.Recorded? && ClientOk(t, other) && c.held !! other.held
    ensures ClientOk(PutAll(t, c.staged), other)
  {
    hide ClientOk; hide AllCovered;
    CommitCovered(t, c);
    CoveredWrites(t, c.staged, c.held, other.held);
    ClientKept(t, PutAll(t, c.staged), other);
  }

  lemma MovedBacked(t: Tables, c: Client)
    requires ClientOk(t, c) && Fits(c.req, c.point) && Backed(c)
    ensures Backed(Moved(t, c))
  {
    hide Accepted; hide Normalize; hide TrimSpace; hide ValidRule; hide Decide; hide FreshIds; hide Run; hide Resume;
    hide View; hide PutAll;
  }

  lemma GoKeepsClients(s: State, c: nat)
    requires NoDangling(s.tables) && Disjoint(s) && ClientsOk(s) && Enabled(s, Go(c))
    ensures Disjoint(Next(s, Go(c))) && ClientsOk(Next(s, Go(c)))
  {
    hide ClientOk; hide NoDangling; hide PutAll; hide Run; hide Resume; hide NextStmt; hide LocksOf; hide Backed;
    var t, me, s' := s.tables, s.clients[c], Next(s, Go(c));
    ClientSteps(t, me);
    MovedBacked(t, me);
    forall d | d in s'.clients ensures ClientOk(s'.tables, s'.clients[d]) && Backed(s'.clients[d]) {
      if d == c {
        EndedOk(s'.tables, s'.clients[c]);
      } else if me.point.Recorded? {
        OtherKept(t, me, s.clients[d]);
      }
    }
  }

  lemma EndedOk(t: Tables, c: Client)
    ensures Over(c.point) && c.held == {} && c.staged == [] ==> ClientOk(t, c)
  {
  }

  /** A client that is still at work may be replaced by what its step made of it. */
  lemma LedgerKept(s: State, s': State, c: nat, now: Client)
    requires Ledger(s) && (c in s.clients ==> !Over(s.clients[c].point))
    requires s'.clients == s.clients[c := now] && s'.history == s.history + Answered(c, now)
    ensures Ledger(s')
  {
    if c in s.clients {
      forall i | 0 <= i < |s.history| && s.history[i].Requested? ensures s.history[i].client != c {
      }
    }
    forall d | d in s'.clients && s'.clients[d].point.Ended? ensures EntryOf(s', d) in s'.history {
      if d == c {
        assert s'.history[|s.history|] == EntryOf(s', c);
      } else {
        assert EntryOf(s, d) in s.history;
      }
    }
  }

  /** Every step is one atomic operation, or none: the operation of the client whose request it
      answers, with the same tables and the same reply; or the reconciler's write; or nothing. */
  lemma GoIsAtomic(s: State, c: nat)
    requires NoDangling(s.tables) && ClientsOk(s) && Enabled(s, Go(c))
    ensures var s', me := Next(s, Go(c)), s.clients[c];
            var p := s'.clients[c].point;
            if Over(p)
            then p.Ended? && (s'.tables, p.reply) == Perform(s.tables, me.req, me.ids)
                 && (Succeeded(p.reply) ==> FreshIds(s.tables, me.ids))
            else s'.tables == s.tables
  {
    hide NoDangling; hide Decide; hide RequestOk; hide FreshIds; hide Run; hide Resume; hide NextStmt; hide LocksOf;
    hide Backed; hide Accepted;
    ClientSteps(s.tables, s.clients[c]);
    assert ClientOk(s.tables, s.clients[c]);
  }

  lemma GoKeepsSerial(t: Tables, s: State, c: nat)
    requires NoDangling(s.tables) && ClientsOk(s) && Enabled(s, Go(c)) && Serial(t, s)
    ensures Serial(t, Next(s, Go(c))) && NoDangling(Next(s, Go(c)).tables)
  {
    hide NoDangling; hide ClientsOk; hide Perform; hide FreshIds; hide AllHonest; hide Replay;
    hide Run; hide Resume; hide NextStmt; hide LocksOf;
    GoIsAtomic(s, c);
    var s', me := Next(s, Go(c)), s.clients[c];
    var p := s'.clients[c].point;
    if Over(p) {
      var op := Requested(c, me.req, me.ids, p.reply);
      MovedAsks(s.tables, me);
      assert Honest(s.tables, op) && AfterOp(s.tables, op) == s'.tables;
      PerformKeepsNoDangling(s.tables, me.req, me.ids);
      ReplayMore(t, s.history, op);
      assert s'.history == s.history + [op];
    } else {
      assert s'.history == s.history;
    }
  }

  lemma MovedAsks(t: Tables, c: Client)
    requires Fits(c.req, c.point)
    ensures Moved(t, c).req == c.req && Moved(t, c).ids == c.ids
  {
  }

  lemma GoKeepsInv(t: Tables, s: State, c: nat)
    requires Inv(t, s) && Enabled(s, Go(c))
    ensures Inv(t, Next(s, Go(c)))
  {
    hide NoDangling; hide ClientsOk; hide Disjoint; hide Ledger; hide Serial; hide Moved; hide Committed; hide LocksOf;
    hide NextStmt;
    GoKeepsClients(s, c);
    GoKeepsSerial(t, s, c);
    LedgerKept(s, Next(s, Go(c)), c, Moved(s.tables, s.clients[c]));
  }

  lemma BeginKeepsInv(t: Tables, s: State, c: nat, req: Request, ids: Ids)
    requires Inv(t, s) && Enabled(s, Begin(c, req, ids))
    ensures Inv(t, Next(s, Begin(c, req, ids)))
  {
    hide NoDangling; hide Accepted; hide FreshIds; hide Replay; hide AllHonest; hide Backed; hide ClientOk; hide Ledger;
    var s' := Next(s, Begin(c, req, ids));
    BeginsOk(s.tables, req, ids);
    LedgerKept(s, s', c, Begins(req, ids));
    if !Accepted(req) {
      var op := Requested(c, req, ids, InvalidInput);
      assert PutAll(s.tables, []) == s.tables;
      assert Honest(s.tables, op) && AfterOp(s.tables, op) == s.tables;
      ReplayMore(t, s.history, op);
      assert s'.history == s.history + [op];
    } else {
      assert s'.history == s.history;
    }
  }

  lemma BeginsOk(t: Tables, req: Request, ids: Ids)
    requires FreshIds(t, ids)
    ensures ClientOk(t, Begins(req, ids)) && Backed(Begins(req, ids))
  {
    hide Accepted; hide FreshIds;
  }

  lemma AbortKeepsInv(t: Tables, s: State, c: nat)
    requires Inv(t, s) && Enabled(s, Abort(c))
    ensures Inv(t, Next(s, Abort(c)))
  {
    hide NoDangling; hide Replay; hide AllHonest; hide Ledger; hide ClientOk; hide Backed;
    var s' := Next(s, Abort(c));
    EndedOk(s.tables, s'.clients[c]);
    EndedBacked(s'.clients[c]);
    assert s'.history == s.history + Answered(c, s'.clients[c]);
    LedgerKept(s, s', c, s'.clients[c]);
  }

  lemma EndedBacked(c: Client)
    requires c.held == {}
    ensures Backed(c)
  {
  }

  lemma MarkKeepsInv(t: Tables, s: State, op: Step)
    requires Inv(t, s) && op.Mark? && Enabled(s, op)
    ensures Inv(t, Next(s, op))
  {
    hide Replay; hide AllHonest; hide ClientOk; hide Disjoint; hide Backed;
    var s' := Next(s, op);
    var x, o := op.ruleId, Marked(op.ruleId, op.binding, op.status, op.lastError);
    var w := PutRule(x, MarkRow(s.tables.rules[x], o));
    forall d | d in s'.clients ensures ClientOk(s'.tables, s'.clients[d]) && Backed(s'.clients[d]) {
      assert ClientOk(s.tables, s.clients[d]);
      SameOnSame(s.tables, s.clients[d].held);
      OneMore(s.tables, s.tables, w, {RuleRow(x)}, s.clients[d].held);
      ClientKept(s.tables, s'.tables, s.clients[d]);
    }
    ReplayMore(t, s.history, o);
    MarkKeepsLedger(s, s', o);
    assert Disjoint(s) ==> Disjoint(s') by { MarkKeepsDisjoint(s, s'); }
  }

  lemma MarkKeepsDisjoint(s: State, s': State)
    requires Disjoint(s) && s'.clients == s.clients
    ensures Disjoint(s')
  {
  }

  lemma MarkKeepsLedger(s: State, s': State, o: Op)
    requires Ledger(s) && o.Marked? && s'.clients == s.clients && s'.history == s.history + [o]
    ensures Ledger(s')
  {
    forall c | c in s'.clients && s'.clients[c].point.Ended? ensures EntryOf(s', c) in s'.history {
      assert EntryOf(s, c) in s.history;
    }
  }

  lemma StepKeepsInv(t: Tables, s: State, step: Step)
    requires Inv(t, s) && Enabled(s, step)
    ensures Inv(t, Next(s, step))
  {
    hide Inv; hide Enabled; hide Next;
    match step
    case Begin(c, req, ids) => BeginKeepsInv(t, s, c, req, ids);
    case Go(c) => GoKeepsInv(t, s, c);
    case Abort(c) => AbortKeepsInv(t, s, c);
    case Mark(_, _, _, _) => MarkKeepsInv(t, s, step);
  }

  // ---- Whole runs ----

  predicate Possible(s: State, steps: seq<Step>)
    decreases |steps|
  {
    steps == [] || (Enabled(s, steps[0]) && Possible(Next(s, steps[0]), steps[1..]))
  }

  function Play(s: State, steps: seq<Step>): State
    requires Possible(s, steps)
    decreases |steps|
  {
    if steps == [] then s else Play(Next(s, steps[0]), steps[1..])
  }

  lemma {:induction false} PlayKeepsInv(t: Tables, s: State, steps: seq<Step>)
    requires Inv(t, s) && Possible(s, steps)
    ensures Inv(t, Play(s, steps))
    decreases |steps|
  {
    hide Inv; hide Enabled; hide Next;
    if steps != [] {
      StepKeepsInv(t, s, steps[0]);
      PlayKeepsInv(t, Next(s, steps[0]), steps[1..]);
    }
  }

  /** Every interleaving of any number of requests, statements failing anywhere, amounts to a
      serial history of atomic operations: it gives the same tables, every client that got an
      answer got the one recorded there, once, and an aborted one left no trace. */
  lemma Serialisable(t: Tables, steps: seq<Step>)
    requires NoDangling(t) && Possible(State(t, map[], []), steps)
    ensures var s := Play(State(t, map[], []), steps);
            && s.tables == Replay(t, s.history) && AllHonest(t, s.history) && Ledger(s)
  {
    hide NoDangling; hide Enabled; hide Next; hide Honest;
    PlayKeepsInv(t, State(t, map[], []), steps);
  }

  // ---- No surprises, no deadlock ----

  /** What a transaction's next statement answers. */
  function AnswerOf(t: Tables, c: Client): Answer
    requires Fits(c.req, c.point)
  {
    Run(View(t, c), StmtOf(c)).1
  }

  predicate Inserting(p: Point) { p.Numbered? || p.PolicyInserted? }

  predicate Updating(p: Point) { p.VersionInserted? || p.VersionLoaded? || p.RuleLocked? }

  lemma InsertHits(t: Tables, c: Client)
    requires ClientOk(t, c) && NoDangling(t) && Inserting(c.point)
    ensures Fits(c.req, c.point) && AnswerOf(t, c) == Inserted
  {
    hide Normalize; hide TrimSpace; hide Accepted; hide ValidRule; hide IsUuid;
    if c.point.Numbered? {
      NextIsFree(t, Lower(c.req.policyId));
    } else {
      FirstWrites(t, c);
      assert View(t, c).versions == t.versions;
      assert !NumberTaken(View(t, c), c.ids.row, 1);
    }
  }

  lemma UpdateHits(t: Tables, c: Client)
    requires ClientOk(t, c) && Updating(c.point)
    ensures Fits(c.req, c.point) && AnswerOf(t, c) == Affected(1)
  {
    hide Normalize; hide TrimSpace; hide Accepted; hide ValidRule; hide FreshIds;
    if c.point.VersionInserted? { FirstWrites(t, c); }
  }

  /** Under its lock, a transaction's INSERT never meets a duplicate version number and its
      guarded UPDATE always hits exactly one row. */
  lemma NeverSurprised(t: Tables, s: State, c: nat)
    requires Inv(t, s) && c in s.clients
    ensures var me := s.clients[c];
            && (Inserting(me.point) ==> Fits(me.req, me.point) && AnswerOf(s.tables, me) == Inserted)
            && (Updating(me.point) ==> Fits(me.req, me.point) && AnswerOf(s.tables, me) == Affected(1))
  {
    hide ClientOk; hide Fits; hide AnswerOf; hide NoDangling; hide Serial; hide Ledger; hide Disjoint; hide Backed;
    var me := s.clients[c];
    if Inserting(me.point) { InsertHits(s.tables, me); }
    if Updating(me.point) { UpdateHits(s.tables, me); }
  }

  predicate Waits(s: State, c: nat) {
    c in s.clients && Fits(s.clients[c].req, s.clients[c].point) && !Enabled(s, Go(c))
  }

  predicate First(p: Point) { p.Begun? || p.OrganizationFound? || p.WorkloadFound? }

  /** All that a transaction needs once it is past its first lock is behind that lock. */
  lemma NeedsWhatItHolds(t: Tables, c: Client, l: Lock)
    requires ClientOk(t, c) && Fits(c.req, c.point) && !First(c.point) && l in LocksOf(View(t, c), StmtOf(c))
    ensures l in c.held || (l.VersionNumber? && PolicyRow(l.policyId) in c.held)
  {
    hide Normalize; hide TrimSpace; hide Accepted; hide ValidRule; hide FreshIds; hide View; hide Decide;
    match c.req
    case CreatePolicy(_, _, _) =>
    case AppendVersion(_, _, _) =>
    case Activate(_, _, _) =>
    case CreateRule(_) =>
    case ReplaceRule(_, _) =>
  }

  lemma FirstHoldsLittle(t: Tables, c: Client)
    requires ClientOk(t, c) && First(c.point)
    ensures c.held == Reserved(c.ids) && c.staged == [] && FreshIds(t, c.ids)
  {
    hide Accepted; hide FreshIds; hide Decide;
  }

  /** Past its first lock a transaction never waits. */
  lemma PastRuns(t: Tables, s: State, c: nat)
    requires Inv(t, s) && c in s.clients && Fits(s.clients[c].req, s.clients[c].point) && !First(s.clients[c].point)
    ensures Enabled(s, Go(c))
  {
    hide ClientOk; hide Fits; hide NoDangling; hide Serial; hide Ledger; hide NextStmt; hide LocksOf; hide View;
    var me := s.clients[c];
    var locks := LocksOf(View(s.tables, me), StmtOf(me));
    forall d, l | d in s.clients && d != c && l in locks ensures l !in s.clients[d].held {
      NeedsWhatItHolds(s.tables, me, l);
      assert Backed(s.clients[d]);
    }
  }

  /** What a waiting transaction waits for is held by one that is past its first lock. */
  lemma HolderIsPast(t: Tables, s: State, c: nat, d: nat, l: Lock)
    requires Inv(t, s) && Waits(s, c) && d in s.clients && d != c
    requires First(s.clients[c].point) && l in s.clients[d].held
    requires l in LocksOf(View(s.tables, s.clients[c]), StmtOf(s.clients[c]))
    ensures !First(s.clients[d].point)
  {
    hide ClientOk; hide NoDangling; hide Serial; hide Ledger; hide IsUuid; hide Enabled; hide LocksOf; hide NextStmt;
    hide Fits; hide View;
    var me, other := s.clients[c], s.clients[d];
    FirstHoldsLittle(s.tables, me);
    FirstNeeds(s.tables, me, l);
    if First(other.point) {
      FirstHoldsLittle(s.tables, other);
    }
  }

  /** Before its first lock a transaction needs a row that is there, a name, or what it has reserved. */
  lemma FirstNeeds(t: Tables, c: Client, l: Lock)
    requires c.staged == [] && First(c.point) && Fits(c.req, c.point) && l in LocksOf(View(t, c), StmtOf(c))
    ensures l.PolicyRow? ==> l.id in t.policies || l in Reserved(c.ids)
    ensures l.RuleRow? ==> l.id in t.rules || l in Reserved(c.ids)
    ensures l.VersionRow? ==> l in Reserved(c.ids)
  {
    hide Normalize; hide TrimSpace; hide Lower; hide ValidRule;
  }

  /** No deadlock: as long as some transaction is unfinished, some transaction can go on. */
  lemma NoDeadlock(t: Tables, s: State, c: nat)
    requires Inv(t, s) && c in s.clients && !Over(s.clients[c].point)
    ensures exists d :: d in s.clients && Enabled(s, Go(d))
  {
    hide ClientOk; hide NoDangling; hide Serial; hide Ledger; hide NextStmt; hide LocksOf; hide View; hide Fits;
    UnfinishedFits(s.tables, s.clients[c]);
    if Waits(s, c) {
      var me := s.clients[c];
      if !First(me.point) { PastRuns(t, s, c); }
      var locks := LocksOf(View(s.tables, me), StmtOf(me));
      var d :| d in s.clients && d != c && !(locks !! s.clients[d].held);
      var l :| l in locks && l in s.clients[d].held;
      HolderIsPast(t, s, c, d, l);
      HoldingIsUnfinished(s.tables, s.clients[d], l);
      UnfinishedFits(s.tables, s.clients[d]);
      PastRuns(t, s, d);
    }
  }

  lemma HoldingIsUnfinished(t: Tables, c: Client, l: Lock)
    requires ClientOk(t, c) && l in c.held
    ensures !Over(c.point)
  {
  }

  lemma UnfinishedFits(t: Tables, c: Client)
    requires ClientOk(t, c) && !Over(c.point)
    ensures Fits(c.req, c.point)
  {
    hide Accepted; hide FreshIds; hide Decide;
  }

  // ---- The same, of every run from the start ----

  lemma PlayInv(t: Tables, steps: seq<Step>)
    requires NoDangling(t) && Possible(State(t, map[], []), steps)
    ensures Inv(t, Play(State(t, map[], []), steps))
  {
    hide NoDangling; hide Enabled; hide Next; hide Honest;
    PlayKeepsInv(t, State(t, map[], []), steps);
  }

  /** In no run does an INSERT meet a duplicate number or a guarded UPDATE miss its row. */
  lemma RunsNeverSurprised(t: Tables, steps: seq<Step>, c: nat)
    requires NoDangling(t) && Possible(State(t, map[], []), steps) && c in Play(State(t, map[], []), steps).clients
    ensures var s := Play(State(t, map[], []), steps); var me := s.clients[c];
            && (Inserting(me.point) ==> Fits(me.req, me.point) && AnswerOf(s.tables, me) == Inserted)
            && (Updating(me.point) ==> Fits(me.req, me.point) && AnswerOf(s.tables, me) == Affected(1))
  {
    hide *;
    PlayInv(t, steps);
    NeverSurprised(t, Play(State(t, map[], []), steps), c);
  }

  /** No run deadlocks. */
  lemma RunsNeverDeadlock(t: Tables, steps: seq<Step>, c: nat)
    requires NoDangling(t) && Possible(State(t, map[], []), steps)
    requires var s := Play(State(t, map[], []), steps); c in s.clients && !Over(s.clients[c].point)
    ensures var s := Play(State(t, map[], []), steps); exists d :: d in s.clients && Enabled(s, Go(d))
  {
    hide *;
    PlayInv(t, steps);
    NoDeadlock(t, Play(State(t, map[], []), steps), c);
  }
}

/** Revisions: per row, one winner for each expected revision, and no gaps. */
module Revisions {
  import opened Text
  import opened Registration
  import opened PolicyRules
  import opened Tables
  import opened Transactions
  import opened Serialization
  import opened Interleaving
  import opened PolicyHistory

  datatype Key = PolicyKey(id: string) | RuleKey(id: string)

  function RevisionAt(t: Tables, k: Key): Option<int> {
    match k
    case PolicyKey(p) => if p in t.policies then Some(t.policies[p].revision) else None
    case RuleKey(x) => if x in t.rules then Some(t.rules[x].revision) else None
  }

  /** The row and revision a request is conditional on. */
  function Condition(req: Request): Option<(Key, int)> {
    match req
    case AppendVersion(p, e, _) => Some((PolicyKey(Lower(p)), e))
    case Activate(p, e, _) => Some((PolicyKey(Lower(p)), e))
    case ReplaceRule(x, i) => Some((RuleKey(Lower(x)), i.expectedRevision))
    case _ => None
  }

  /** The operation is a conditional mutation of row `k` that succeeded. */
  predicate Wins(op: Op, k: Key) {
    op.Requested? && Succeeded(op.reply) && Condition(op.req).Some? && Condition(op.req).value.0 == k
  }

  function Expected(op: Op): int
    requires op.Requested? && Condition(op.req).Some?
  {
    Condition(op.req).value.1
  }

  /** Successful mutations of row `k` from position `i` on. */
  function WinsFrom(history: seq<Op>, i: nat, k: Key): nat
    decreases |history|
  {
    if |history| <= i then 0
    else
      var m := |history| - 1;
      WinsFrom(history[..m], i, k) + if Wins(history[m], k) then 1 else 0
  }

  lemma ReplaceWrites(t: Tables, req: Request, ids: Ids)
    requires req.ReplaceRule? && Succeeded(Perform(t, req, ids).1)
    ensures var x, i, t' := Lower(req.ruleId), req.input, Perform(t, req, ids).0;
            && x in t.rules && t.rules[x].revision == i.expectedRevision
            && t'.rules == t.rules[x := Replaced(t.rules[x], i)] && t'.policies == t.policies
  {
    hide IsUuid; hide AcceptedFields;
    Puts(t, Decide(t, req, ids).writes);
  }

  lemma CreateRuleWrites(t: Tables, req: Request, ids: Ids)
    requires req.CreateRule? && Succeeded(Perform(t, req, ids).1) && FreshIds(t, ids)
    ensures var t' := Perform(t, req, ids).0;
            t'.policies == t.policies && forall x :: x in t.rules ==> x in t'.rules && t'.rules[x] == t.rules[x]
  {
    hide IsUuid; hide AcceptedFields;
    Puts(t, Decide(t, req, ids).writes);
  }

  lemma PoliciesKeepRules(t: Tables, req: Request, ids: Ids)
    requires OnPolicies(req, Perform(t, req, ids).1)
    ensures Perform(t, req, ids).0.rules == t.rules
  {
    hide ValidRule; hide Normalize; hide TrimSpace; hide IsUuid; hide IsName; hide NextNumber;
    if req.CreatePolicy? { CreateWrites(t, req, ids); }
    else if req.AppendVersion? { AppendWrites(t, req, ids); }
    else { ActivateWrites(t, req, ids); }
  }

  lemma FailureWritesNothing(t: Tables, req: Request, ids: Ids)
    requires !Succeeded(Perform(t, req, ids).1)
    ensures Perform(t, req, ids).0 == t
  {
    hide ValidRule; hide Normalize; hide TrimSpace; hide Accepted; hide NextNumber; hide NameTaken;
  }

  lemma SuccessMatches(t: Tables, req: Request, ids: Ids)
    requires Succeeded(Perform(t, req, ids).1)
    ensures OnPolicies(req, Perform(t, req, ids).1) || req.CreateRule? || req.ReplaceRule?
  {
    hide ValidRule; hide Normalize; hide TrimSpace; hide Accepted; hide NextNumber; hide NameTaken; hide PutAll;
  }

  /** A winning mutation expected exactly the revision it found, and leaves the next one; nothing
      else moves a revision. */
  lemma OpMovesRevision(t: Tables, op: Op, k: Key)
    requires Honest(t, op) && RevisionAt(t, k).Some?
    ensures var r := RevisionAt(t, k).value;
            && RevisionAt(AfterOp(t, op), k) == Some(if Wins(op, k) then r + 1 else r)
            && (Wins(op, k) ==> Expected(op) == r)
  {
    hide Perform; hide FreshIds;
    if op.Requested? {
      if !Succeeded(op.reply) {
        FailureWritesNothing(t, op.req, op.ids);
      } else {
        SuccessMovesRevision(t, op, k);
      }
    }
  }

  lemma SuccessMovesRevision(t: Tables, op: Op, k: Key)
    requires op.Requested? && Honest(t, op) && Succeeded(op.reply) && RevisionAt(t, k).Some?
    ensures var r := RevisionAt(t, k).value;
            && RevisionAt(Perform(t, op.req, op.ids).0, k) == Some(if Wins(op, k) then r + 1 else r)
            && (Wins(op, k) ==> Expected(op) == r)
  {
    hide Perform; hide ValidRule; hide Normalize; hide TrimSpace; hide NextNumber; hide NameTaken; hide IsUuid; hide Lower;
    SuccessMatches(t, op.req, op.ids);
    match op.req
    case CreatePolicy(_, _, _) =>
      CreateWrites(t, op.req, op.ids);
      PoliciesKeepRules(t, op.req, op.ids);
    case AppendVersion(_, _, _) =>
      AppendWrites(t, op.req, op.ids);
      PoliciesKeepRules(t, op.req, op.ids);
    case Activate(_, _, _) =>
      ActivateWrites(t, op.req, op.ids);
      PoliciesKeepRules(t, op.req, op.ids);
    case CreateRule(_) => CreateRuleWrites(t, op.req, op.ids);
    case ReplaceRule(_, _) => ReplaceWrites(t, op.req, op.ids);
  }

  /** Revisions have no gaps: a row's revision is what it was plus its successful mutations since. */
  lemma {:induction false} RevisionCountsWins(t: Tables, history: seq<Op>, i: nat, k: Key)
    requires AllHonest(t, history) && i <= |history| && RevisionAt(Replay(t, history[..i]), k).Some?
    ensures RevisionAt(Replay(t, history), k)
         == Some(RevisionAt(Replay(t, history[..i]), k).value + WinsFrom(history, i, k))
    decreases |history|
  {
    hide Honest; hide AfterOp; hide RevisionAt; hide Wins;
    if i < |history| {
      var m := |history| - 1;
      AllHonestPrefix(t, history, m);
      assert history[..m][..i] == history[..i];
      RevisionCountsWins(t, history[..m], i, k);
      OpMovesRevision(Replay(t, history[..m]), history[m], k);
    } else {
      assert history[..i] == history;
    }
  }

  /** At most one request per row and expected revision succeeds: the later of two winners
      expected the earlier one's revision plus one for it and one for each winner between. */
  lemma OneWinner(t: Tables, history: seq<Op>, i: nat, j: nat, k: Key)
    requires AllHonest(t, history) && i < j < |history| && Wins(history[i], k) && Wins(history[j], k)
    ensures Expected(history[j]) == Expected(history[i]) + 1 + WinsFrom(history[..j], i + 1, k)
  {
    hide Honest; hide AfterOp; hide RevisionAt;
    var before := Replay(t, history[..i]);
    assert Honest(before, history[i]) && Honest(Replay(t, history[..j]), history[j]);
    WinnerFinds(before, history[i], k);
    OpMovesRevision(before, history[i], k);
    assert history[..i + 1][..i] == history[..i];
    assert Replay(t, history[..i + 1]) == AfterOp(before, history[i]);
    AllHonestPrefix(t, history, j);
    assert history[..j][..i + 1] == history[..i + 1];
    RevisionCountsWins(t, history[..j], i + 1, k);
    OpMovesRevision(Replay(t, history[..j]), history[j], k);
  }

  lemma WinnerFinds(t: Tables, op: Op, k: Key)
    requires Honest(t, op) && Wins(op, k)
    ensures RevisionAt(t, k).Some?
  {
    hide Perform; hide ValidRule; hide Normalize; hide TrimSpace; hide NextNumber; hide FreshIds; hide Lower;
    SuccessMatches(t, op.req, op.ids);
    match op.req
    case AppendVersion(_, _, _) => AppendWrites(t, op.req, op.ids);
    case Activate(_, _, _) => ActivateWrites(t, op.req, op.ids);
    case ReplaceRule(_, _) => ReplaceWrites(t, op.req, op.ids);
  }

  // ---- Over every interleaving ----

  /** However transactions interleave and fail, every policy stays in order. */
  lemma RunsKeepPolicies(t: Tables, steps: seq<Step>)
    requires Policies(t) && Possible(State(t, map[], []), steps)
    ensures Policies(Play(State(t, map[], []), steps).tables)
  {
    hide Honest; hide Replay; hide Enabled; hide Next;
    assert NoDangling(t);
    Serialisable(t, steps);
    HistoryKeepsPolicies(t, Play(State(t, map[], []), steps).history);
  }

  /** Of two clients that asked to mutate the same row at the same expected revision, at most one
      succeeds, however their statements interleave. */
  lemma ConcurrentRequestsConflict(t: Tables, steps: seq<Step>, c: nat, d: nat)
    requires NoDangling(t) && Possible(State(t, map[], []), steps)
    requires var s := Play(State(t, map[], []), steps);
             && c in s.clients && d in s.clients && c != d
             && s.clients[c].point.Ended? && s.clients[d].point.Ended?
             && Condition(s.clients[c].req).Some? && Condition(s.clients[c].req) == Condition(s.clients[d].req)
    ensures var s := Play(State(t, map[], []), steps);
            !(Succeeded(s.clients[c].point.reply) && Succeeded(s.clients[d].point.reply))
  {
    hide Honest; hide Replay; hide Enabled; hide Next; hide Play; hide Possible;
    var s := Play(State(t, map[], []), steps);
    Serialisable(t, steps);
    assert EntryOf(s, c) in s.history && EntryOf(s, d) in s.history;
    var i :| 0 <= i < |s.history| && s.history[i] == EntryOf(s, c);
    var j :| 0 <= j < |s.history| && s.history[j] == EntryOf(s, d);
    if Succeeded(s.clients[c].point.reply) && Succeeded(s.clients[d].point.reply) {
      var k := Condition(s.clients[c].req).value.0;
      if i < j { OneWinner(t, s.history, i, j, k); } else { OneWinner(t, s.history, j, i, k); }
    }
  }
}

/** The operator's side as it runs: PostgresManager and PostgresMutationService, statement by
    statement. Each method takes exactly the steps of the transaction machine, so what it leaves
    behind is the atomic operation, or nothing. */
module Managers {
  import opened Text
  import opened Registration
  import opened PolicyRules
  import opened Tables
  import opened Transactions
  import opened Serialization
  import opened Interleaving
  import PolicyHistory
  import Outcomes

  /** The database connection. `failures` says which of the coming statements fail; `ids` is what
      gen_random_uuid will yield. */
  class Database {
    var tables: Tables
    var failures: seq<bool>

    ghost predicate Valid()
      reads this
    {
      NoDangling(tables)
    }

    method Fails() returns (failed: bool)
      modifies this`failures
      ensures failed ==> true in old(failures)
      ensures forall b :: b in failures ==> b in old(failures)
    {
      if failures == [] { return false; }
      failed := failures[0];
      failures := failures[1..];
    }
  }

  /** One transaction: it sees its own writes on top of the tables, which change only at commit. */
  class Transaction {
    const db: Database
    var staged: seq<Write>
    const ids: Ids
    /** The client of the machine that this transaction is. */
    ghost const req: Request
    ghost const start: Tables
    ghost var client: Client

    /** Nothing is committed yet, and `client` is where the statements so far have led. */
    ghost predicate Open()
      reads this, db
    {
      NoDangling(start) && db.tables == start && At(start, client, req, ids, staged)
    }

    constructor (db: Database, ghost req: Request, ids: Ids)
      requires Accepted(req) && FreshIds(db.tables, ids)
      ensures this.db == db && staged == [] && this.req == req && this.ids == ids
      ensures start == db.tables && (NoDangling(start) ==> Open()) && client.point == Begun
    {
      hide Accepted; hide FreshIds; hide At; hide NoDangling;
      ghost var c := Started(db.tables, req, ids);
      this.db := db;
      this.req := req;
      this.ids := ids;
      this.start := db.tables;
      client := c;
      staged := [];
    }

    method Exec(stmt: Stmt) returns (answer: Option<Answer>)
      modifies this`staged, db`failures
      ensures answer.None? ==> true in old(db.failures)
      ensures forall b :: b in db.failures ==> b in old(db.failures)
      ensures answer.Some? ==> var (writes, a) := Run(PutAll(db.tables, old(staged)), stmt);
                               staged == old(staged) + writes && answer.value == a
    {
      var failed := db.Fails();
      if failed { return None; }
      var (writes, a) := Run(PutAll(db.tables, staged), stmt);
      staged := staged + writes;
      answer := Some(a);
    }

    /** The transaction's next statement. */
    method Go(stmt: Stmt) returns (answer: Option<Answer>)
      requires Open() && !client.point.Recorded? && Fits(req, client.point) && stmt == NextStmt(req, ids, client.point)
      modifies this`staged, this`client, db`failures
      ensures answer.None? ==> true in old(db.failures)
      ensures forall b :: b in db.failures ==> b in old(db.failures)
      ensures db.tables == start
      ensures answer.Some? ==>
        var p := Resume(req, ids, old(client.point), answer.value);
        && (Over(p) ==> p.Ended? && (start, p.reply) == Perform(start, req, ids))
        && (!Over(p) ==> Open() && client.point == p)
    {
      hide At; hide Run; hide Resume; hide NextStmt; hide PutAll; hide NoDangling; hide Perform; hide Over; hide Fits;
      client := Follow(start, client, req, ids, staged);
      answer := Exec(stmt);
    }

    method CommitAll() returns (ok: bool)
      modifies db
      ensures !ok ==> true in old(db.failures) && db.tables == old(db.tables)
      ensures ok ==> db.tables == PutAll(old(db.tables), staged)
    {
      var failed := db.Fails();
      if failed { return false; }
      for i := 0 to |staged|
        invariant db.tables == PutAll(old(db.tables), staged[..i])
      {
        assert staged[..i + 1] == staged[..i] + [staged[i]];
        PutAllOne(old(db.tables), staged[..i], staged[i]);
        db.tables := Put(db.tables, staged[i]);
      }
      assert staged[..|staged|] == staged;
      ok := true;
    }

    /** SELECT ... FOR UPDATE of a policy and the check of its revision. */
    method LockPolicy(id: string, expected: int) returns (row: Option<Policy>, reply: Reply)
      requires Open() && client.point == Begun
      requires NextStmt(req, ids, Begun) == SelectPolicyForUpdate(id)
      requires forall a :: Resume(req, ids, Begun, a) == LockedOr(a, expected)
      modifies this`staged, this`client, db`failures
      ensures forall b :: b in db.failures ==> b in old(db.failures)
      ensures db.tables == start
      ensures row.Some? ==> Open() && client.point == PolicyLocked(row.value)
      ensures row.None? ==> Atomic(start, old(db.failures), req, ids, start, reply)
    {
      hide At; hide Perform; hide NextStmt; hide Resume; hide NoDangling;
      var locked := Go(SelectPolicyForUpdate(id));
      if locked.None? { return None, Failed; }
      if !locked.value.PolicyIs? { return None, NotFound; }
      if locked.value.policy.revision != expected { return None, Conflict; }
      return Some(locked.value.policy), Failed;
    }

    /** The audit event, and then the commit. */
    method Seal(event: Event, result: Reply) returns (reply: Reply)
      requires Open() && !client.point.Recorded? && Fits(req, client.point)
      requires NextStmt(req, ids, client.point) == InsertEvent(event)
      requires forall a :: Resume(req, ids, client.point, a) == Recorded(result)
      modifies this, db
      ensures Atomic(start, old(db.failures), req, ids, db.tables, reply)
    {
      hide At; hide Perform; hide NextStmt; hide Resume; hide NoDangling; hide Fits; hide PutAll;
      var recorded := Go(InsertEvent(event));
      if recorded.None? { return Failed; }
      Finish(start, client, req, ids, staged);
      var ok := CommitAll();
      reply := if ok then result else Failed;
    }
  }

  /** A transaction that is where client `c` of the machine is. */
  ghost predicate At(t: Tables, c: Client, req: Request, ids: Ids, staged: seq<Write>) {
    ClientOk(t, c) && Fits(c.req, c.point) && c.req == req && c.ids == ids && c.staged == staged
  }

  /** One statement takes the client on, or ends it as the atomic operation would. */
  lemma Follow(t: Tables, c: Client, req: Request, ids: Ids, staged: seq<Write>) returns (next: Client)
    requires NoDangling(t) && At(t, c, req, ids, staged) && !c.point.Recorded?
    ensures var (writes, answer) := Run(PutAll(t, staged), NextStmt(req, ids, c.point));
            var p := Resume(req, ids, c.point, answer);
            && (Over(p) ==> p.Ended? && (t, p.reply) == Perform(t, req, ids))
            && (!Over(p) ==> next.point == p && At(t, next, req, ids, staged + writes))
  {
    hide ClientOk; hide Run; hide Resume; hide NextStmt; hide Decide; hide LocksOf; hide Fits;
    next := Moved(t, c);
    ClientSteps(t, c);
    if !Over(next.point) { UnfinishedFits(t, next); }
  }

  lemma Finish(t: Tables, c: Client, req: Request, ids: Ids, staged: seq<Write>)
    requires NoDangling(t) && At(t, c, req, ids, staged) && c.point.Recorded?
    ensures (PutAll(t, staged), c.point.reply) == Perform(t, req, ids)
  {
    hide ClientOk; hide Run; hide Decide; hide LocksOf;
    ClientSteps(t, c);
  }

  lemma Started(t: Tables, req: Request, ids: Ids) returns (c: Client)
    requires Accepted(req) && FreshIds(t, ids)
    ensures At(t, c, req, ids, []) && c.point == Begun
  {
    hide Accepted; hide FreshIds;
    c := Begins(req, ids);
    BeginsOk(t, req, ids);
  }

  /** What a reply means for the tables: it is the atomic operation's, or a statement failed and
      nothing changed. */
  ghost predicate Atomic(before: Tables, failures: seq<bool>, req: Request, ids: Ids, after: Tables, reply: Reply) {
    (after, reply) == Perform(before, req, ids) || (reply == Failed && after == before && true in failures)
  }

  /** What any of the methods below leaves behind is ready for the next. */
  lemma AtomicKeepsOrder(before: Tables, failures: seq<bool>, req: Request, ids: Ids, after: Tables, reply: Reply)
    requires Atomic(before, failures, req, ids, after, reply) && FreshIds(before, ids)
    ensures NoDangling(before) ==> NoDangling(after)
    ensures PolicyHistory.Policies(before) ==> PolicyHistory.Policies(after)
  {
    hide Perform; hide NoDangling; hide PolicyHistory.Policies; hide FreshIds;
    if after != before {
      if NoDangling(before) { PerformKeepsNoDangling(before, req, ids); }
      if PolicyHistory.Policies(before) { PolicyHistory.OpKeepsPolicies(before, Requested(0, req, ids, reply)); }
    }
  }

  /** A success is what the tables say, whatever statements it took. */
  lemma AtomicTells(before: Tables, failures: seq<bool>, req: Request, ids: Ids, after: Tables, reply: Reply)
    requires Atomic(before, failures, req, ids, after, reply) && FreshIds(before, ids) && Succeeded(reply)
    ensures Outcomes.TellsTruth(after, reply)
  {
    hide Perform; hide FreshIds; hide Outcomes.TellsTruth;
    Outcomes.RepliesTellTruth(before, req, ids);
  }

  lemma Rejected(t: Tables, req: Request, ids: Ids)
    requires !Accepted(req)
    ensures Perform(t, req, ids) == (t, InvalidInput)
  {
  }

  /** What AppendVersion does once the policy's row is locked, and where each answer leads. */
  lemma AppendPlan(id: string, expected: int, i: RuleInput, ids: Ids, row: Policy, n: int)
    ensures var req := Request.AppendVersion(id, expected, i);
      && Fits(req, PolicyLocked(row)) && NextStmt(req, ids, PolicyLocked(row)) == SelectNextNumber(Lower(id))
      && Fits(req, Numbered(row, n))
      && NextStmt(req, ids, Numbered(row, n)) == InsertVersion(ids.version, Version(Lower(id), n, Normalize(i)))
      && Fits(req, VersionInserted(row, n))
      && NextStmt(req, ids, VersionInserted(row, n)) == UpdateRevision(Lower(id), expected)
      && Fits(req, RevisionUpdated(row, n))
      && NextStmt(req, ids, RevisionUpdated(row, n))
         == InsertEvent(VersionAppended(id, row.revision + 1, n, Normalize(i).effect))
    ensures forall a :: Resume(Request.AppendVersion(id, expected, i), ids, PolicyLocked(row), a)
                     == if a.NumberIs? then Numbered(row, a.number) else Aborted
    ensures forall a :: Resume(Request.AppendVersion(id, expected, i), ids, Numbered(row, n), a)
                     == if a == Inserted then VersionInserted(row, n) else Ended(Conflict)
    ensures forall a :: Resume(Request.AppendVersion(id, expected, i), ids, VersionInserted(row, n), a)
                     == if a == Affected(1) then RevisionUpdated(row, n) else Ended(Conflict)
    ensures forall a :: Resume(Request.AppendVersion(id, expected, i), ids, RevisionUpdated(row, n), a)
                     == Recorded(Appended(VersionResult(ids.version, id, n, row.revision + 1, Normalize(i).effect)))
  {
    hide Normalize;
    hide Lower;
  }

  class PolicyManager {
    const db: Database

    constructor (db: Database)
      ensures this.db == db
    {
      this.db := db;
    }

    method Create(organizationId: string, name: string, initial: RuleInput, ids: Ids) returns (reply: Reply)
      requires db.Valid() && FreshIds(db.tables, ids)
      modifies db
      ensures Atomic(old(db.tables), old(db.failures), CreatePolicy(organizationId, name, initial), ids,
                     db.tables, reply)
    {
      hide Accepted; hide At; hide Run; hide Lower; hide Perform; hide FreshIds; hide NoDangling;
      hide Normalize; hide TrimSpace; hide PutAll; hide ValidRule;
      ghost var t, req := db.tables, CreatePolicy(organizationId, name, initial);
      if !Accepted(CreatePolicy(organizationId, name, initial)) {
        Rejected(t, req, ids);
        return InvalidInput;
      }
      var policyName, rule := TrimSpace(name), Normalize(initial);
      var tx := new Transaction(db, req, ids);

      var found := tx.Go(OrganizationExists(Lower(organizationId)));
      if found.None? { return Failed; }
      if found.value != Exists(true) { return NotFound; }

      var inserted := tx.Go(InsertPolicy(ids.row, Policy(Lower(organizationId), policyName, "draft", 1, None)));
      if inserted.None? { return Failed; }
      if inserted.value != Inserted { return Conflict; }

      var versioned := tx.Go(InsertVersion(ids.version, Version(ids.row, 1, rule)));
      if versioned.None? { return Failed; }
      if versioned.value != Inserted { return Failed; }

      var policy := PolicyResult(ids.row, organizationId, policyName, "draft", 1, None);
      var version := VersionResult(ids.version, ids.row, 1, 1, rule.effect);
      reply := tx.Seal(PolicyCreated(ids.row, policy.status, policy.revision, version.number, version.effect),
                       Created(policy, version));
    }

    method AppendVersion(policyId: string, expected: int, version: RuleInput, ids: Ids) returns (reply: Reply)
      requires db.Valid() && FreshIds(db.tables, ids)
      modifies db
      ensures Atomic(old(db.tables), old(db.failures), Request.AppendVersion(policyId, expected, version), ids,
                     db.tables, reply)
    {
      hide Accepted; hide At; hide Run; hide Lower; hide Perform; hide FreshIds; hide NoDangling;
      hide Normalize; hide TrimSpace; hide PutAll; hide ValidRule;
      ghost var t, req := db.tables, Request.AppendVersion(policyId, expected, version);
      if !Accepted(Request.AppendVersion(policyId, expected, version)) {
        Rejected(t, req, ids);
        return InvalidInput;
      }
      var rule, id := Normalize(version), Lower(policyId);
      var tx := new Transaction(db, req, ids);

      var locked;
      locked, reply := tx.LockPolicy(id, expected);
      if locked.None? { return; }
      var row := locked.value;

      reply := AddNext(tx, policyId, expected, version, row);
    }

    /** The rest of AppendVersion, with the policy's row locked. */
    method AddNext(tx: Transaction, policyId: string, expected: int, version: RuleInput, row: Policy)
      returns (reply: Reply)
      requires tx.Open() && tx.req == Request.AppendVersion(policyId, expected, version)
      requires tx.client.point == PolicyLocked(row)
      modifies tx, tx.db
      ensures Atomic(tx.start, old(tx.db.failures), tx.req, tx.ids, tx.db.tables, reply)
    {
      hide At; hide Run; hide Lower; hide Perform; hide NoDangling; hide Normalize; hide PutAll;
      hide NextStmt; hide Resume; hide Fits;
      AppendPlan(policyId, expected, version, tx.ids, row, 0);
      var id, rule := Lower(policyId), Normalize(version);
      var next := tx.Go(SelectNextNumber(id));
      if next.None? { return Failed; }
      var number := next.value.number;
      AppendPlan(policyId, expected, version, tx.ids, row, number);

      var inserted := tx.Go(InsertVersion(tx.ids.version, Version(id, number, rule)));
      if inserted.None? { return Failed; }
      if inserted.value != Inserted { return Conflict; }

      var advanced := tx.Go(UpdateRevision(id, expected));
      if advanced.None? { return Failed; }
      if advanced.value != Affected(1) { return Conflict; }

      var result := VersionResult(tx.ids.version, policyId, number, row.revision + 1, rule.effect);
      reply := tx.Seal(VersionAppended(policyId, result.revision, number, rule.effect), Appended(result));
    }

    method Activate(policyId: string, expected: int, versionId: string, ids: Ids) returns (reply: Reply)
      requires db.Valid() && FreshIds(db.tables, ids)
      modifies db
      ensures Atomic(old(db.tables), old(db.failures), Request.Activate(policyId, expected, versionId), ids,
                     db.tables, reply)
    {
      hide Accepted; hide At; hide Run; hide Lower; hide Perform; hide FreshIds; hide NoDangling;
      hide Normalize; hide TrimSpace; hide PutAll; hide ValidRule;
      ghost var t, req := db.tables, Request.Activate(policyId, expected, versionId);
      if !Accepted(Request.Activate(policyId, expected, versionId)) {
        Rejected(t, req, ids);
        return InvalidInput;
      }
      var id, vid := Lower(policyId), Lower(versionId);
      var tx := new Transaction(db, req, ids);

      var locked;
      locked, reply := tx.LockPolicy(id, expected);
      if locked.None? { return; }
      var row := locked.value;

      var loaded := tx.Go(SelectVersion(vid, id));
      if loaded.None? { return Failed; }
      if !loaded.value.VersionIs? { return NotFound; }
      var version := loaded.value.version;
      if !ValidRule(version.rule) { return InvalidInput; }

      var updated := tx.Go(UpdateActive(id, expected, vid));
      if updated.None? { return Failed; }
      if updated.value != Affected(1) { return Conflict; }

      var result := PolicyResult(policyId, row.organizationId, row.name, "active", expected + 1, Some(versionId));
      reply := tx.Seal(VersionActivated(policyId, result.revision, versionId, version.number), Activated(result));
    }
  }

  class MutationService {
    const db: Database

    constructor (db: Database)
      ensures this.db == db
    {
      this.db := db;
    }

    method CreateDesired(desired: CreateInput, ids: Ids) returns (reply: Reply)
      requires db.Valid() && FreshIds(db.tables, ids)
      modifies db
      ensures Atomic(old(db.tables), old(db.failures), CreateRule(desired), ids, db.tables, reply)
    {
      hide Accepted; hide At; hide Run; hide Lower; hide Perform; hide FreshIds; hide NoDangling;
      hide Normalize; hide TrimSpace; hide PutAll; hide ValidRule;
      ghost var t, req := db.tables, CreateRule(desired);
      if !Accepted(CreateRule(desired)) {
        Rejected(t, req, ids);
        return InvalidInput;
      }
      var wid := Lower(desired.workloadId);
      var tx := new Transaction(db, req, ids);

      var found := tx.Go(SelectWorkload(wid));
      if found.None? { return Failed; }
      if !found.value.WorkloadIs? { return NotFound; }
      var workload := found.value.workload;

      var row := NewRule(ids.row, workload.organizationId, workload.spiffeId, desired.(workloadId := wid));
      var inserted := tx.Go(InsertRule(ids.row, row));
      if inserted.None? { return Failed; }
      if inserted.value != Inserted { return Failed; }

      var result := RuleResult(ids.row, workload.organizationId, desired.workloadId, "present", 1, desired.ttl,
                               |desired.selectors|, Pending);
      reply := tx.Seal(RuleCreated(ids.row, result.revision), RuleStored(result));
    }

    method ReplaceDesired(ruleId: string, input: ReplaceInput, ids: Ids) returns (reply: Reply)
      requires db.Valid() && FreshIds(db.tables, ids)
      modifies db
      ensures Atomic(old(db.tables), old(db.failures), ReplaceRule(ruleId, input), ids, db.tables, reply)
    {
      hide Accepted; hide At; hide Run; hide Lower; hide Perform; hide FreshIds; hide NoDangling;
      hide Normalize; hide TrimSpace; hide PutAll; hide ValidRule;
      ghost var t, req := db.tables, ReplaceRule(ruleId, input);
      if !Accepted(ReplaceRule(ruleId, input)) {
        Rejected(t, req, ids);
        return InvalidInput;
      }
      var id := Lower(ruleId);
      var tx := new Transaction(db, req, ids);

      var locked := tx.Go(SelectRuleForUpdate(id));
      if locked.None? { return Failed; }
      if !locked.value.RuleIs? { return NotFound; }
      var row := locked.value.rule;
      if row.revision != input.expectedRevision { return Conflict; }

      var updated := tx.Go(UpdateRule(id, input));
      if updated.None? { return Failed; }
      if updated.value != Affected(1) { return Conflict; }

      var result := RuleResult(ruleId, row.organizationId, row.workloadId, input.desiredState, row.revision + 1,
                               input.ttl, |input.selectors|, Pending);
      reply := tx.Seal(RuleReplaced(ruleId, row.revision, result.revision), RuleStored(result));
    }
  }
}

/** Requests as transactions: one SQL statement at a time, row locks held to the end, writes
    staged until the commit. Any number of them run at once, interleaved statement by statement. */
module Transactions {
  import opened Text
  import opened Registration
  import opened PolicyRules
  import opened Tables

  // ---- Statements ----

  datatype Stmt =
    | OrganizationExists(organizationId: string)
    | SelectWorkload(workloadId: string)
    | SelectPolicyForUpdate(id: string)
    | SelectRuleForUpdate(id: string)
    | SelectNextNumber(policyId: string)
    | SelectVersion(id: string, policyId: string)
    | InsertPolicy(id: string, policy: Policy)
    | InsertVersion(id: string, version: Version)
    | InsertRule(id: string, rule: Rule)
    | UpdateRevision(id: string, expected: int)
    | UpdateActive(id: string, expected: int, versionId: string)
    | UpdateRule(id: string, input: ReplaceInput)
    | InsertEvent(event: Event)
    | Commit

  datatype Answer =
    | Exists(found: bool)
    | WorkloadIs(workload: Workload)
    | PolicyIs(policy: Policy)
    | RuleIs(rule: Rule)
    | NumberIs(number: int)
    | VersionIs(version: Version)
    | NoRows
    | Affected(rows: nat)
    | Inserted
    | UniqueViolation

  /** What a statement writes and answers, given the tables it sees: those committed so far and
      its own transaction's writes on top. */
  function Run(t: Tables, stmt: Stmt): (seq<Write>, Answer) {
    match stmt
    case OrganizationExists(o) => ([], Exists(o in t.organizations))
    case SelectWorkload(w) => ([], if w in t.workloads then WorkloadIs(t.workloads[w]) else NoRows)
    case SelectPolicyForUpdate(id) => ([], if id in t.policies then PolicyIs(t.policies[id]) else NoRows)
    case SelectRuleForUpdate(id) => ([], if id in t.rules then RuleIs(t.rules[id]) else NoRows)
    case SelectNextNumber(p) => ([], NumberIs(NextNumber(t, p)))
    case SelectVersion(id, p) =>
      ([], if id in t.versions && t.versions[id].policyId == p then VersionIs(t.versions[id]) else NoRows)
    case InsertPolicy(id, p) =>
      if NameTaken(t, p.organizationId, p.name) then ([], UniqueViolation) else ([PutPolicy(id, p)], Inserted)
    case InsertVersion(id, v) =>
      if NumberTaken(t, v.policyId, v.number) then ([], UniqueViolation) else ([PutVersion(id, v)], Inserted)
    case InsertRule(id, r) =>
      if WorkloadTaken(t, r.workloadId) then ([], UniqueViolation) else ([PutRule(id, r)], Inserted)
    case UpdateRevision(id, e) =>
      if id in t.policies && t.policies[id].revision == e
      then ([PutPolicy(id, t.policies[id].(revision := t.policies[id].revision + 1))], Affected(1))
      else ([], Affected(0))
    case UpdateActive(id, e, v) =>
      if id in t.policies && t.policies[id].revision == e
      then ([PutPolicy(id, t.policies[id].(active := Some(v), status := "active",
                                           revision := t.policies[id].revision + 1))], Affected(1))
      else ([], Affected(0))
    case UpdateRule(id, i) =>
      if id in t.rules && t.rules[id].revision == i.expectedRevision
      then ([PutRule(id, Replaced(t.rules[id], i))], Affected(1))
      else ([], Affected(0))
    case InsertEvent(e) => ([Log(e)], Inserted)
    case Commit => ([], Affected(0))
  }

  /** A lock on a row, or on a key of a unique index that an uncommitted row occupies. */
  datatype Lock =
    | PolicyRow(id: string)
    | VersionRow(id: string)
    | RuleRow(id: string)
    | PolicyName(organizationId: string, name: string)
    | VersionNumber(policyId: string, number: int)
    | WorkloadSlot(workloadId: string)

  /** What a statement must lock before it runs; a row that is not there cannot be locked. */
  function LocksOf(t: Tables, stmt: Stmt): set<Lock> {
    match stmt
    case SelectPolicyForUpdate(id) => if id in t.policies then {PolicyRow(id)} else {}
    case SelectRuleForUpdate(id) => if id in t.rules then {RuleRow(id)} else {}
    case UpdateRevision(id, _) => if id in t.policies then {PolicyRow(id)} else {}
    case UpdateActive(id, _, _) => if id in t.policies then {PolicyRow(id)} else {}
    case UpdateRule(id, _) => if id in t.rules then {RuleRow(id)} else {}
    case InsertPolicy(id, p) => {PolicyRow(id), PolicyName(p.organizationId, p.name)}
    case InsertVersion(id, v) => {VersionRow(id), VersionNumber(v.policyId, v.number)}
    case InsertRule(id, r) => {RuleRow(id), WorkloadSlot(r.workloadId)}
    case _ => {}
  }

  // ---- Transactions ----

  /** How far a transaction has come, with the values it has read. */
  datatype Point =
    | Begun
    | OrganizationFound
    | PolicyInserted
    | FirstInserted
    | PolicyLocked(policy: Policy)
    | Numbered(policy: Policy, number: int)
    | VersionInserted(policy: Policy, number: int)
    | RevisionUpdated(policy: Policy, number: int)
    | VersionLoaded(policy: Policy, number: int)
    | ActiveUpdated(policy: Policy, number: int)
    | WorkloadFound(workload: Workload)
    | RuleInserted(workload: Workload)
    | RuleLocked(rule: Rule)
    | RuleUpdated(rule: Rule)
    | Recorded(reply: Reply)
    | Ended(reply: Reply)
    | Aborted

  predicate Over(p: Point) { p.Ended? || p.Aborted? }

  /** The points a request passes through before its end. */
  predicate Fits(req: Request, p: Point) {
    p.Begun? || p.Recorded? ||
    match req
    case CreatePolicy(_, _, _) => p.OrganizationFound? || p.PolicyInserted? || p.FirstInserted?
    case AppendVersion(_, _, _) => p.PolicyLocked? || p.Numbered? || p.VersionInserted? || p.RevisionUpdated?
    case Activate(_, _, _) => p.PolicyLocked? || p.VersionLoaded? || p.ActiveUpdated?
    case CreateRule(_) => p.WorkloadFound? || p.RuleInserted?
    case ReplaceRule(_, _) => p.RuleLocked? || p.RuleUpdated?
  }

  function NewRow(w: Workload, ids: Ids, i: CreateInput): Rule {
    NewRule(ids.row, w.organizationId, w.spiffeId, i.(workloadId := Lower(i.workloadId)))
  }

  function CreateStmt(o: string, name: string, i: RuleInput, ids: Ids, p: Point): Stmt
    requires Fits(CreatePolicy(o, name, i), p) && !p.Recorded?
  {
    match p
    case Begun => OrganizationExists(Lower(o))
    case OrganizationFound => InsertPolicy(ids.row, Policy(Lower(o), TrimSpace(name), "draft", 1, None))
    case PolicyInserted => InsertVersion(ids.version, Version(ids.row, 1, Normalize(i)))
    case FirstInserted => InsertEvent(PolicyCreated(ids.row, "draft", 1, 1, Normalize(i).effect))
  }

  function AppendStmt(id: string, expected: int, i: RuleInput, ids: Ids, p: Point): Stmt
    requires Fits(AppendVersion(id, expected, i), p) && !p.Recorded?
  {
    match p
    case Begun => SelectPolicyForUpdate(Lower(id))
    case PolicyLocked(_) => SelectNextNumber(Lower(id))
    case Numbered(_, n) => InsertVersion(ids.version, Version(Lower(id), n, Normalize(i)))
    case VersionInserted(_, _) => UpdateRevision(Lower(id), expected)
    case RevisionUpdated(row, n) => InsertEvent(VersionAppended(id, row.revision + 1, n, Normalize(i).effect))
  }

  function ActivateStmt(id: string, expected: int, v: string, ids: Ids, p: Point): Stmt
    requires Fits(Activate(id, expected, v), p) && !p.Recorded?
  {
    match p
    case Begun => SelectPolicyForUpdate(Lower(id))
    case PolicyLocked(_) => SelectVersion(Lower(v), Lower(id))
    case VersionLoaded(_, _) => UpdateActive(Lower(id), expected, Lower(v))
    case ActiveUpdated(_, n) => InsertEvent(VersionActivated(id, expected + 1, v, n))
  }

  function RuleStmt(i: CreateInput, ids: Ids, p: Point): Stmt
    requires Fits(CreateRule(i), p) && !p.Recorded?
  {
    match p
    case Begun => SelectWorkload(Lower(i.workloadId))
    case WorkloadFound(w) => InsertRule(ids.row, NewRow(w, ids, i))
    case RuleInserted(_) => InsertEvent(RuleCreated(ids.row, 1))
  }

  function ReplaceStmt(x: string, i: ReplaceInput, ids: Ids, p: Point): Stmt
    requires Fits(ReplaceRule(x, i), p) && !p.Recorded?
  {
    match p
    case Begun => SelectRuleForUpdate(Lower(x))
    case RuleLocked(_) => UpdateRule(Lower(x), i)
    case RuleUpdated(r) => InsertEvent(RuleReplaced(x, r.revision, r.revision + 1))
  }

  function NextStmt(req: Request, ids: Ids, p: Point): Stmt
    requires Fits(req, p)
  {
    if p.Recorded? then Commit else
    match req
    case CreatePolicy(o, name, i) => CreateStmt(o, name, i, ids, p)
    case AppendVersion(id, expected, i) => AppendStmt(id, expected, i, ids, p)
    case Activate(id, expected, v) => ActivateStmt(id, expected, v, ids, p)
    case CreateRule(i) => RuleStmt(i, ids, p)
    case ReplaceRule(x, i) => ReplaceStmt(x, i, ids, p)
  }

  function CreateResume(o: string, name: string, i: RuleInput, ids: Ids, p: Point, a: Answer): Point
    requires Fits(CreatePolicy(o, name, i), p) && !p.Recorded?
  {
    match p
    case Begun => if a == Exists(true) then OrganizationFound else Ended(NotFound)
    case OrganizationFound => if a == Inserted then PolicyInserted else Ended(Conflict)
    case PolicyInserted => if a == Inserted then FirstInserted else Ended(Failed)
    case FirstInserted =>
      Recorded(Created(PolicyResult(ids.row, o, TrimSpace(name), "draft", 1, None),
                       VersionResult(ids.version, ids.row, 1, 1, Normalize(i).effect)))
  }

  function AppendResume(id: string, expected: int, i: RuleInput, ids: Ids, p: Point, a: Answer): Point
    requires Fits(AppendVersion(id, expected, i), p) && !p.Recorded?
  {
    match p
    case Begun => LockedOr(a, expected)
    case PolicyLocked(row) => if a.NumberIs? then Numbered(row, a.number) else Aborted
    case Numbered(row, n) => if a == Inserted then VersionInserted(row, n) else Ended(Conflict)
    case VersionInserted(row, n) => if a == Affected(1) then RevisionUpdated(row, n) else Ended(Conflict)
    case RevisionUpdated(row, n) =>
      Recorded(Appended(VersionResult(ids.version, id, n, row.revision + 1, Normalize(i).effect)))
  }

  function ActivateResume(id: string, expected: int, v: string, ids: Ids, p: Point, a: Answer): Point
    requires Fits(Activate(id, expected, v), p) && !p.Recorded?
  {
    match p
    case Begun => LockedOr(a, expected)
    case PolicyLocked(row) =>
      if !a.VersionIs? then Ended(NotFound)
      else if !ValidRule(a.version.rule) then Ended(InvalidInput)
      else VersionLoaded(row, a.version.number)
    case VersionLoaded(row, n) => if a == Affected(1) then ActiveUpdated(row, n) else Ended(Conflict)
    case ActiveUpdated(row, _) =>
      Recorded(Activated(PolicyResult(id, row.organizationId, row.name, "active", expected + 1, Some(v))))
  }

  function RuleResume(i: CreateInput, ids: Ids, p: Point, a: Answer): Point
    requires Fits(CreateRule(i), p) && !p.Recorded?
  {
    match p
    case Begun => if a.WorkloadIs? then WorkloadFound(a.workload) else Ended(NotFound)
    case WorkloadFound(w) => if a == Inserted then RuleInserted(w) else Ended(Failed)
    case RuleInserted(w) =>
      Recorded(RuleStored(RuleResult(ids.row, w.organizationId, i.workloadId, "present", 1, i.ttl,
                                     |i.selectors|, Pending)))
  }

  function ReplaceResume(x: string, i: ReplaceInput, ids: Ids, p: Point, a: Answer): Point
    requires Fits(ReplaceRule(x, i), p) && !p.Recorded?
  {
    match p
    case Begun =>
      if !a.RuleIs? then Ended(NotFound)
      else if a.rule.revision != i.expectedRevision then Ended(Conflict)
      else RuleLocked(a.rule)
    case RuleLocked(r) => if a == Affected(1) then RuleUpdated(r) else Ended(Conflict)
    case RuleUpdated(r) =>
      Recorded(RuleStored(RuleResult(x, r.organizationId, r.workloadId, i.desiredState, r.revision + 1, i.ttl,
                                     |i.selectors|, Pending)))
  }

  /** Where the answer leads; `Ended` before the commit means the transaction rolls back. */
  function Resume(req: Request, ids: Ids, p: Point, a: Answer): Point
    requires Fits(req, p)
  {
    if p.Recorded? then Ended(p.reply) else
    match req
    case CreatePolicy(o, name, i) => CreateResume(o, name, i, ids, p, a)
    case AppendVersion(id, expected, i) => AppendResume(id, expected, i, ids, p, a)
    case Activate(id, expected, v) => ActivateResume(id, expected, v, ids, p, a)
    case CreateRule(i) => RuleResume(i, ids, p, a)
    case ReplaceRule(x, i) => ReplaceResume(x, i, ids, p, a)
  }

  function LockedOr(a: Answer, expected: int): Point {
    if !a.PolicyIs? then Ended(NotFound)
    else if a.policy.revision != expected then Ended(Conflict)
    else PolicyLocked(a.policy)
  }

  // ---- Many clients ----

  datatype Client = Client(req: Request, ids: Ids, point: Point, held: set<Lock>, staged: seq<Write>)

  /** `history` records the requests answered so far, in the order in which they took effect. */
  datatype State = State(tables: Tables, clients: map<nat, Client>, history: seq<Op>)

  datatype Step =
    | Begin(c: nat, req: Request, ids: Ids)
    | Go(c: nat)
    | Abort(c: nat)
    | Mark(ruleId: string, binding: Option<EntryId>, status: Status, lastError: Option<string>)

  function View(t: Tables, c: Client): Tables { PutAll(t, c.staged) }

  function StmtOf(c: Client): Stmt
    requires Fits(c.req, c.point)
  {
    NextStmt(c.req, c.ids, c.point)
  }

  /** The rows a transaction would insert are its own from the start. */
  function Reserved(ids: Ids): set<Lock> { {PolicyRow(ids.row), RuleRow(ids.row), VersionRow(ids.version)} }

  predicate Free(s: State, locks: set<Lock>, c: nat) {
    forall d :: d in s.clients && d != c ==> locks !! s.clients[d].held
  }

  predicate Enabled(s: State, step: Step) {
    match step
    case Begin(c, req, ids) =>
      c !in s.clients && FreshIds(s.tables, ids) && Free(s, Reserved(ids), c)
    case Go(c) =>
      && c in s.clients && Fits(s.clients[c].req, s.clients[c].point)
      && Free(s, LocksOf(View(s.tables, s.clients[c]), StmtOf(s.clients[c])), c)
    case Abort(c) => c in s.clients && !Over(s.clients[c].point)
    case Mark(x, _, _, _) => x in s.tables.rules && forall d :: d in s.clients ==> RuleRow(x) !in s.clients[d].held
  }

  function Closed(c: Client, p: Point): Client { c.(point := p, held := {}, staged := []) }

  /** A client after its next statement. */
  function Moved(t: Tables, c: Client): Client
    requires Fits(c.req, c.point)
  {
    var stmt := StmtOf(c);
    var (writes, answer) := Run(View(t, c), stmt);
    var p := Resume(c.req, c.ids, c.point, answer);
    if Over(p) then Closed(c, p)
    else c.(point := p, held := c.held + LocksOf(View(t, c), stmt), staged := c.staged + writes)
  }

  /** The tables after it: they change only when it commits. */
  function Committed(t: Tables, c: Client): Tables {
    if c.point.Recorded? then PutAll(t, c.staged) else t
  }

  function Begins(req: Request, ids: Ids): Client {
    if Accepted(req) then Client(req, ids, Begun, Reserved(ids), []) else Client(req, ids, Ended(InvalidInput), {}, [])
  }

  function Answered(k: nat, c: Client): seq<Op> {
    if c.point.Ended? then [Requested(k, c.req, c.ids, c.point.reply)] else []
  }

  function Next(s: State, step: Step): State
    requires Enabled(s, step)
  {
    match step
    case Begin(c, req, ids) =>
      var client := Begins(req, ids);
      State(s.tables, s.clients[c := client], s.history + Answered(c, client))
    case Go(c) =>
      var client := Moved(s.tables, s.clients[c]);
      State(Committed(s.tables, s.clients[c]), s.clients[c := client], s.history + Answered(c, client))
    case Abort(c) => s.(clients := s.clients[c := Closed(s.clients[c], Aborted)])
    case Mark(x, b, st, e) =>
      var op := Marked(x, b, st, e);
      s.(tables := AfterOp(s.tables, op), history := s.history + [op])
  }
}

/** The control-plane tables, the operator's requests, and each request as one atomic operation.

    Rows are keyed by UUID. Request text is cast with `::uuid`, which ignores case, so a row is
    looked up under the lower-case form of what the caller wrote. */
module Tables {
  import opened Text
  import opened Registration
  import opened PolicyRules

  datatype Policy = Policy(organizationId: string, name: string, status: string, revision: int,
                           active: Option<string>)

  datatype Version = Version(policyId: string, number: int, rule: RuleInput)

  datatype Workload = Workload(organizationId: string, spiffeId: string)

  /** What an audit event says of the mutation it records; `target` is the caller's spelling. */
  datatype Event =
    | PolicyCreated(target: string, status: string, revision: int, number: int, effect: string)
    | VersionAppended(target: string, revision: int, number: int, effect: string)
    | VersionActivated(target: string, revision: int, versionId: string, number: int)
    | RuleCreated(target: string, revision: int)
    | RuleReplaced(target: string, before: int, revision: int)

  datatype Tables = Tables(organizations: set<string>, workloads: map<string, Workload>,
                           policies: map<string, Policy>, versions: map<string, Version>,
                           rules: map<string, Rule>, log: seq<Event>)

  // ---- Writes ----

  datatype Write =
    | PutPolicy(id: string, policy: Policy)
    | PutVersion(id: string, version: Version)
    | PutRule(id: string, rule: Rule)
    | Log(event: Event)

  function Put(t: Tables, w: Write): Tables {
    match w
    case PutPolicy(id, p) => t.(policies := t.policies[id := p])
    case PutVersion(id, v) => t.(versions := t.versions[id := v])
    case PutRule(id, r) => t.(rules := t.rules[id := r])
    case Log(e) => t.(log := t.log + [e])
  }

  function PutAll(t: Tables, ws: seq<Write>): Tables {
    if ws == [] then t else Put(PutAll(t, ws[..|ws| - 1]), ws[|ws| - 1])
  }

  lemma PutAllOne(t: Tables, ws: seq<Write>, w: Write)
    ensures PutAll(t, ws + [w]) == Put(PutAll(t, ws), w)
  {
    assert (ws + [w])[..|ws|] == ws;
  }

  // ---- Questions asked of the tables ----

  predicate NameTaken(t: Tables, organizationId: string, name: string) {
    exists id :: id in t.policies && t.policies[id].organizationId == organizationId && t.policies[id].name == name
  }

  predicate NumberTaken(t: Tables, policyId: string, number: int) {
    exists v :: v in t.versions && t.versions[v].policyId == policyId && t.versions[v].number == number
  }

  predicate WorkloadTaken(t: Tables, workloadId: string) {
    exists x :: x in t.rules && t.rules[x].workloadId == workloadId
  }

  function Numbers(t: Tables, policyId: string): set<int> {
    set v | v in t.versions && t.versions[v].policyId == policyId :: t.versions[v].number
  }

  /** COALESCE(MAX(...), 0). */
  function MaxOrZero(s: set<int>): (m: int)
    ensures s == {} ==> m == 0
    ensures s != {} ==> m in s && forall x :: x in s ==> x <= m
  {
    if s == {} then 0
    else
      HasGreatest(s);
      var m :| m in s && forall x :: x in s ==> x <= m;
      m
  }

  lemma HasGreatest(s: set<int>)
    requires s != {}
    ensures exists m :: m in s && forall x :: x in s ==> x <= m
  {
    var m := Greatest(s);
  }

  lemma {:induction false} Greatest(s: set<int>) returns (m: int)
    requires s != {}
    ensures m in s && forall x :: x in s ==> x <= m
  {
    assert (forall k :: k !in s) ==> s == {};
    var k :| k in s;
    var rest := s - {k};
    assert forall x :: x in s ==> x == k || x in rest;
    if rest == {} {
      m := k;
    } else {
      var g := Greatest(rest);
      m := if g > k then g else k;
    }
  }

  function NextNumber(t: Tables, policyId: string): int { MaxOrZero(Numbers(t, policyId)) + 1 }

  // ---- Requests ----

  datatype Request =
    | CreatePolicy(organizationId: string, name: string, initial: RuleInput)
    | AppendVersion(policyId: string, expected: int, version: RuleInput)
    | Activate(policyId: string, expected: int, versionId: string)
    | CreateRule(desired: CreateInput)
    | ReplaceRule(ruleId: string, input: ReplaceInput)

  /** The IDs the database generates for a request's new rows. */
  datatype Ids = Ids(row: string, version: string)

  datatype PolicyResult = PolicyResult(id: string, organizationId: string, name: string, status: string,
                                       revision: int, active: Option<string>)

  datatype VersionResult = VersionResult(id: string, policyId: string, number: int, revision: int, effect: string)

  datatype RuleResult = RuleResult(id: string, organizationId: string, workloadId: string, desiredState: string,
                                   revision: int, ttl: int, selectorCount: nat, status: Status)

  datatype Reply =
    | Created(policy: PolicyResult, version: VersionResult)
    | Appended(version: VersionResult)
    | Activated(policy: PolicyResult)
    | RuleStored(rule: RuleResult)
    | InvalidInput
    | NotFound
    | Conflict
    | Failed

  predicate Succeeded(r: Reply) { r.Created? || r.Appended? || r.Activated? || r.RuleStored? }

  /** What is checked before a transaction begins. */
  predicate Accepted(req: Request) {
    match req
    case CreatePolicy(o, name, i) => AcceptedPolicy(o, name, i)
    case AppendVersion(p, e, i) => AcceptedAppend(p, e, i)
    case Activate(p, e, v) => AcceptedActivate(p, e, v)
    case CreateRule(i) => AcceptedCreate(i)
    case ReplaceRule(x, i) => AcceptedReplace(x, i)
  }

  // ---- A request as one atomic operation ----

  datatype Decision = Decision(writes: seq<Write>, reply: Reply)

  function Decide(t: Tables, req: Request, ids: Ids): Decision {
    if !Accepted(req) then Decision([], InvalidInput)
    else match req
      case CreatePolicy(o, name, i) => DecideCreate(t, o, TrimSpace(name), Normalize(i), ids)
      case AppendVersion(p, e, i) => DecideAppend(t, p, e, Normalize(i), ids)
      case Activate(p, e, v) => DecideActivate(t, p, e, v)
      case CreateRule(i) => DecideCreateRule(t, i, ids)
      case ReplaceRule(x, i) => DecideReplace(t, x, i)
  }

  function DecideCreate(t: Tables, o: string, name: string, i: RuleInput, ids: Ids): Decision {
    if Lower(o) !in t.organizations then Decision([], NotFound)
    else if NameTaken(t, Lower(o), name) then Decision([], Conflict)
    else
      Decision([PutPolicy(ids.row, Policy(Lower(o), name, "draft", 1, None)),
                PutVersion(ids.version, Version(ids.row, 1, i)),
                Log(PolicyCreated(ids.row, "draft", 1, 1, i.effect))],
               Created(PolicyResult(ids.row, o, name, "draft", 1, None),
                       VersionResult(ids.version, ids.row, 1, 1, i.effect)))
  }

  function DecideAppend(t: Tables, p: string, expected: int, i: RuleInput, ids: Ids): Decision {
    var id := Lower(p);
    if id !in t.policies then Decision([], NotFound)
    else if t.policies[id].revision != expected then Decision([], Conflict)
    else
      var n := NextNumber(t, id);
      Decision([PutVersion(ids.version, Version(id, n, i)),
                PutPolicy(id, t.policies[id].(revision := expected + 1)),
                Log(VersionAppended(p, expected + 1, n, i.effect))],
               Appended(VersionResult(ids.version, p, n, expected + 1, i.effect)))
  }

  function DecideActivate(t: Tables, p: string, expected: int, v: string): Decision {
    var id, vid := Lower(p), Lower(v);
    if id !in t.policies then Decision([], NotFound)
    else if t.policies[id].revision != expected then Decision([], Conflict)
    else if vid !in t.versions || t.versions[vid].policyId != id then Decision([], NotFound)
    else if !ValidRule(t.versions[vid].rule) then Decision([], InvalidInput)
    else
      var row := t.policies[id];
      Decision([PutPolicy(id, row.(active := Some(vid), status := "active", revision := expected + 1)),
                Log(VersionActivated(p, expected + 1, v, t.versions[vid].number))],
               Activated(PolicyResult(p, row.organizationId, row.name, "active", expected + 1, Some(v))))
  }

  function DecideCreateRule(t: Tables, i: CreateInput, ids: Ids): Decision {
    var wid := Lower(i.workloadId);
    if wid !in t.workloads then Decision([], NotFound)
    else if WorkloadTaken(t, wid) then Decision([], Failed)
    else
      var w := t.workloads[wid];
      Decision([PutRule(ids.row, NewRule(ids.row, w.organizationId, w.spiffeId, i.(workloadId := wid))),
                Log(RuleCreated(ids.row, 1))],
               RuleStored(RuleResult(ids.row, w.organizationId, i.workloadId, "present", 1, i.ttl, |i.selectors|, Pending)))
  }

  function DecideReplace(t: Tables, x: string, i: ReplaceInput): Decision {
    var id := Lower(x);
    if id !in t.rules then Decision([], NotFound)
    else if t.rules[id].revision != i.expectedRevision then Decision([], Conflict)
    else
      var r := t.rules[id];
      Decision([PutRule(id, Replaced(r, i)), Log(RuleReplaced(x, r.revision, r.revision + 1))],
               RuleStored(RuleResult(x, r.organizationId, r.workloadId, i.desiredState, r.revision + 1, i.ttl,
                                     |i.selectors|, Pending)))
  }

  /** The atomic operation: all of its writes, or none and an error. */
  function Perform(t: Tables, req: Request, ids: Ids): (Tables, Reply) {
    var d := Decide(t, req, ids);
    (PutAll(t, d.writes), d.reply)
  }

  // ---- Serial histories ----

  /** `client` is the number of who asked; `Marked` is the reconciler's own write to a rule's row. */
  datatype Op =
    | Requested(client: nat, req: Request, ids: Ids, reply: Reply)
    | Marked(ruleId: string, binding: Option<EntryId>, status: Status, lastError: Option<string>)

  function MarkRow(r: Rule, op: Op): Rule
    requires op.Marked?
  {
    r.(binding := op.binding, status := op.status, lastError := op.lastError)
  }

  /** Generated IDs are UUIDs in lower case and name no row yet. */
  predicate FreshIds(t: Tables, ids: Ids) {
    && IsUuid(ids.row) && Lower(ids.row) == ids.row && ids.row !in t.policies && ids.row !in t.rules
    && IsUuid(ids.version) && Lower(ids.version) == ids.version && ids.version !in t.versions
  }

  function AfterOp(t: Tables, op: Op): Tables {
    match op
    case Requested(_, req, ids, _) => Perform(t, req, ids).0
    case Marked(x, _, _, _) => if x in t.rules then t.(rules := t.rules[x := MarkRow(t.rules[x], op)]) else t
  }

  /** The reply recorded is the one the atomic operation gives, and its IDs were unused. */
  predicate Honest(t: Tables, op: Op) {
    match op
    case Requested(_, req, ids, reply) => reply == Perform(t, req, ids).1 && (Succeeded(reply) ==> FreshIds(t, ids))
    case Marked(x, _, _, _) => x in t.rules
  }

  /** The tables after a history, run one atomic operation at a time. */
  function Replay(t: Tables, history: seq<Op>): Tables {
    if history == [] then t else AfterOp(Replay(t, history[..|history| - 1]), history[|history| - 1])
  }

  predicate AllHonest(t: Tables, history: seq<Op>) {
    forall i :: 0 <= i < |history| ==> Honest(Replay(t, history[..i]), history[i])
  }

  lemma ReplayMore(t: Tables, history: seq<Op>, op: Op)
    requires AllHonest(t, history) && Honest(Replay(t, history), op)
    ensures AllHonest(t, history + [op]) && Replay(t, history + [op]) == AfterOp(Replay(t, history), op)
  {
    hide Honest;
    hide AfterOp;
    var more := history + [op];
    forall i | 0 <= i < |more| ensures Honest(Replay(t, more[..i]), more[i]) {
      assert more[..i] == history[..i];
      assert history[..|history|] == history;
    }
    assert more[..|history|] == history;
  }
}

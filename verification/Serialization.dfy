/** Every interleaving of transactions is a sequence of atomic operations. */
module Serialization {
  import opened Text
  import opened Registration
  import opened PolicyRules
  import opened Tables
  import opened Transactions

  // ---- What a lock protects ----

  /** Policy `id` and its versions. */
  ghost predicate SamePolicy(t: Tables, t': Tables, id: string) {
    && (id in t.policies <==> id in t'.policies)
    && (id in t.policies ==> t'.policies[id] == t.policies[id])
    && (forall v :: OfPolicy(t, v, id) <==> OfPolicy(t', v, id))
    && (forall v :: OfPolicy(t, v, id) ==> t'.versions[v] == t.versions[v])
  }

  predicate OfPolicy(t: Tables, v: string, id: string) { v in t.versions && t.versions[v].policyId == id }

  predicate SameRule(t: Tables, t': Tables, x: string) {
    (x in t.rules <==> x in t'.rules) && (x in t.rules ==> t'.rules[x] == t.rules[x])
  }

  /** The part of the tables behind lock `l` is the same in both. */
  ghost predicate SameAt(t: Tables, t': Tables, l: Lock) {
    match l
    case PolicyRow(id) => SamePolicy(t, t', id)
    case VersionRow(v) => v in t.versions <==> v in t'.versions
    case RuleRow(x) => SameRule(t, t', x)
    case PolicyName(o, n) => NameTaken(t, o, n) <==> NameTaken(t', o, n)
    case VersionNumber(_, _) => true
    case WorkloadSlot(w) => WorkloadTaken(t, w) <==> WorkloadTaken(t', w)
  }

  ghost predicate SameOn(t: Tables, t': Tables, held: set<Lock>) {
    t'.organizations == t.organizations && t'.workloads == t.workloads && forall l :: l in held ==> SameAt(t, t', l)
  }

  /** A write that stays behind the locks in `held`. */
  predicate Covered(t: Tables, w: Write, held: set<Lock>) {
    match w
    case PutPolicy(id, p) =>
      && PolicyRow(id) in held
      && if id in t.policies then t.policies[id].organizationId == p.organizationId && t.policies[id].name == p.name
         else PolicyName(p.organizationId, p.name) in held
    case PutVersion(v, version) =>
      && PolicyRow(version.policyId) in held && VersionRow(v) in held && v !in t.versions
    case PutRule(x, r) =>
      && RuleRow(x) in held
      && if x in t.rules then t.rules[x].workloadId == r.workloadId else WorkloadSlot(r.workloadId) in held
    case Log(_) => true
  }

  lemma CoveredWrite(t: Tables, w: Write, held: set<Lock>, l: Lock)
    requires Covered(t, w, held) && l !in held
    ensures SameAt(t, Put(t, w), l)
  {
    var t' := Put(t, w);
    match w
    case PutPolicy(id, p) =>
      if l.PolicyName? && NameTaken(t, l.organizationId, l.name) {
        var k :| k in t.policies && t.policies[k].organizationId == l.organizationId && t.policies[k].name == l.name;
        assert k in t'.policies && t'.policies[k].organizationId == l.organizationId && t'.policies[k].name == l.name;
      }
    case PutVersion(v, version) =>
    case PutRule(x, r) =>
      if l.WorkloadSlot? && WorkloadTaken(t, l.workloadId) {
        var k :| k in t.rules && t.rules[k].workloadId == l.workloadId;
        assert k in t'.rules && t'.rules[k].workloadId == l.workloadId;
      }
    case Log(_) =>
  }

  predicate AllCovered(t: Tables, ws: seq<Write>, held: set<Lock>) {
    forall i :: 0 <= i < |ws| ==> Covered(PutAll(t, ws[..i]), ws[i], held)
  }

  lemma {:induction false} CoveredWrites(t: Tables, ws: seq<Write>, held: set<Lock>, others: set<Lock>)
    requires AllCovered(t, ws, held) && held !! others
    ensures SameOn(t, PutAll(t, ws), others)
    decreases |ws|
  {
    hide Covered; hide SameAt; hide Put;
    if ws != [] {
      var m := |ws| - 1;
      var before, w := ws[..m], ws[m];
      assert ws == before + [w];
      forall i | 0 <= i < m ensures Covered(PutAll(t, before[..i]), before[i], held) {
        assert before[..i] == ws[..i];
      }
      CoveredWrites(t, before, held, others);
      PutAllOne(t, before, w);
      var mid := PutAll(t, before);
      OneMore(t, mid, w, held, others);
    } else {
      SameOnSame(t, others);
    }
  }

  lemma SameOnSame(t: Tables, held: set<Lock>)
    ensures SameOn(t, t, held)
  {
  }

  lemma OneMore(t: Tables, mid: Tables, w: Write, held: set<Lock>, others: set<Lock>)
    requires SameOn(t, mid, others) && Covered(mid, w, held) && held !! others
    ensures SameOn(t, Put(mid, w), others)
  {
    hide Covered; hide SameAt;
    forall l | l in others ensures SameAt(t, Put(mid, w), l) {
      CoveredWrite(mid, w, held, l);
      SameAtTrans(t, mid, Put(mid, w), l);
    }
  }

  lemma SameAtTrans(t: Tables, m: Tables, t': Tables, l: Lock)
    requires SameAt(t, m, l) && SameAt(m, t', l)
    ensures SameAt(t, t', l)
  {
    if l.PolicyRow? {
      assert forall v :: OfPolicy(t, v, l.id) ==> OfPolicy(m, v, l.id);
    }
  }

  // ---- Where each transaction stands ----

  /** The first `k` writes of the atomic operation have been made. */
  predicate Staged(c: Client, d: Decision, k: nat) { k <= |d.writes| && c.staged == d.writes[..k] }

  predicate OwnsReserved(t: Tables, c: Client) {
    Reserved(c.ids) <= c.held && FreshIds(t, c.ids)
  }

  predicate CreateOk(t: Tables, c: Client)
    requires c.req.CreatePolicy?
  {
    var d := Decide(t, c.req, c.ids);
    var org, name := Lower(c.req.organizationId), TrimSpace(c.req.name);
    match c.point
    case Begun => c.staged == [] && c.held == Reserved(c.ids)
    case OrganizationFound => c.staged == [] && c.held == Reserved(c.ids) && org in t.organizations
    case PolicyInserted => d.reply.Created? && PolicyName(org, name) in c.held && Staged(c, d, 1)
    case FirstInserted => d.reply.Created? && PolicyName(org, name) in c.held && Staged(c, d, 2)
    case Recorded(reply) => d.reply.Created? && PolicyName(org, name) in c.held && c.staged == d.writes && reply == d.reply
    case _ => false
  }

  /** The policy's row is locked, as read, and at the revision expected. */
  predicate HoldsPolicy(t: Tables, c: Client, id: string, row: Policy, expected: int) {
    PolicyRow(id) in c.held && id in t.policies && t.policies[id] == row && row.revision == expected
  }

  predicate AppendOk(t: Tables, c: Client)
    requires c.req.AppendVersion?
  {
    var d := Decide(t, c.req, c.ids);
    var id, expected := Lower(c.req.policyId), c.req.expected;
    match c.point
    case Begun => c.staged == [] && c.held == Reserved(c.ids)
    case PolicyLocked(row) => HoldsPolicy(t, c, id, row, expected) && c.staged == []
    case Numbered(row, n) => HoldsPolicy(t, c, id, row, expected) && n == NextNumber(t, id) && c.staged == []
    case VersionInserted(row, n) =>
      HoldsPolicy(t, c, id, row, expected) && n == NextNumber(t, id) && Staged(c, d, 1)
    case RevisionUpdated(row, n) =>
      HoldsPolicy(t, c, id, row, expected) && n == NextNumber(t, id) && Staged(c, d, 2)
    case Recorded(reply) =>
      PolicyRow(id) in c.held && d.reply.Appended? && c.staged == d.writes && reply == d.reply
    case _ => false
  }

  predicate HoldsVersion(t: Tables, id: string, v: string, n: int) {
    OfPolicy(t, v, id) && t.versions[v].number == n && ValidRule(t.versions[v].rule)
  }

  predicate ActivateOk(t: Tables, c: Client)
    requires c.req.Activate?
  {
    var d := Decide(t, c.req, c.ids);
    var id, v, expected := Lower(c.req.policyId), Lower(c.req.versionId), c.req.expected;
    match c.point
    case Begun => c.staged == [] && c.held == Reserved(c.ids)
    case PolicyLocked(row) => HoldsPolicy(t, c, id, row, expected) && c.staged == []
    case VersionLoaded(row, n) =>
      HoldsPolicy(t, c, id, row, expected) && HoldsVersion(t, id, v, n) && c.staged == []
    case ActiveUpdated(row, n) =>
      HoldsPolicy(t, c, id, row, expected) && HoldsVersion(t, id, v, n) && Staged(c, d, 1)
    case Recorded(reply) =>
      PolicyRow(id) in c.held && d.reply.Activated? && c.staged == d.writes && reply == d.reply
    case _ => false
  }

  predicate CreateRuleOk(t: Tables, c: Client)
    requires c.req.CreateRule?
  {
    var d := Decide(t, c.req, c.ids);
    var wid := Lower(c.req.desired.workloadId);
    match c.point
    case Begun => c.staged == [] && c.held == Reserved(c.ids)
    case WorkloadFound(w) => c.staged == [] && c.held == Reserved(c.ids) && wid in t.workloads && w == t.workloads[wid]
    case RuleInserted(w) =>
      d.reply.RuleStored? && WorkloadSlot(wid) in c.held && Staged(c, d, 1) && w == t.workloads[wid]
    case Recorded(reply) => d.reply.RuleStored? && WorkloadSlot(wid) in c.held && c.staged == d.writes && reply == d.reply
    case _ => false
  }

  predicate ReplaceOk(t: Tables, c: Client)
    requires c.req.ReplaceRule?
  {
    var d := Decide(t, c.req, c.ids);
    var x := Lower(c.req.ruleId);
    match c.point
    case Begun => c.staged == [] && c.held == Reserved(c.ids)
    case RuleLocked(r) =>
      RuleRow(x) in c.held && x in t.rules && t.rules[x] == r && d.reply.RuleStored? && c.staged == []
    case RuleUpdated(r) =>
      RuleRow(x) in c.held && x in t.rules && t.rules[x] == r && d.reply.RuleStored? && Staged(c, d, 1)
    case Recorded(reply) => RuleRow(x) in c.held && d.reply.RuleStored? && c.staged == d.writes && reply == d.reply
    case _ => false
  }

  predicate RequestOk(t: Tables, c: Client) {
    match c.req
    case CreatePolicy(_, _, _) => CreateOk(t, c)
    case AppendVersion(_, _, _) => AppendOk(t, c)
    case Activate(_, _, _) => ActivateOk(t, c)
    case CreateRule(_) => CreateRuleOk(t, c)
    case ReplaceRule(_, _) => ReplaceOk(t, c)
  }

  predicate ClientOk(t: Tables, c: Client) {
    if Over(c.point) then c.held == {} && c.staged == []
    else Accepted(c.req) && OwnsReserved(t, c) && RequestOk(t, c)
  }

  // ---- What others commit leaves a transaction where it stands ----

  lemma SameNumbers(t: Tables, t': Tables, p: string)
    requires SamePolicy(t, t', p)
    ensures Numbers(t', p) == Numbers(t, p)
  {
    forall n ensures n in Numbers(t, p) <==> n in Numbers(t', p) {
      if n in Numbers(t, p) {
        var v :| OfPolicy(t, v, p) && t.versions[v].number == n;
        assert OfPolicy(t', v, p);
      }
      if n in Numbers(t', p) {
        var v :| OfPolicy(t', v, p) && t'.versions[v].number == n;
        assert OfPolicy(t, v, p);
      }
    }
  }

  lemma ReservedKept(t: Tables, t': Tables, c: Client)
    requires OwnsReserved(t, c) && SameOn(t, t', c.held)
    ensures OwnsReserved(t', c)
  {
    assert PolicyRow(c.ids.row) in c.held && RuleRow(c.ids.row) in c.held && VersionRow(c.ids.version) in c.held;
    assert SameAt(t, t', PolicyRow(c.ids.row)) && SameAt(t, t', RuleRow(c.ids.row))
           && SameAt(t, t', VersionRow(c.ids.version));
  }

  lemma CreateKept(t: Tables, t': Tables, c: Client)
    requires c.req.CreatePolicy? && Accepted(c.req) && CreateOk(t, c) && SameOn(t, t', c.held)
    ensures CreateOk(t', c)
  {
    hide Accepted; hide TrimSpace; hide Normalize; hide NameTaken;
    var l := PolicyName(Lower(c.req.organizationId), TrimSpace(c.req.name));
    if l in c.held { assert SameAt(t, t', l); }
  }

  lemma AppendKept(t: Tables, t': Tables, c: Client)
    requires c.req.AppendVersion? && Accepted(c.req) && AppendOk(t, c) && SameOn(t, t', c.held)
    ensures AppendOk(t', c)
  {
    hide Accepted; hide TrimSpace; hide Normalize; hide MaxOrZero; hide Numbers;
    var l := PolicyRow(Lower(c.req.policyId));
    if !c.point.Begun? {
      assert SameAt(t, t', l);
      SameNumbers(t, t', l.id);
      assert Decide(t', c.req, c.ids) == Decide(t, c.req, c.ids);
    }
  }

  lemma ActivateKept(t: Tables, t': Tables, c: Client)
    requires c.req.Activate? && Accepted(c.req) && ActivateOk(t, c) && SameOn(t, t', c.held)
    ensures ActivateOk(t', c)
  {
    hide Accepted; hide ValidRule;
    var l := PolicyRow(Lower(c.req.policyId));
    if !c.point.Begun? {
      assert SameAt(t, t', l);
      var v := Lower(c.req.versionId);
      assert OfPolicy(t, v, l.id) <==> OfPolicy(t', v, l.id);
      assert Decide(t', c.req, c.ids) == Decide(t, c.req, c.ids);
    }
  }

  lemma CreateRuleKept(t: Tables, t': Tables, c: Client)
    requires c.req.CreateRule? && Accepted(c.req) && CreateRuleOk(t, c) && SameOn(t, t', c.held)
    ensures CreateRuleOk(t', c)
  {
    hide Accepted; hide WorkloadTaken;
    var l := WorkloadSlot(Lower(c.req.desired.workloadId));
    if l in c.held { assert SameAt(t, t', l); }
  }

  lemma ReplaceKept(t: Tables, t': Tables, c: Client)
    requires c.req.ReplaceRule? && Accepted(c.req) && ReplaceOk(t, c) && SameOn(t, t', c.held)
    ensures ReplaceOk(t', c)
  {
    hide Accepted;
    var l := RuleRow(Lower(c.req.ruleId));
    if l in c.held { assert SameAt(t, t', l); }
  }

  lemma ClientKept(t: Tables, t': Tables, c: Client)
    requires ClientOk(t, c) && SameOn(t, t', c.held)
    ensures ClientOk(t', c)
  {
    hide CreateOk; hide AppendOk; hide ActivateOk; hide CreateRuleOk; hide ReplaceOk; hide OwnsReserved; hide SameOn;
    if !Over(c.point) {
      ReservedKept(t, t', c);
      match c.req
      case CreatePolicy(_, _, _) => CreateKept(t, t', c);
      case AppendVersion(_, _, _) => AppendKept(t, t', c);
      case Activate(_, _, _) => ActivateKept(t, t', c);
      case CreateRule(_) => CreateRuleKept(t, t', c);
      case ReplaceRule(_, _) => ReplaceKept(t, t', c);
    }
  }

  // ---- A transaction's own statements ----

  /** Nothing a transaction reads surprises it: its step keeps it in order, or ends it with the
      answer that the atomic operation gives at that moment. */
  predicate StepOk(t: Tables, c: Client)
    requires Fits(c.req, c.point)
  {
    var c', d := Moved(t, c), Decide(t, c.req, c.ids);
    if Over(c'.point)
    then c'.point == Ended(d.reply) && Committed(t, c) == PutAll(t, d.writes) && (Succeeded(d.reply) ==> c.point.Recorded?)
    else Committed(t, c) == t && ClientOk(t, c')
  }

  /** Versions belong to policies that exist. */
  predicate NoDangling(t: Tables) {
    forall v :: v in t.versions ==> t.versions[v].policyId in t.policies
  }

  /** MAX + 1 never collides. */
  lemma NextIsFree(t: Tables, id: string)
    ensures !NumberTaken(t, id, NextNumber(t, id))
  {
    var n := NextNumber(t, id);
    assert NumberTaken(t, id, n) ==> n in Numbers(t, id);
  }

  lemma FirstWrites(t: Tables, c: Client)
    requires |c.staged| == 1
    ensures View(t, c) == Put(t, c.staged[0])
  {
    assert c.staged[..0] == [];
    assert PutAll(t, []) == t;
  }

  lemma StageOne(c: Client, d: Decision, k: nat)
    requires Staged(c, d, k) && k < |d.writes|
    ensures c.staged + [d.writes[k]] == d.writes[..k + 1]
    ensures |d.writes| == k + 1 ==> c.staged + [d.writes[k]] == d.writes
  {
  }

  lemma CommitStep(t: Tables, c: Client)
    requires ClientOk(t, c) && c.point.Recorded?
    ensures StepOk(t, c)
  {
    hide Accepted; hide Decide; hide FreshIds;
  }

  lemma CreateReads(t: Tables, c: Client)
    requires ClientOk(t, c) && c.req.CreatePolicy? && (c.point.Begun?)
    ensures Fits(c.req, c.point) && StepOk(t, c)
  {
    hide Normalize; hide TrimSpace; hide Accepted; hide ValidRule; hide FreshIds;
  }

  lemma CreateInserts(t: Tables, c: Client)
    requires ClientOk(t, c) && c.req.CreatePolicy? && (c.point.OrganizationFound?)
    ensures Fits(c.req, c.point) && StepOk(t, c)
  {
    hide Normalize; hide TrimSpace; hide Accepted; hide ValidRule; hide FreshIds;
  }

  lemma CreateInsertsVersion(t: Tables, c: Client)
    requires NoDangling(t) && ClientOk(t, c) && c.req.CreatePolicy? && (c.point.PolicyInserted?)
    ensures Fits(c.req, c.point) && StepOk(t, c)
  {
    hide Normalize; hide TrimSpace; hide Accepted; hide ValidRule; hide IsUuid;
    FirstWrites(t, c);
    assert View(t, c).versions == t.versions;
    assert !NumberTaken(View(t, c), c.ids.row, 1);
    StageOne(c, Decide(t, c.req, c.ids), 1);
  }

  lemma CreateRecords(t: Tables, c: Client)
    requires ClientOk(t, c) && c.req.CreatePolicy? && (c.point.FirstInserted?)
    ensures Fits(c.req, c.point) && StepOk(t, c)
  {
    hide Normalize; hide TrimSpace; hide Accepted; hide ValidRule; hide FreshIds;
    StageOne(c, Decide(t, c.req, c.ids), 2);
  }

  lemma AppendReads(t: Tables, c: Client)
    requires ClientOk(t, c) && c.req.AppendVersion? && (c.point.Begun? || c.point.PolicyLocked?)
    ensures Fits(c.req, c.point) && StepOk(t, c)
  {
    hide Normalize; hide TrimSpace; hide Accepted; hide ValidRule; hide FreshIds;

  }

  lemma AppendInserts(t: Tables, c: Client)
    requires ClientOk(t, c) && c.req.AppendVersion? && (c.point.Numbered?)
    ensures Fits(c.req, c.point) && StepOk(t, c)
  {
    hide Normalize; hide TrimSpace; hide Accepted; hide ValidRule; hide FreshIds;
    NextIsFree(t, Lower(c.req.policyId));
    StageOne(c, Decide(t, c.req, c.ids), 0);
  }

  lemma AppendUpdates(t: Tables, c: Client)
    requires ClientOk(t, c) && c.req.AppendVersion? && (c.point.VersionInserted?)
    ensures Fits(c.req, c.point) && StepOk(t, c)
  {
    hide Normalize; hide TrimSpace; hide Accepted; hide ValidRule; hide FreshIds;
    FirstWrites(t, c);
    StageOne(c, Decide(t, c.req, c.ids), 1);
  }

  lemma AppendRecords(t: Tables, c: Client)
    requires ClientOk(t, c) && c.req.AppendVersion? && (c.point.RevisionUpdated?)
    ensures Fits(c.req, c.point) && StepOk(t, c)
  {
    hide Normalize; hide TrimSpace; hide Accepted; hide ValidRule; hide FreshIds;
    StageOne(c, Decide(t, c.req, c.ids), 2);
  }

  lemma ActivateReads(t: Tables, c: Client)
    requires ClientOk(t, c) && c.req.Activate? && (c.point.Begun?)
    ensures Fits(c.req, c.point) && StepOk(t, c)
  {
    hide Normalize; hide TrimSpace; hide Accepted; hide ValidRule; hide FreshIds;
  }

  lemma ActivateLoads(t: Tables, c: Client)
    requires ClientOk(t, c) && c.req.Activate? && (c.point.PolicyLocked?)
    ensures Fits(c.req, c.point) && StepOk(t, c)
  {
    hide Normalize; hide TrimSpace; hide Accepted; hide ValidRule; hide FreshIds;
  }

  lemma ActivateUpdates(t: Tables, c: Client)
    requires ClientOk(t, c) && c.req.Activate? && (c.point.VersionLoaded?)
    ensures Fits(c.req, c.point) && StepOk(t, c)
  {
    hide Normalize; hide TrimSpace; hide Accepted; hide ValidRule; hide FreshIds;
    StageOne(c, Decide(t, c.req, c.ids), 0);
  }

  lemma ActivateRecords(t: Tables, c: Client)
    requires ClientOk(t, c) && c.req.Activate? && (c.point.ActiveUpdated?)
    ensures Fits(c.req, c.point) && StepOk(t, c)
  {
    hide Normalize; hide TrimSpace; hide Accepted; hide ValidRule; hide FreshIds;
    StageOne(c, Decide(t, c.req, c.ids), 1);
  }

  lemma RuleReads(t: Tables, c: Client)
    requires ClientOk(t, c) && c.req.CreateRule? && (c.point.Begun?)
    ensures Fits(c.req, c.point) && StepOk(t, c)
  {
    hide Normalize; hide TrimSpace; hide Accepted; hide ValidRule; hide FreshIds;
  }

  lemma RuleInserts(t: Tables, c: Client)
    requires ClientOk(t, c) && c.req.CreateRule? && (c.point.WorkloadFound?)
    ensures Fits(c.req, c.point) && StepOk(t, c)
  {
    hide Normalize; hide TrimSpace; hide Accepted; hide ValidRule; hide FreshIds;
  }

  lemma RuleRecords(t: Tables, c: Client)
    requires ClientOk(t, c) && c.req.CreateRule? && (c.point.RuleInserted?)
    ensures Fits(c.req, c.point) && StepOk(t, c)
  {
    hide Normalize; hide TrimSpace; hide Accepted; hide ValidRule; hide FreshIds;
    StageOne(c, Decide(t, c.req, c.ids), 1);
  }

  lemma ReplaceReads(t: Tables, c: Client)
    requires ClientOk(t, c) && c.req.ReplaceRule? && (c.point.Begun?)
    ensures Fits(c.req, c.point) && StepOk(t, c)
  {
    hide Normalize; hide TrimSpace; hide Accepted; hide ValidRule; hide FreshIds;
  }

  lemma ReplaceUpdates(t: Tables, c: Client)
    requires ClientOk(t, c) && c.req.ReplaceRule? && (c.point.RuleLocked?)
    ensures Fits(c.req, c.point) && StepOk(t, c)
  {
    hide Normalize; hide TrimSpace; hide Accepted; hide ValidRule; hide FreshIds;
    StageOne(c, Decide(t, c.req, c.ids), 0);
  }

  lemma ReplaceRecords(t: Tables, c: Client)
    requires ClientOk(t, c) && c.req.ReplaceRule? && (c.point.RuleUpdated?)
    ensures Fits(c.req, c.point) && StepOk(t, c)
  {
    hide Normalize; hide TrimSpace; hide Accepted; hide ValidRule; hide FreshIds;
    StageOne(c, Decide(t, c.req, c.ids), 1);
  }

  lemma ClientSteps(t: Tables, c: Client)
    requires NoDangling(t) && ClientOk(t, c) && Fits(c.req, c.point)
    ensures StepOk(t, c)
  {
    hide StepOk; hide ClientOk; hide NoDangling;
    match c.point
    case Recorded(_) => CommitStep(t, c);
    case Begun =>
      match c.req {
        case CreatePolicy(_, _, _) => CreateReads(t, c);
        case AppendVersion(_, _, _) => AppendReads(t, c);
        case Activate(_, _, _) => ActivateReads(t, c);
        case CreateRule(_) => RuleReads(t, c);
        case ReplaceRule(_, _) => ReplaceReads(t, c);
      }
    case OrganizationFound => CreateInserts(t, c);
    case PolicyInserted => CreateInsertsVersion(t, c);
    case FirstInserted => CreateRecords(t, c);
    case PolicyLocked(_) => if c.req.AppendVersion? { AppendReads(t, c); } else { ActivateLoads(t, c); }
    case Numbered(_, _) => AppendInserts(t, c);
    case VersionInserted(_, _) => AppendUpdates(t, c);
    case RevisionUpdated(_, _) => AppendRecords(t, c);
    case VersionLoaded(_, _) => ActivateUpdates(t, c);
    case ActiveUpdated(_, _) => ActivateRecords(t, c);
    case WorkloadFound(_) => RuleInserts(t, c);
    case RuleInserted(_) => RuleRecords(t, c);
    case RuleLocked(_) => ReplaceUpdates(t, c);
    case RuleUpdated(_) => ReplaceRecords(t, c);
  }
}

/** What a request's success stores and tells, and when it is refused, in the caller's own terms. */
module Outcomes {
  import opened Text
  import opened Registration
  import opened PolicyRules
  import opened Tables
  import opened PolicyHistory
  import opened Serialization
  import opened Revisions

  // ---- What is kept of a caller's rule ----

  /** `t` is `raw` without the spaces at its ends, in lower case. */
  ghost predicate Folds(raw: string, t: string) { exists m :: Trims(raw, m) && t == Lower(m) }

  /** The rule stored is the caller's, but for spaces around three fields and the case of two. */
  ghost predicate Keeps(i: RuleInput, stored: RuleInput) {
    && stored.source == i.source && stored.destination == i.destination
    && Folds(i.action, stored.action) && Folds(i.effect, stored.effect) && Trims(i.changeReason, stored.changeReason)
  }

  lemma FoldsOnce(raw: string, t: string, u: string)
    requires Folds(raw, t) && Folds(raw, u)
    ensures t == u
  {
    hide Trims; hide Lower;
    var m :| Trims(raw, m) && t == Lower(m);
    var n :| Trims(raw, n) && u == Lower(n);
    TrimsOnce(raw, m, n);
  }

  lemma NormalizeKeeps(i: RuleInput)
    ensures Keeps(i, Normalize(i))
  {
    TrimSpaceTrims(i.action);
    TrimSpaceTrims(i.effect);
    TrimSpaceTrims(i.changeReason);
    hide Trims; hide TrimSpace; hide Lower;
  }

  function InputOf(req: Request): RuleInput
    requires req.CreatePolicy? || req.AppendVersion?
  {
    if req.CreatePolicy? then req.initial else req.version
  }

  /** A version is stored as the caller gave it: its effect is the one the caller spelled, allow or
      deny, and so say the event and the reply. */
  lemma VersionIsKept(t: Tables, req: Request, ids: Ids)
    requires (req.CreatePolicy? || req.AppendVersion?) && Succeeded(Perform(t, req, ids).1)
    ensures var (t', reply) := Perform(t, req, ids);
      && ids.version in t'.versions && (reply.Created? || reply.Appended?)
      && var stored := t'.versions[ids.version].rule;
         && Keeps(InputOf(req), stored)
         && stored.action == "connect" && (stored.effect == "allow" || stored.effect == "deny")
         && reply.version.effect == stored.effect
         && |t'.log| == |t.log| + 1 && t'.log == t.log + [t'.log[|t.log|]]
         && var e := t'.log[|t.log|]; (e.PolicyCreated? || e.VersionAppended?) && e.effect == stored.effect
  {
    hide Keeps;
    NormalizeKeeps(InputOf(req));
    SuccessMatches(t, req, ids);
    ReplyEffect(t, req, ids);
    if req.CreatePolicy? { CreateWrites(t, req, ids); } else { AppendWrites(t, req, ids); }
    hide Perform; hide Normalize; hide TrimSpace; hide ValidReason; hide NextNumber; hide NameTaken;
  }

  lemma ReplyEffect(t: Tables, req: Request, ids: Ids)
    requires OnPolicies(req, Perform(t, req, ids).1) && !req.Activate?
    ensures Perform(t, req, ids).1.version.effect == Normalize(InputOf(req)).effect
  {
    hide Normalize; hide TrimSpace; hide Accepted; hide NextNumber; hide NameTaken; hide PutAll;
  }

  /** The new version's row and no other of its table is new, and rules are left alone. */
  predicate OneVersion(t: Tables, t': Tables, id: string, policyId: string) {
    && id in t'.versions && t'.versions[id].policyId == policyId
    && t'.versions == t.versions[id := t'.versions[id]] && t'.rules == t.rules
  }

  lemma WithIsOne(t: Tables, x: string, row: Policy, e: Event, id: string, v: Version)
    ensures var t' := WithVersion(WithPolicy(t, x, row, e), id, v);
      OneVersion(t, t', id, v.policyId) && t'.policies == t.policies[x := row] && t'.versions[id] == v
  {
  }

  /** A new policy is a draft at revision 1 with the caller's name, in the organisation named. */
  lemma DraftIsStored(t: Tables, req: Request, ids: Ids)
    requires req.CreatePolicy? && Succeeded(Perform(t, req, ids).1)
    ensures var t' := Perform(t, req, ids).0;
      && OneVersion(t, t', ids.version, ids.row) && t'.versions[ids.version].number == 1
      && exists name :: Trims(req.name, name)
           && t'.policies == t.policies[ids.row := Policy(Lower(req.organizationId), name, "draft", 1, None)]
  {
    hide *;
    SuccessMatches(t, req, ids);
    SuccessKinds(req, Perform(t, req, ids).1);
    CreateWrites(t, req, ids);
    TrimSpaceTrims(req.name);
    var i, name := Normalize(req.initial), TrimSpace(req.name);
    WithIsOne(t, ids.row, Policy(Lower(req.organizationId), name, "draft", 1, None),
      PolicyCreated(ids.row, "draft", 1, 1, i.effect), ids.version, Version(ids.row, 1, i));
  }

  predicate MovedOn(t: Tables, t': Tables, p: string) {
    p in t.policies && t'.policies == t.policies[p := t.policies[p].(revision := t.policies[p].revision + 1)]
  }

  lemma AppendMeans(t: Tables, p: string, expected: int, e: Event, id: string, v: Version)
    requires p in t.policies && t.policies[p].revision == expected
    ensures var t' := WithVersion(WithPolicy(t, p, t.policies[p].(revision := expected + 1), e), id, v);
      OneVersion(t, t', id, v.policyId) && MovedOn(t, t', p)
  {
  }

  /** An appended version is the policy's own, and the policy moves on by one revision and not otherwise. */
  lemma AppendIsStored(t: Tables, req: Request, ids: Ids)
    requires req.AppendVersion? && Succeeded(Perform(t, req, ids).1)
    ensures var t', p := Perform(t, req, ids).0, Lower(req.policyId);
      MovedOn(t, t', p) && OneVersion(t, t', ids.version, p)
  {
    hide *;
    SuccessMatches(t, req, ids);
    SuccessKinds(req, Perform(t, req, ids).1);
    AppendWrites(t, req, ids);
    var i, p, n := Normalize(req.version), Lower(req.policyId), NextNumber(t, Lower(req.policyId));
    var e := VersionAppended(req.policyId, req.expected + 1, n, i.effect);
    AppendMeans(t, p, req.expected, e, ids.version, Version(p, n, i));
  }

  /** Policy `p` is active in `v`, one revision on, and has its name and organisation still. */
  predicate MadeActive(t: Tables, t': Tables, p: string, v: string) {
    && p in t.policies && v in t.versions
    && t'.policies == t.policies[p := Policy(t.policies[p].organizationId, t.policies[p].name, "active",
                                             t.policies[p].revision + 1, Some(v))]
    && t'.versions == t.versions && t'.rules == t.rules
  }

  lemma ActivateMeans(t: Tables, p: string, expected: int, v: string, e: Event)
    requires p in t.policies && t.policies[p].revision == expected && v in t.versions
    ensures var t' := WithPolicy(t, p, t.policies[p].(active := Some(v), status := "active", revision := expected + 1), e);
      MadeActive(t, t', p, v) && t'.log == t.log + [e]
  {
  }

  /** After an activation the policy is active in that version, one revision on, and nothing else moved. */
  lemma ActivationIsStored(t: Tables, req: Request, ids: Ids)
    requires req.Activate? && Succeeded(Perform(t, req, ids).1)
    ensures var t', p, v := Perform(t, req, ids).0, Lower(req.policyId), Lower(req.versionId);
      && MadeActive(t, t', p, v)
      && t'.log == t.log + [VersionActivated(req.policyId, t.policies[p].revision + 1, req.versionId, t.versions[v].number)]
  {
    hide *;
    SuccessMatches(t, req, ids);
    SuccessKinds(req, Perform(t, req, ids).1);
    ActivateWrites(t, req, ids);
    var p, v := Lower(req.policyId), Lower(req.versionId);
    OwnVersion(t, v, p);
    var e := VersionActivated(req.policyId, req.expected + 1, req.versionId, t.versions[v].number);
    ActivateMeans(t, p, req.expected, v, e);
  }

  /** Any other effect is refused. */
  lemma OtherEffectsRefused(t: Tables, req: Request, ids: Ids)
    requires req.CreatePolicy? || req.AppendVersion?
    requires !Folds(InputOf(req).effect, "allow") && !Folds(InputOf(req).effect, "deny")
    ensures !Succeeded(Perform(t, req, ids).1) && Perform(t, req, ids).0 == t
  {
    if Succeeded(Perform(t, req, ids).1) {
      VersionIsKept(t, req, ids);
    } else {
      FailureWritesNothing(t, req, ids);
    }
    hide Perform; hide Folds; hide Trims;
  }

  // ---- What a rule's row holds ----

  /** Row `r` with the caller's fields: one revision on, pending, without an error, and still the same
      rule with the same binding. */
  predicate IsReplacement(r: Rule, i: ReplaceInput, r': Rule) {
    && r'.selectors == i.selectors && r'.desiredState == i.desiredState && r'.parent == Some(i.parent) && r'.ttl == i.ttl
    && r'.revision == r.revision + 1 && r'.status == Pending && r'.lastError.None?
    && r'.id == r.id && r'.organizationId == r.organizationId && r'.workloadId == r.workloadId
    && r'.workloadSpiffeId == r.workloadSpiffeId && r'.binding == r.binding
  }

  /** A row with the caller's fields: present, unbound, pending, at revision 1, for its workload. */
  predicate IsCreation(id: string, i: CreateInput, wid: string, w: Workload, r: Rule) {
    && r.selectors == i.selectors && r.desiredState == "present" && r.parent == Some(i.parent) && r.ttl == i.ttl
    && r.revision == 1 && r.status == Pending && r.lastError.None? && r.binding.None?
    && r.id == id && r.organizationId == w.organizationId && r.workloadId == wid && r.workloadSpiffeId == w.spiffeId
  }

  /** After a replacement: the caller's fields, pending without an error; the rest as it was. */
  lemma ReplacementIsStored(t: Tables, req: Request, ids: Ids)
    requires req.ReplaceRule? && Succeeded(Perform(t, req, ids).1)
    ensures var x, i, t' := Lower(req.ruleId), req.input, Perform(t, req, ids).0;
      && x in t.rules && x in t'.rules
      && IsReplacement(t.rules[x], i, t'.rules[x])
      && (forall y :: y in t'.rules <==> y in t.rules)
      && (forall y :: y in t.rules && y != x ==> t'.rules[y] == t.rules[y])
      && t'.policies == t.policies && t'.versions == t.versions
      && t'.log == t.log + [RuleReplaced(req.ruleId, t.rules[x].revision, t.rules[x].revision + 1)]
  {
    hide IsUuid; hide AcceptedFields; hide Lower;
    Puts(t, Decide(t, req, ids).writes);
  }

  /** A new rule: the caller's fields, present, unbound, pending, at revision 1, with its workload's
      organisation and SPIFFE ID. */
  lemma CreationIsStored(t: Tables, req: Request, ids: Ids)
    requires req.CreateRule? && Succeeded(Perform(t, req, ids).1) && FreshIds(t, ids)
    ensures var wid, i, t' := Lower(req.desired.workloadId), req.desired, Perform(t, req, ids).0;
      && wid in t.workloads && ids.row !in t.rules && ids.row in t'.rules
      && IsCreation(ids.row, i, wid, t.workloads[wid], t'.rules[ids.row])
      && (forall y :: y in t.rules ==> y in t'.rules && t'.rules[y] == t.rules[y])
      && t'.policies == t.policies && t'.versions == t.versions && t'.log == t.log + [RuleCreated(ids.row, 1)]
  {
    hide IsUuid; hide AcceptedFields; hide Lower; hide WorkloadTaken;
    Puts(t, Decide(t, req, ids).writes);
  }

  // ---- What a reply tells ----

  /** The policy result is what the row holds, up to the case of IDs. */
  predicate TellsPolicy(t: Tables, q: PolicyResult) {
    && Lower(q.id) in t.policies
    && var row := t.policies[Lower(q.id)];
       && Lower(q.organizationId) == Lower(row.organizationId) && q.name == row.name && q.status == row.status
       && q.revision == row.revision && (q.active.None? <==> row.active.None?)
       && (q.active.Some? && row.active.Some? ==> Lower(q.active.value) == Lower(row.active.value))
  }

  /** The version result is what the version holds, and the revision its policy's. */
  predicate TellsVersion(t: Tables, q: VersionResult) {
    && Lower(q.id) in t.versions && Lower(q.policyId) in t.policies
    && var v := t.versions[Lower(q.id)];
       v.policyId == Lower(q.policyId) && q.number == v.number && q.effect == v.rule.effect
       && q.revision == t.policies[Lower(q.policyId)].revision
  }

  /** The rule result is what the row holds. */
  predicate TellsRule(t: Tables, q: RuleResult) {
    && Lower(q.id) in t.rules
    && var r := t.rules[Lower(q.id)];
       && q.organizationId == r.organizationId && Lower(q.workloadId) == Lower(r.workloadId)
       && q.desiredState == r.desiredState && q.revision == r.revision && q.ttl == r.ttl
       && q.selectorCount == |r.selectors| && q.status == r.status
  }

  predicate TellsTruth(t: Tables, reply: Reply) {
    match reply
    case Created(p, v) => TellsPolicy(t, p) && TellsVersion(t, v) && v.policyId == p.id
    case Appended(v) => TellsVersion(t, v)
    case Activated(p) => TellsPolicy(t, p) && p.active.Some? && p.status == "active"
    case RuleStored(r) => TellsRule(t, r)
    case _ => true
  }

  lemma NewTells(t: Tables, ids: Ids, o: string, name: string, i: RuleInput, e: Event)
    requires Lower(ids.row) == ids.row && Lower(ids.version) == ids.version && Lower(Lower(o)) == Lower(o)
    ensures var t' := WithVersion(WithPolicy(t, ids.row, Policy(Lower(o), name, "draft", 1, None), e), ids.version,
                                  Version(ids.row, 1, i));
      TellsTruth(t', Created(PolicyResult(ids.row, o, name, "draft", 1, None),
                             VersionResult(ids.version, ids.row, 1, 1, i.effect)))
  {
    hide Lower;
  }

  lemma NextTells(t: Tables, ids: Ids, p: string, expected: int, n: int, i: RuleInput, e: Event)
    requires Lower(ids.version) == ids.version && Lower(p) in t.policies
    ensures var t' := WithVersion(WithPolicy(t, Lower(p), t.policies[Lower(p)].(revision := expected + 1), e), ids.version,
                                  Version(Lower(p), n, i));
      TellsTruth(t', Appended(VersionResult(ids.version, p, n, expected + 1, i.effect)))
  {
    hide Lower;
  }

  lemma ActiveTells(t: Tables, p: string, expected: int, v: string, e: Event)
    requires Lower(p) in t.policies && Lower(Lower(v)) == Lower(v)
    ensures var row := t.policies[Lower(p)];
      var t' := WithPolicy(t, Lower(p), row.(active := Some(Lower(v)), status := "active", revision := expected + 1), e);
      TellsTruth(t', Activated(PolicyResult(p, row.organizationId, row.name, "active", expected + 1, Some(v))))
  {
    hide Lower;
  }

  lemma CreateTells(t: Tables, req: Request, ids: Ids)
    requires req.CreatePolicy? && Perform(t, req, ids).1.Created? && FreshIds(t, ids)
    ensures TellsTruth(Perform(t, req, ids).0, Perform(t, req, ids).1)
  {
    hide *;
    CreateWrites(t, req, ids);
    CreateReply(t, req, ids);
    LowerIdempotent(req.organizationId);
    FreshLower(t, ids);
    var i, name := Normalize(req.initial), TrimSpace(req.name);
    NewTells(t, ids, req.organizationId, name, i, PolicyCreated(ids.row, "draft", 1, 1, i.effect));
  }

  lemma FreshLower(t: Tables, ids: Ids)
    requires FreshIds(t, ids)
    ensures Lower(ids.row) == ids.row && Lower(ids.version) == ids.version
  {
    hide IsUuid; hide Lower;
  }

  lemma CreateReply(t: Tables, req: Request, ids: Ids)
    requires req.CreatePolicy? && Perform(t, req, ids).1.Created?
    ensures Perform(t, req, ids).1 ==
            Created(PolicyResult(ids.row, req.organizationId, TrimSpace(req.name), "draft", 1, None),
                    VersionResult(ids.version, ids.row, 1, 1, Normalize(req.initial).effect))
  {
    hide Normalize; hide TrimSpace; hide Accepted; hide NameTaken; hide PutAll;
  }

  lemma AppendTells(t: Tables, req: Request, ids: Ids)
    requires req.AppendVersion? && Perform(t, req, ids).1.Appended? && FreshIds(t, ids)
    ensures TellsTruth(Perform(t, req, ids).0, Perform(t, req, ids).1)
  {
    hide *;
    AppendWrites(t, req, ids);
    AppendReply(t, req, ids);
    FreshLower(t, ids);
    var p, n, i := req.policyId, NextNumber(t, Lower(req.policyId)), Normalize(req.version);
    NextTells(t, ids, p, req.expected, n, i, VersionAppended(p, req.expected + 1, n, i.effect));
  }

  lemma AppendReply(t: Tables, req: Request, ids: Ids)
    requires req.AppendVersion? && Perform(t, req, ids).1.Appended?
    ensures Perform(t, req, ids).1 ==
            Appended(VersionResult(ids.version, req.policyId, NextNumber(t, Lower(req.policyId)), req.expected + 1,
                                   Normalize(req.version).effect))
  {
    hide Normalize; hide Accepted; hide NextNumber; hide PutAll; hide Lower;
  }

  lemma OwnVersion(t: Tables, v: string, p: string)
    requires OfPolicy(t, v, p)
    ensures v in t.versions
  {
  }

  lemma ActivateTells(t: Tables, req: Request, ids: Ids)
    requires req.Activate? && Perform(t, req, ids).1.Activated?
    ensures TellsTruth(Perform(t, req, ids).0, Perform(t, req, ids).1)
    ensures Lower(Perform(t, req, ids).1.policy.active.value) == Lower(req.versionId)
  {
    hide *;
    ActivateWrites(t, req, ids);
    ActivateReply(t, req, ids);
    LowerIdempotent(req.versionId);
    var p, v := req.policyId, req.versionId;
    OwnVersion(t, Lower(v), Lower(p));
    ActiveTells(t, p, req.expected, v, VersionActivated(p, req.expected + 1, v, t.versions[Lower(v)].number));
  }

  lemma ActivateReply(t: Tables, req: Request, ids: Ids)
    requires req.Activate? && Perform(t, req, ids).1.Activated?
    ensures Lower(req.policyId) in t.policies
    ensures var row := t.policies[Lower(req.policyId)];
      Perform(t, req, ids).1 ==
        Activated(PolicyResult(req.policyId, row.organizationId, row.name, "active", req.expected + 1, Some(req.versionId)))
  {
    hide Accepted; hide PutAll; hide Lower; hide ValidRule;
  }

  lemma CreationTells(t: Tables, x: string, i: CreateInput, w: Workload)
    requires x in t.rules && Lower(x) == x && IsCreation(x, i, Lower(i.workloadId), w, t.rules[x])
    requires Lower(Lower(i.workloadId)) == Lower(i.workloadId)
    ensures TellsTruth(t, RuleStored(RuleResult(x, w.organizationId, i.workloadId, "present", 1, i.ttl,
                                                |i.selectors|, Pending)))
  {
    hide Lower;
  }

  lemma ReplacementTells(t: Tables, x: string, i: ReplaceInput, r: Rule)
    requires Lower(x) in t.rules && IsReplacement(r, i, t.rules[Lower(x)])
    ensures TellsTruth(t, RuleStored(RuleResult(x, r.organizationId, r.workloadId, i.desiredState, r.revision + 1, i.ttl,
                                                |i.selectors|, Pending)))
  {
    hide Lower;
  }

  lemma RuleTells(t: Tables, req: Request, ids: Ids)
    requires (req.CreateRule? || req.ReplaceRule?) && Succeeded(Perform(t, req, ids).1) && FreshIds(t, ids)
    ensures TellsTruth(Perform(t, req, ids).0, Perform(t, req, ids).1)
  {
    hide *;
    FreshLower(t, ids);
    RuleReply(t, req, ids);
    if req.CreateRule? {
      LowerIdempotent(req.desired.workloadId);
      CreationIsStored(t, req, ids);
      CreationTells(Perform(t, req, ids).0, ids.row, req.desired, t.workloads[Lower(req.desired.workloadId)]);
    } else {
      ReplacementIsStored(t, req, ids);
      ReplacementTells(Perform(t, req, ids).0, req.ruleId, req.input, t.rules[Lower(req.ruleId)]);
    }
  }

  lemma RuleReply(t: Tables, req: Request, ids: Ids)
    requires (req.CreateRule? || req.ReplaceRule?) && Succeeded(Perform(t, req, ids).1)
    ensures Perform(t, req, ids).1.RuleStored?
    ensures var q := Perform(t, req, ids).1.rule;
      && q.status == Pending
      && (req.CreateRule? ==>
            var wid, i := Lower(req.desired.workloadId), req.desired;
            wid in t.workloads
            && q == RuleResult(ids.row, t.workloads[wid].organizationId, i.workloadId, "present", 1, i.ttl,
                               |i.selectors|, Pending))
      && (req.ReplaceRule? ==>
            var x, i := Lower(req.ruleId), req.input;
            x in t.rules
            && q == RuleResult(req.ruleId, t.rules[x].organizationId, t.rules[x].workloadId, i.desiredState,
                               t.rules[x].revision + 1, i.ttl, |i.selectors|, Pending))
  {
    hide Accepted; hide PutAll; hide Lower; hide WorkloadTaken;
  }

  /** Every success tells what the tables then hold. */
  lemma RepliesTellTruth(t: Tables, req: Request, ids: Ids)
    requires Succeeded(Perform(t, req, ids).1) && FreshIds(t, ids)
    ensures TellsTruth(Perform(t, req, ids).0, Perform(t, req, ids).1)
  {
    hide *;
    SuccessMatches(t, req, ids);
    SuccessKinds(req, Perform(t, req, ids).1);
    match req
    case CreatePolicy(_, _, _) => CreateTells(t, req, ids);
    case AppendVersion(_, _, _) => AppendTells(t, req, ids);
    case Activate(_, _, _) => ActivateTells(t, req, ids);
    case CreateRule(_) => RuleTells(t, req, ids);
    case ReplaceRule(_, _) => RuleTells(t, req, ids);
  }

  lemma SuccessKinds(req: Request, reply: Reply)
    ensures OnPolicies(req, reply) <==> (req.CreatePolicy? && reply.Created?) || (req.AppendVersion? && reply.Appended?)
                                        || (req.Activate? && reply.Activated?)
  {
  }

  // ---- When a request is refused ----

  /** A rule that can be stored: what is kept of it is valid. */
  ghost predicate Admissible(i: RuleInput) { exists kept :: Keeps(i, kept) && ValidRule(kept) }

  lemma KeptOnce(i: RuleInput, a: RuleInput, b: RuleInput)
    requires Keeps(i, a) && Keeps(i, b)
    ensures a == b
  {
    hide Folds; hide Trims;
    FoldsOnce(i.action, a.action, b.action);
    FoldsOnce(i.effect, a.effect, b.effect);
    TrimsOnce(i.changeReason, a.changeReason, b.changeReason);
  }

  lemma AdmissibleIs(i: RuleInput)
    ensures Admissible(i) <==> ValidRule(Normalize(i))
  {
    hide Keeps; hide ValidRule; hide Normalize;
    NormalizeKeeps(i);
    if Admissible(i) {
      var kept :| Keeps(i, kept) && ValidRule(kept);
      KeptOnce(i, kept, Normalize(i));
    }
  }

  /** A policy's name, spaces around it aside. */
  ghost predicate Named(raw: string) { exists name :: Trims(raw, name) && IsName(name) }

  lemma NamedIs(raw: string)
    ensures Named(raw) <==> IsName(TrimSpace(raw))
  {
    hide Trims; hide IsName; hide TrimSpace;
    TrimSpaceTrims(raw);
    if Named(raw) {
      var name :| Trims(raw, name) && IsName(name);
      TrimsOnce(raw, name, TrimSpace(raw));
    }
  }

  /** What is asked of a request before a transaction begins. */
  lemma AcceptedExactly(req: Request)
    ensures req.CreatePolicy? ==>
              (Accepted(req) <==> IsUuid(req.organizationId) && Named(req.name) && Admissible(req.initial))
    ensures req.AppendVersion? ==>
              (Accepted(req) <==> IsUuid(req.policyId) && req.expected >= 1 && Admissible(req.version))
    ensures req.Activate? ==> (Accepted(req) <==> IsUuid(req.policyId) && IsUuid(req.versionId) && req.expected >= 1)
    ensures req.ReplaceRule? && Accepted(req) ==> IsUuid(req.ruleId) && req.input.expectedRevision >= 1
  {
    hide Admissible; hide Named; hide ValidRule; hide Normalize; hide TrimSpace; hide IsName; hide IsUuid;
    hide AcceptedFields;
    match req
    case CreatePolicy(_, name, i) => NamedIs(name); AdmissibleIs(i);
    case AppendVersion(_, _, i) => AdmissibleIs(i);
    case _ =>
  }

  lemma AppendRefusals(t: Tables, req: Request, ids: Ids)
    requires req.AppendVersion?
    ensures var reply, p := Perform(t, req, ids).1, Lower(req.policyId);
      && (reply == InvalidInput <==> !Accepted(req))
      && (reply == NotFound <==> Accepted(req) && p !in t.policies)
      && (reply == Conflict <==> Accepted(req) && p in t.policies && t.policies[p].revision != req.expected)
      && (reply.Appended? <==> Accepted(req) && p in t.policies && t.policies[p].revision == req.expected)
      && reply != Failed
  {
    hide Accepted; hide PutAll; hide Lower; hide Normalize; hide NextNumber;
  }

  lemma ActivateRefusals(t: Tables, req: Request, ids: Ids)
    requires req.Activate?
    ensures var reply, p, v := Perform(t, req, ids).1, Lower(req.policyId), Lower(req.versionId);
      var current := Accepted(req) && p in t.policies && t.policies[p].revision == req.expected;
      var own := v in t.versions && t.versions[v].policyId == p;
      && (reply == Conflict <==> Accepted(req) && p in t.policies && t.policies[p].revision != req.expected)
      && (reply == NotFound <==> Accepted(req) && (p !in t.policies || (current && !own)))
      && (reply == InvalidInput <==> !Accepted(req) || (current && own && !ValidRule(t.versions[v].rule)))
      && (reply.Activated? <==> current && own && ValidRule(t.versions[v].rule))
      && reply != Failed
  {
    hide Accepted; hide PutAll; hide Lower; hide ValidRule;
  }

  predicate HasPolicy(t: Tables, o: string, name: string) {
    exists p :: p in t.policies && t.policies[p].organizationId == o && t.policies[p].name == name
  }

  predicate HasRule(t: Tables, wid: string) { exists x :: x in t.rules && t.rules[x].workloadId == wid }

  lemma CreateRefusals(t: Tables, req: Request, ids: Ids)
    requires req.CreatePolicy?
    ensures var reply, o := Perform(t, req, ids).1, Lower(req.organizationId);
      && (reply == InvalidInput <==> !Accepted(req))
      && (reply == NotFound <==> Accepted(req) && o !in t.organizations)
      && (reply == Conflict <==> Accepted(req) && o in t.organizations && HasPolicy(t, o, TrimSpace(req.name)))
      && (reply.Created? <==> Accepted(req) && o in t.organizations && !HasPolicy(t, o, TrimSpace(req.name)))
      && reply != Failed
  {
    hide Accepted; hide PutAll; hide Lower; hide Normalize; hide TrimSpace;
  }

  lemma RuleRefusals(t: Tables, req: Request, ids: Ids)
    requires req.CreateRule? || req.ReplaceRule?
    ensures var reply := Perform(t, req, ids).1;
      && (reply == InvalidInput <==> !Accepted(req))
      && (req.CreateRule? ==>
            var wid := Lower(req.desired.workloadId);
            && (reply == NotFound <==> Accepted(req) && wid !in t.workloads)
            && (reply == Failed <==> Accepted(req) && wid in t.workloads && HasRule(t, wid))
            && reply != Conflict)
      && (req.ReplaceRule? ==>
            var x := Lower(req.ruleId);
            && (reply == NotFound <==> Accepted(req) && x !in t.rules)
            && (reply == Conflict <==> Accepted(req) && x in t.rules && t.rules[x].revision != req.input.expectedRevision)
            && reply != Failed)
  {
    hide Accepted; hide PutAll; hide Lower;
  }
}

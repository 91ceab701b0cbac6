/** What every serial history of requests keeps true of policies, their versions and the audit log. */
module PolicyHistory {
  import opened Text
  import opened Spiffe
  import opened Registration
  import opened PolicyRules
  import opened Tables
  import opened Transactions
  import opened Serialization

  // ---- Reading a policy's state off the audit log ----

  predicate PolicyEvent(e: Event) { e.PolicyCreated? || e.VersionAppended? || e.VersionActivated? }

  /** The event is about policy `p`, however its caller spelled the UUID. */
  predicate Names(e: Event, p: string) { PolicyEvent(e) && Lower(e.target) == p }

  function EventsOf(log: seq<Event>, p: string): seq<Event> {
    if log == [] then []
    else
      var m := |log| - 1;
      EventsOf(log[..m], p) + (if Names(log[m], p) then [log[m]] else [])
  }

  /** A policy's state as far as its events tell it. */
  datatype Snapshot = Snapshot(status: string, revision: int, latest: int, active: Option<string>)

  function Absorb(s: Snapshot, e: Event): Snapshot {
    match e
    case PolicyCreated(_, status, revision, number, _) => Snapshot(status, revision, number, None)
    case VersionAppended(_, revision, number, _) => s.(revision := revision, latest := number)
    case VersionActivated(_, revision, versionId, _) =>
      s.(status := "active", revision := revision, active := Some(Lower(versionId)))
    case _ => s
  }

  function Fold(events: seq<Event>): Snapshot {
    if events == [] then Snapshot("", 0, 0, None)
    else Absorb(Fold(events[..|events| - 1]), events[|events| - 1])
  }

  function SnapshotOf(t: Tables, p: string): Snapshot
    requires p in t.policies
  {
    var row := t.policies[p];
    Snapshot(row.status, row.revision, MaxOrZero(Numbers(t, p)), row.active)
  }

  lemma EventsOfMore(log: seq<Event>, e: Event, p: string)
    ensures EventsOf(log + [e], p) == EventsOf(log, p) + (if Names(e, p) then [e] else [])
  {
    assert (log + [e])[..|log|] == log;
  }

  lemma FoldMore(events: seq<Event>, e: Event)
    ensures Fold(events + [e]) == Absorb(Fold(events), e)
  {
    assert (events + [e])[..|events|] == events;
  }

  // ---- The invariant ----

  /** Versions are numbered 1 to n, each number once. */
  predicate NumberedTo(t: Tables, p: string, n: int) {
    && n >= 1
    && (forall k :: k in Numbers(t, p) ==> 1 <= k <= n)
    && (forall k :: 1 <= k <= n ==> k in Numbers(t, p))
    && (forall v, u :: v in t.versions && u in t.versions && SameNumber(t, p, v, u) ==> v == u)
  }

  predicate SameNumber(t: Tables, p: string, v: string, u: string) {
    OfPolicy(t, v, p) && OfPolicy(t, u, p) && t.versions[v].number == t.versions[u].number
  }

  /** Draft exactly while nothing is active; what is active is the policy's own and valid. */
  predicate StatusOk(t: Tables, p: string)
    requires p in t.policies
  {
    var row := t.policies[p];
    && (row.status == "draft" <==> row.active.None?)
    && (row.active.Some? ==> row.status == "active" && OfPolicy(t, row.active.value, p)
                             && ValidRule(t.versions[row.active.value].rule))
  }

  /** One event per revision, in order, and together they give the policy's state. */
  predicate EventsOk(t: Tables, p: string)
    requires p in t.policies
  {
    var events := EventsOf(t.log, p);
    && |events| == t.policies[p].revision
    && (forall i :: 0 <= i < |events| ==> PolicyEvent(events[i]) && events[i].revision == i + 1)
    && Fold(events) == SnapshotOf(t, p)
  }

  predicate PolicyOk(t: Tables, p: string)
    requires p in t.policies
  {
    NumberedTo(t, p, MaxOrZero(Numbers(t, p))) && StatusOk(t, p) && EventsOk(t, p)
  }

  predicate KeyOk(id: string) { IsUuid(id) && Lower(id) == id }

  predicate VersionsOk(t: Tables) {
    forall v :: v in t.versions ==>
      KeyOk(v) && t.versions[v].policyId in t.policies && ValidRule(t.versions[v].rule)
      && Normalize(t.versions[v].rule) == t.versions[v].rule
  }

  predicate LogOk(t: Tables) {
    forall i :: 0 <= i < |t.log| && PolicyEvent(t.log[i]) ==> Lower(t.log[i].target) in t.policies
  }

  predicate SameName(p: Policy, q: Policy) { p.organizationId == q.organizationId && p.name == q.name }

  predicate NamesOk(t: Tables) {
    forall p, q :: p in t.policies && q in t.policies && SameName(t.policies[p], t.policies[q]) ==> p == q
  }

  predicate Policies(t: Tables) {
    && (forall p :: p in t.policies ==> KeyOk(p) && PolicyOk(t, p))
    && VersionsOk(t) && LogOk(t) && NamesOk(t)
  }

  // ---- Other policies are left alone ----

  lemma NoEventsYet(log: seq<Event>, p: string)
    requires forall i :: 0 <= i < |log| && PolicyEvent(log[i]) ==> Lower(log[i].target) != p
    ensures EventsOf(log, p) == []
  {
  }

  lemma OthersStayOk(t: Tables, t': Tables, p: string)
    requires p in t.policies && PolicyOk(t, p) && SamePolicy(t, t', p) && EventsOf(t'.log, p) == EventsOf(t.log, p)
    ensures p in t'.policies && PolicyOk(t', p)
  {
    hide ValidRule;
    SameNumbers(t, t', p);
    forall v, u | v in t'.versions && u in t'.versions && SameNumber(t', p, v, u) ensures v == u {
      assert OfPolicy(t, v, p) && OfPolicy(t, u, p) && SameNumber(t, p, v, u);
    }
  }

  // ---- What a successful request writes ----

  lemma Puts(t: Tables, ws: seq<Write>)
    ensures |ws| == 2 ==> PutAll(t, ws) == Put(Put(t, ws[0]), ws[1])
    ensures |ws| == 3 ==> PutAll(t, ws) == Put(Put(Put(t, ws[0]), ws[1]), ws[2])
  {
    if |ws| == 2 {
      assert ws == [] + [ws[0]] + [ws[1]];
      PutAllOne(t, [] + [ws[0]], ws[1]);
      PutAllOne(t, [], ws[0]);
    } else if |ws| == 3 {
      assert ws == [] + [ws[0]] + [ws[1]] + [ws[2]];
      PutAllOne(t, [] + [ws[0]] + [ws[1]], ws[2]);
      PutAllOne(t, [] + [ws[0]], ws[1]);
      PutAllOne(t, [], ws[0]);
    }
  }

  function WithPolicy(t: Tables, p: string, row: Policy, e: Event): Tables {
    t.(policies := t.policies[p := row], log := t.log + [e])
  }

  function WithVersion(t: Tables, v: string, version: Version): Tables {
    t.(versions := t.versions[v := version])
  }

  lemma CreateWrites(t: Tables, req: Request, ids: Ids)
    requires req.CreatePolicy? && Perform(t, req, ids).1.Created?
    ensures var i, name := Normalize(req.initial), TrimSpace(req.name);
            && ValidRule(i) && !NameTaken(t, Lower(req.organizationId), name)
            && Perform(t, req, ids).0 == WithVersion(WithPolicy(t, ids.row,
                 Policy(Lower(req.organizationId), name, "draft", 1, None),
                 PolicyCreated(ids.row, "draft", 1, 1, i.effect)), ids.version, Version(ids.row, 1, i))
  {
    hide ValidRule; hide Normalize; hide TrimSpace; hide IsUuid; hide IsName;
    Puts(t, Decide(t, req, ids).writes);
  }

  lemma AppendWrites(t: Tables, req: Request, ids: Ids)
    requires req.AppendVersion? && Perform(t, req, ids).1.Appended?
    ensures var i, p, n := Normalize(req.version), Lower(req.policyId), NextNumber(t, Lower(req.policyId));
            && ValidRule(i) && p in t.policies && t.policies[p].revision == req.expected
            && Perform(t, req, ids).0 == WithVersion(WithPolicy(t, p,
                 t.policies[p].(revision := req.expected + 1),
                 VersionAppended(req.policyId, req.expected + 1, n, i.effect)), ids.version, Version(p, n, i))
  {
    hide ValidRule; hide Normalize; hide IsUuid; hide NextNumber;
    Puts(t, Decide(t, req, ids).writes);
  }

  lemma ActivateWrites(t: Tables, req: Request, ids: Ids)
    requires req.Activate? && Perform(t, req, ids).1.Activated?
    ensures var v, p := Lower(req.versionId), Lower(req.policyId);
            && p in t.policies && t.policies[p].revision == req.expected
            && OfPolicy(t, v, p) && ValidRule(t.versions[v].rule)
            && Perform(t, req, ids).0 == WithPolicy(t, p,
                 t.policies[p].(active := Some(v), status := "active", revision := req.expected + 1),
                 VersionActivated(req.policyId, req.expected + 1, req.versionId, t.versions[v].number))
  {
    hide ValidRule; hide IsUuid;
    Puts(t, Decide(t, req, ids).writes);
  }

  /** Whatever else happens leaves policies, versions and their events alone. */
  predicate Aloof(t: Tables, t': Tables) {
    && t'.policies == t.policies && t'.versions == t.versions
    && (t'.log == t.log || (|t'.log| == |t.log| + 1 && t'.log[..|t.log|] == t.log && !PolicyEvent(t'.log[|t.log|])))
  }

  predicate OnPolicies(req: Request, reply: Reply) {
    || (req.CreatePolicy? && reply.Created?) || (req.AppendVersion? && reply.Appended?)
    || (req.Activate? && reply.Activated?)
  }

  lemma RestIsAloof(t: Tables, req: Request, ids: Ids)
    requires !OnPolicies(req, Perform(t, req, ids).1)
    ensures Aloof(t, Perform(t, req, ids).0)
  {
    hide ValidRule; hide Normalize; hide TrimSpace; hide Accepted; hide NextNumber;
    var d := Decide(t, req, ids);
    Puts(t, d.writes);
  }

  lemma AloofEvents(t: Tables, t': Tables, p: string)
    requires Aloof(t, t')
    ensures EventsOf(t'.log, p) == EventsOf(t.log, p) && SamePolicy(t, t', p)
  {
    if t'.log != t.log {
      EventsOfMore(t.log, t'.log[|t.log|], p);
      assert t'.log == t.log + [t'.log[|t.log|]];
    }
  }

  lemma AloofKeeps(t: Tables, t': Tables)
    requires Policies(t) && Aloof(t, t')
    ensures Policies(t')
  {
    hide PolicyOk; hide ValidRule; hide KeyOk; hide Normalize;
    forall p | p in t'.policies ensures KeyOk(p) && PolicyOk(t', p) {
      AloofEvents(t, t', p);
      OthersStayOk(t, t', p);
    }
  }

  // ---- Each successful request keeps the invariant ----

  lemma EventOfOther(t: Tables, e: Event, p: string)
    requires PolicyEvent(e) && Lower(e.target) != p
    ensures EventsOf(t.log + [e], p) == EventsOf(t.log, p)
  {
    EventsOfMore(t.log, e, p);
    assert EventsOf(t.log, p) + [] == EventsOf(t.log, p);
  }

  lemma AppendNumbers(t: Tables, p: string, v: string, version: Version, n: int)
    requires version.policyId == p && version.number == n + 1 && v !in t.versions
    requires n == 0 || NumberedTo(t, p, n)
    requires n == 0 ==> Numbers(t, p) == {}
    ensures var t' := WithVersion(t, v, version); NumberedTo(t', p, n + 1) && MaxOrZero(Numbers(t', p)) == n + 1
  {
    var t' := WithVersion(t, v, version);
    forall k ensures k in Numbers(t', p) <==> k in Numbers(t, p) || k == n + 1 {
      if k in Numbers(t, p) {
        var u :| u in t.versions && t.versions[u].policyId == p && t.versions[u].number == k;
        assert t'.versions[u] == t.versions[u];
      }
      if k == n + 1 { assert OfPolicy(t', v, p) && t'.versions[v].number == k; }
    }
    forall x, u | x in t'.versions && u in t'.versions && SameNumber(t', p, x, u) ensures x == u {
      assert x != v ==> t.versions[x].number in Numbers(t, p);
      assert u != v ==> t.versions[u].number in Numbers(t, p);
      assert x != v && u != v ==> SameNumber(t, p, x, u);
    }
    assert n + 1 in Numbers(t', p);
  }

  /** One more event, carrying the next revision, keeps the log in step with the row. */
  lemma EventsStep(t: Tables, t': Tables, p: string, e: Event)
    requires t'.log == t.log + [e] && Names(e, p) && p in t'.policies
    requires var events := EventsOf(t.log, p);
             && (forall i :: 0 <= i < |events| ==> PolicyEvent(events[i]) && events[i].revision == i + 1)
             && e.revision == |events| + 1 && t'.policies[p].revision == |events| + 1
             && Absorb(Fold(events), e) == SnapshotOf(t', p)
    ensures EventsOk(t', p)
  {
    EventsOfMore(t.log, e, p);
    FoldMore(EventsOf(t.log, p), e);
  }

  /** A write to policy `q`, with at most one new version of it, leaves every other policy alone. */
  lemma OthersUnmoved(t: Tables, q: string, row: Policy, e: Event, p: string)
    requires p in t.policies && p != q && PolicyOk(t, p) && Names(e, q)
    ensures var t' := WithPolicy(t, q, row, e); p in t'.policies && PolicyOk(t', p)
  {
    hide PolicyOk;
    var t' := WithPolicy(t, q, row, e);
    EventOfOther(t, e, p);
    assert SamePolicy(t, t', p);
    OthersStayOk(t, t', p);
  }

  lemma OthersUnversioned(t: Tables, v: string, version: Version, p: string)
    requires p in t.policies && p != version.policyId && v !in t.versions && PolicyOk(t, p)
    ensures var t' := WithVersion(t, v, version); p in t'.policies && PolicyOk(t', p)
  {
    hide PolicyOk;
    var t' := WithVersion(t, v, version);
    forall u ensures OfPolicy(t, u, p) <==> OfPolicy(t', u, p) {
    }
    assert SamePolicy(t, t', p);
    OthersStayOk(t, t', p);
  }

  lemma LogMore(t: Tables, q: string, row: Policy, e: Event)
    requires LogOk(t) && Names(e, q)
    ensures LogOk(WithPolicy(t, q, row, e))
  {
  }

  lemma CreateKeeps(t: Tables, ids: Ids, row: Policy, i: RuleInput, e: Event)
    requires Policies(t) && FreshIds(t, ids) && !NameTaken(t, row.organizationId, row.name)
    requires ValidRule(i) && Normalize(i) == i
    requires row == Policy(row.organizationId, row.name, "draft", 1, None)
    requires e == PolicyCreated(ids.row, "draft", 1, 1, i.effect)
    ensures Policies(WithVersion(WithPolicy(t, ids.row, row, e), ids.version, Version(ids.row, 1, i)))
  {
    hide ValidRule; hide Normalize; hide IsUuid; hide PolicyOk;
    var p, version := ids.row, Version(ids.row, 1, i);
    var m := WithPolicy(t, p, row, e);
    var t' := WithVersion(m, ids.version, version);
    LogMore(t, p, row, e);
    forall x | x in t.policies ensures PolicyOk(t', x) {
      OthersUnmoved(t, p, row, e, x);
      OthersUnversioned(m, ids.version, version, x);
    }
    NewPolicyOk(t, p, row, ids.version, i, e);
    forall x, y | x in t'.policies && y in t'.policies && SameName(t'.policies[x], t'.policies[y]) ensures x == y {
      assert x == p && y != p ==> NameTaken(t, row.organizationId, row.name);
      assert y == p && x != p ==> NameTaken(t, row.organizationId, row.name);
    }
  }

  lemma NewPolicyOk(t: Tables, p: string, row: Policy, v: string, i: RuleInput, e: Event)
    requires LogOk(t) && VersionsOk(t) && p !in t.policies && v !in t.versions && Lower(p) == p
    requires row == Policy(row.organizationId, row.name, "draft", 1, None)
    requires e == PolicyCreated(p, "draft", 1, 1, i.effect)
    ensures var t' := WithVersion(WithPolicy(t, p, row, e), v, Version(p, 1, i));
            p in t'.policies && PolicyOk(t', p)
  {
    hide ValidRule; hide Normalize; hide IsUuid;
    var m := WithPolicy(t, p, row, e);
    var t' := WithVersion(m, v, Version(p, 1, i));
    assert Numbers(m, p) == {};
    AppendNumbers(m, p, v, Version(p, 1, i), 0);
    NoEventsYet(t.log, p);
    EventsStep(t, t', p, e);
  }

  lemma VersionsMore(t: Tables, v: string, version: Version)
    requires VersionsOk(t) && KeyOk(v) && version.policyId in t.policies
    requires ValidRule(version.rule) && Normalize(version.rule) == version.rule
    ensures VersionsOk(WithVersion(t, v, version)) && (LogOk(t) ==> LogOk(WithVersion(t, v, version)))
  {
    hide ValidRule; hide Normalize; hide KeyOk;
  }

  lemma AppendKeeps(t: Tables, p: string, v: string, i: RuleInput, e: Event)
    requires Policies(t) && p in t.policies && KeyOk(v) && v !in t.versions && ValidRule(i) && Normalize(i) == i
    requires e == VersionAppended(e.target, t.policies[p].revision + 1, NextNumber(t, p), i.effect) && Lower(e.target) == p
    ensures Policies(WithVersion(WithPolicy(t, p, t.policies[p].(revision := t.policies[p].revision + 1), e), v,
                                 Version(p, NextNumber(t, p), i)))
  {
    hide ValidRule; hide Normalize; hide IsUuid; hide PolicyOk; hide NextNumber;
    var row, version := t.policies[p].(revision := t.policies[p].revision + 1), Version(p, NextNumber(t, p), i);
    var m := WithPolicy(t, p, row, e);
    var t' := WithVersion(m, v, version);
    LogMore(t, p, row, e);
    VersionsMore(m, v, version);
    forall x | x in t.policies && x != p ensures PolicyOk(t', x) {
      OthersUnmoved(t, p, row, e, x);
      OthersUnversioned(m, v, version, x);
    }
    AppendedOk(t, p, v, i, e);
    NamesKept(t, t');
    hide VersionsOk;
    hide LogOk;
  }

  lemma NamesKept(t: Tables, t': Tables)
    requires NamesOk(t) && t'.policies.Keys == t.policies.Keys
    requires forall x :: x in t.policies ==> SameName(t.policies[x], t'.policies[x])
    ensures NamesOk(t')
  {
  }

  lemma NumbersOfRow(t: Tables, p: string, row: Policy, e: Event, n: int)
    requires NumberedTo(t, p, n)
    ensures var m := WithPolicy(t, p, row, e); Numbers(m, p) == Numbers(t, p) && NumberedTo(m, p, n)
  {
    var m := WithPolicy(t, p, row, e);
    assert Numbers(m, p) == Numbers(t, p);
    assert forall v, u :: SameNumber(m, p, v, u) ==> SameNumber(t, p, v, u);
  }

  lemma AppendedStatus(t: Tables, p: string, v: string, i: RuleInput, e: Event)
    requires p in t.policies && StatusOk(t, p) && v !in t.versions
    ensures var m := WithPolicy(t, p, t.policies[p].(revision := t.policies[p].revision + 1), e);
            StatusOk(WithVersion(m, v, Version(p, NextNumber(t, p), i)), p)
  {
    hide ValidRule; hide NextNumber;
  }

  lemma AppendedOk(t: Tables, p: string, v: string, i: RuleInput, e: Event)
    requires p in t.policies && PolicyOk(t, p) && v !in t.versions
    requires e == VersionAppended(e.target, t.policies[p].revision + 1, NextNumber(t, p), i.effect) && Lower(e.target) == p
    ensures var t' := WithVersion(WithPolicy(t, p, t.policies[p].(revision := t.policies[p].revision + 1), e), v,
                                  Version(p, NextNumber(t, p), i));
            PolicyOk(t', p)
  {
    hide ValidRule; hide IsUuid;
    var row, n := t.policies[p].(revision := t.policies[p].revision + 1), MaxOrZero(Numbers(t, p));
    var m := WithPolicy(t, p, row, e);
    var t' := WithVersion(m, v, Version(p, n + 1, i));
    NumbersOfRow(t, p, row, e, n);
    AppendNumbers(m, p, v, Version(p, n + 1, i), n);
    AppendedStatus(t, p, v, i, e);
    EventsStep(t, t', p, e);
    hide *;
  }

  lemma ActivateKeeps(t: Tables, p: string, v: string, e: Event)
    requires Policies(t) && p in t.policies && OfPolicy(t, Lower(v), p)
    requires e.VersionActivated? && e.revision == t.policies[p].revision + 1 && e.versionId == v && Lower(e.target) == p
    ensures Policies(WithPolicy(t, p, t.policies[p].(active := Some(Lower(v)), status := "active",
                                                     revision := t.policies[p].revision + 1), e))
  {
    hide ValidRule; hide Normalize; hide IsUuid; hide PolicyOk;
    var row := t.policies[p].(active := Some(Lower(v)), status := "active", revision := t.policies[p].revision + 1);
    var t' := WithPolicy(t, p, row, e);
    LogMore(t, p, row, e);
    forall x | x in t.policies && x != p ensures PolicyOk(t', x) {
      OthersUnmoved(t, p, row, e, x);
    }
    ActivatedOk(t, p, v, e);
    NamesKept(t, t');
  }

  lemma ActivatedOk(t: Tables, p: string, v: string, e: Event)
    requires p in t.policies && PolicyOk(t, p) && OfPolicy(t, Lower(v), p) && ValidRule(t.versions[Lower(v)].rule)
    requires e.VersionActivated? && e.revision == t.policies[p].revision + 1 && e.versionId == v && Lower(e.target) == p
    ensures PolicyOk(WithPolicy(t, p, t.policies[p].(active := Some(Lower(v)), status := "active",
                                                     revision := t.policies[p].revision + 1), e), p)
  {
    hide ValidRule; hide IsUuid;
    var row := t.policies[p].(active := Some(Lower(v)), status := "active", revision := t.policies[p].revision + 1);
    var t' := WithPolicy(t, p, row, e);
    assert Numbers(t', p) == Numbers(t, p);
    assert NumberedTo(t', p, MaxOrZero(Numbers(t, p)));
    EventsStep(t, t', p, e);
  }

  // ---- Whole histories ----

  lemma OpKeepsPolicies(t: Tables, op: Op)
    requires Policies(t) && Honest(t, op)
    ensures Policies(AfterOp(t, op))
  {
    hide Policies; hide Perform; hide FreshIds; hide Normalize; hide ValidRule; hide NameTaken; hide NextNumber;
    match op
    case Marked(_, _, _, _) => AloofKeeps(t, AfterOp(t, op));
    case Requested(_, req, ids, reply) =>
      if req.CreatePolicy? && reply.Created? {
        CreateWrites(t, req, ids);
        var i := Normalize(req.initial);
        NormalizeIdempotent(req.initial);
        CreateKeeps(t, ids, Policy(Lower(req.organizationId), TrimSpace(req.name), "draft", 1, None), i,
                    PolicyCreated(ids.row, "draft", 1, 1, i.effect));
      } else if req.AppendVersion? && reply.Appended? {
        AppendWrites(t, req, ids);
        NormalizeIdempotent(req.version);
        FreshVersion(t, ids);
        var i, p := Normalize(req.version), Lower(req.policyId);
        AppendKeeps(t, p, ids.version, i, VersionAppended(req.policyId, req.expected + 1, NextNumber(t, p), i.effect));
      } else if req.Activate? && reply.Activated? {
        ActivateWrites(t, req, ids);
        var v := Lower(req.versionId);
        ActivateKeeps(t, Lower(req.policyId), req.versionId,
                      VersionActivated(req.policyId, req.expected + 1, req.versionId, t.versions[v].number));
      } else {
        RestIsAloof(t, req, ids);
        AloofKeeps(t, AfterOp(t, op));
      }
  }

  lemma FreshVersion(t: Tables, ids: Ids)
    requires FreshIds(t, ids)
    ensures KeyOk(ids.version) && ids.version !in t.versions
  {
  }

  /** In every state that requests can reach from tables without policies, each policy's versions
      are numbered 1 to n, its status and active version agree, its revision counts its audit
      events, and those events alone reproduce its state. */
  lemma {:induction false} HistoryKeepsPolicies(t: Tables, history: seq<Op>)
    requires Policies(t) && AllHonest(t, history)
    ensures Policies(Replay(t, history))
    decreases |history|
  {
    hide Policies; hide Honest; hide AfterOp;
    if history != [] {
      var m := |history| - 1;
      AllHonestPrefix(t, history, m);
      HistoryKeepsPolicies(t, history[..m]);
      OpKeepsPolicies(Replay(t, history[..m]), history[m]);
    }
  }

  lemma AllHonestPrefix(t: Tables, history: seq<Op>, k: nat)
    requires AllHonest(t, history) && k <= |history|
    ensures AllHonest(t, history[..k])
  {
    hide Honest;
    forall i | 0 <= i < k ensures Honest(Replay(t, history[..k][..i]), history[..k][i]) {
      assert history[..k][..i] == history[..i];
    }
  }

  // ---- Old versions never change ----

  lemma OpKeepsVersions(t: Tables, op: Op, v: string)
    requires Honest(t, op) && v in t.versions
    ensures v in AfterOp(t, op).versions && AfterOp(t, op).versions[v] == t.versions[v]
  {
    hide Perform; hide FreshIds;
    if op.Requested? {
      RequestKeepsVersions(t, op.req, op.ids, v);
    }
  }

  lemma RequestKeepsVersions(t: Tables, req: Request, ids: Ids, v: string)
    requires v in t.versions && (Succeeded(Perform(t, req, ids).1) ==> FreshIds(t, ids))
    ensures var t' := Perform(t, req, ids).0; v in t'.versions && t'.versions[v] == t.versions[v]
  {
    hide Perform; hide FreshIds; hide Normalize; hide ValidRule; hide NameTaken; hide NextNumber; hide OfPolicy; hide KeyOk;
    hide Lower; hide TrimSpace;
    var reply := Perform(t, req, ids).1;
    if req.CreatePolicy? && reply.Created? {
      CreateWrites(t, req, ids);
      FreshVersion(t, ids);
    } else if req.AppendVersion? && reply.Appended? {
      AppendWrites(t, req, ids);
      FreshVersion(t, ids);
    } else if req.Activate? && reply.Activated? {
      ActivateWrites(t, req, ids);
    } else {
      RestIsAloof(t, req, ids);
    }
  }

  /** A version stays as it was first written, whatever is requested afterwards. */
  lemma {:induction false} VersionsNeverChange(t: Tables, history: seq<Op>, k: nat, v: string)
    requires AllHonest(t, history) && k <= |history| && v in Replay(t, history[..k]).versions
    ensures v in Replay(t, history).versions
    ensures Replay(t, history).versions[v] == Replay(t, history[..k]).versions[v]
    decreases |history|
  {
    hide Honest; hide AfterOp;
    if k < |history| {
      var m := |history| - 1;
      AllHonestPrefix(t, history, m);
      assert history[..m][..k] == history[..k];
      VersionsNeverChange(t, history[..m], k, v);
      OpKeepsVersions(Replay(t, history[..m]), history[m], v);
    } else {
      assert history[..k] == history;
    }
  }

  // ---- Stored versions stay activatable ----

  lemma LowerKeepsUuid(s: string)
    ensures IsUuid(Lower(s)) <==> IsUuid(s)
  {
    var l := Lower(s);
    if |s| == 36 {
      assert l[14] == LowerChar(s[14]) && l[19] == LowerChar(s[19]);
      assert forall i :: 0 <= i < 36 ==> (IsHex(l[i]) <==> IsHex(s[i])) && (l[i] == '-' <==> s[i] == '-');
    }
  }

  /** Activating a policy's own version is refused as invalid only for a revision below 1, which
      no policy has: it succeeds exactly at the policy's revision, and else is a conflict. */
  lemma StoredStayActivatable(t: Tables, policyId: string, expected: int, versionId: string, ids: Ids)
    requires Policies(t) && Lower(policyId) in t.policies && OfPolicy(t, Lower(versionId), Lower(policyId))
    ensures var reply := Perform(t, Activate(policyId, expected, versionId), ids).1;
            && (reply.Activated? <==> expected == t.policies[Lower(policyId)].revision)
            && (reply == InvalidInput <==> expected < 1)
            && (reply == Conflict <==> expected >= 1 && expected != t.policies[Lower(policyId)].revision)
  {
    hide ValidRule; hide Normalize; hide PolicyOk; hide IsUuid;
    LowerKeepsUuid(policyId);
    LowerKeepsUuid(versionId);
    var p, v := Lower(policyId), Lower(versionId);
    assert KeyOk(v) && ValidRule(t.versions[v].rule);
    assert KeyOk(p) && PolicyOk(t, p);
    RevisionPositive(t, p);
  }

  lemma RevisionPositive(t: Tables, p: string)
    requires p in t.policies && PolicyOk(t, p)
    ensures t.policies[p].revision >= 1
  {
    hide ValidRule;
    assert EventsOf(t.log, p) == [] ==> MaxOrZero(Numbers(t, p)) == 0;
  }
}

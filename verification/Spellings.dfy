/** The caller's spelling of a policy's UUID, and what it does to the audit log. */
module Spellings {
  import opened Text
  import opened Spiffe
  import opened Registration
  import opened PolicyRules
  import opened Tables
  import opened PolicyHistory
  import opened Serialization
  import opened Revisions
  import opened Witnesses

  // ---- Looking events up by the exact text of the ID ----

  function ExactEvents(log: seq<Event>, p: string): seq<Event> {
    if log == [] then []
    else
      var m := |log| - 1;
      ExactEvents(log[..m], p) + (if PolicyEvent(log[m]) && log[m].target == p then [log[m]] else [])
  }

  predicate AllExact(log: seq<Event>, p: string) {
    forall i :: 0 <= i < |log| && Names(log[i], p) ==> log[i].target == p
  }

  lemma AllExactMore(log: seq<Event>, p: string, e: Event)
    ensures AllExact(log + [e], p) <==> AllExact(log, p) && (Names(e, p) ==> e.target == p)
  {
    var more := log + [e];
    assert forall i :: 0 <= i < |log| ==> more[i] == log[i];
    assert more[|log|] == e;
  }

  lemma {:induction false} ExactFindsAll(log: seq<Event>, p: string)
    requires Lower(p) == p
    ensures |ExactEvents(log, p)| <= |EventsOf(log, p)|
    ensures |ExactEvents(log, p)| == |EventsOf(log, p)| <==> AllExact(log, p)
  {
    hide AllExact;
    if log == [] {
      NoneExact(p);
    } else {
      var m := |log| - 1;
      ExactFindsAll(log[..m], p);
      AllExactMore(log[..m], p, log[m]);
      assert log == log[..m] + [log[m]];
    }
  }

  lemma NoneExact(p: string)
    ensures AllExact([], p)
  {
  }

  // ---- Which requests spoil it ----

  /** A successful mutation of policy `p` whose caller wrote its ID otherwise than `p`. */
  predicate Misspells(op: Op, p: string) {
    && op.Requested? && Succeeded(op.reply)
    && (op.req.AppendVersion? || op.req.Activate?) && Lower(op.req.policyId) == p && op.req.policyId != p
  }

  predicate SpelledRight(history: seq<Op>, p: string) {
    forall i :: 0 <= i < |history| ==> !Misspells(history[i], p)
  }

  lemma OpSpells(t: Tables, op: Op, p: string)
    requires Honest(t, op) && Lower(p) == p
    ensures AllExact(AfterOp(t, op).log, p) <==> AllExact(t.log, p) && !Misspells(op, p)
  {
    hide Perform; hide FreshIds; hide AllExact;
    if op.Requested? { RequestSpells(t, op.req, op.ids, p); }
  }

  lemma RequestSpells(t: Tables, req: Request, ids: Ids, p: string)
    requires Lower(p) == p && (Succeeded(Perform(t, req, ids).1) ==> FreshIds(t, ids))
    ensures AllExact(Perform(t, req, ids).0.log, p) <==>
            AllExact(t.log, p) && !Misspells(Requested(0, req, ids, Perform(t, req, ids).1), p)
  {
    hide Perform; hide AllExact; hide Normalize; hide ValidRule; hide NameTaken; hide NextNumber;
    hide TrimSpace; hide IsUuid;
    var reply := Perform(t, req, ids).1;
    if req.CreatePolicy? && reply.Created? {
      CreateWrites(t, req, ids);
      AllExactMore(t.log, p, PolicyCreated(ids.row, "draft", 1, 1, Normalize(req.initial).effect));
    } else if req.AppendVersion? && reply.Appended? {
      AppendWrites(t, req, ids);
      AllExactMore(t.log, p, VersionAppended(req.policyId, req.expected + 1, NextNumber(t, Lower(req.policyId)),
                                             Normalize(req.version).effect));
    } else if req.Activate? && reply.Activated? {
      ActivateWrites(t, req, ids);
      AllExactMore(t.log, p, VersionActivated(req.policyId, req.expected + 1, req.versionId,
                                              t.versions[Lower(req.versionId)].number));
    } else {
      RestSpells(t, req, ids, p);
    }
  }

  lemma AloofSpells(t: Tables, t': Tables, p: string)
    requires Aloof(t, t')
    ensures AllExact(t'.log, p) <==> AllExact(t.log, p)
  {
    hide AllExact;
    if t'.log != t.log {
      AllExactMore(t.log, p, t'.log[|t.log|]);
      assert t'.log == t.log + [t'.log[|t.log|]];
    }
  }

  lemma RestSpells(t: Tables, req: Request, ids: Ids, p: string)
    requires !OnPolicies(req, Perform(t, req, ids).1)
    ensures AllExact(Perform(t, req, ids).0.log, p) <==> AllExact(t.log, p)
    ensures !Misspells(Requested(0, req, ids, Perform(t, req, ids).1), p)
  {
    hide Perform; hide AllExact;
    RestIsAloof(t, req, ids);
    if Succeeded(Perform(t, req, ids).1) { SuccessMatches(t, req, ids); }
    AloofSpells(t, Perform(t, req, ids).0, p);
  }

  lemma {:induction false} HistorySpells(t: Tables, history: seq<Op>, p: string)
    requires AllHonest(t, history) && Lower(p) == p
    ensures AllExact(Replay(t, history).log, p) <==> AllExact(t.log, p) && SpelledRight(history, p)
    decreases |history|
  {
    hide Honest; hide AfterOp; hide AllExact; hide Misspells;
    if history != [] {
      var m := |history| - 1;
      AllHonestPrefix(t, history, m);
      HistorySpells(t, history[..m], p);
      OpSpells(Replay(t, history[..m]), history[m], p);
      assert forall i :: 0 <= i < m ==> history[..m][i] == history[i];
    }
  }

  /** An event's target keeps the caller's spelling of the UUID. Looked up by the exact text of a
      policy's ID, there are as many events as the policy has revisions if and only if every
      caller that appended to it or activated a version wrote its ID in lower case. */
  lemma SpellingMatters(t: Tables, history: seq<Op>, p: string)
    requires Policies(t) && AllExact(t.log, p) && AllHonest(t, history) && p in Replay(t, history).policies
    ensures var t' := Replay(t, history);
      |ExactEvents(t'.log, p)| == t'.policies[p].revision <==> SpelledRight(history, p)
  {
    hide Replay; hide AllHonest; hide AllExact; hide SpelledRight;
    HistoryKeepsPolicies(t, history);
    PolicyFacts(Replay(t, history), p);
    HistorySpells(t, history, p);
    ExactFindsAll(Replay(t, history).log, p);
  }

  lemma PolicyFacts(t: Tables, p: string)
    requires Policies(t) && p in t.policies
    ensures Lower(p) == p && |EventsOf(t.log, p)| == t.policies[p].revision
  {
    hide ValidRule; hide Normalize; hide IsUuid;
    assert KeyOk(p) && PolicyOk(t, p);
  }

  // ---- A history that does ----

  /** A version 4 UUID that repeats one digit. */
  function Uuid(c: char): (s: string)
    ensures |s| == 36
  {
    seq(36, i requires 0 <= i < 36 =>
      if i == 8 || i == 13 || i == 18 || i == 23 then '-' else if i == 14 then '4' else if i == 19 then '8' else c)
  }

  lemma UuidIs(c: char)
    requires 'a' <= c <= 'f' || 'A' <= c <= 'F'
    ensures IsUuid(Uuid(c)) && Lower(Uuid(c)) == Uuid(LowerChar(c))
    ensures 'a' <= c <= 'f' ==> LowerChar(c) == c
  {
    assert "12345"[3] == '4' && "89abAB"[0] == '8';
  }

  lemma UuidsDiffer(c: char, d: char)
    requires c != d
    ensures Uuid(c) != Uuid(d)
  {
    assert Uuid(c)[0] == c && Uuid(d)[0] == d;
  }

  function SampleRule(): RuleInput { RuleInput(SampleId('a'), SampleId('b'), "connect", "allow", "x") }

  lemma SampleSpelled(c: char)
    requires 'a' <= c <= 'z'
    ensures Spells(SampleId(c), "td", [[c]], false)
  {
    var td, seg := "td", [c];
    assert Lower(td) == td;
    assert forall x :: x in td ==> x == 't' || x == 'd';
    assert Join([seg], '/') == seg && "/" + seg == ['/', c];
    FormatText(SpiffeId(td, ['/', c]));
    assert Trailer(false, false) == "";
    var text := "spiffe" + [':'] + Body(SpiffeId(td, ['/', c]));
    assert text + "" == text;
    hide Body;
  }

  lemma SampleShort(c: char)
    ensures Utf8Len(SampleId(c)) <= MAX_SPIFFE_ID_BYTES
  {
    Utf8AtMost(SampleId(c));
    hide Utf8Len;
  }

  lemma SampleIsPlain(c: char)
    requires 'a' <= c <= 'z'
    ensures InAlphabet(SampleId(c))
  {
  }

  lemma SampleIsValidId(c: char)
    requires 'a' <= c <= 'z'
    ensures ValidPolicyId(SampleId(c))
  {
    hide *;
    SampleSpelled(c);
    SampleShort(c);
    SampleIsPlain(c);
    SpelledIsValid(SampleId(c), "td", [[c]], false);
    ValidatorsAgree(SampleId(c));
  }

  /** Text that neither trimming nor folding changes. */
  lemma PlainText(s: string)
    requires s != "" && !IsSpace(s[0]) && !IsSpace(s[|s| - 1]) && forall i :: 0 <= i < |s| ==> !('A' <= s[i] <= 'Z')
    ensures TrimSpace(s) == s && Lower(s) == s
  {
    hide IsSpace;
    assert TrimLeft(s) == s && TrimRight(s) == s;
  }

  lemma ConnectIsPlain()
    ensures TrimSpace("connect") == "connect" && Lower("connect") == "connect"
  {
    PlainText("connect");
  }

  lemma AllowIsPlain()
    ensures TrimSpace("allow") == "allow" && Lower("allow") == "allow"
  {
    PlainText("allow");
  }

  lemma ReasonIsValid()
    ensures ValidReason("x")
  {
    hide Utf8Len;
    Utf8AtMost("x");
  }

  lemma ReasonIsPlain()
    ensures TrimSpace("x") == "x" && ValidReason("x")
  {
    hide *;
    LetterIsPlain();
    ReasonIsValid();
  }

  lemma LetterIsPlain()
    ensures TrimSpace("x") == "x" && Lower("x") == "x"
  {
    hide TrimSpace;
    PlainText("x");
  }

  lemma SampleRuleIs()
    ensures ValidRule(Normalize(SampleRule()))
  {
    hide *;
    SampleIsValidId('a');
    SampleIsValidId('b');
    ConnectIsPlain();
    AllowIsPlain();
    ReasonIsPlain();
    RuleIs(SampleId('a'), SampleId('b'));
    SampleRuleMeans();
  }

  lemma SampleRuleMeans()
    ensures SampleRule() == RuleInput(SampleId('a'), SampleId('b'), "connect", "allow", "x")
  {
    hide SampleId;
  }

  lemma RuleIs(source: string, destination: string)
    requires ValidPolicyId(source) && ValidPolicyId(destination)
    requires TrimSpace("connect") == "connect" && Lower("connect") == "connect"
    requires TrimSpace("allow") == "allow" && Lower("allow") == "allow" && TrimSpace("x") == "x" && ValidReason("x")
    ensures ValidRule(Normalize(RuleInput(source, destination, "connect", "allow", "x")))
  {
    hide ValidPolicyId;
    hide TrimSpace;
    hide Lower;
    hide ValidReason;
  }

  lemma ShortText()
    ensures IsName("abc") && !IsSpace("abc"[0]) && !IsSpace("abc"[2])
  {
  }

  lemma NameIsPlain()
    ensures IsName(TrimSpace("abc"))
  {
    hide TrimSpace; hide IsSpace;
    ShortText();
    PlainText("abc");
  }

  /** The parts of a history: an organisation, a policy's ID and that ID as somebody else spells it. */
  datatype Parts = Parts(organization: string, policy: string, spelled: string, first: Ids, second: Ids, name: string,
                         rule: RuleInput)

  /** One organisation and nothing else. */
  function Empty(o: string): Tables { Tables({o}, map[], map[], map[], map[], []) }

  function Creates(q: Parts): Request { CreatePolicy(q.organization, q.name, q.rule) }

  /** The same policy, its ID spelled otherwise. */
  function Appends(q: Parts): Request { AppendVersion(q.spelled, 1, q.rule) }

  function Middle(q: Parts): Tables { Perform(Empty(q.organization), Creates(q), q.first).0 }

  function Spelt(q: Parts): seq<Op> {
    [Requested(0, Creates(q), q.first, Perform(Empty(q.organization), Creates(q), q.first).1),
     Requested(1, Appends(q), q.second, Perform(Middle(q), Appends(q), q.second).1)]
  }

  predicate Fit(q: Parts) {
    && KeyOk(q.organization) && q.first.row == q.policy && KeyOk(q.policy) && KeyOk(q.first.version)
    && KeyOk(q.second.row) && KeyOk(q.second.version)
    && q.second.row != q.policy && q.second.version != q.first.version
    && IsUuid(q.spelled) && Lower(q.spelled) == q.policy && q.spelled != q.policy
    && IsName(TrimSpace(q.name)) && ValidRule(Normalize(q.rule))
  }

  lemma EmptyIsFine(o: string, p: string)
    ensures Policies(Empty(o)) && AllExact(Empty(o).log, p)
  {
  }

  lemma FirstSucceeds(q: Parts)
    requires Fit(q)
    ensures Perform(Empty(q.organization), Creates(q), q.first).1.Created? && FreshIds(Empty(q.organization), q.first)
  {
    hide IsUuid;
    hide IsName;
    hide ValidRule;
    hide Normalize;
    hide TrimSpace;
    hide Lower;
    hide PutAll;
  }

  lemma MiddleIs(q: Parts)
    ensures Middle(q) == Perform(Empty(q.organization), Creates(q), q.first).0
    ensures Creates(q).CreatePolicy? && Empty(q.organization).policies == map[] && Empty(q.organization).versions == map[]
  {
    hide Perform;
  }

  lemma CreateLeaves(t: Tables, req: Request, ids: Ids)
    requires req.CreatePolicy? && Perform(t, req, ids).1.Created? && t.policies == map[] && t.versions == map[]
    ensures var t' := Perform(t, req, ids).0;
      t'.policies.Keys == {ids.row} && t'.policies[ids.row].revision == 1 && t'.versions.Keys == {ids.version}
  {
    hide Perform; hide Normalize; hide TrimSpace; hide Lower; hide ValidRule; hide NameTaken;
    CreateWrites(t, req, ids);
  }

  lemma FirstLeaves(q: Parts)
    requires Fit(q)
    ensures var t := Middle(q);
      && t.policies.Keys == {q.policy} && t.policies[q.policy].revision == 1
      && t.versions.Keys == {q.first.version} && t.rules == map[]
  {
    hide *;
    FirstSucceeds(q);
    MiddleIs(q);
    NoRulesYet(q);
    CreateLeaves(Empty(q.organization), Creates(q), q.first);
    FitParts(q);
  }

  lemma NoRulesYet(q: Parts)
    requires Perform(Empty(q.organization), Creates(q), q.first).1.Created?
    ensures Middle(q).rules == map[]
  {
    PoliciesKeepRules(Empty(q.organization), Creates(q), q.first);
    hide Perform;
  }

  lemma FitParts(q: Parts)
    requires Fit(q)
    ensures KeyOk(q.second.row) && KeyOk(q.second.version) && KeyOk(q.first.row) && KeyOk(q.first.version)
    ensures q.second.row != q.policy && q.second.version != q.first.version && q.first.row == q.policy
    ensures IsUuid(q.spelled) && Lower(q.spelled) == q.policy && q.spelled != q.policy && ValidRule(Normalize(q.rule))
  {
    hide KeyOk; hide IsUuid; hide Lower; hide ValidRule; hide Normalize; hide IsName; hide TrimSpace;
  }

  lemma AppendsIs(q: Parts)
    ensures Appends(q) == AppendVersion(q.spelled, 1, q.rule)
  {
  }

  lemma AppendWorks(t: Tables, req: Request, ids: Ids)
    requires req.AppendVersion? && IsUuid(req.policyId) && req.expected == 1 && ValidRule(Normalize(req.version))
    requires Lower(req.policyId) in t.policies && t.policies[Lower(req.policyId)].revision == 1
    ensures Perform(t, req, ids).1.Appended?
  {
    hide IsUuid; hide Lower; hide ValidRule; hide Normalize; hide PutAll; hide NextNumber;
  }

  lemma FreshWhen(t: Tables, ids: Ids)
    requires KeyOk(ids.row) && KeyOk(ids.version)
    requires ids.row !in t.policies && ids.row !in t.rules && ids.version !in t.versions
    ensures FreshIds(t, ids)
  {
    hide IsUuid; hide Lower;
  }

  lemma SecondSucceeds(q: Parts)
    requires Fit(q)
    ensures Perform(Middle(q), Appends(q), q.second).1.Appended? && FreshIds(Middle(q), q.second)
  {
    hide *;
    FirstLeaves(q);
    FitParts(q);
    AppendsIs(q);
    AppendWorks(Middle(q), Appends(q), q.second);
    FreshWhen(Middle(q), q.second);
  }

  lemma SecondLeaves(q: Parts)
    requires Fit(q)
    ensures var t := Perform(Middle(q), Appends(q), q.second).0;
      q.policy in t.policies && t.policies[q.policy].revision == 2
  {
    SecondSucceeds(q);
    AppendWrites(Middle(q), Appends(q), q.second);
    hide Middle;
    hide Perform;
    hide Lower;
    hide Normalize;
    hide ValidRule;
    hide NextNumber;
    hide IsUuid;
  }

  lemma NothingReplayed(t: Tables)
    ensures Replay(t, []) == t && AllHonest(t, [])
  {
  }

  lemma TwoReplayed(t: Tables, a: Op, b: Op)
    requires Honest(t, a) && Honest(AfterOp(t, a), b)
    ensures AllHonest(t, [a, b]) && Replay(t, [a, b]) == AfterOp(AfterOp(t, a), b)
  {
    hide Honest;
    hide AfterOp;
    NothingReplayed(t);
    ReplayMore(t, [], a);
    assert [] + [a] == [a];
    ReplayMore(t, [a], b);
    assert [a] + [b] == [a, b];
  }

  lemma SpeltReplays(q: Parts)
    requires Fit(q)
    ensures AllHonest(Empty(q.organization), Spelt(q))
    ensures Replay(Empty(q.organization), Spelt(q)) == Perform(Middle(q), Appends(q), q.second).0
  {
    FirstSucceeds(q);
    SecondSucceeds(q);
    hide Fit;
    hide Perform;
    hide FreshIds;
    hide Empty;
    hide Creates;
    hide Appends;
    TwoReplayed(Empty(q.organization), Spelt(q)[0], Spelt(q)[1]);
  }

  lemma SpeltAt(q: Parts)
    ensures |Spelt(q)| == 2 && Spelt(q)[1] == Requested(1, Appends(q), q.second, Perform(Middle(q), Appends(q), q.second).1)
  {
    hide Perform; hide Middle; hide Appends; hide Creates; hide Empty;
  }

  lemma MisspellsIf(op: Op, p: string)
    requires op.Requested? && op.reply.Appended? && op.req.AppendVersion?
    requires Lower(op.req.policyId) == p && op.req.policyId != p
    ensures Misspells(op, p)
  {
    hide Lower;
  }

  lemma NotRight(history: seq<Op>, i: nat, p: string)
    requires i < |history| && Misspells(history[i], p)
    ensures !SpelledRight(history, p)
  {
    hide Misspells;
  }

  lemma SpeltWrong(q: Parts)
    requires Fit(q)
    ensures !SpelledRight(Spelt(q), q.policy)
  {
    hide *;
    SecondSucceeds(q);
    FitParts(q);
    AppendsIs(q);
    SpeltAt(q);
    MisspellsIf(Spelt(q)[1], q.policy);
    NotRight(Spelt(q), 1, q.policy);
  }

  /** A policy created, then given a second version under another spelling of its ID: it is at
      revision 2, and fewer than 2 events are found under its ID. */
  lemma SpeltIsMissed(q: Parts)
    requires Fit(q)
    ensures var h, p := Spelt(q), q.policy;
      && AllHonest(Empty(q.organization), h)
      && var t := Replay(Empty(q.organization), h);
         p in t.policies && t.policies[p].revision == 2 && |ExactEvents(t.log, p)| < 2
  {
    hide *;
    var h, p, t := Spelt(q), q.policy, Empty(q.organization);
    EmptyIsFine(q.organization, p);
    SpeltReplays(q);
    SpeltWrong(q);
    SecondLeaves(q);
    SpellingMatters(t, h, p);
    HistoryKeepsPolicies(t, h);
    PolicyFacts(Replay(t, h), p);
    ExactFindsAll(Replay(t, h).log, p);
  }

  /** The policy's ID in lower case letters a, and in capitals. */
  function Shouting(): Parts {
    Parts(Uuid('e'), Uuid('a'), Uuid('A'), Ids(Uuid('a'), Uuid('b')), Ids(Uuid('c'), Uuid('d')), "abc", SampleRule())
  }

  lemma ShoutingIsMissed()
    ensures Fit(Shouting())
    ensures var q := Shouting(); var t := Replay(Empty(q.organization), Spelt(q));
      && AllHonest(Empty(q.organization), Spelt(q))
      && q.policy in t.policies && t.policies[q.policy].revision == 2 && |ExactEvents(t.log, q.policy)| < 2
  {
    ShoutingFits();
    hide *;
    SpeltIsMissed(Shouting());
  }

  lemma ShoutingIs()
    ensures Shouting() == Parts(Uuid('e'), Uuid('a'), Uuid('A'), Ids(Uuid('a'), Uuid('b')), Ids(Uuid('c'), Uuid('d')), "abc",
                                SampleRule())
  {
    hide Uuid; hide SampleRule;
  }

  lemma LowerA()
    ensures LowerChar('A') == 'a'
  {
  }

  lemma Keys()
    ensures forall c :: 'a' <= c <= 'f' ==> KeyOk(Uuid(c))
  {
    hide Uuid; hide IsUuid; hide Lower;
    forall c | 'a' <= c <= 'f' ensures KeyOk(Uuid(c)) { UuidIs(c); }
  }

  lemma FitIf(q: Parts)
    requires KeyOk(q.organization) && q.first.row == q.policy && KeyOk(q.policy) && KeyOk(q.first.version)
    requires KeyOk(q.second.row) && KeyOk(q.second.version)
    requires q.second.row != q.policy && q.second.version != q.first.version
    requires IsUuid(q.spelled) && Lower(q.spelled) == q.policy && q.spelled != q.policy
    requires IsName(TrimSpace(q.name)) && ValidRule(Normalize(q.rule))
    ensures Fit(q)
  {
    hide KeyOk; hide IsUuid; hide Lower; hide ValidRule; hide Normalize; hide IsName; hide TrimSpace;
  }

  lemma ShoutingFits()
    ensures Fit(Shouting())
  {
    hide *;
    UuidIs('a');
    UuidIs('b');
    UuidIs('c');
    UuidIs('d');
    UuidIs('e');
    UuidIs('A');
    UuidsDiffer('a', 'c');
    UuidsDiffer('b', 'd');
    UuidsDiffer('a', 'A');
    SampleRuleIs();
    NameIsPlain();
    LowerA();
    ShoutingIs();
    Keys();
    FitIf(Shouting());
  }
}

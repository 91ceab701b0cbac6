/** Policy input: normalisation and validation. */
module PolicyRules {
  import opened Text
  import opened Spiffe
  import opened Registration

  datatype RuleInput = RuleInput(source: string, destination: string, action: string, effect: string,
                                 changeReason: string)

  const MAX_CHANGE_REASON_BYTES := 1024

  function Normalize(i: RuleInput): RuleInput {
    i.(action := Lower(TrimSpace(i.action)), effect := Lower(TrimSpace(i.effect)),
       changeReason := TrimSpace(i.changeReason))
  }

  predicate ValidReason(reason: string) {
    reason != "" && Utf8Len(reason) <= MAX_CHANGE_REASON_BYTES && !HasControl(reason)
  }

  /** validateRuleInput. */
  predicate ValidRule(i: RuleInput) {
    && ValidPolicyId(i.source) && ValidPolicyId(i.destination)
    && i.action == "connect" && (i.effect == "allow" || i.effect == "deny")
    && ValidReason(i.changeReason)
  }

  predicate IsNameChar(c: char) { IsLetter(c) || IsDigit(c) }

  predicate IsName(s: string) {
    && 3 <= |s| <= 128 && IsNameChar(s[0])
    && forall i :: 1 <= i < |s| ==> IsNameChar(s[i]) || s[i] in " _.-"
  }

  predicate AcceptedPolicy(organizationId: string, name: string, i: RuleInput) {
    IsUuid(organizationId) && IsName(TrimSpace(name)) && ValidRule(Normalize(i))
  }

  predicate AcceptedAppend(policyId: string, expected: int, i: RuleInput) {
    IsUuid(policyId) && expected >= 1 && ValidRule(Normalize(i))
  }

  predicate AcceptedActivate(policyId: string, expected: int, versionId: string) {
    IsUuid(policyId) && IsUuid(versionId) && expected >= 1
  }

  // ---- Normalisation is idempotent, so what it lets through stays valid ----

  lemma {:induction false} TrimRightKeepsStart(s: string)
    ensures TrimRight(s) != "" ==> s != "" && TrimRight(s)[0] == s[0]
  {
    if s != "" && IsSpace(s[|s| - 1]) {
      TrimRightKeepsStart(s[..|s| - 1]);
    }
  }

  lemma TrimSpaceIdempotent(s: string)
    ensures TrimSpace(TrimSpace(s)) == TrimSpace(s)
  {
    var t := TrimSpace(s);
    assert TrimLeft(t) == t;
    assert TrimRight(t) == t;
  }

  /** Case folding never creates or removes a space. */
  lemma LowerTrimmed(s: string)
    requires TrimSpace(s) == s
    ensures TrimSpace(Lower(s)) == Lower(s)
  {
    var t := Lower(s);
    if t != "" {
      assert t[0] == LowerChar(s[0]) && t[|t| - 1] == LowerChar(s[|s| - 1]);
      assert !IsSpace(t[0]) && !IsSpace(t[|t| - 1]);
      assert TrimLeft(t) == t;
    }
  }

  lemma FoldIdempotent(s: string)
    ensures var t := Lower(TrimSpace(s)); Lower(TrimSpace(t)) == t
  {
    TrimSpaceIdempotent(s);
    LowerTrimmed(TrimSpace(s));
    LowerIdempotent(TrimSpace(s));
  }

  lemma NormalizeIdempotent(i: RuleInput)
    ensures Normalize(Normalize(i)) == Normalize(i)
  {
    FoldIdempotent(i.action);
    FoldIdempotent(i.effect);
    TrimSpaceIdempotent(i.changeReason);
  }

  /** What makes a rule valid, in plain words and numbers. */
  lemma RuleExactly(i: RuleInput)
    ensures ValidRule(i) <==>
      && ValidPolicyId(i.source) && ValidPolicyId(i.destination) && i.action == "connect"
      && i.effect in ["allow", "deny"] && 1 <= Utf8Len(i.changeReason) <= 1024
      && forall k :: 0 <= k < |i.changeReason| ==> !IsControl(i.changeReason[k])
  {
    assert i.changeReason == "" <==> Utf8Len(i.changeReason) == 0;
    hide ValidPolicyId;
  }

  lemma NameExactly(s: string)
    ensures IsName(s) <==>
      && 3 <= |s| <= 128 && s[0] !in " _.-"
      && forall i :: 0 <= i < |s| ==>
           'a' <= s[i] <= 'z' || 'A' <= s[i] <= 'Z' || '0' <= s[i] <= '9' || s[i] in " _.-"
  {
    assert forall c: char :: c in " _.-" <==> c == ' ' || c == '_' || c == '.' || c == '-';
  }
}

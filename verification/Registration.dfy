/** Registration rules and the validation of operator input. */
module Registration {
  import opened Text
  import opened Spiffe
  import opened Entries

  /** SPIRE entry IDs are opaque; the model numbers them. */
  type EntryId = nat

  datatype Status = Pending | Converged | Errored

  datatype Rule = Rule(id: string, organizationId: string, workloadId: string, workloadSpiffeId: string,
                       selectors: seq<string>, desiredState: string, revision: int, parent: Option<string>,
                       ttl: int, binding: Option<EntryId>, status: Status, lastError: Option<string>)

  const MIN_TTL := 60
  const MAX_TTL := 86400
  const MAX_SELECTORS := 32
  const MAX_SELECTOR_VALUE_BYTES := 512

  predicate IsHex(c: char) { '0' <= c <= '9' || 'a' <= c <= 'f' || 'A' <= c <= 'F' }

  /** The UUID pattern: version 1 to 5, variant 8, 9, a or b. */
  predicate IsUuid(s: string) {
    && |s| == 36 && s[14] in "12345" && s[19] in "89abAB"
    && forall i :: 0 <= i < 36 ==> if i == 8 || i == 13 || i == 18 || i == 23 then s[i] == '-' else IsHex(s[i])
  }

  predicate IsSelectorType(s: string) {
    1 <= |s| <= 64 && forall i :: 0 <= i < |s| ==> IsLetter(s[i]) || IsDigit(s[i]) || s[i] in "._-"
  }

  predicate AcceptedSelector(raw: string) {
    var h := Cut(raw, ':');
    && h.found && IsSelectorType(h.before) && h.after != ""
    && Utf8Len(h.after) <= MAX_SELECTOR_VALUE_BYTES && !HasControl(h.after)
  }

  predicate Distinct(s: seq<string>) {
    forall i, j :: 0 <= i < j < |s| ==> s[i] != s[j]
  }

  /** The desired fields an operator may store. */
  predicate AcceptedFields(desiredState: string, selectors: seq<string>, parent: string, ttl: int) {
    && (desiredState == "present" || desiredState == "absent")
    && MIN_TTL <= ttl <= MAX_TTL
    && ValidRegistrationId(parent)
    && 1 <= |selectors| <= MAX_SELECTORS
    && (forall i :: 0 <= i < |selectors| ==> AcceptedSelector(selectors[i]))
    && Distinct(selectors)
  }

  /** The selector loop of validateDesiredFields, with its set of selectors seen so far. */
  method ValidateSelectors(selectors: seq<string>) returns (ok: bool)
    ensures ok <==> Distinct(selectors) &&
                    forall i :: 0 <= i < |selectors| ==> AcceptedSelector(selectors[i])
  {
    var seen: set<string> := {};
    for i := 0 to |selectors|
      invariant forall j :: 0 <= j < i ==> AcceptedSelector(selectors[j]) && selectors[j] in seen
      invariant forall s :: s in seen ==> exists j :: 0 <= j < i && selectors[j] == s
      invariant forall j, k :: 0 <= j < k < i ==> selectors[j] != selectors[k]
    {
      var h := Cut(selectors[i], ':');
      if !h.found || !IsSelectorType(h.before) || h.after == "" || Utf8Len(h.after) > MAX_SELECTOR_VALUE_BYTES {
        return false;
      }
      if HasControl(h.after) { return false; }
      if selectors[i] in seen { return false; }
      seen := seen + {selectors[i]};
    }
    return true;
  }

  method ValidateDesiredFields(desiredState: string, selectors: seq<string>, parent: string, ttl: int)
    returns (ok: bool)
    ensures ok <==> AcceptedFields(desiredState, selectors, parent, ttl)
  {
    if desiredState != "present" && desiredState != "absent" { return false; }
    if ttl < MIN_TTL || ttl > MAX_TTL { return false; }
    if !ValidRegistrationId(parent) { return false; }
    if |selectors| == 0 || |selectors| > MAX_SELECTORS { return false; }
    ok := ValidateSelectors(selectors);
  }

  datatype ReplaceInput = ReplaceInput(expectedRevision: int, desiredState: string, selectors: seq<string>,
                                       parent: string, ttl: int)

  predicate AcceptedReplace(ruleId: string, input: ReplaceInput) {
    && IsUuid(ruleId) && input.expectedRevision >= 1
    && AcceptedFields(input.desiredState, input.selectors, input.parent, input.ttl)
  }

  datatype CreateInput = CreateInput(workloadId: string, selectors: seq<string>, parent: string, ttl: int)

  predicate AcceptedCreate(input: CreateInput) {
    IsUuid(input.workloadId) && AcceptedFields("present", input.selectors, input.parent, input.ttl)
  }

  /** The row after a replacement at its expected revision. */
  function Replaced(r: Rule, i: ReplaceInput): Rule {
    r.(selectors := i.selectors, desiredState := i.desiredState, revision := r.revision + 1,
       parent := Some(i.parent), ttl := i.ttl, status := Pending, lastError := None)
  }

  /** The row a create inserts. */
  function NewRule(id: string, organizationId: string, workloadSpiffeId: string, i: CreateInput): Rule {
    Rule(id, organizationId, i.workloadId, workloadSpiffeId, i.selectors, "present", 1, Some(i.parent), i.ttl,
         None, Pending, None)
  }

  // ---- desiredEntry ----

  function OwnerHint(ruleId: string): string { "wtp-rule:" + ruleId }

  lemma HintInjective(a: string, b: string)
    ensures OwnerHint(a) == OwnerHint(b) <==> a == b
  {
    assert OwnerHint(a)[9..] == a && OwnerHint(b)[9..] == b;
  }

  function DesiredEntry(r: Rule): Result<Entry> {
    if r.parent.None? || r.parent.value == "" then Err("parent SPIFFE ID is required")
    else if r.ttl < 60 || r.ttl > 86400 then Err("X.509-SVID TTL is outside the supported range")
    else if r.selectors == [] then Err("at least one workload selector is required")
    else Ok(Entry(r.workloadSpiffeId, r.parent.value, r.selectors, r.ttl, OwnerHint(r.id)))
  }

  lemma ValidNotEmpty(raw: string)
    requires ValidRegistrationId(raw)
    ensures raw != ""
  {
  }

  lemma SelectorsParse(selectors: seq<string>)
    requires forall i :: 0 <= i < |selectors| ==> AcceptedSelector(selectors[i])
    ensures ParseSelectors(selectors).Ok?
  {
    AllParse(selectors);
  }

  lemma Converts(e: Entry)
    requires ParseSpiffeId(e.spiffeId).Ok? && ParseSpiffeId(e.parentId).Ok? && ParseSelectors(e.selectors).Ok?
    requires e.selectors != []
    ensures ToProto(e).Ok?
  {
    hide ParseSpiffeId;
  }

  /** The message says what the row says. */
  predicate OnTheWire(r: Rule, p: Proto)
    requires r.parent.Some?
  {
    && ParseSpiffeId(r.workloadSpiffeId) == Ok(p.spiffeId) && ParseSpiffeId(r.parent.value) == Ok(p.parentId)
    && SelectorTexts(p.selectors) == r.selectors && p.ttl == r.ttl && p.hint == "wtp-rule:" + r.id
  }

  lemma WireFields(r: Rule)
    requires r.parent.Some? && DesiredEntry(r).Ok? && ToProto(DesiredEntry(r).value).Ok?
    ensures OnTheWire(r, ToProto(DesiredEntry(r).value).value)
  {
    hide ParseSpiffeId; hide ParseSelectors; hide SelectorTexts; hide ToProto;
    var e := DesiredEntry(r).value;
    MessageParts(e);
    SelectorsRoundTrip(e.selectors, ToProto(e).value.selectors);
  }

  lemma MessageParts(e: Entry)
    requires ToProto(e).Ok?
    ensures var p := ToProto(e).value;
      && ParseSpiffeId(e.spiffeId) == Ok(p.spiffeId) && ParseSpiffeId(e.parentId) == Ok(p.parentId)
      && ParseSelectors(e.selectors) == Ok(p.selectors) && p.ttl == e.ttl && p.hint == e.hint
  {
    hide ParseSpiffeId; hide ParseSelectors;
  }

  /** Operator input that passed validation never fails later as malformed: the desired entry
      exists and goes on the wire with distinct selectors. With a parent over the alphabet it
      reads back equivalent exactly when the workload's ID is canonical and no bare '?' trails
      the parent's. What goes on the wire is what the row says. */
  lemma AcceptedFieldsAreSendable(r: Rule)
    requires r.parent.Some? && AcceptedFields(r.desiredState, r.selectors, r.parent.value, r.ttl)
    requires ParseSpiffeId(r.workloadSpiffeId).Ok?
    ensures DesiredEntry(r).Ok?
    ensures var e := DesiredEntry(r).value;
            && ToProto(e).Ok? && Stored(e).Some? && OnTheWire(r, ToProto(e).value)
            && (forall i, j :: 0 <= i < j < |ToProto(e).value.selectors| ==>
                  ToProto(e).value.selectors[i] != ToProto(e).value.selectors[j])
            && (InAlphabet(r.parent.value) ==>
                  (Equivalent(Stored(e).value, e) <==> Canonical(r.workloadSpiffeId) && '?' !in r.parent.value))
  {
    hide ValidRegistrationId;
    hide ParseSpiffeId;
    hide Stored;
    hide Canonical;
    ValidNotEmpty(r.parent.value);
    var e := DesiredEntry(r).value;
    ValidParses(r.parent.value);
    SelectorsParse(e.selectors);
    Converts(e);
    ConvertedSelectors(e);
    StoredAgrees(e);
    WireFields(r);
    hide OnTheWire;
  }

  lemma ConvertedSelectors(e: Entry)
    requires ToProto(e).Ok? && Distinct(e.selectors)
    ensures Stored(e).Some?
    ensures var ss := ToProto(e).value.selectors; forall i, j :: 0 <= i < j < |ss| ==> ss[i] != ss[j]
  {
    var ss := ToProto(e).value.selectors;
    SelectorsRoundTrip(e.selectors, ss);
    assert forall i :: 0 <= i < |ss| ==> SelectorText(ss[i]) == e.selectors[i];
  }

  // ---- The limits, in plain numbers ----

  predicate TypeChar(c: char) { 'a' <= c <= 'z' || 'A' <= c <= 'Z' || '0' <= c <= '9' || c == '.' || c == '_' || c == '-' }

  /** A type of 1 to 64 plain characters, a colon, and a value of 1 to 512 bytes without control characters. */
  predicate IsSelector(kind: string, value: string) {
    && 1 <= |kind| <= 64 && (forall i :: 0 <= i < |kind| ==> TypeChar(kind[i]))
    && value != "" && Utf8Len(value) <= 512 && forall i :: 0 <= i < |value| ==> !IsControl(value[i])
  }

  lemma TypeChars(s: string)
    ensures IsSelectorType(s) <==> 1 <= |s| <= 64 && forall i :: 0 <= i < |s| ==> TypeChar(s[i])
  {
    assert forall c: char :: c in "._-" <==> c == '.' || c == '_' || c == '-';
  }

  ghost predicate SpellsSelector(raw: string) {
    exists kind, value :: raw == kind + [':'] + value && IsSelector(kind, value)
  }

  /** The first colon divides an accepted selector, and only a proper type and value are accepted. */
  lemma SelectorExactly(raw: string)
    ensures AcceptedSelector(raw) <==> SpellsSelector(raw)
  {
    if AcceptedSelector(raw) {
      var h := Cut(raw, ':');
      TypeChars(h.before);
      assert raw == h.before + [':'] + h.after && IsSelector(h.before, h.after);
    }
    if kind, value :| raw == kind + [':'] + value && IsSelector(kind, value) {
      TypeChars(kind);
      assert ':' !in kind;
      CutAt(kind, ':', value);
    }
  }

  /** What an operator may ask for: a state, a TTL of 60 to 86400 seconds, a parent, and 1 to 32
      distinct selectors. */
  lemma FieldsExactly(desiredState: string, selectors: seq<string>, parent: string, ttl: int)
    ensures AcceptedFields(desiredState, selectors, parent, ttl) <==>
      && (desiredState == "present" || desiredState == "absent") && 60 <= ttl <= 86400 && ValidRegistrationId(parent)
      && 1 <= |selectors| <= 32 && (forall i, j :: 0 <= i < j < |selectors| ==> selectors[i] != selectors[j])
      && forall i :: 0 <= i < |selectors| ==> SpellsSelector(selectors[i])
  {
    hide AcceptedSelector;
    hide SpellsSelector;
    hide ValidRegistrationId;
    forall i | 0 <= i < |selectors| ensures AcceptedSelector(selectors[i]) <==> SpellsSelector(selectors[i]) {
      SelectorExactly(selectors[i]);
    }
  }

  /** The operator may ask for exactly the TTLs that the reconciler will send, and that the database
      admits. */
  lemma TtlsAgree(r: Rule, ttl: int)
    requires r.parent.Some? && AcceptedFields(r.desiredState, r.selectors, r.parent.value, r.ttl)
    ensures AcceptedFields(r.desiredState, r.selectors, r.parent.value, ttl) <==> DesiredEntry(r.(ttl := ttl)).Ok?
    ensures DesiredEntry(r.(ttl := ttl)).Ok? <==> 60 <= ttl <= 86400
  {
    ValidNotEmpty(r.parent.value);
    hide ValidRegistrationId;
    hide AcceptedSelector;
  }

  predicate HexText(s: string, n: nat) {
    |s| == n && forall i :: 0 <= i < n ==> '0' <= s[i] <= '9' || 'a' <= s[i] <= 'f' || 'A' <= s[i] <= 'F'
  }

  /** A UUID is 8, 4, 4, 4 and 12 hexadecimal digits between dashes, of version 1 to 5 and variant
      8, 9, a or b. */
  lemma UuidExactly(s: string)
    ensures IsUuid(s) <==>
      && |s| == 36 && s[8] == s[13] == s[18] == s[23] == '-'
      && HexText(s[..8], 8) && HexText(s[9..13], 4) && HexText(s[14..18], 4) && HexText(s[19..23], 4)
      && HexText(s[24..], 12) && '1' <= s[14] <= '5' && (s[19] == '8' || s[19] == '9' || s[19] in "abAB")
  {
    assert forall c: char :: c in "12345" <==> '1' <= c <= '5';
    assert forall c: char :: c in "89abAB" <==> c == '8' || c == '9' || c in "abAB";
    if IsUuid(s) {
      UuidParts(s);
    } else if |s| == 36 && HexText(s[..8], 8) && HexText(s[9..13], 4) && HexText(s[14..18], 4) && HexText(s[19..23], 4)
              && HexText(s[24..], 12) {
      PartsHex(s);
    }
  }

  lemma UuidParts(s: string)
    requires IsUuid(s)
    ensures HexText(s[..8], 8) && HexText(s[9..13], 4) && HexText(s[14..18], 4) && HexText(s[19..23], 4)
            && HexText(s[24..], 12)
  {
  }

  lemma PartsHex(s: string)
    requires |s| == 36 && HexText(s[..8], 8) && HexText(s[9..13], 4) && HexText(s[14..18], 4) && HexText(s[19..23], 4)
    requires HexText(s[24..], 12)
    ensures forall i :: 0 <= i < 36 && i != 8 && i != 13 && i != 18 && i != 23 ==> IsHex(s[i])
  {
    forall i | 0 <= i < 36 && i != 8 && i != 13 && i != 18 && i != 23 ensures IsHex(s[i]) {
      if i < 8 { assert s[i] == s[..8][i]; }
      else if i < 13 { assert s[i] == s[9..13][i - 9]; }
      else if i < 18 { assert s[i] == s[14..18][i - 14]; }
      else if i < 23 { assert s[i] == s[19..23][i - 19]; }
      else { assert s[i] == s[24..][i - 24]; }
    }
  }
}

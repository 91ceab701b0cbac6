/** SPIFFE IDs as text: the parser and formatter of the SPIRE client and the two validators.
    `UrlParse` follows Go's url.Parse on strings over `InAlphabet`; escapes, brackets and
    other characters are outside it. */
module Spiffe {
  import opened Text

  predicate IsLetter(c: char) { 'a' <= c <= 'z' || 'A' <= c <= 'Z' }

  predicate IsDigit(c: char) { '0' <= c <= '9' }

  predicate InAlphabet(s: string) {
    forall i :: 0 <= i < |s| ==> IsLetter(s[i]) || IsDigit(s[i]) || s[i] in ".-_/:?#@"
  }

  /** `opaqueText` is what follows the scheme when no slash does. */
  datatype Url = Url(scheme: string, opaqueText: string, user: Option<string>, host: string,
                     path: string, rawQuery: string, forceQuery: bool, fragment: string)

  datatype Scheme = Bad | Missing | At(colon: nat)

  /** Finds the colon that ends the scheme, starting at position `i`. */
  function GetScheme(s: string, i: nat): (k: Scheme)
    requires i <= |s|
    ensures k.At? ==> i <= k.colon < |s| && s[k.colon] == ':' && ':' !in s[i..k.colon]
    decreases |s| - i
  {
    if i == |s| then Missing
    else if IsLetter(s[i]) then Onward(s, i)
    else if IsDigit(s[i]) || s[i] in "+-." then if i == 0 then Missing else Onward(s, i)
    else if s[i] == ':' then if i == 0 then Bad else At(i)
    else Missing
  }

  function Onward(s: string, i: nat): (k: Scheme)
    requires i < |s| && s[i] != ':'
    ensures k.At? ==> i <= k.colon < |s| && s[k.colon] == ':' && ':' !in s[i..k.colon]
    decreases |s| - i, 0
  {
    var k := GetScheme(s, i + 1);
    assert k.At? ==> s[i..k.colon] == [s[i]] + s[i + 1..k.colon];
    k
  }

  predicate ValidOptionalPort(s: string) {
    s == "" || (s[0] == ':' && forall i :: 1 <= i < |s| ==> IsDigit(s[i]))
  }

  function Hostname(host: string): string {
    var k := AfterLast(host, ':');
    if k > 0 && ValidOptionalPort(host[k - 1..]) then host[..k - 1] else host
  }

  function UrlParse(raw: string): Result<Url> {
    var f := Cut(raw, '#');
    match GetScheme(f.before, 0)
    case Bad => Err("missing protocol scheme")
    case Missing => ParseRest("", f.before, f.after)
    case At(k) => ParseRest(Lower(f.before[..k]), f.before[k + 1..], f.after)
  }

  datatype Authority = Authority(user: Option<string>, host: string)

  function ParseAuthority(text: string): Result<Authority> {
    var at := AfterLast(text, '@');
    var host := text[at..];
    var colon := AfterLast(host, ':');
    if colon > 0 && !ValidOptionalPort(host[colon - 1..]) then Err("invalid port after host")
    else Ok(Authority(if at > 0 then Some(text[..at - 1]) else None, host))
  }

  /** Query first: a lone trailing '?' leaves an empty query and sets `forceQuery`. */
  function ParseRest(scheme: string, text: string, fragment: string): (r: Result<Url>)
    ensures r.Ok? ==> r.value.scheme == scheme && r.value.fragment == fragment
  {
    var q := Cut(text, '?');
    ParseHierarchy(scheme, q.before, q.after, q.found && q.after == "", fragment)
  }

  /** Then the authority, if there is one, and the path. */
  function ParseHierarchy(scheme: string, rest: string, query: string, force: bool, fragment: string): (r: Result<Url>)
    ensures r.Ok? ==> r.value.scheme == scheme && r.value.fragment == fragment
  {
    if (rest == "" || rest[0] != '/') && scheme != "" then
      Ok(Url(scheme, rest, None, "", "", query, force, fragment))
    else if (rest == "" || rest[0] != '/') && ':' in Cut(rest, '/').before then
      Err("first path segment in URL cannot contain colon")
    else if "//" <= rest && (scheme != "" || !("///" <= rest)) then
      var cut := Find(rest[2..], '/');
      match ParseAuthority(rest[2..][..cut])
      case Err(e) => Err(e)
      case Ok(a) => Ok(Url(scheme, "", a.user, a.host, rest[2..][cut..], query, force, fragment))
    else
      Ok(Url(scheme, "", None, "", rest, query, force, fragment))
  }

  /** URL.String for a URL without userinfo, which is where the validators use it. */
  function UrlString(u: Url): string {
    (if u.scheme != "" then u.scheme + ":" else "") +
    (if u.opaqueText != "" then u.opaqueText
     else (if u.host != "" then "//" + u.host else "") + u.path) +
    (if u.forceQuery || u.rawQuery != "" then "?" + u.rawQuery else "") +
    (if u.fragment != "" then "#" + u.fragment else "")
  }

  datatype SpiffeId = SpiffeId(trustDomain: string, path: string)

  /** The conditions that parseSPIFFEID and both validators share. */
  predicate CheckUrl(u: Url) {
    && u.scheme == "spiffe" && u.host != "" && u.user.None?
    && u.rawQuery == "" && u.fragment == "" && u.opaqueText == ""
    && Hostname(u.host) == u.host && Lower(u.host) == u.host
    && u.path != "" && u.path[0] == '/'
  }

  function ParseSpiffeId(raw: string): Result<SpiffeId> {
    match UrlParse(raw)
    case Err(e) => Err(e)
    case Ok(u) => if CheckUrl(u) then Ok(SpiffeId(u.host, u.path)) else Err("not a canonical SPIFFE ID")
  }

  function FormatSpiffeId(id: SpiffeId): string {
    "spiffe://" + id.trustDomain + id.path
  }

  const MAX_SPIFFE_ID_BYTES := 2048

  /** Registration's validator; the policy validator adds `extra` to the segment test. */
  predicate ValidWith(raw: string, extra: string -> bool) {
    && raw != "" && Utf8Len(raw) <= MAX_SPIFFE_ID_BYTES
    && match UrlParse(raw)
       case Err(_) => false
       case Ok(u) =>
         && CheckUrl(u) && UrlString(u) == raw
         && forall seg :: seg in Split(u.path[1..], '/') ==>
              ProperSegment(seg) && extra(seg)
  }

  predicate ValidRegistrationId(raw: string) {
    ValidWith(raw, seg => true)
  }

  predicate ValidPolicyId(raw: string) {
    ValidWith(raw, seg => '\\' !in seg && !HasControl(seg))
  }

  // ---- What the parser accepts ----

  predicate WellFormed(id: SpiffeId) {
    && id.trustDomain != "" && Lower(id.trustDomain) == id.trustDomain
    && (forall c :: c in id.trustDomain ==> c !in "/:@?#")
    && id.path != "" && id.path[0] == '/' && '?' !in id.path && '#' !in id.path
  }

  function Body(id: SpiffeId): string { "//" + id.trustDomain + id.path }

  /** What may trail a SPIFFE ID without changing what it parses to. */
  function Trailer(bare: bool, hash: bool): string {
    (if bare then "?" else "") + (if hash then "#" else "")
  }

  predicate SpiffeScheme(s: string) { |s| == 6 && Lower(s) == "spiffe" }

  /** `raw` is `id` in full: a scheme in any letter case, the body, and perhaps a bare '?' or '#'. */
  predicate Spelling(raw: string, scheme: string, id: SpiffeId, bare: bool, hash: bool) {
    SpiffeScheme(scheme) && raw == scheme + [':'] + Body(id) + Trailer(bare, hash)
  }

  lemma SchemeLetters(scheme: string)
    requires SpiffeScheme(scheme)
    ensures forall i :: 0 <= i < 6 ==> IsLetter(scheme[i])
  {
    forall i | 0 <= i < 6 ensures IsLetter(scheme[i]) {
      assert LowerChar(scheme[i]) == "spiffe"[i];
    }
  }

  lemma {:induction false} LettersThenColon(s: string, i: nat, k: nat)
    requires i <= k < |s| && 0 < k && s[k] == ':' && forall j :: i <= j < k ==> IsLetter(s[j])
    ensures GetScheme(s, i) == At(k)
    decreases k - i
  {
    if i < k {
      LettersThenColon(s, i + 1, k);
    }
  }

  /** A host comes back whole, without userinfo or port, exactly when it has no '@' and no ':'. */
  lemma PlainAuthority(text: string)
    ensures (ParseAuthority(text).Ok? && ParseAuthority(text).value.user.None? &&
             Hostname(ParseAuthority(text).value.host) == ParseAuthority(text).value.host)
            <==> '@' !in text && ':' !in text
    ensures '@' !in text && ':' !in text ==> ParseAuthority(text) == Ok(Authority(None, text))
    ensures ':' !in text ==> Hostname(text) == text
  {
  }

  lemma CutSlash(td: string, path: string)
    requires '/' !in td && path != "" && path[0] == '/'
    ensures Find(td + path, '/') == |td| && (td + path)[..|td|] == td && (td + path)[|td|..] == path
  {
    hide Find;
    FindFirst(td, '/', path[1..]);
    assert td + ['/'] + path[1..] == td + path;
  }

  lemma HierarchyAccepted(id: SpiffeId, force: bool)
    requires WellFormed(id)
    ensures ParseHierarchy("spiffe", Body(id), "", force, "")
            == Ok(Url("spiffe", "", None, id.trustDomain, id.path, "", force, ""))
  {
    assert Body(id)[2..] == id.trustDomain + id.path;
    CutSlash(id.trustDomain, id.path);
    PlainAuthority(id.trustDomain);
  }

  lemma CutTail(s: string, c: char, found: bool)
    requires c !in s
    ensures Cut(s + (if found then [c] else []), c) == Halves(s, "", found)
  {
    if found {
      CutAt(s, c, "");
      assert s + [c] + "" == s + [c];
    } else {
      assert s + [] == s;
    }
  }

  lemma BodyChars(id: SpiffeId)
    requires WellFormed(id)
    ensures '?' !in Body(id) && '#' !in Body(id)
  {
  }

  lemma RestAccepted(id: SpiffeId, bare: bool)
    requires WellFormed(id)
    ensures ParseRest("spiffe", Body(id) + (if bare then "?" else ""), "")
            == Ok(Url("spiffe", "", None, id.trustDomain, id.path, "", bare, ""))
  {
    BodyChars(id);
    CutTail(Body(id), '?', bare);
    HierarchyAccepted(id, bare);
  }

  lemma SchemeThenRest(scheme: string, rest: string)
    requires SpiffeScheme(scheme)
    ensures var s := scheme + [':'] + rest;
            GetScheme(s, 0) == At(6) && s[..6] == scheme && s[7..] == rest && ('#' in s <==> '#' in rest)
  {
    SchemeLetters(scheme);
    LettersThenColon(scheme + [':'] + rest, 0, 6);
  }

  lemma ParseOfSpelling(raw: string, scheme: string, id: SpiffeId, bare: bool, hash: bool)
    requires WellFormed(id) && Spelling(raw, scheme, id, bare, hash)
    ensures UrlParse(raw) == Ok(Url("spiffe", "", None, id.trustDomain, id.path, "", bare, ""))
    ensures ParseSpiffeId(raw) == Ok(id)
  {
    var rest := Body(id) + (if bare then "?" else "");
    var u := scheme + [':'] + rest;
    assert raw == u + (if hash then ['#'] else []);
    BodyChars(id);
    SchemeThenRest(scheme, rest);
    CutTail(u, '#', hash);
    RestAccepted(id, bare);
    PlainAuthority(id.trustDomain);
  }

  /** The other way round: what was accepted is the text of what was returned. */
  lemma HierarchySpells(rest: string, query: string, force: bool)
    requires var r := ParseHierarchy("spiffe", rest, query, force, ""); r.Ok? && CheckUrl(r.value)
    ensures var u := ParseHierarchy("spiffe", rest, query, force, "").value;
            && rest == "//" + u.host + u.path && '/' !in u.host && '@' !in u.host && ':' !in u.host
            && u.rawQuery == query && u.forceQuery == force
  {
    var cut := Find(rest[2..], '/');
    PlainAuthority(rest[2..][..cut]);
    Reassemble(rest, cut);
  }

  lemma Reassemble(rest: string, cut: nat)
    requires "//" <= rest && 2 + cut <= |rest|
    ensures rest == "//" + rest[2..][..cut] + rest[2..][cut..]
  {
  }

  lemma RestSpells(text: string)
    requires '#' !in text
    requires var r := ParseRest("spiffe", text, ""); r.Ok? && CheckUrl(r.value)
    ensures var u := ParseRest("spiffe", text, "").value;
            WellFormed(SpiffeId(u.host, u.path)) &&
            text == Body(SpiffeId(u.host, u.path)) + (if u.forceQuery then "?" else "")
  {
    var q := Cut(text, '?');
    HierarchySpells(q.before, q.after, q.found && q.after == "");
    var u := ParseRest("spiffe", text, "").value;
    assert forall c :: c in u.host ==> c in q.before;
    assert forall c :: c in u.path ==> c in q.before;
    assert forall c :: c in q.before ==> c in text;
  }

  lemma Regroup(a: string, b: string, c: string, d: string)
    ensures (a + (b + c)) + d == (a + b) + (c + d)
  {
  }

  lemma CheckedScheme(raw: string)
    requires ParseSpiffeId(raw).Ok?
    ensures var u := UrlParse(raw); u.Ok? && CheckUrl(u.value) && u.value.scheme == "spiffe" && u.value.fragment == ""
  {
    hide UrlParse;
  }

  lemma SixLetters(s: string)
    requires Lower(s) == "spiffe"
    ensures |s| == 6 && SpiffeScheme(s)
  {
  }

  lemma ParsedParts(raw: string) returns (before: string, hash: bool)
    requires ParseSpiffeId(raw).Ok?
    ensures raw == before + (if hash then "#" else "") && '#' !in before
    ensures |before| > 6 && before[6] == ':' && SpiffeScheme(before[..6])
    ensures UrlParse(raw) == ParseRest("spiffe", before[7..], "") && CheckUrl(UrlParse(raw).value)
  {
    hide ParseRest;
    hide CheckUrl;
    hide Lower;
    var f := Cut(raw, '#');
    before, hash := f.before, f.found;
    CheckedScheme(raw);
    var k := GetScheme(before, 0);
    assert k.At?;
    SixLetters(before[..k.colon]);
  }

  lemma SpellingOfParsed(raw: string) returns (scheme: string, hash: bool)
    requires ParseSpiffeId(raw).Ok?
    ensures WellFormed(ParseSpiffeId(raw).value)
    ensures Spelling(raw, scheme, ParseSpiffeId(raw).value, UrlParse(raw).value.forceQuery, hash)
  {
    var before;
    before, hash := ParsedParts(raw);
    scheme := before[..6];
    RestSpells(before[7..]);
    var u := UrlParse(raw).value;
    JoinSpelling(raw, before, SpiffeId(u.host, u.path), u.forceQuery, hash);
  }

  lemma JoinSpelling(raw: string, before: string, id: SpiffeId, bare: bool, hash: bool)
    requires |before| > 6 && before[6] == ':' && SpiffeScheme(before[..6])
    requires before[7..] == Body(id) + (if bare then "?" else "")
    requires raw == before + (if hash then "#" else "")
    ensures Spelling(raw, before[..6], id, bare, hash)
  {
    assert before == (before[..6] + [':']) + before[7..];
    Regroup(before[..6] + [':'], Body(id), if bare then "?" else "", if hash then "#" else "");
  }

  /** parseSPIFFEID accepts exactly the spellings of well-formed IDs, and returns the ID spelled. */
  lemma ParseExactly(raw: string, id: SpiffeId)
    requires InAlphabet(raw)
    ensures ParseSpiffeId(raw) == Ok(id) <==>
            WellFormed(id) && exists scheme, bare, hash :: Spelling(raw, scheme, id, bare, hash)
  {
    if ParseSpiffeId(raw) == Ok(id) {
      var scheme, hash := SpellingOfParsed(raw);
    }
    if scheme, bare, hash :| WellFormed(id) && Spelling(raw, scheme, id, bare, hash) {
      ParseOfSpelling(raw, scheme, id, bare, hash);
    }
  }

  // ---- Round trips ----

  lemma FormatText(id: SpiffeId)
    ensures FormatSpiffeId(id) == "spiffe" + [':'] + Body(id)
  {
  }

  lemma LowerSpiffe()
    ensures SpiffeScheme("spiffe")
  {
    assert Lower("spiffe") == "spiffe";
  }

  predicate PlainId(id: SpiffeId) { InAlphabet(id.trustDomain) && InAlphabet(id.path) }

  /** Parsing a formatted ID gives the ID back, for every ID over the alphabet that the server can hold. */
  lemma ParseFormat(id: SpiffeId)
    requires WellFormed(id) && PlainId(id)
    ensures ParseSpiffeId(FormatSpiffeId(id)) == Ok(id)
  {
    FormatText(id);
    LowerSpiffe();
    assert FormatSpiffeId(id) == "spiffe" + [':'] + Body(id) + Trailer(false, false);
    ParseOfSpelling(FormatSpiffeId(id), "spiffe", id, false, false);
  }

  predicate Canonical(raw: string) {
    ParseSpiffeId(raw).Ok? && FormatSpiffeId(ParseSpiffeId(raw).value) == raw
  }

  /** An ID parsed from text over the alphabet is over the alphabet. */
  lemma ParsedIsPlain(raw: string)
    requires InAlphabet(raw) && ParseSpiffeId(raw).Ok?
    ensures PlainId(ParseSpiffeId(raw).value)
  {
    var scheme, hash := SpellingOfParsed(raw);
    PartsArePlain(raw, scheme, ParseSpiffeId(raw).value, Trailer(UrlParse(raw).value.forceQuery, hash));
  }

  lemma PartsArePlain(raw: string, scheme: string, id: SpiffeId, trailer: string)
    requires InAlphabet(raw) && raw == scheme + [':'] + Body(id) + trailer
    ensures PlainId(id)
  {
    var k := |scheme| + 3;
    assert forall i :: 0 <= i < |id.trustDomain| ==> raw[k + i] == id.trustDomain[i];
    var j := k + |id.trustDomain|;
    assert forall i :: 0 <= i < |id.path| ==> raw[j + i] == id.path[i];
  }

  lemma TrailerDecides(raw: string, scheme: string, id: SpiffeId, bare: bool, hash: bool)
    requires WellFormed(id) && Spelling(raw, scheme, id, bare, hash)
    ensures '?' in raw <==> bare
    ensures '#' in raw <==> hash
    ensures "spiffe" <= raw <==> scheme == "spiffe"
    ensures raw == "spiffe" + [':'] + Body(id) <==> scheme == "spiffe" && !bare && !hash
  {
    BodyChars(id);
    SchemeLetters(scheme);
    assert raw[..6] == scheme;
    var t := Trailer(bare, hash);
    assert '?' in t <==> bare;
    assert '#' in t <==> hash;
    assert |raw| == 7 + |Body(id)| + |t|;
    if !bare && !hash {
      assert raw == scheme + [':'] + Body(id);
    }
  }

  /** Formatting an ID parsed from text over the alphabet gives the text back exactly when the
      scheme is in lower case and no bare '?' or '#' trails. */
  lemma FormatParse(raw: string)
    requires InAlphabet(raw) && ParseSpiffeId(raw).Ok?
    ensures Canonical(raw) <==> "spiffe" <= raw && '?' !in raw && '#' !in raw
  {
    var scheme, hash := SpellingOfParsed(raw);
    var id := ParseSpiffeId(raw).value;
    TrailerDecides(raw, scheme, id, UrlParse(raw).value.forceQuery, hash);
    FormatText(id);
  }

  // ---- What the validators accept ----

  /** Text of `td` and `segs` in canonical form, with non-empty, non-dot segments; `bare` adds a '?'. */
  predicate Spells(raw: string, td: string, segs: seq<string>, bare: bool) {
    && |segs| >= 1 && td != "" && Lower(td) == td && (forall c :: c in td ==> c !in "/:@?#")
    && (forall seg :: seg in segs ==> ProperSegment(seg) && '/' !in seg && '?' !in seg && '#' !in seg)
    && raw == "spiffe" + [':'] + Body(SpiffeId(td, "/" + Join(segs, '/'))) + Trailer(bare, false)
  }

  predicate ProperSegment(seg: string) { seg != "" && seg != "." && seg != ".." }

  lemma {:induction false} JoinAvoids(segs: seq<string>, c: char)
    requires |segs| >= 1 && c != '/'
    ensures c in Join(segs, '/') <==> exists seg :: seg in segs && c in seg
  {
    if |segs| > 1 {
      JoinAvoids(segs[1..], c);
      assert forall seg :: seg in segs <==> seg == segs[0] || seg in segs[1..];
    }
  }

  /** The string that URL.String builds is the spelling without the '#'. */
  lemma StringOfUrl(id: SpiffeId, bare: bool)
    requires WellFormed(id)
    ensures UrlString(Url("spiffe", "", None, id.trustDomain, id.path, "", bare, ""))
            == "spiffe" + [':'] + Body(id) + Trailer(bare, false)
  {
    var u := Url("spiffe", "", None, id.trustDomain, id.path, "", bare, "");
    Regroup("spiffe:", "//" + id.trustDomain, id.path, "");
    assert "spiffe:" == "spiffe" + [':'];
  }

  lemma SpellingUnique(raw: string, scheme: string, id: SpiffeId, bare: bool, hash: bool)
    requires WellFormed(id) && Spelling(raw, scheme, id, bare, hash)
    ensures raw == "spiffe" + [':'] + Body(id) + Trailer(bare, false) <==> scheme == "spiffe" && !hash
  {
    TrailerDecides(raw, scheme, id, bare, hash);
    LowerSpiffe();
    if raw == "spiffe" + [':'] + Body(id) + Trailer(bare, false) {
      TrailerDecides(raw, "spiffe", id, bare, false);
    }
  }

  /** The registration validator accepts canonical text up to 2048 bytes and nothing else,
      except that one bare '?' may trail. */
  lemma ValidExactly(raw: string)
    requires InAlphabet(raw)
    ensures ValidRegistrationId(raw) <==>
            Utf8Len(raw) <= 2048 && exists td, segs, bare :: Spells(raw, td, segs, bare)
  {
    if ValidRegistrationId(raw) {
      var td, segs, bare := ValidIsSpelled(raw);
    }
    if td, segs, bare :| Utf8Len(raw) <= MAX_SPIFFE_ID_BYTES && Spells(raw, td, segs, bare) {
      SpelledIsValid(raw, td, segs, bare);
    }
  }

  lemma ValidIsSpelled(raw: string) returns (td: string, segs: seq<string>, bare: bool)
    requires ValidRegistrationId(raw)
    ensures Spells(raw, td, segs, bare)
  {
    var u := UrlParse(raw).value;
    var scheme, hash := SpellingOfParsed(raw);
    td, segs, bare := u.host, Split(u.path[1..], '/'), u.forceQuery;
    StringOfUrl(SpiffeId(u.host, u.path), bare);
    SegmentsOf(u.path);
  }

  lemma SegmentsOf(path: string)
    requires path != "" && path[0] == '/' && '?' !in path && '#' !in path
    ensures var segs := Split(path[1..], '/');
            "/" + Join(segs, '/') == path &&
            forall seg :: seg in segs ==> '/' !in seg && '?' !in seg && '#' !in seg
  {
    var segs := Split(path[1..], '/');
    JoinAvoids(segs, '?');
    JoinAvoids(segs, '#');
  }

  lemma SpelledIsValid(raw: string, td: string, segs: seq<string>, bare: bool)
    requires Spells(raw, td, segs, bare) && Utf8Len(raw) <= MAX_SPIFFE_ID_BYTES
    ensures ValidRegistrationId(raw)
  {
    JoinAvoids(segs, '?');
    JoinAvoids(segs, '#');
    var id := SpiffeId(td, "/" + Join(segs, '/'));
    AcceptsSpelling(raw, id, bare);
    SplitJoin(segs, '/');
    assert id.path[1..] == Join(segs, '/');
  }

  lemma AcceptsSpelling(raw: string, id: SpiffeId, bare: bool)
    requires WellFormed(id) && raw == "spiffe" + [':'] + Body(id) + Trailer(bare, false)
    ensures raw != "" && UrlParse(raw).Ok?
    ensures var u := UrlParse(raw).value; CheckUrl(u) && UrlString(u) == raw && u.path == id.path
  {
    LowerSpiffe();
    ParseOfSpelling(raw, "spiffe", id, bare, false);
    PlainAuthority(id.trustDomain);
    StringOfUrl(id, bare);
  }

  /** What either validator accepts, the SPIRE client can parse; over the alphabet it reads back
      as sent exactly when no bare '?' trails. */
  lemma ValidParses(raw: string)
    requires ValidRegistrationId(raw) || ValidPolicyId(raw)
    ensures ParseSpiffeId(raw).Ok?
    ensures InAlphabet(raw) ==> (Canonical(raw) <==> '?' !in raw)
  {
    var u := UrlParse(raw).value;
    var id := SpiffeId(u.host, u.path);
    var scheme, hash := SpellingOfParsed(raw);
    StringOfUrl(id, u.forceQuery);
    SpellingUnique(raw, scheme, id, u.forceQuery, hash);
    TrailerDecides(raw, scheme, id, u.forceQuery, hash);
    FormatText(id);
  }

  lemma SegmentChars(raw: string, u: Url, seg: string, c: char)
    requires UrlParse(raw) == Ok(u) && CheckUrl(u) && UrlString(u) == raw && seg in Split(u.path[1..], '/') && c in seg
    ensures c in raw
  {
    var segs := Split(u.path[1..], '/');
    JoinAvoids(segs, c);
    assert c in u.path[1..];
    PathChars(raw, u, c);
  }

  lemma PathChars(raw: string, u: Url, c: char)
    requires UrlString(u) == raw && u.opaqueText == "" && c in u.path
    ensures c in raw
  {
  }

  lemma PlainSegment(raw: string, u: Url, seg: string)
    requires InAlphabet(raw)
    requires UrlParse(raw) == Ok(u) && CheckUrl(u) && UrlString(u) == raw && seg in Split(u.path[1..], '/')
    ensures '\\' !in seg && !HasControl(seg)
  {
    hide UrlParse;
    hide CheckUrl;
    hide UrlString;
    forall c | c in seg ensures c != '\\' && !IsControl(c) {
      SegmentChars(raw, u, seg, c);
      var i :| 0 <= i < |raw| && raw[i] == c;
    }
  }

  /** Over the alphabet the two validators accept the same IDs: the policy validator's tests for
      backslashes and control characters never decide. */
  lemma ValidatorsAgree(raw: string)
    requires InAlphabet(raw)
    ensures ValidPolicyId(raw) <==> ValidRegistrationId(raw)
  {
    hide InAlphabet;
    hide ProperSegment;
    hide UrlParse;
    hide UrlString;
    hide HasControl;
    if ValidRegistrationId(raw) {
      var u := UrlParse(raw).value;
      forall seg | seg in Split(u.path[1..], '/') ensures '\\' !in seg && !HasControl(seg) {
        PlainSegment(raw, u, seg);
      }
    }
  }

  lemma {:induction false} Utf8AtMost(s: string)
    ensures Utf8Len(s) <= 4 * |s|
  {
    if s != "" { Utf8AtMost(s[1..]); }
  }

  lemma BareSpelling()
    ensures Spells("spiffe://td/a?", "td", ["a"], true)
  {
    hide Body;
    var td, segs := "td", ["a"];
    assert Lower(td) == td;
    assert forall c :: c in td ==> c == 't' || c == 'd';
    assert Join(segs, '/') == "a";
    assert "/" + Join(segs, '/') == "/a";
    BodyOf(td, "/a");
    assert "//" + td + "/a" == "//td/a";
    assert Trailer(true, false) == "?";
  }

  lemma BodyOf(td: string, path: string)
    ensures Body(SpiffeId(td, path)) == "//" + td + path
  {
  }

  lemma BareIsPlain()
    ensures InAlphabet("spiffe://td/a?")
  {
  }

  /** Such an ID passes validation and yet does not read back as sent. */
  lemma BareQuestionMarkPasses()
    ensures ValidRegistrationId("spiffe://td/a?") && !Canonical("spiffe://td/a?")
  {
    hide Spells;
    hide Canonical;
    hide ValidWith;
    hide Utf8Len;
    hide InAlphabet;
    var raw := "spiffe://td/a?";
    BareIsPlain();
    Utf8AtMost(raw);
    BareSpelling();
    SpelledIsValid(raw, "td", ["a"], true);
    ValidParses(raw);
    assert raw[13] == '?';
  }
}

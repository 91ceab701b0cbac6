/** What one pass may call, whatever the stores reply. No store is modelled here: replies are
    arbitrary, so the results hold while other actors change SPIRE between any two calls. */
module Transcript {
  import opened Text
  import opened Entries
  import opened Registration
  import opened Backends
  import opened Protocol

  datatype Exchange = Exchange(call: Call, reply: Reply)

  /** The calls a pass makes from point `p` and the replies it gets, up to its end or to the
      last reply (where the process died). */
  function Exchanges(r: Rule, p: Point, replies: seq<Reply>): seq<Exchange>
    decreases |replies|
  {
    if p.End? || replies == [] then []
    else [Exchange(NextCall(p), replies[0])] + Exchanges(r, Advance(r, p, replies[0]), replies[1..])
  }

  // ---- Every change to an entry is guarded ----

  /** A Get or Create replied with entry `id` carrying the hint of rule `r`. */
  predicate Vouched(past: seq<Exchange>, r: Rule, id: EntryId) {
    exists j :: 0 <= j < |past| && Vouches(past[j], r, id)
  }

  predicate Vouches(x: Exchange, r: Rule, id: EntryId) {
    && (x.call.GetEntry? || x.call.CreateEntry?)
    && (x.reply.Found? || x.reply.Made? || x.reply.Existing?)
    && x.reply.id == id && OwnedBy(x.reply.entry, r.id)
  }

  predicate Targets(call: Call, id: EntryId) {
    (call.UpdateEntry? && call.id == id) || (call.DeleteEntry? && call.id == id)
  }

  predicate Justified(past: seq<Exchange>, r: Rule, p: Point) {
    p.UpdateBound? || p.UpdateExisting? || p.Delete? ==> Vouched(past, r, p.id)
  }

  lemma {:induction false} GuardedFrom(past: seq<Exchange>, r: Rule, p: Point, replies: seq<Reply>, k: nat, id: EntryId)
    requires Justified(past, r, p)
    requires k < |Exchanges(r, p, replies)| && Targets(Exchanges(r, p, replies)[k].call, id)
    ensures Vouched(past + Exchanges(r, p, replies)[..k], r, id)
    decreases |replies|
  {
    var t := Exchanges(r, p, replies);
    if k == 0 {
      assert past + t[..0] == past;
    } else {
      var q := Advance(r, p, replies[0]);
      Onward(past, t[0], r, p, replies[0]);
      GuardedFrom(past + [t[0]], r, q, replies[1..], k - 1, id);
      assert past + t[..k] == (past + [t[0]]) + Exchanges(r, q, replies[1..])[..k - 1];
    }
  }

  lemma Onward(past: seq<Exchange>, x: Exchange, r: Rule, p: Point, reply: Reply)
    requires !p.End? && x == Exchange(NextCall(p), reply)
    ensures Justified(past + [x], r, Advance(r, p, reply))
  {
    var longer := past + [x];
    assert longer[|past|] == x;
  }

  /** Guarded calls: an Update or Delete of `id` comes after a Get or Create of the same pass
      that replied with `id` carrying exactly this rule's hint. */
  lemma GuardedCalls(r: Rule, replies: seq<Reply>, k: nat, id: EntryId)
    requires k < |Exchanges(r, Start(r), replies)| && Targets(Exchanges(r, Start(r), replies)[k].call, id)
    ensures exists j :: 0 <= j < k && Vouches(Exchanges(r, Start(r), replies)[j], r, id)
  {
    var t := Exchanges(r, Start(r), replies);
    GuardedFrom([], r, Start(r), replies, k, id);
    assert [] + t[..k] == t[..k];
    var j :| 0 <= j < |t[..k]| && Vouches(t[..k][j], r, id);
    assert t[j] == t[..k][j];
  }

  // ---- A pass is short ----

  predicate IsSpireCall(call: Call) {
    call.GetEntry? || call.CreateEntry? || call.UpdateEntry? || call.DeleteEntry?
  }

  function SpireCalls(t: seq<Exchange>): nat {
    if t == [] then 0 else (if IsSpireCall(t[0].call) then 1 else 0) + SpireCalls(t[1..])
  }

  function Creates(t: seq<Exchange>): nat {
    if t == [] then 0 else (if t[0].call.CreateEntry? then 1 else 0) + Creates(t[1..])
  }

  function SpireBudget(p: Point): nat {
    match p
    case FetchPresent(_, _) => 4
    case UpdateBound(_, _) => 3
    case Create(_) => 2
    case FetchAbsent(_) => 2
    case UpdateExisting(_, _) => 1
    case Delete(_) => 1
    case _ => 0
  }

  function CreateBudget(p: Point): nat {
    if p.FetchPresent? || p.UpdateBound? || p.Create? then 1 else 0
  }

  lemma {:induction false} WithinBudget(r: Rule, p: Point, replies: seq<Reply>)
    ensures SpireCalls(Exchanges(r, p, replies)) <= SpireBudget(p)
    ensures Creates(Exchanges(r, p, replies)) <= CreateBudget(p)
    decreases |replies|
  {
    if !p.End? && replies != [] {
      var q := Advance(r, p, replies[0]);
      WithinBudget(r, q, replies[1..]);
      assert Exchanges(r, p, replies)[1..] == Exchanges(r, q, replies[1..]);
    }
  }

  /** At most four SPIRE calls, at most one of them a Create. */
  lemma ShortPass(r: Rule, replies: seq<Reply>)
    ensures SpireCalls(Exchanges(r, Start(r), replies)) <= 4
    ensures Creates(Exchanges(r, Start(r), replies)) <= 1
  {
    WithinBudget(r, Start(r), replies);
  }

  // ---- Audit before convergence ----

  /** Why the row may be marked with `binding` after an audit event naming `named`: the event
      names the entry bound; or nothing was bound; or it names the binding that Get reported
      gone; or an entry that Delete removed or reported gone. */
  predicate Warrant(past: seq<Exchange>, r: Rule, binding: Option<EntryId>, named: Option<EntryId>) {
    if binding.Some? then named == binding
    else
      || (named.None? && r.binding.None?)
      || (named.Some? && exists j :: 0 <= j < |past| && Releases(past[j], r, named.value))
  }

  predicate Releases(x: Exchange, r: Rule, id: EntryId) {
    || (x.call == GetEntry(id) && x.reply == NotFound && r.binding == Some(id))
    || (x.call == DeleteEntry(id) && (x.reply == Done || x.reply == NotFound))
  }

  /** The last exchange is an acknowledged audit event that warrants the marking. */
  predicate Audited(past: seq<Exchange>, r: Rule, binding: Option<EntryId>) {
    && |past| > 0 && past[|past| - 1].reply == Done && past[|past| - 1].call.Append?
    && Warrant(past[..|past| - 1], r, binding, past[|past| - 1].call.named)
  }

  predicate Warranted(past: seq<Exchange>, r: Rule, p: Point) {
    && (p.FetchAbsent? ==> r.binding == Some(p.id))
    && (p.Record? ==> Warrant(past, r, p.binding, p.named))
    && (p.Mark? ==> Audited(past, r, p.binding))
  }

  lemma WarrantedOnward(past: seq<Exchange>, r: Rule, p: Point, reply: Reply)
    requires !p.End? && Warranted(past, r, p)
    ensures Warranted(past + [Exchange(NextCall(p), reply)], r, Advance(r, p, reply))
  {
    var x := Exchange(NextCall(p), reply);
    var longer := past + [x];
    assert longer[|past|] == x && longer[..|past|] == past;
  }

  lemma {:induction false} AuditedFrom(past: seq<Exchange>, r: Rule, p: Point, replies: seq<Reply>, k: nat)
    requires Warranted(past, r, p) && k < |Exchanges(r, p, replies)|
    requires Exchanges(r, p, replies)[k].call.MarkConverged?
    ensures Audited(past + Exchanges(r, p, replies)[..k], r, Exchanges(r, p, replies)[k].call.binding)
    decreases |replies|
  {
    var t := Exchanges(r, p, replies);
    if k == 0 {
      assert past + t[..0] == past;
    } else {
      var q := Advance(r, p, replies[0]);
      WarrantedOnward(past, r, p, replies[0]);
      AuditedFrom(past + [t[0]], r, q, replies[1..], k - 1);
      assert past + t[..k] == (past + [t[0]]) + Exchanges(r, q, replies[1..])[..k - 1];
    }
  }

  /** Audit before convergence: MarkConverged is only called right after an acknowledged audit
      event that names the entry bound or released, if there is one. */
  lemma AuditBeforeConvergence(r: Rule, replies: seq<Reply>, k: nat)
    requires k < |Exchanges(r, Start(r), replies)| && Exchanges(r, Start(r), replies)[k].call.MarkConverged?
    ensures Audited(Exchanges(r, Start(r), replies)[..k], r, Exchanges(r, Start(r), replies)[k].call.binding)
  {
    var t := Exchanges(r, Start(r), replies);
    AuditedFrom([], r, Start(r), replies, k);
    assert [] + t[..k] == t[..k];
  }

  predicate IsRowWrite(call: Call) { call.MarkConverged? || call.MarkError? }

  /** A row is written at most once and as the last call; an audit event that is not
      acknowledged is the last call too, so the row is then left as it was. */
  lemma {:induction false} RowWriteIsLast(r: Rule, p: Point, replies: seq<Reply>, k: nat)
    requires k < |Exchanges(r, p, replies)|
    requires var x := Exchanges(r, p, replies)[k]; IsRowWrite(x.call) || (x.call.Append? && x.reply != Done)
    ensures k == |Exchanges(r, p, replies)| - 1
    decreases |replies|
  {
    if k > 0 {
      RowWriteIsLast(r, Advance(r, p, replies[0]), replies[1..], k - 1);
    }
  }
}

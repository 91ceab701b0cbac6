/** What a pass sends, records and reports is true of what it was told, whatever the stores reply. */
module Accounts {
  import opened Text
  import opened Entries
  import opened Registration
  import opened Backends
  import opened Protocol
  import opened Transcript

  /** Where the pass is after the first `k` exchanges. */
  function PointAt(r: Rule, p: Point, replies: seq<Reply>, k: nat): Point
    requires k <= |Exchanges(r, p, replies)|
    decreases k
  {
    if k == 0 then p else PointAt(r, Advance(r, p, replies[0]), replies[1..], k - 1)
  }

  lemma {:induction false} ExchangeAt(r: Rule, p: Point, replies: seq<Reply>, k: nat)
    requires k < |Exchanges(r, p, replies)|
    ensures |Exchanges(r, p, replies)| <= |replies|
    ensures var q := PointAt(r, p, replies, k);
      && !q.End? && Exchanges(r, p, replies)[k] == Exchange(NextCall(q), replies[k])
      && PointAt(r, p, replies, k + 1) == Advance(r, q, replies[k])
    decreases k
  {
    LengthAtMost(r, p, replies);
    if k > 0 {
      ExchangeAt(r, Advance(r, p, replies[0]), replies[1..], k - 1);
    }
    hide NextCall;
    hide Advance;
  }

  lemma {:induction false} LengthAtMost(r: Rule, p: Point, replies: seq<Reply>)
    ensures |Exchanges(r, p, replies)| <= |replies|
    decreases |replies|
  {
    if !p.End? && replies != [] { LengthAtMost(r, Advance(r, p, replies[0]), replies[1..]); }
  }

  // ---- What is sent ----

  /** `e` is the entry that row `r` asks for, field by field. */
  predicate AsksFor(r: Rule, e: Entry) {
    && r.desiredState == "present" && r.parent.Some?
    && e == Entry(r.workloadSpiffeId, r.parent.value, r.selectors, r.ttl, "wtp-rule:" + r.id)
  }

  predicate SendsOwn(r: Rule, p: Point) {
    p.FetchPresent? || p.Create? || p.UpdateBound? || p.UpdateExisting? ==> AsksFor(r, p.desired)
  }

  lemma SendsOnward(r: Rule, p: Point, reply: Reply)
    requires !p.End? && SendsOwn(r, p)
    ensures SendsOwn(r, Advance(r, p, reply))
  {
    hide AsksFor; hide Equivalent; hide OwnedBy;
  }

  lemma SendsFirst(r: Rule)
    ensures SendsOwn(r, Start(r))
  {
  }

  lemma {:induction false} SendsAlways(r: Rule, replies: seq<Reply>, k: nat)
    requires k <= |Exchanges(r, Start(r), replies)|
    ensures SendsOwn(r, PointAt(r, Start(r), replies, k))
  {
    hide SendsOwn; hide Start; hide Advance; hide NextCall;
    if k == 0 {
      SendsFirst(r);
    } else {
      SendsAlways(r, replies, k - 1);
      ExchangeAt(r, Start(r), replies, k - 1);
      SendsOnward(r, PointAt(r, Start(r), replies, k - 1), replies[k - 1]);
    }
  }

  /** Whatever the replies, every entry sent has exactly the row's IDs, selectors and TTL, and the hint
      of the rule. */
  lemma SentIsAskedFor(r: Rule, replies: seq<Reply>, k: nat)
    requires k < |Exchanges(r, Start(r), replies)|
    ensures var call := Exchanges(r, Start(r), replies)[k].call;
      call.CreateEntry? || call.UpdateEntry? ==> AsksFor(r, call.entry)
  {
    SendsAlways(r, replies, k);
    ExchangeAt(r, Start(r), replies, k);
    hide AsksFor; hide Start; hide Exchanges; hide PointAt;
  }

  // ---- What an audit event says ----

  /** A Create was called before. */
  predicate Created(past: seq<Exchange>) { exists j :: 0 <= j < |past| && past[j].call.CreateEntry? }

  predicate Tells(r: Rule, e: Entry) { e.hint == "wtp-rule:" + r.id }

  /** `e` is what row `r` asks for, in whatever order its selectors come. */
  predicate Matches(r: Rule, e: Entry) {
    AsksFor(r, e.(selectors := r.selectors)) && multiset(e.selectors) == multiset(r.selectors)
  }

  /** What must have come last for the event `operation`, naming `named`, to be true. */
  predicate TrueOf(r: Rule, past: seq<Exchange>, operation: string, named: Option<EntryId>) {
    if operation == "absent_noop" then past == [] && named.None? && r.desiredState == "absent" && r.binding.None?
    else
      && past != [] && named.Some?
      && var last := past[|past| - 1]; var reply := last.reply;
         if operation == "create" then
           last.call.CreateEntry? && reply.Made? && reply.id == named.value && Tells(r, reply.entry)
         else if operation == "update" then
           last.call.UpdateEntry? && !Created(past) && reply.Updated? && reply.id == named.value && Tells(r, reply.entry)
         else if operation == "update_owned_existing" then
           last.call.UpdateEntry? && Created(past) && reply.Updated? && reply.id == named.value && Tells(r, reply.entry)
         else if operation == "bind_owned_existing" then
           && ((last.call.GetEntry? && reply.Found?) || (last.call.CreateEntry? && reply.Existing?))
           && reply.id == named.value && Matches(r, reply.entry)
         else if operation == "clear_stale_binding" then
           r.desiredState == "absent" && last.call == GetEntry(named.value) && reply.NotFound? && r.binding == named
         else if operation == "delete" then
           r.desiredState == "absent" && last.call == DeleteEntry(named.value) && (reply.Done? || reply.NotFound?)
         else
           && operation == "ownership_conflict"
           && (reply.Found? || reply.Made? || reply.Existing? || reply.Updated?)
           && reply.id == named.value && !Tells(r, reply.entry)
  }

  /** What error code a row may be left with after `past`. */
  predicate CauseOf(r: Rule, past: seq<Exchange>, code: string) {
    if past == [] then code == "invalid_desired_state"
    else
      var last := past[|past| - 1]; var reply := last.reply;
      match last.call
      case GetEntry(_) => code == "spire_unavailable" && !reply.Found? && !reply.NotFound?
      case CreateEntry(_) => code == "spire_create_failed" && !reply.Made? && !reply.Existing?
      case UpdateEntry(_, _) =>
        if reply.NotFound? then code == "spire_update_race" && Created(past)
        else code == "spire_update_failed" && !reply.Updated?
      case DeleteEntry(_) => code == "spire_delete_failed" && reply != Done && reply != NotFound
      case Append(operation, _) => code == "ownership_mismatch" && operation == "ownership_conflict" && reply == Done
      case _ => false
  }

  /** What is known at a point, about the exchanges so far. */
  predicate Accounted(r: Rule, past: seq<Exchange>, p: Point) {
    && (p.FetchPresent? || p.FetchAbsent? ==> past == [])
    && (p.FetchPresent? || p.UpdateBound? || p.Create? ==> !Created(past))
    && (p.UpdateExisting? ==> Created(past))
    && (p.FetchPresent? || p.UpdateBound? || p.Create? || p.UpdateExisting? ==> AsksFor(r, p.desired))
    && (p.FetchAbsent? || p.Delete? ==> r.desiredState == "absent")
    && (p.FetchAbsent? ==> r.binding == Some(p.id))
    && (p.Record? ==> TrueOf(r, past, p.operation, p.named))
    && (p.RecordConflict? ==> TrueOf(r, past, "ownership_conflict", Some(p.id)))
    && (p.Fail? ==> CauseOf(r, past, p.code))
  }

  lemma CreatedMore(past: seq<Exchange>, x: Exchange)
    ensures Created(past + [x]) <==> Created(past) || x.call.CreateEntry?
  {
    var more := past + [x];
    assert more[|past|] == x;
    if Created(past) {
      var j :| 0 <= j < |past| && past[j].call.CreateEntry?;
      assert more[j].call.CreateEntry?;
    }
  }

  lemma AccountedFirst(r: Rule)
    ensures Accounted(r, [], Start(r))
  {
  }

  lemma EqualAsked(r: Rule, e: Entry, d: Entry)
    requires AsksFor(r, d)
    ensures Equivalent(e, d) <==> Matches(r, e)
  {
  }

  lemma AccountedOnward(r: Rule, past: seq<Exchange>, p: Point, reply: Reply)
    requires !p.End? && Accounted(r, past, p)
    ensures Accounted(r, past + [Exchange(NextCall(p), reply)], Advance(r, p, reply))
  {
    hide Created; hide Equivalent; hide AsksFor; hide Matches;
    var x := Exchange(NextCall(p), reply);
    CreatedMore(past, x);
    assert (past + [x])[|past|] == x;
    if (p.FetchPresent? && reply.Found?) || (p.Create? && reply.Existing?) { EqualAsked(r, reply.entry, p.desired); }
  }

  lemma {:induction false} AccountedAlways(r: Rule, replies: seq<Reply>, k: nat)
    requires k <= |Exchanges(r, Start(r), replies)|
    ensures Accounted(r, Exchanges(r, Start(r), replies)[..k], PointAt(r, Start(r), replies, k))
  {
    var t := Exchanges(r, Start(r), replies);
    hide *;
    PointZero(r, Start(r), replies);
    if k == 0 {
      AccountedFirst(r);
      assert t[..0] == [];
    } else {
      AccountedAlways(r, replies, k - 1);
      ExchangeAt(r, Start(r), replies, k - 1);
      AccountedOnward(r, t[..k - 1], PointAt(r, Start(r), replies, k - 1), replies[k - 1]);
      assert t[..k] == t[..k - 1] + [t[k - 1]];
    }
  }

  lemma PointZero(r: Rule, p: Point, replies: seq<Reply>)
    ensures PointAt(r, p, replies, 0) == p
  {
    hide Exchanges; hide Advance;
  }

  /** Every audit event a pass writes is true of what the pass was told before. */
  lemma EventsAreTrue(r: Rule, replies: seq<Reply>, k: nat)
    requires k < |Exchanges(r, Start(r), replies)| && Exchanges(r, Start(r), replies)[k].call.Append?
    ensures var t := Exchanges(r, Start(r), replies); TrueOf(r, t[..k], t[k].call.operation, t[k].call.named)
  {
    AccountedAlways(r, replies, k);
    ExchangeAt(r, Start(r), replies, k);
    hide TrueOf; hide Start; hide Exchanges; hide PointAt; hide Created; hide AsksFor; hide CauseOf; hide Advance;
  }

  /** Every error code a pass leaves on its row names the call that failed. */
  lemma CodesAreTrue(r: Rule, replies: seq<Reply>, k: nat)
    requires k < |Exchanges(r, Start(r), replies)| && Exchanges(r, Start(r), replies)[k].call.MarkError?
    ensures var t := Exchanges(r, Start(r), replies); CauseOf(r, t[..k], t[k].call.code)
  {
    AccountedAlways(r, replies, k);
    ExchangeAt(r, Start(r), replies, k);
    hide TrueOf; hide Start; hide Exchanges; hide PointAt; hide Created; hide AsksFor; hide CauseOf; hide Advance;
  }

  /** After a failed call to SPIRE the next call, if there is one, marks the error. */
  lemma FailureIsMarked(r: Rule, replies: seq<Reply>, k: nat)
    requires k + 1 < |Exchanges(r, Start(r), replies)| && Exchanges(r, Start(r), replies)[k].reply == Failed
    requires IsSpireCall(Exchanges(r, Start(r), replies)[k].call)
    ensures Exchanges(r, Start(r), replies)[k + 1].call.MarkError?
  {
    ExchangeAt(r, Start(r), replies, k);
    ExchangeAt(r, Start(r), replies, k + 1);
    hide Start; hide Exchanges; hide PointAt; hide Equivalent; hide OwnedBy;
  }

  // ---- What is counted as a change ----

  predicate Mutation(x: Exchange) {
    || (x.call.CreateEntry? && x.reply.Made?)
    || (x.call.UpdateEntry? && x.reply.Updated?)
    || (x.call.DeleteEntry? && (x.reply.Done? || x.reply.NotFound?))
  }

  predicate Mutated(past: seq<Exchange>) { exists j :: 0 <= j < |past| && Mutation(past[j]) }

  predicate Counted(past: seq<Exchange>, p: Point) {
    && (p.FetchPresent? || p.FetchAbsent? || p.Create? ==> !Mutated(past))
    && (p.UpdateBound? || p.UpdateExisting? || p.Delete? ==> !Mutated(past))
    && (p.Record? || p.Mark? ==> (p.changed <==> Mutated(past)))
    && (p.End? && p.outcome.Settled? ==> (p.outcome.changed <==> Mutated(past)))
  }

  lemma MutatedMore(past: seq<Exchange>, x: Exchange)
    ensures Mutated(past + [x]) <==> Mutated(past) || Mutation(x)
  {
    var more := past + [x];
    assert more[|past|] == x;
    if Mutated(past) {
      var j :| 0 <= j < |past| && Mutation(past[j]);
      assert Mutation(more[j]);
    }
  }

  lemma CountedOnward(r: Rule, past: seq<Exchange>, p: Point, reply: Reply)
    requires !p.End? && Counted(past, p)
    ensures Counted(past + [Exchange(NextCall(p), reply)], Advance(r, p, reply))
  {
    hide Mutated; hide Equivalent; hide OwnedBy;
    MutatedMore(past, Exchange(NextCall(p), reply));
  }

  lemma CountedFirst(r: Rule)
    ensures Counted([], Start(r))
  {
    hide DesiredEntry;
  }

  lemma {:induction false} CountedAlways(r: Rule, replies: seq<Reply>, k: nat)
    requires k <= |Exchanges(r, Start(r), replies)|
    ensures Counted(Exchanges(r, Start(r), replies)[..k], PointAt(r, Start(r), replies, k))
  {
    var t := Exchanges(r, Start(r), replies);
    hide *;
    PointZero(r, Start(r), replies);
    if k == 0 {
      CountedFirst(r);
      assert t[..0] == [];
    } else {
      CountedAlways(r, replies, k - 1);
      ExchangeAt(r, Start(r), replies, k - 1);
      CountedOnward(r, t[..k - 1], PointAt(r, Start(r), replies, k - 1), replies[k - 1]);
      assert t[..k] == t[..k - 1] + [t[k - 1]];
    }
  }

  /** A pass that succeeds reports a change exactly when SPIRE acknowledged one, a deletion of what
      was gone already included. */
  lemma ChangesAreCounted(r: Rule, replies: seq<Reply>)
    requires var t := Exchanges(r, Start(r), replies);
      PointAt(r, Start(r), replies, |t|).End? && PointAt(r, Start(r), replies, |t|).outcome.Settled?
    ensures var t := Exchanges(r, Start(r), replies);
      PointAt(r, Start(r), replies, |t|).outcome.changed <==> Mutated(t)
  {
    var t := Exchanges(r, Start(r), replies);
    CountedAlways(r, replies, |t|);
    assert t[..|t|] == t;
    hide Start; hide Exchanges; hide PointAt; hide Mutated;
  }

  // ---- When an entry is written over, and when nothing is called at all ----

  /** The reply holds an entry of the rule's own that differs from what the row asks for. */
  predicate Drift(r: Rule, x: Exchange) {
    && ((x.call.GetEntry? && x.reply.Found?) || (x.call.CreateEntry? && x.reply.Existing?))
    && Tells(r, x.reply.entry) && !Matches(r, x.reply.entry)
  }

  lemma DriftOnward(r: Rule, p: Point, reply: Reply)
    requires !p.End? && SendsOwn(r, p) && (p.FetchAbsent? ==> r.desiredState == "absent")
    ensures var q := Advance(r, p, reply);
      && (q.UpdateBound? || q.UpdateExisting? <==> r.desiredState == "present" && Drift(r, Exchange(NextCall(p), reply)))
      && (q.UpdateBound? || q.UpdateExisting? ==> q.id == reply.id)
  {
    hide Equivalent; hide AsksFor; hide Matches;
    AsksPresent(r, p);
    if (p.FetchPresent? && reply.Found?) || (p.Create? && reply.Existing?) { EqualAsked(r, reply.entry, p.desired); }
  }

  lemma AsksPresent(r: Rule, p: Point)
    requires SendsOwn(r, p)
    ensures p.FetchPresent? || p.Create? || p.UpdateBound? || p.UpdateExisting? ==> r.desiredState == "present"
  {
  }

  lemma ReleasesAbsent(r: Rule, past: seq<Exchange>, p: Point)
    requires Accounted(r, past, p)
    ensures p.FetchAbsent? ==> r.desiredState == "absent"
  {
    hide TrueOf; hide CauseOf; hide AsksFor; hide Created;
  }

  /** A pass writes over an entry exactly when the call before found that entry, of the rule's own, to
      differ from what the row asks for. */
  lemma UpdatesAreNeeded(r: Rule, replies: seq<Reply>, k: nat)
    requires k + 1 < |Exchanges(r, Start(r), replies)|
    ensures var t := Exchanges(r, Start(r), replies);
      && (t[k + 1].call.UpdateEntry? <==> r.desiredState == "present" && Drift(r, t[k]))
      && (t[k + 1].call.UpdateEntry? ==> t[k + 1].call.id == t[k].reply.id)
  {
    hide *;
    ExchangeAt(r, Start(r), replies, k);
    ExchangeAt(r, Start(r), replies, k + 1);
    SendsAlways(r, replies, k);
    AccountedAlways(r, replies, k);
    ReleasesAbsent(r, Exchanges(r, Start(r), replies)[..k], PointAt(r, Start(r), replies, k));
    DriftOnward(r, PointAt(r, Start(r), replies, k), replies[k]);
    UpdateIs(PointAt(r, Start(r), replies, k + 1));
  }

  lemma UpdateIs(p: Point)
    ensures !p.End? ==> (NextCall(p).UpdateEntry? <==> p.UpdateBound? || p.UpdateExisting?)
    ensures p.UpdateBound? || p.UpdateExisting? ==> NextCall(p).id == p.id
  {
  }

  /** Neither present nor absent, or present and without what an entry needs. */
  predicate Malformed(r: Rule) {
    || (r.desiredState != "present" && r.desiredState != "absent")
    || (r.desiredState == "present" &&
          (r.parent.None? || r.parent == Some("") || r.selectors == [] || !(60 <= r.ttl <= 86400)))
  }

  /** A malformed row, and no other, is marked as such before anything else is called. */
  lemma MalformedIsMarked(r: Rule, replies: seq<Reply>)
    requires replies != []
    ensures var t := Exchanges(r, Start(r), replies);
      t != [] && t[0].call == MarkError("invalid_desired_state") <==> Malformed(r)
  {
  }
}

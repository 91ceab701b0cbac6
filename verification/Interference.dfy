/** A pass during which another actor deletes the very entry it works on. */
module Interference {
  import opened Text
  import opened Entries
  import opened Registration
  import opened Backends
  import opened Protocol
  import opened Frame
  import opened Goals
  import opened Recovery
  import opened Runs
  import opened Convergence
  import opened Unaudited
  import System

  function Without(w: World, k: EntryId): World { w.(entries := w.entries - {k}) }

  /** The pass from point `p`, with entry `k` deleted by somebody else after `n` of its calls. */
  function Struck(w: World, fs: Faults, r: Rule, p: Point, k: EntryId, n: nat): PassEnd
    decreases n
  {
    if n == 0 || p.End? then Pass(Without(w, k), fs, r, p)
    else
      var call := NextCall(p);
      var (w', reply) := Exec(w, r.id, call, FaultFor(fs, call));
      Struck(w', After(fs, call), r, Advance(r, p, reply), k, n - 1)
  }

  lemma StruckNow(w: World, fs: Faults, r: Rule, p: Point, k: EntryId, n: nat)
    requires n == 0 || p.End?
    ensures Struck(w, fs, r, p, k, n) == Pass(Without(w, k), fs, r, p)
  {
    hide Pass; hide Without;
  }

  lemma StruckOn(w: World, fs: Faults, r: Rule, p: Point, k: EntryId, n: nat)
    requires n > 0 && !p.End?
    ensures var call := NextCall(p); var (w', reply) := Exec(w, r.id, call, FaultFor(fs, call));
      Struck(w, fs, r, p, k, n) == Struck(w', After(fs, call), r, Advance(r, p, reply), k, n - 1)
  {
    hide Exec; hide Advance; hide NextCall; hide Pass; hide Without;
  }

  // ---- Where the rest of the pass ends up ----

  /** From any point on the right track, without faults, an actionable and unconflicted row settles. */
  lemma TrackSettles(w: World, fs: Faults, x: string, p: Point)
    requires Sound(w) && x in w.rows && OnTrack(w, x, p) && FaultFree(fs)
    requires Actionable(w.rows[x]) && Unconflicted(w, x)
    ensures var end := Pass(w, fs, w.rows[x], p);
      end.outcome.Settled? && x in end.w.rows && Agrees(end.w, x)
  {
    hide *;
    FiledUnder(w, x);
    ConflictDecides(w, x);
    GoalConverges(w, x);
    PassMeets(w, fs, x, p);
    var end := Pass(w, fs, w.rows[x], p);
    KeepsMeans(w, end.w, x);
    MetMeans(end.w, x, end.outcome);
    MetAgrees(end.w, x, end.outcome);
  }

  lemma KeepsMeans(w: World, w': World, x: string)
    requires x in w.rows && Keeps(w, w', x)
    ensures x in w'.rows && Sound(w') && Goal(w', x) == Goal(w, x)
  {
    hide Sound; hide Goal; hide Firm;
  }

  lemma MetMeans(w: World, x: string, o: Outcome)
    requires x in w.rows && Met(w, x, o)
    ensures o.Settled? <==> Goal(w, x).row.status == Converged
  {
    hide Goal; hide PictureOf;
  }

  // ---- A present rule ----

  /** Present, with something to send, bound to entry `k` of its own; without that entry nothing
      stands in the way of its create. */
  predicate Exposed(w: World, x: string, k: EntryId) {
    && x in w.rows && Sendable(w.rows[x]) && w.rows[x].binding == Some(k) && k in w.entries && OwnedBy(w.entries[k], x)
    && Unconflicted(Without(w, k), x)
  }

  /** The bound entry compares equal to what the row asks for. */
  predicate InOrder(w: World, x: string, k: EntryId)
    requires x in w.rows
  {
    DesiredEntry(w.rows[x]).Ok? && k in w.entries && Equivalent(w.entries[k], DesiredEntry(w.rows[x]).value)
  }

  lemma ExposedFacts(w: World, x: string, k: EntryId)
    requires Sound(w) && Exposed(w, x, k)
    ensures var r := w.rows[x];
      && r.id == x && r.desiredState == "present" && DesiredEntry(r).Ok? && r.binding == Some(k)
      && k in w.entries && OwnedBy(w.entries[k], x) && Actionable(r) && Unconflicted(Without(w, k), x)
      && Start(r) == FetchPresent(k, DesiredEntry(r).value)
      && OnTrack(Without(w, k), x, Create(DesiredEntry(r).value))
      && (InOrder(w, x, k) <==> Equivalent(w.entries[k], DesiredEntry(r).value))
    ensures Sound(Without(w, k)) && Without(w, k).rows == w.rows
  {
    FiledUnder(w, x);
    RemovedSound(w, k);
    hide Sound; hide Stored; hide DesiredEntry; hide OwnedBy; hide Equivalent; hide Unconflicted;
  }

  /** Deleted before the pass looked: it creates the entry again. */
  lemma DeletedBeforeGet(w: World, fs: Faults, x: string, k: EntryId)
    requires Sound(w) && Exposed(w, x, k) && FaultFree(fs)
    ensures var end := Struck(w, fs, w.rows[x], Start(w.rows[x]), k, 0);
      end.outcome.Settled? && x in end.w.rows && Agrees(end.w, x)
  {
    hide *;
    ExposedSends(w, x, k);
    ExposedFacts(w, x, k);
    StruckNow(w, fs, w.rows[x], Start(w.rows[x]), k, 0);
    StartOnTrack(Without(w, k), x);
    TrackSettles(Without(w, k), fs, x, Start(w.rows[x]));
  }

  lemma GetFound(w: World, fs: Faults, r: Rule, k: EntryId, d: Entry)
    requires FaultFree(fs) && k in w.entries && OwnedBy(w.entries[k], r.id)
    ensures var call := GetEntry(k);
      && NextCall(FetchPresent(k, d)) == call && FaultFree(After(fs, call))
      && Exec(w, r.id, call, FaultFor(fs, call)) == (w, Found(k, w.entries[k]))
      && Advance(r, FetchPresent(k, d), Found(k, w.entries[k])) ==
         if !Equivalent(w.entries[k], d) then UpdateBound(k, d)
         else if r.status != Converged then Record("bind_owned_existing", Some(k), Some(k), false)
         else End(Settled(false))
  {
    FaultFreeStays(fs, GetEntry(k));
    hide Equivalent; hide OwnedBy; hide FaultFree;
  }

  lemma UpdateGone(w: World, x: string, k: EntryId, d: Entry, f: Fault)
    requires k !in w.entries && Stored(d).Some? && f.Fine?
    ensures Exec(w, x, UpdateEntry(k, d), f) == (w, NotFound)
  {
    hide Stored;
  }

  lemma UpdateMissing(w: World, fs: Faults, r: Rule, k: EntryId, d: Entry)
    requires FaultFree(fs) && k !in w.entries && Stored(d).Some?
    ensures var fs' := After(fs, UpdateEntry(k, d));
      FaultFree(fs') && Pass(w, fs, r, UpdateBound(k, d)) == Pass(w, fs', r, Create(d))
  {
    hide Stored; hide FaultFree; hide Pass; hide Exec;
    FaultFreeStays(fs, UpdateEntry(k, d));
    UpdateGone(w, r.id, k, d, FaultFor(fs, UpdateEntry(k, d)));
    PassOn(w, fs, r, UpdateBound(k, d));
  }

  lemma SendableStored(r: Rule)
    requires Sendable(r)
    ensures DesiredEntry(r).Ok? && Stored(DesiredEntry(r).value).Some?
    ensures DesiredEntry(r).value.hint == OwnerHint(r.id)
  {
    hide Stored; hide OwnerHint;
  }

  lemma ExposedSends(w: World, x: string, k: EntryId)
    requires Exposed(w, x, k)
    ensures x in w.rows && Sendable(w.rows[x])
  {
    hide Sendable; hide Unconflicted; hide OwnedBy;
  }

  /** Drifted, and deleted between the Get and the Update: the pass creates it again. */
  lemma DeletedBeforeUpdate(w: World, fs: Faults, x: string, k: EntryId)
    requires Sound(w) && Exposed(w, x, k) && FaultFree(fs) && !InOrder(w, x, k)
    ensures var end := Struck(w, fs, w.rows[x], Start(w.rows[x]), k, 1);
      end.outcome.Settled? && x in end.w.rows && Agrees(end.w, x)
  {
    hide *;
    ExposedSends(w, x, k);
    ExposedFacts(w, x, k);
    SendableStored(w.rows[x]);
    var r, w0 := w.rows[x], Without(w, k);
    var d := DesiredEntry(r).value;
    var fs1 := After(fs, GetEntry(k));
    StruckOn(w, fs, r, Start(r), k, 1);
    GetFound(w, fs, r, k, d);
    StruckNow(w, fs1, r, UpdateBound(k, d), k, 0);
    Gone(w, k);
    UpdateMissing(w0, fs1, r, k, d);
    TrackSettles(w0, After(fs1, UpdateEntry(k, d)), x, Create(d));
  }

  lemma Gone(w: World, k: EntryId)
    ensures k !in Without(w, k).entries
  {
  }

  // ---- Once the entry has been seen or written, nothing looks at it again ----

  predicate BoundTo(w: World, r: Rule, k: EntryId) {
    r.id in w.rows && w.rows[r.id].desiredState == "present" && w.rows[r.id].binding == Some(k)
  }

  predicate CanBind(w: World, r: Rule, k: EntryId) {
    r.id in w.rows && w.rows[r.id] == r && r.desiredState == "present" && !Taken(w.rows, r.id, Some(k))
  }

  /** All that is left of the pass is to record entry `k` and to bind the row to it. */
  predicate Closing(w: World, r: Rule, k: EntryId, p: Point) {
    match p
    case Record(_, _, binding, _) => binding == Some(k) && CanBind(w, r, k)
    case Mark(binding, _) => binding == Some(k) && CanBind(w, r, k)
    case End(outcome) => outcome.Settled? && BoundTo(w, r, k)
    case _ => false
  }

  lemma ClosingStep(w: World, fs: Faults, r: Rule, p: Point, k: EntryId)
    requires FaultFree(fs) && !p.End? && Closing(w, r, k, p)
    ensures var call := NextCall(p);
      var (w', reply) := Exec(w, r.id, call, FaultFor(fs, call));
      Closing(w', r, k, Advance(r, p, reply)) && FaultFree(After(fs, call)) && w'.entries == w.entries
  {
    hide FaultFree; hide Taken;
    FaultFreeStays(fs, NextCall(p));
  }

  lemma ClosingWithout(w: World, r: Rule, p: Point, k: EntryId)
    requires Closing(w, r, k, p)
    ensures Closing(Without(w, k), r, k, p)
  {
    hide Taken;
  }

  lemma {:induction false} ClosingPass(w: World, fs: Faults, r: Rule, p: Point, k: EntryId)
    requires FaultFree(fs) && Closing(w, r, k, p)
    ensures var end := Pass(w, fs, r, p); end.outcome.Settled? && BoundTo(end.w, r, k) && end.w.entries == w.entries
    decreases Rank(p)
  {
    hide *;
    if p.End? {
      ClosingEnd(w, r, p, k);
      PassOver(w, fs, r, p.outcome);
    } else {
      var call := NextCall(p);
      var (w', reply) := Exec(w, r.id, call, FaultFor(fs, call));
      PassOn(w, fs, r, p);
      ClosingStep(w, fs, r, p, k);
      RankFalls(r, p, reply);
      ClosingPass(w', After(fs, call), r, Advance(r, p, reply), k);
    }
  }

  lemma ClosingEnd(w: World, r: Rule, p: Point, k: EntryId)
    requires Closing(w, r, k, p) && p.End?
    ensures p.outcome.Settled? && BoundTo(w, r, k)
  {
  }

  lemma {:induction false} ClosingStruck(w: World, fs: Faults, r: Rule, p: Point, k: EntryId, n: nat)
    requires FaultFree(fs) && Closing(w, r, k, p)
    ensures var end := Struck(w, fs, r, p, k, n);
      end.outcome.Settled? && BoundTo(end.w, r, k) && k !in end.w.entries
    decreases n
  {
    hide *;
    if n == 0 || p.End? {
      StruckNow(w, fs, r, p, k, n);
      ClosingWithout(w, r, p, k);
      ClosingPass(Without(w, k), fs, r, p, k);
      Gone(w, k);
    } else {
      var call := NextCall(p);
      var (w', reply) := Exec(w, r.id, call, FaultFor(fs, call));
      StruckOn(w, fs, r, p, k, n);
      ClosingStep(w, fs, r, p, k);
      ClosingStruck(w', After(fs, call), r, Advance(r, p, reply), k, n - 1);
    }
  }

  /** The deletion comes after the Get has found the entry in order, or after the update: the pass
      settles without noticing, and its row is bound to nothing. */
  lemma DeletedLater(w: World, fs: Faults, x: string, k: EntryId, n: nat)
    requires Sound(w) && Exposed(w, x, k) && FaultFree(fs) && n >= 1 && (n == 1 ==> InOrder(w, x, k))
    ensures var end := Struck(w, fs, w.rows[x], Start(w.rows[x]), k, n);
      end.outcome.Settled? && x in end.w.rows && !Agrees(end.w, x)
  {
    hide *;
    ExposedSends(w, x, k);
    ExposedFacts(w, x, k);
    var r := w.rows[x];
    var d := DesiredEntry(r).value;
    var fs1 := After(fs, GetEntry(k));
    StruckOn(w, fs, r, Start(r), k, n);
    GetFound(w, fs, r, k, d);
    FreeToBind(w, x, k);
    if !InOrder(w, x, k) {
      SendableStored(r);
      UpdateFound(w, fs1, r, k, d);
      StruckOn(w, fs1, r, UpdateBound(k, d), k, n - 1);
      ClosingStruck(w.(entries := w.entries[k := Stored(d).value]), After(fs1, UpdateEntry(k, d)), r,
        Record("update", Some(k), Some(k), true), k, n - 2);
    } else if r.status != Converged {
      BindClosing(w, r, k);
      ClosingStruck(w, fs1, r, Record("bind_owned_existing", Some(k), Some(k), false), k, n - 1);
    } else {
      OverClosing(w, r, k);
      ClosingStruck(w, fs1, r, End(Settled(false)), k, n - 1);
    }
    UnboundDisagrees(Struck(w, fs, r, Start(r), k, n).w, r, k);
  }

  lemma UpdateFound(w: World, fs: Faults, r: Rule, k: EntryId, d: Entry)
    requires FaultFree(fs) && k in w.entries && Stored(d).Some? && d.hint == OwnerHint(r.id) && CanBind(w, r, k)
    ensures var call := UpdateEntry(k, d); var w' := w.(entries := w.entries[k := Stored(d).value]);
      && NextCall(UpdateBound(k, d)) == call && FaultFree(After(fs, call))
      && Exec(w, r.id, call, FaultFor(fs, call)) == (w', Updated(k, Stored(d).value))
      && Advance(r, UpdateBound(k, d), Updated(k, Stored(d).value)) == Record("update", Some(k), Some(k), true)
      && Closing(w', r, k, Record("update", Some(k), Some(k), true))
  {
    hide Exec; hide Stored; hide FaultFree; hide Taken; hide OwnerHint;
    FaultFreeStays(fs, UpdateEntry(k, d));
    System.StoredHint(d);
    UpdateExec(w, r.id, k, d, FaultFor(fs, UpdateEntry(k, d)));
  }

  lemma BindClosing(w: World, r: Rule, k: EntryId)
    requires CanBind(w, r, k)
    ensures Closing(w, r, k, Record("bind_owned_existing", Some(k), Some(k), false))
  {
    hide CanBind;
  }

  lemma OverClosing(w: World, r: Rule, k: EntryId)
    requires CanBind(w, r, k) && r.binding == Some(k)
    ensures Closing(w, r, k, End(Settled(false)))
  {
    hide Taken;
  }

  lemma UnboundDisagrees(w: World, r: Rule, k: EntryId)
    requires BoundTo(w, r, k) && k !in w.entries
    ensures r.id in w.rows && !Agrees(w, r.id)
  {
    hide Wanted; hide OwnedBy; hide DesiredEntry;
  }

  lemma FreeToBind(w: World, x: string, k: EntryId)
    requires Sound(w) && x in w.rows && w.rows[x].desiredState == "present" && k in w.entries && OwnedBy(w.entries[k], x)
    ensures w.rows[x].id == x && CanBind(w, w.rows[x], k)
  {
    hide OwnedBy;
    FiledUnder(w, x);
    assert forall y :: y in w.rows && y != x && w.rows[y].binding == Some(k) ==> !Apart(w, y, x);
  }

  /** However many of its calls the pass has made when the bound entry is deleted, it settles; the row
      agrees with SPIRE at the end exactly if the pass had not yet seen or written the entry. */
  lemma DeletionHeals(w: World, fs: Faults, x: string, k: EntryId, n: nat)
    requires Sound(w) && Exposed(w, x, k) && FaultFree(fs)
    ensures x in w.rows
    ensures var end := Struck(w, fs, w.rows[x], Start(w.rows[x]), k, n);
      && end.outcome.Settled? && x in end.w.rows
      && (Agrees(end.w, x) <==> n == 0 || (n == 1 && !InOrder(w, x, k)))
  {
    hide *;
    ExposedSends(w, x, k);
    if n == 0 { DeletedBeforeGet(w, fs, x, k); }
    else if n == 1 && !InOrder(w, x, k) { DeletedBeforeUpdate(w, fs, x, k); }
    else { DeletedLater(w, fs, x, k, n); }
  }

  // ---- An absent rule ----

  /** The row, absent and bound to `k`, is as listed. */
  predicate Releasing(w: World, r: Rule, k: EntryId) {
    r.id in w.rows && w.rows[r.id] == r && r.desiredState == "absent" && r.binding == Some(k)
  }

  predicate Released(w: World, x: string) {
    x in w.rows && w.rows[x].desiredState == "absent" && w.rows[x].binding.None? && Agrees(w, x)
  }

  /** The pass of an absent rule is at work on releasing entry `k`, or has done so. */
  predicate OnRelease(w: World, r: Rule, k: EntryId, p: Point) {
    match p
    case FetchAbsent(id) => id == k && Releasing(w, r, k) && (k in w.entries ==> OwnedBy(w.entries[k], r.id))
    case Delete(id) => id == k && Releasing(w, r, k)
    case Record(_, _, binding, _) => binding.None? && Releasing(w, r, k) && k !in w.entries
    case Mark(binding, _) => binding.None? && Releasing(w, r, k) && k !in w.entries
    case End(outcome) => outcome.Settled? && Released(w, r.id) && k !in w.entries
    case _ => false
  }

  lemma ReleaseStep(w: World, fs: Faults, r: Rule, p: Point, k: EntryId)
    requires FaultFree(fs) && !p.End? && OnRelease(w, r, k, p)
    ensures var call := NextCall(p);
      var (w', reply) := Exec(w, r.id, call, FaultFor(fs, call));
      OnRelease(w', r, k, Advance(r, p, reply)) && FaultFree(After(fs, call))
  {
    hide FaultFree; hide OwnedBy; hide Wanted; hide DesiredEntry;
    FaultFreeStays(fs, NextCall(p));
  }

  lemma ReleaseWithout(w: World, r: Rule, p: Point, k: EntryId)
    requires OnRelease(w, r, k, p)
    ensures OnRelease(Without(w, k), r, k, p)
  {
    hide OwnedBy; hide Wanted; hide DesiredEntry;
  }

  lemma ReleaseEnd(w: World, r: Rule, p: Point, k: EntryId)
    requires OnRelease(w, r, k, p) && p.End?
    ensures p.outcome.Settled? && Released(w, r.id) && k !in w.entries
  {
  }

  lemma {:induction false} ReleasePass(w: World, fs: Faults, r: Rule, p: Point, k: EntryId)
    requires FaultFree(fs) && OnRelease(w, r, k, p)
    ensures var end := Pass(w, fs, r, p); end.outcome.Settled? && Released(end.w, r.id) && k !in end.w.entries
    decreases Rank(p)
  {
    hide *;
    if p.End? {
      ReleaseEnd(w, r, p, k);
      PassOver(w, fs, r, p.outcome);
    } else {
      var call := NextCall(p);
      var (w', reply) := Exec(w, r.id, call, FaultFor(fs, call));
      PassOn(w, fs, r, p);
      ReleaseStep(w, fs, r, p, k);
      RankFalls(r, p, reply);
      ReleasePass(w', After(fs, call), r, Advance(r, p, reply), k);
    }
  }

  lemma {:induction false} ReleaseStruck(w: World, fs: Faults, r: Rule, p: Point, k: EntryId, n: nat)
    requires FaultFree(fs) && OnRelease(w, r, k, p)
    ensures var end := Struck(w, fs, r, p, k, n); end.outcome.Settled? && Released(end.w, r.id) && k !in end.w.entries
    decreases n
  {
    hide *;
    if n == 0 || p.End? {
      StruckNow(w, fs, r, p, k, n);
      ReleaseWithout(w, r, p, k);
      ReleasePass(Without(w, k), fs, r, p, k);
    } else {
      var call := NextCall(p);
      var (w', reply) := Exec(w, r.id, call, FaultFor(fs, call));
      StruckOn(w, fs, r, p, k, n);
      ReleaseStep(w, fs, r, p, k);
      ReleaseStruck(w', After(fs, call), r, Advance(r, p, reply), k, n - 1);
    }
  }

  /** Whenever somebody else deletes an entry that an absent rule's pass is about to release, the pass
      settles, the entry is gone, and the row is released. */
  lemma ReleaseHeals(w: World, fs: Faults, x: string, k: EntryId, n: nat)
    requires x in w.rows && w.rows[x].id == x && w.rows[x].desiredState == "absent" && w.rows[x].binding == Some(k)
    requires (k in w.entries ==> OwnedBy(w.entries[k], x)) && FaultFree(fs)
    ensures var end := Struck(w, fs, w.rows[x], Start(w.rows[x]), k, n);
      && end.outcome.Settled? && k !in end.w.entries
      && x in end.w.rows && Agrees(end.w, x) && end.w.rows[x].binding.None?
  {
    ReleaseStruck(w, fs, w.rows[x], Start(w.rows[x]), k, n);
    hide Struck; hide OwnedBy; hide FaultFree; hide Agrees;
  }
}

/** When a change to SPIRE stays out of the audit log for good: a drifted entry of a row that
    already says converged is updated, and the event for it is lost. */
module Unaudited {
  import opened Text
  import opened Spiffe
  import opened Entries
  import opened Registration
  import opened Backends
  import opened Protocol
  import opened Frame
  import opened Goals
  import opened Recovery
  import opened Runs
  import opened Convergence
  import opened Idempotence
  import opened AuditTrail
  import opened Crashes
  import opened Witnesses
  import System

  /** SPIRE was changed and nothing was recorded, while the row says converged and agrees. */
  predicate Escapes(w: World, w': World, x: string) {
    x in w'.rows && w'.entries != w.entries && w'.log == w.log && Agrees(w', x)
  }

  /** The row says converged and is bound to an entry of its own that differs from what it would write. */
  predicate Drifted(w: World, x: string)
    requires x in w.rows
  {
    var r := w.rows[x];
    && r.status == Converged && Sendable(r) && Bound(w.entries, r) && OwnedBy(w.entries[r.binding.value], x)
    && !Equivalent(w.entries[r.binding.value], DesiredEntry(r).value)
    && Stored(DesiredEntry(r).value) != Some(w.entries[r.binding.value])
  }

  /** The Get is answered and the update takes effect, and then either the event is refused or the
      update's reply is lost and the error is not written either. */
  predicate Muffled(fs: Faults) {
    var update := Head(Tail(fs.spire));
    && Head(fs.spire).Fine?
    && ((update.Fine? && Head(fs.audit).Refused?) || (update.Lost? && Head(fs.rules).Refused?))
  }

  // ---- The drifted row's pass ----

  lemma FetchDrifted(w: World, fs: Faults, r: Rule, k: EntryId, d: Entry)
    requires r.desiredState == "present" && DesiredEntry(r) == Ok(d) && r.binding == Some(k)
    requires k in w.entries && OwnedBy(w.entries[k], r.id)
    ensures var fs1 := fs.(spire := Tail(fs.spire));
      Pass(w, fs, r, Start(r)) ==
        if !Head(fs.spire).Fine? then Pass(w, fs1, r, Fail("spire_unavailable"))
        else if !Equivalent(w.entries[k], d) then Pass(w, fs1, r, UpdateBound(k, d))
        else if r.status != Converged then Pass(w, fs1, r, Record("bind_owned_existing", Some(k), Some(k), false))
        else PassEnd(w, fs1, Settled(false))
  {
    hide Pass; hide DesiredEntry; hide Equivalent; hide OwnedBy;
    PassOn(w, fs, r, FetchPresent(k, d));
    PassOver(w, fs.(spire := Tail(fs.spire)), r, Settled(false));
  }

  lemma FailPass(w: World, fs: Faults, r: Rule, code: string)
    requires r.id in w.rows
    ensures var w' := Pass(w, fs, r, Fail(code)).w;
      w' == if Head(fs.rules).Refused? then w else w.(rows := w.rows[r.id := Errs(w.rows[r.id], code)])
  {
    hide Pass;
    PassOn(w, fs, r, Fail(code));
    var done := Exec(w, r.id, MarkError(code), Head(fs.rules));
    PassOver(done.0, After(fs, MarkError(code)), r, Broken);
  }

  lemma UpdateExec(w: World, x: string, k: EntryId, d: Entry, f: Fault)
    requires k in w.entries
    ensures Exec(w, x, UpdateEntry(k, d), f) ==
            if f.Refused? || Stored(d).None? then (w, Failed)
            else (w.(entries := w.entries[k := Stored(d).value]), if f.Fine? then Updated(k, Stored(d).value) else Failed)
  {
    hide Stored;
  }

  lemma UpdateDrifted(w: World, fs: Faults, r: Rule, k: EntryId, d: Entry)
    requires k in w.entries && d.hint == OwnerHint(r.id)
    ensures var f, fs1 := Head(fs.spire), fs.(spire := Tail(fs.spire));
      Pass(w, fs, r, UpdateBound(k, d)) ==
        if f.Refused? || Stored(d).None? then Pass(w, fs1, r, Fail("spire_update_failed"))
        else
          var w1 := w.(entries := w.entries[k := Stored(d).value]);
          if f.Fine? then Pass(w1, fs1, r, Record("update", Some(k), Some(k), true))
          else Pass(w1, fs1, r, Fail("spire_update_failed"))
  {
    hide Pass; hide Stored; hide OwnerHint; hide Exec;
    if Stored(d).Some? { System.StoredHint(d); }
    UpdateExec(w, r.id, k, d, Head(fs.spire));
    PassOn(w, fs, r, UpdateBound(k, d));
  }

  lemma RecordDrifted(w: World, fs: Faults, r: Rule, k: EntryId)
    ensures var w' := Pass(w, fs, r, Record("update", Some(k), Some(k), true)).w;
      && w'.entries == w.entries
      && (Head(fs.audit).Refused? ==> w' == w)
      && (!Head(fs.audit).Refused? ==> w'.log != w.log)
  {
    hide Pass;
    var p, call := Record("update", Some(k), Some(k), true), Append("update", Some(k));
    PassOn(w, fs, r, p);
    var f, fs1 := Head(fs.audit), fs.(audit := Tail(fs.audit));
    var w1 := if f.Refused? then w else w.(log := w.log + [Reconciled(r.id, "update", Some(k))]);
    if f.Fine? {
      PassOn(w1, fs1, r, Mark(Some(k), true));
      MarkLeaves(w1, r.id, Some(k), Head(fs1.rules));
      var done := Exec(w1, r.id, MarkConverged(Some(k)), Head(fs1.rules));
      PassOver(done.0, After(fs1, MarkConverged(Some(k))), r, if done.1 == Done then Settled(true) else Broken);
    } else {
      PassOver(w1, fs1, r, Broken);
    }
  }

  lemma MarkLeaves(w: World, x: string, b: Option<EntryId>, f: Fault)
    ensures var w' := Exec(w, x, MarkConverged(b), f).0; w'.entries == w.entries && w'.log == w.log
  {
    hide Taken;
  }

  lemma DriftedFacts(w: World, x: string)
    requires Sound(w) && x in w.rows && Drifted(w, x)
    ensures var r := w.rows[x]; var k, d := r.binding.value, DesiredEntry(r).value;
      && r.id == x && r.binding == Some(k) && k in w.entries && OwnedBy(w.entries[k], x) && r.desiredState == "present"
      && DesiredEntry(r) == Ok(d) && d.hint == OwnerHint(x) && Stored(d).Some? && Stored(d).value != w.entries[k]
      && !Equivalent(w.entries[k], d) && r.status == Converged
  {
    FiledUnder(w, x);
    hide Stored; hide OwnedBy; hide Equivalent; hide OwnerHint;
  }

  /** What a drifted row's pass leaves when it is muffled. */
  lemma MuffledEnd(w: World, fs: Faults, x: string)
    requires Sound(w) && x in w.rows && Drifted(w, x) && Muffled(fs)
    ensures var r := w.rows[x];
      Pass(w, fs, r, Start(r)).w == w.(entries := w.entries[r.binding.value := Stored(DesiredEntry(r).value).value])
  {
    hide *;
    DriftedFacts(w, x);
    var r := w.rows[x];
    var k, d := r.binding.value, DesiredEntry(r).value;
    var fs1 := fs.(spire := Tail(fs.spire));
    var fs2 := fs1.(spire := Tail(fs1.spire));
    var w1 := w.(entries := w.entries[k := Stored(d).value]);
    MuffledIs(fs);
    FetchDrifted(w, fs, r, k, d);
    UpdateDrifted(w, fs1, r, k, d);
    RecordDrifted(w1, fs2, r, k);
    FailPass(w1, fs2, r, "spire_update_failed");
  }

  lemma MuffledIs(fs: Faults)
    ensures Muffled(fs) <==>
      && Head(fs.spire).Fine?
      && ((Head(Tail(fs.spire)).Fine? && Head(fs.audit).Refused?) || (Head(Tail(fs.spire)).Lost? && Head(fs.rules).Refused?))
    ensures !Head(fs.spire).Fine? || !Head(fs.spire).Refused?
  {
    hide Head; hide Tail;
  }

  lemma MuffledEscapes(w: World, fs: Faults, x: string)
    requires Sound(w) && x in w.rows && Drifted(w, x) && Muffled(fs)
    ensures Escapes(w, Pass(w, fs, w.rows[x], Start(w.rows[x])).w, x)
  {
    hide *;
    DriftedFacts(w, x);
    MuffledEnd(w, fs, x);
    RewrittenAgrees(w, x);
  }

  lemma RewrittenAgrees(w: World, x: string)
    requires Sound(w) && x in w.rows && Drifted(w, x)
    ensures var r := w.rows[x];
      Escapes(w, w.(entries := w.entries[r.binding.value := Stored(DesiredEntry(r).value).value]), x)
  {
    DriftedFacts(w, x);
    var r := w.rows[x];
    System.StoredHint(DesiredEntry(r).value);
    var w' := w.(entries := w.entries[r.binding.value := Stored(DesiredEntry(r).value).value]);
    assert w'.entries[r.binding.value] != w.entries[r.binding.value];
    hide Stored; hide OwnerHint; hide Equivalent; hide DesiredEntry;
  }

  // ---- Nothing else escapes ----

  /** A pass that leaves no event has not marked its row. */
  lemma SilentRow(w: World, fs: Faults, x: string)
    requires Sound(w) && x in w.rows
    ensures var w' := Pass(w, fs, w.rows[x], Start(w.rows[x])).w;
      w'.log == w.log && x in w'.rows && w'.rows[x].status == Converged ==> w'.rows[x] == w.rows[x]
  {
    FiledUnder(w, x);
    hide *;
    StartTrailed(w, w.rows[x]);
    PassWrites(w.log, w, fs, w.rows[x], Start(w.rows[x]));
    NoTrail(w.log, w.rows[x], Pass(w, fs, w.rows[x], Start(w.rows[x])).w, x);
  }

  lemma NoTrail(log: seq<AuditEvent>, row: Rule, w: World, x: string)
    requires Written(log, row, w, x)
    ensures x in w.rows && (w.log == log && w.rows[x].status == Converged ==> w.rows[x] == row)
  {
  }

  /** An escape needs a bound entry of the row's own from the start. */
  lemma EscapeIsBound(w: World, fs: Faults, x: string)
    requires Sound(w) && x in w.rows && Escapes(w, Pass(w, fs, w.rows[x], Start(w.rows[x])).w, x)
    ensures var r := w.rows[x];
      && r.status == Converged && r.desiredState == "present" && DesiredEntry(r).Ok?
      && Bound(w.entries, r) && OwnedBy(w.entries[r.binding.value], x)
  {
    FiledUnder(w, x);
    var r := w.rows[x];
    var w' := Pass(w, fs, r, Start(r)).w;
    SilentRow(w, fs, x);
    HeadTouches(w, fs, r);
    if r.desiredState != "present" { AbsentStays(w, fs, r); }
    BoundBefore(w, w', x);
    hide Pass; hide Touches; hide OwnedBy; hide Wanted; hide DesiredEntry;
  }

  lemma AbsentStays(w: World, fs: Faults, r: Rule)
    requires r.desiredState == "absent" && r.binding.None? && r.status == Converged
    ensures Pass(w, fs, r, Start(r)).w == w
  {
    PassOver(w, fs, r, Settled(false));
  }

  lemma BoundBefore(w: World, w': World, x: string)
    requires Sound(w) && x in w.rows && w.rows[x].id == x && Touches(w, w', w.rows[x])
    requires w.rows[x].binding.Some? && w.rows[x].binding.value in w'.entries
    requires OwnedBy(w'.entries[w.rows[x].binding.value], x)
    ensures Bound(w.entries, w.rows[x]) && OwnedBy(w.entries[w.rows[x].binding.value], x)
  {
    var k := w.rows[x].binding.value;
    assert Own(w, w', w.rows[x], k);
    hide OwnedBy;
    hide Identity;
  }

  /** The drifted row's pass, over what it may do. */
  lemma EscapeIsMuffled(w: World, fs: Faults, x: string)
    requires Sound(w) && x in w.rows && Escapes(w, Pass(w, fs, w.rows[x], Start(w.rows[x])).w, x)
    ensures Drifted(w, x) && Muffled(fs)
  {
    hide *;
    FiledUnder(w, x);
    EscapeIsBound(w, fs, x);
    var r := w.rows[x];
    BoundIs(w, x);
    var k, d := r.binding.value, DesiredEntry(r).value;
    var fs1 := fs.(spire := Tail(fs.spire));
    var fs2 := fs1.(spire := Tail(fs1.spire));
    var end := Pass(w, fs, r, Start(r)).w;
    EscapeParts(w, end, x);
    DesiredHint(r, d);
    FetchDrifted(w, fs, r, k, d);
    FailPass(w, fs1, r, "spire_unavailable");
    UpdateDrifted(w, fs1, r, k, d);
    FailPass(w, fs2, r, "spire_update_failed");
    MuffledIs(fs);
    if Stored(d).Some? {
      var n := Stored(d).value;
      var w1 := w.(entries := w.entries[k := n]);
      RecordDrifted(w1, fs2, r, k);
      FailPass(w1, fs2, r, "spire_update_failed");
      SameIfSame(w.entries, k, n);
      ErrsStatus(r, "spire_update_failed");
      FaultCases(Head(fs1.spire));
      DriftedIf(w, x, d);
    }
  }

  lemma BoundIs(w: World, x: string)
    requires x in w.rows && Bound(w.entries, w.rows[x])
    ensures w.rows[x].binding.Some? && w.rows[x].binding.value in w.entries
  {
  }

  lemma EscapeParts(w: World, w': World, x: string)
    requires Escapes(w, w', x)
    ensures x in w'.rows && w'.entries != w.entries && w'.log == w.log && w'.rows[x].status == Converged
  {
    hide Wanted; hide OwnedBy; hide DesiredEntry;
  }

  lemma DesiredHint(r: Rule, d: Entry)
    requires DesiredEntry(r) == Ok(d)
    ensures d.hint == OwnerHint(r.id)
  {
  }

  lemma SameIfSame(entries: map<EntryId, Entry>, k: EntryId, n: Entry)
    requires k in entries
    ensures entries[k] == n ==> entries[k := n] == entries
  {
  }

  lemma ErrsStatus(r: Rule, code: string)
    ensures Errs(r, code).status == Errored
  {
  }

  lemma FaultCases(f: Fault)
    ensures f.Fine? || f.Refused? || f.Lost?
  {
  }

  lemma DriftedIf(w: World, x: string, d: Entry)
    requires x in w.rows && w.rows[x].status == Converged && w.rows[x].desiredState == "present"
    requires DesiredEntry(w.rows[x]) == Ok(d) && Stored(d).Some?
    requires Bound(w.entries, w.rows[x]) && OwnedBy(w.entries[w.rows[x].binding.value], x)
    ensures Drifted(w, x) <==> !Equivalent(w.entries[w.rows[x].binding.value], d)
                               && Stored(d).value != w.entries[w.rows[x].binding.value]
  {
    hide Stored; hide OwnedBy; hide Equivalent; hide DesiredEntry;
  }

  /** A change to SPIRE escapes the audit log exactly when a converged row's entry had drifted, its
      update took effect, and the event was refused, or the reply lost and the error not written. */
  lemma EscapesExactly(w: World, fs: Faults, x: string)
    requires Sound(w) && x in w.rows
    ensures Escapes(w, Pass(w, fs, w.rows[x], Start(w.rows[x])).w, x) <==> Drifted(w, x) && Muffled(fs)
  {
    hide *;
    if Drifted(w, x) && Muffled(fs) { MuffledEscapes(w, fs, x); }
    if Escapes(w, Pass(w, fs, w.rows[x], Start(w.rows[x])).w, x) { EscapeIsMuffled(w, fs, x); }
  }

  /** And it stays out of the log: over canonical IDs the next undisturbed pass finds nothing to do. */
  lemma EscapeIsForGood(w: World, fs: Faults, fine: Faults, x: string)
    requires Sound(w) && x in w.rows && Drifted(w, x) && Muffled(fs) && CanonicalRule(w.rows[x]) && FaultFree(fine)
    ensures var end := Pass(w, fs, w.rows[x], Start(w.rows[x])).w;
      x in end.rows && end.rows[x] == w.rows[x] && Pass(end, fine, w.rows[x], Start(w.rows[x])).w == end
  {
    hide *;
    DriftedFacts(w, x);
    MuffledEnd(w, fs, x);
    MuffledEscapes(w, fs, x);
    RewrittenCalm(w, x);
    CalmPass(Pass(w, fs, w.rows[x], Start(w.rows[x])).w, fine, x);
  }

  lemma RewrittenCalm(w: World, x: string)
    requires Sound(w) && x in w.rows && Drifted(w, x) && CanonicalRule(w.rows[x])
    ensures var r := w.rows[x];
      var w' := w.(entries := w.entries[r.binding.value := Stored(DesiredEntry(r).value).value]);
      Agrees(w', x) && Calm(w', x)
  {
    RewrittenAgrees(w, x);
    DriftedFacts(w, x);
    StoredAgrees(DesiredEntry(w.rows[x]).value);
    hide Stored; hide OwnerHint; hide Equivalent; hide DesiredEntry; hide CanonicalEntry; hide Agrees;
  }

  // ---- An input that does ----

  /** Converged, bound to entry 0. */
  function Settled60(): Rule { Sample("x", 'a', "present", 60, Some(0)).(status := Converged) }

  /** Somebody else has given the entry another TTL. */
  function DriftedWorld(): World
    requires Sendable(Settled60())
  {
    World(map["x" := Settled60()], map[0 := Stored(DesiredEntry(Settled60()).value).value.(ttl := 120)], 1, [])
  }

  const EVENT_REFUSED := Faults([], [], [Refused])

  lemma Settled60Is()
    ensures var r := Settled60();
      && r.id == "x" && r.binding == Some(0) && r.status == Converged && r.lastError.None? && r.ttl == 60
      && Sendable(r) && CanonicalRule(r)
      && DesiredEntry(r).Ok? && DesiredEntry(r).value.ttl == 60 && DesiredEntry(r).value.hint == OwnerHint("x")
  {
    var q := Sample("x", 'a', "present", 60, Some(0));
    SampleSends("x", 'a', 60, Some(0));
    assert Desire(Settled60()) == Desire(q);
    DesireSame(q, Settled60());
    SendableMeans(q);
    SendableMeans(Settled60());
    hide SampleId; hide Stored; hide OwnerHint; hide CanonicalEntry; hide DesiredEntry;
  }

  lemma StoredTtl(d: Entry)
    requires Stored(d).Some?
    ensures Stored(d).value.ttl == d.ttl && Stored(d).value.hint == d.hint
  {
    StoredAgrees(d);
    hide Stored;
  }

  lemma TtlDiffers(e: Entry, d: Entry)
    requires e.ttl != d.ttl
    ensures !Equivalent(e, d)
  {
  }

  lemma OneRow(r: Rule, e: Entry)
    requires r.id == "x" && r.binding == Some(0) && r.status == Converged && r.lastError.None? && e.hint == OwnerHint("x")
    ensures var w := World(map["x" := r], map[0 := e], 1, []);
      Sound(w) && "x" in w.rows && w.rows["x"] == r && Bound(w.entries, r) && w.entries[0] == e && OwnedBy(e, "x")
  {
    hide OwnerHint;
  }

  lemma DriftIf(r: Rule, n: Entry)
    requires r.id == "x" && r.binding == Some(0) && r.status == Converged && r.lastError.None? && Sendable(r)
    requires DesiredEntry(r).Ok? && DesiredEntry(r).value.ttl == 60 && DesiredEntry(r).value.hint == OwnerHint("x")
    requires Stored(DesiredEntry(r).value) == Some(n)
    ensures var w := World(map["x" := r], map[0 := n.(ttl := 120)], 1, []); Sound(w) && Drifted(w, "x")
  {
    hide *;
    var d, e := DesiredEntry(r).value, n.(ttl := 120);
    StoredTtl(d);
    OneRow(r, e);
    var w := World(map["x" := r], map[0 := e], 1, []);
    SendableMeans(r);
    DriftedIf(w, "x", d);
    TtlDiffers(e, d);
  }

  /** A drifted entry whose update goes through while its event is refused: the change is never
      recorded. */
  lemma LostEvent()
    ensures Sendable(Settled60())
    ensures var w, r := DriftedWorld(), Settled60();
      && Sound(w) && w.rows == map["x" := r]
      && var end := Pass(w, EVENT_REFUSED, r, Start(r)).w;
         Escapes(w, end, "x") && Pass(end, NO_FAULTS, r, Start(r)).w == end
  {
    hide *;
    Settled60Is();
    DriftedWorldIs();
    SendableMeans(Settled60());
    DriftIf(Settled60(), Stored(DesiredEntry(Settled60()).value).value);
    RefusedEvent();
    NoFaults();
    EscapesExactly(DriftedWorld(), EVENT_REFUSED, "x");
    EscapeIsForGood(DriftedWorld(), EVENT_REFUSED, NO_FAULTS, "x");
  }

  lemma DriftedWorldIs()
    requires Sendable(Settled60())
    ensures var r := Settled60();
      DriftedWorld() == World(map["x" := r], map[0 := Stored(DesiredEntry(r).value).value.(ttl := 120)], 1, [])
      && "x" in DriftedWorld().rows && DriftedWorld().rows["x"] == r
  {
    hide Sendable; hide Stored; hide DesiredEntry; hide Settled60;
  }

  lemma RefusedEvent()
    ensures Muffled(EVENT_REFUSED)
  {
  }
}

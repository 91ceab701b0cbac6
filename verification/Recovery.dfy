/** One rule's pass, step by step: every step keeps the goal, and an undisturbed pass meets it. */
module Recovery {
  import opened Text
  import opened Entries
  import opened Registration
  import opened Backends
  import opened Protocol
  import opened Frame
  import opened Goals

  /** What a pass that met no fault so far knows at point `p`. */
  predicate OnTrack(w: World, x: string, p: Point)
    requires x in w.rows
  {
    var r := w.rows[x];
    match p
    case FetchPresent(k, d) => r.desiredState == "present" && DesiredEntry(r) == Ok(d) && r.binding == Some(k)
    case Create(d) => r.desiredState == "present" && DesiredEntry(r) == Ok(d) && !Bound(w.entries, r)
    case UpdateBound(k, d) => Updating(w, x, k, d)
    case UpdateExisting(k, d) => Updating(w, x, k, d)
    case FetchAbsent(k) => r.desiredState == "absent" && r.binding == Some(k)
    case Delete(k) => r.desiredState == "absent" && r.binding == Some(k) && k in w.entries && OwnedBy(w.entries[k], x)
    case Record(_, _, b, _) => Ready(w, x, b)
    case Mark(b, _) => Ready(w, x, b)
    case RecordConflict(_) => AimOf(w.entries, r) == Reject("ownership_mismatch")
    case Fail(code) => AimOf(w.entries, r) == Reject(code)
    case End(o) => Met(w, x, o)
  }

  predicate Updating(w: World, x: string, k: EntryId, d: Entry)
    requires x in w.rows
  {
    && k in w.entries && OwnedBy(w.entries[k], x)
    && AimOf(w.entries, w.rows[x]) == match Stored(d) case None => Reject("spire_update_failed") case Some(n) => Write(k, n)
  }

  /** The goal is met, and the pass says so exactly when the goal is convergence. */
  predicate Met(w: World, x: string, o: Outcome)
    requires x in w.rows
  {
    PictureOf(w, x) == Goal(w, x) && (o.Settled? <==> Goal(w, x).row.status == Converged)
  }

  /** From `w` to `w'` the goal of row `x` stays and so does what its create would find. */
  predicate Keeps(w: World, w': World, x: string)
    requires x in w.rows
  {
    && x in w'.rows && Sound(w') && Goal(w', x) == Goal(w, x)
    && (Firm(w, x) ==> Firm(w', x))
  }

  lemma StartOnTrack(w: World, x: string)
    requires Sound(w) && x in w.rows
    ensures OnTrack(w, x, Start(w.rows[x]))
  {
    hide Stored;
    hide OwnerHint;
    hide Equivalent;
    hide Similar;
  }

  /** The step that point `p` takes when nothing goes wrong. */
  predicate Follows(w: World, w': World, x: string, p: Point, reply: Reply)
    requires x in w.rows && !p.End?
  {
    && Keeps(w, w', x) && OnTrack(w', x, Advance(w.rows[x], p, reply))
    && (!Advance(w.rows[x], p, reply).End? ==> w'.rows == w.rows)
  }

  lemma FetchStep(w: World, x: string, p: Point, skip: nat)
    requires Sound(w) && x in w.rows && OnTrack(w, x, p) && (p.FetchPresent? || p.FetchAbsent?)
    ensures var (w', reply) := Effect(w, x, NextCall(p), skip); Follows(w, w', x, p, reply)
  {
    assert w.rows[x].id == x;
    hide Stored;
    hide OwnerHint;
    hide Equivalent;
    hide Similar;
    hide Sound;
    hide Firm;
  }

  lemma FirmWhenOwn(w: World, x: string)
    requires x in w.rows
    requires Seeks(w, x).Some? ==>
               var f := Similar(w.entries, Seeks(w, x).value); f.Some? && OwnedBy(w.entries[f.value], x)
    ensures Firm(w, x)
  {
    forall y | y in w.rows && y != x ensures OwnerHint(y) != OwnerHint(x) { HintInjective(x, y); }
  }

  lemma InsertedSound(w: World, k: EntryId, n: Entry)
    requires Sound(w) && w.next <= k
    ensures Sound(w.(entries := w.entries[k := n], next := k + 1))
  {
    hide OwnedBy;
    var w' := w.(entries := w.entries[k := n], next := k + 1);
    forall x, y | x in w'.rows && y in w'.rows && x != y ensures Apart(w', x, y) {
      assert Apart(w, x, y);
    }
  }

  lemma OverwrittenSound(w: World, x: string, k: EntryId, n: Entry)
    requires Sound(w) && k in w.entries && OwnedBy(w.entries[k], x) && OwnedBy(n, x)
    ensures Sound(w.(entries := w.entries[k := n]))
  {
    hide OwnerHint;
    var w' := w.(entries := w.entries[k := n]);
    forall y, z | y in w'.rows && z in w'.rows && y != z ensures Apart(w', y, z) {
      assert Apart(w, y, z);
    }
  }

  lemma RemovedSound(w: World, k: EntryId)
    requires Sound(w)
    ensures Sound(w.(entries := w.entries - {k}))
  {
    hide OwnedBy;
    var w' := w.(entries := w.entries - {k});
    forall y, z | y in w'.rows && z in w'.rows && y != z ensures Apart(w', y, z) {
      assert Apart(w, y, z);
    }
  }

  /** What a create amounts to for row `x`, which is not bound to a live entry. */
  lemma CreateAim(entries: map<EntryId, Entry>, r: Rule, d: Entry)
    requires r.desiredState == "present" && DesiredEntry(r) == Ok(d) && !Bound(entries, r)
    ensures AimOf(entries, r) == match Stored(d)
              case None => Reject("spire_create_failed")
              case Some(n) => match Similar(entries, n)
                case None => Insert(n)
                case Some(k) => AimAt(entries, r.id, d, k, "spire_update_failed")
  {
    hide Stored;
    hide DesiredEntry;
  }

  lemma CreateMade(w: World, x: string, d: Entry, n: Entry, skip: nat)
    requires Sound(w) && x in w.rows && OnTrack(w, x, Create(d))
    requires Stored(d) == Some(n) && Similar(w.entries, n).None?
    ensures var k := w.next + skip;
            var w' := w.(entries := w.entries[k := n], next := k + 1);
            Follows(w, w', x, Create(d), Made(k, n))
  {
    hide Stored;
    hide OwnerHint;
    hide Equivalent;
    hide Sound;
    hide Goal;
    hide Firm;
    var k := w.next + skip;
    var w' := w.(entries := w.entries[k := n], next := k + 1);
    CreateAim(w.entries, w.rows[x], d);
    FiledUnder(w, x);
    hide AimOf;
    Inserted(w, x, k, n);
    InsertedSound(w, k, n);
    SimilarInserted(w.entries, n, k);
    FirmWhenOwn(w', x);
  }

  lemma FiledUnder(w: World, x: string)
    requires Sound(w) && x in w.rows
    ensures w.rows[x].id == x && IdsBelow(w)
  {
  }

  lemma CreateFound(w: World, x: string, d: Entry, n: Entry, k: EntryId)
    requires Sound(w) && x in w.rows && OnTrack(w, x, Create(d))
    requires Stored(d) == Some(n) && Similar(w.entries, n) == Some(k)
    ensures Follows(w, w, x, Create(d), Existing(k, w.entries[k]))
  {
    hide Stored;
    hide OwnerHint;
    hide Equivalent;
    CreateAim(w.entries, w.rows[x], d);
    assert w.rows[x].id == x;
    hide AimOf;
    hide Sound;
    hide Goal;
    hide Firm;
  }

  lemma CreateEffect(w: World, x: string, d: Entry, skip: nat)
    ensures Effect(w, x, CreateEntry(d), skip) == match Stored(d)
              case None => (w, Failed)
              case Some(n) => match Similar(w.entries, n)
                case Some(k) => (w, Existing(k, w.entries[k]))
                case None => (w.(entries := w.entries[w.next + skip := n], next := w.next + skip + 1),
                              Made(w.next + skip, n))
  {
    hide Stored;
    hide Similar;
  }

  lemma CreateStep(w: World, x: string, d: Entry, skip: nat)
    requires Sound(w) && x in w.rows && OnTrack(w, x, Create(d))
    ensures var (w', reply) := Effect(w, x, CreateEntry(d), skip); Follows(w, w', x, Create(d), reply)
  {
    hide Follows;
    hide OnTrack;
    hide Sound;
    hide Stored;
    hide Similar;
    CreateEffect(w, x, d, skip);
    hide Effect;
    if Stored(d).None? {
      CreateRefused(w, x, d);
    } else if Similar(w.entries, Stored(d).value).None? {
      CreateMade(w, x, d, Stored(d).value, skip);
    } else {
      CreateFound(w, x, d, Stored(d).value, Similar(w.entries, Stored(d).value).value);
    }
  }

  lemma CreateRefused(w: World, x: string, d: Entry)
    requires Sound(w) && x in w.rows && OnTrack(w, x, Create(d)) && Stored(d).None?
    ensures Follows(w, w, x, Create(d), Failed)
  {
    hide Stored;
    CreateAim(w.entries, w.rows[x], d);
    hide AimOf;
    hide Sound;
    hide Goal;
    hide Firm;
  }

  lemma UpdateStep(w: World, x: string, p: Point, skip: nat)
    requires Sound(w) && x in w.rows && OnTrack(w, x, p) && (p.UpdateBound? || p.UpdateExisting?)
    ensures var (w', reply) := Effect(w, x, NextCall(p), skip); Follows(w, w', x, p, reply)
  {
    hide Stored;
    var k := p.id;
    match Stored(p.desired) {
      case None => hide Sound; hide Goal; hide Firm; hide AimOf;
      case Some(n) => UpdateWrites(w, x, p, n);
    }
  }

  lemma UpdateWrites(w: World, x: string, p: Point, n: Entry)
    requires Sound(w) && x in w.rows && OnTrack(w, x, p) && (p.UpdateBound? || p.UpdateExisting?)
    requires Stored(p.desired) == Some(n)
    ensures Follows(w, w.(entries := w.entries[p.id := n]), x, p, Updated(p.id, n))
  {
    hide Stored;
    hide OwnerHint;
    var k := p.id;
    var w' := w.(entries := w.entries[k := n]);
    assert w.rows[x].id == x && AimOf(w.entries, w.rows[x]) == Write(k, n) && OwnedBy(w.entries[k], x);
    hide OnTrack;
    UpdateFirm(w, x, k, n);
    OverwrittenIsOwn(w.entries, w.rows[x], k, n);
    hide AimOf;
    Overwritten(w, x, k, n);
    OverwrittenSound(w, x, k, n);
    hide Sound;
    hide Goal;
    hide Firm;
    hide Ready;
    assert Keeps(w, w', x);
    hide Keeps;
    var q := Advance(w.rows[x], p, Updated(k, n));
    assert q.Record? && q.binding == Some(k);
    TrackedRecord(w', x, q);
  }

  lemma OverwrittenIsOwn(entries: map<EntryId, Entry>, r: Rule, k: EntryId, n: Entry)
    requires AimOf(entries, r) == Write(k, n)
    ensures OwnedBy(n, r.id)
  {
    hide AimOf;
    hide OwnedBy;
    AimIsOwn(entries, r);
  }

  lemma TrackedRecord(w: World, x: string, q: Point)
    requires x in w.rows && q.Record? && Ready(w, x, q.binding)
    ensures OnTrack(w, x, q)
  {
    hide Ready;
  }

  lemma UpdateFirm(w: World, x: string, k: EntryId, n: Entry)
    requires x in w.rows && w.rows[x].id == x && AimOf(w.entries, w.rows[x]) == Write(k, n)
    ensures Firm(w.(entries := w.entries[k := n]), x)
  {
    hide Stored;
    hide OwnerHint;
    var w' := w.(entries := w.entries[k := n]);
    AimIsOwn(w.entries, w.rows[x]);
    if !Bound(w.entries, w.rows[x]) { SimilarOverwritten(w.entries, n, k); }
    FirmWhenOwn(w', x);
  }

  lemma DeleteStep(w: World, x: string, k: EntryId, skip: nat)
    requires Sound(w) && x in w.rows && OnTrack(w, x, Delete(k))
    ensures var (w', reply) := Effect(w, x, DeleteEntry(k), skip); Follows(w, w', x, Delete(k), reply)
  {
    hide OwnerHint; hide Goal; hide Firm; hide Ready; hide Effect; hide Similar;
    assert w.rows[x].id == x;
    var w' := w.(entries := w.entries - {k});
    DeleteEffect(w, x, k, skip);
    Removed(w, x);
    RemovedSound(w, k);
    FirmWhenOwn(w', x);
    hide Sound;
    hide AimOf;
  }

  lemma DeleteEffect(w: World, x: string, k: EntryId, skip: nat)
    requires k in w.entries
    ensures Effect(w, x, DeleteEntry(k), skip) == (w.(entries := w.entries - {k}), Done)
  {
  }

  lemma LoggedKeeps(w: World, w': World, x: string)
    requires Sound(w) && x in w.rows && w' == w.(log := w'.log)
    ensures Sound(w') && Goal(w', x) == Goal(w, x) && (Firm(w, x) ==> Firm(w', x))
  {
    hide AimOf;
    hide OwnedBy;
    forall y, z | y in w'.rows && z in w'.rows && y != z ensures Apart(w', y, z) {
      assert Apart(w, y, z);
    }
  }

  lemma AppendStep(w: World, x: string, p: Point, skip: nat)
    requires Sound(w) && x in w.rows && OnTrack(w, x, p) && (p.Record? || p.RecordConflict?)
    ensures var (w', reply) := Effect(w, x, NextCall(p), skip); Follows(w, w', x, p, reply)
  {
    hide AimOf; hide OwnedBy; hide Goal; hide Firm; hide Sound; hide Effect;
    var w' := Effect(w, x, NextCall(p), skip).0;
    AppendEffect(w, x, NextCall(p), skip);
    LoggedKeeps(w, w', x);
  }

  lemma AppendEffect(w: World, x: string, call: Call, skip: nat)
    requires call.Append?
    ensures Effect(w, x, call, skip) == (w.(log := w.log + [Reconciled(x, call.operation, call.named)]), Done)
  {
  }

  lemma MarkStep(w: World, x: string, p: Point, skip: nat)
    requires Sound(w) && x in w.rows && OnTrack(w, x, p) && p.Mark?
    ensures var (w', reply) := Effect(w, x, NextCall(p), skip); Follows(w, w', x, p, reply)
  {
    var w' := w.(rows := w.rows[x := Converge(w.rows[x], p.binding)]);
    assert Ready(w, x, p.binding);
    hide OnTrack;
    Marked(w, x, p.binding);
    MarkedFirm(w, x, p.binding);
    ReadyConverges(w, x, p.binding);
    hide Ready;
    hide Firm;
    hide AimOf;
    hide Sound;
    hide Goal;
    hide PictureOf;
    assert Effect(w, x, MarkConverged(p.binding), skip) == (w', Done);
    hide Effect;
    assert Keeps(w, w', x);
    EndsMet(w', x, Settled(p.changed));
  }

  lemma ReadyConverges(w: World, x: string, b: Option<EntryId>)
    requires x in w.rows && Ready(w, x, b)
    ensures Goal(w, x).row.status == Converged
  {
    hide AimOf;
    hide OwnedBy;
  }

  lemma EndsMet(w: World, x: string, o: Outcome)
    requires x in w.rows && Met(w, x, o)
    ensures OnTrack(w, x, End(o))
  {
    hide Met;
  }

  lemma FailAim(w: World, x: string, p: Point)
    requires x in w.rows && OnTrack(w, x, p) && p.Fail?
    ensures AimOf(w.entries, w.rows[x]) == Reject(p.code)
  {
  }

  lemma FailStep(w: World, x: string, p: Point, skip: nat)
    requires Sound(w) && x in w.rows && OnTrack(w, x, p) && p.Fail?
    ensures var (w', reply) := Effect(w, x, NextCall(p), skip); Follows(w, w', x, p, reply)
  {
    hide Firm;
    hide Sound;
    hide Goal;
    hide PictureOf;
    var w' := w.(rows := w.rows[x := Errs(w.rows[x], p.code)]);
    FailAim(w, x, p);
    hide OnTrack;
    hide AimOf;
    MarkedError(w, x, p.code);
    ErredKeeps(w, x, p.code);
    RejectErrs(w, x);
    EndsMet(w', x, Broken);
  }

  lemma RejectErrs(w: World, x: string)
    requires x in w.rows
    ensures AimOf(w.entries, w.rows[x]).Reject? ==> Goal(w, x).row.status == Errored
  {
    hide AimOf;
    hide OwnedBy;
  }

  lemma MarkedFirm(w: World, x: string, b: Option<EntryId>)
    requires x in w.rows && Ready(w, x, b) && Sound(w)
    ensures Firm(w.(rows := w.rows[x := Converge(w.rows[x], b)]), x)
  {
    hide Stored;
    hide OwnerHint;
    FirmWhenOwn(w.(rows := w.rows[x := Converge(w.rows[x], b)]), x);
  }

  lemma ErredFirm(w: World, x: string, code: string)
    requires x in w.rows && Firm(w, x)
    ensures Firm(w.(rows := w.rows[x := Errs(w.rows[x], code)]), x)
  {
    hide Stored;
    hide OwnerHint;
    var w' := w.(rows := w.rows[x := Errs(w.rows[x], code)]);
    assert Seeks(w', x) == Seeks(w, x);
  }

  // ---- Any step, any fault ----

  lemma FineStep(w: World, x: string, p: Point, skip: nat)
    requires Sound(w) && x in w.rows && OnTrack(w, x, p) && !p.End?
    ensures var (w', reply) := Effect(w, x, NextCall(p), skip); Follows(w, w', x, p, reply)
  {
    hide Follows;
    hide OnTrack;
    hide Sound;
    hide Effect;
    match p {
      case FetchPresent(_, _) => FetchStep(w, x, p, skip);
      case FetchAbsent(_) => FetchStep(w, x, p, skip);
      case Create(d) => CreateStep(w, x, d, skip);
      case UpdateBound(_, _) => UpdateStep(w, x, p, skip);
      case UpdateExisting(_, _) => UpdateStep(w, x, p, skip);
      case Delete(k) => DeleteStep(w, x, k, skip);
      case Record(_, _, _, _) => AppendStep(w, x, p, skip);
      case RecordConflict(_) => AppendStep(w, x, p, skip);
      case Mark(_, _) => MarkStep(w, x, p, skip);
      case Fail(_) => FailStep(w, x, p, skip);
    }
  }

  lemma KeepsChain(w0: World, w1: World, w2: World, x: string)
    requires x in w0.rows && Keeps(w0, w1, x) && Keeps(w1, w2, x)
    ensures Keeps(w0, w2, x)
  {
    hide Firm;
    hide Goal;
    hide Sound;
  }

  lemma KeepsSelf(w: World, x: string)
    requires Sound(w) && x in w.rows
    ensures Keeps(w, w, x)
  {
    hide Firm;
    hide Goal;
    hide Sound;
  }

  /** A failed call takes the pass off the track, straight to its end. */
  lemma Derails(r: Rule, p: Point)
    requires !p.End?
    ensures var q := Advance(r, p, Failed); (q.Fail? && !p.Mark? && !p.Fail?) || q == End(Broken)
  {
  }

  lemma PassOn(w: World, fs: Faults, r: Rule, p: Point)
    requires !p.End?
    ensures var call := NextCall(p);
            var (w', reply) := Exec(w, r.id, call, FaultFor(fs, call));
            Pass(w, fs, r, p) == Pass(w', After(fs, call), r, Advance(r, p, reply))
  {
    hide Exec;
    hide Advance;
    hide NextCall;
  }

  lemma PassOver(w: World, fs: Faults, r: Rule, o: Outcome)
    ensures Pass(w, fs, r, End(o)) == PassEnd(w, fs, o)
  {
  }

  lemma FailEnds(r: Rule, code: string, reply: Reply)
    ensures NextCall(Fail(code)) == MarkError(code) && Advance(r, Fail(code), reply) == End(Broken)
  {
  }

  lemma DerailedPass(w: World, fs: Faults, x: string, code: string)
    requires Sound(w) && x in w.rows
    ensures var end := Pass(w, fs, w.rows[x], Fail(code)); Keeps(w, end.w, x) && end.outcome == Broken
  {
    var r := w.rows[x];
    assert r.id == x;
    hide Exec;
    hide Pass;
    var (w1, reply) := Exec(w, x, MarkError(code), FaultFor(fs, MarkError(code)));
    PassOn(w, fs, r, Fail(code));
    FailEnds(r, code, reply);
    hide Advance;
    hide NextCall;
    PassOver(w1, After(fs, MarkError(code)), r, Broken);
    ErrorKeeps(w, x, code, FaultFor(fs, MarkError(code)));
    hide Keeps;
    hide Sound;
  }

  lemma ErrorKeeps(w: World, x: string, code: string, f: Fault)
    requires Sound(w) && x in w.rows
    ensures Keeps(w, Exec(w, x, MarkError(code), f).0, x)
  {
    hide Keeps;
    hide Sound;
    KeepsSelf(w, x);
    ErredKeeps(w, x, code);
  }

  lemma ErredKeeps(w: World, x: string, code: string)
    requires Sound(w) && x in w.rows
    ensures Keeps(w, w.(rows := w.rows[x := Errs(w.rows[x], code)]), x)
  {
    hide Firm;
    hide Goal;
    hide Sound;
    MarkedError(w, x, code);
    if Firm(w, x) { ErredFirm(w, x, code); }
  }

  lemma RowsKept(w: World, x: string, p: Point, skip: nat)
    requires !p.End? && !p.Mark? && !p.Fail?
    ensures Effect(w, x, NextCall(p), skip).0.rows == w.rows
  {
    hide Stored;
    hide Similar;
  }

  /** A call that fails, with or without effect, keeps the goal and leads to the pass's end. */
  lemma DisturbedStep(w: World, x: string, p: Point, f: Fault)
    requires Sound(w) && x in w.rows && OnTrack(w, x, p) && !p.End? && !f.Fine?
    ensures var (w', reply) := Exec(w, x, NextCall(p), f);
      && reply == Failed && Keeps(w, w', x)
      && (Advance(w.rows[x], p, Failed).Fail? ==> w'.rows == w.rows)
  {
    Derails(w.rows[x], p);
    hide Advance;
    KeepsSelf(w, x);
    hide Keeps;
    if f.Lost? {
      LostStep(w, x, p, f.skip);
      if !p.Mark? && !p.Fail? { RowsKept(w, x, p, f.skip); }
    }
    hide Sound;
    hide OnTrack;
    hide Effect;
    hide NextCall;
  }

  lemma LostStep(w: World, x: string, p: Point, skip: nat)
    requires Sound(w) && x in w.rows && OnTrack(w, x, p) && !p.End?
    ensures Keeps(w, Effect(w, x, NextCall(p), skip).0, x)
  {
    hide Keeps;
    hide OnTrack;
    hide Effect;
    FineStep(w, x, p, skip);
    hide Sound;
  }

  /** One pass under any faults keeps the goal of its row. A pass that reports success has met
      it, and so has a pass without faults, which reports success exactly when the goal is
      convergence. */
  lemma {:induction false} PassMeets(w: World, fs: Faults, x: string, p: Point)
    requires Sound(w) && x in w.rows && OnTrack(w, x, p)
    ensures var end := Pass(w, fs, w.rows[x], p);
      && Keeps(w, end.w, x)
      && (end.outcome.Settled? ==> Met(end.w, x, end.outcome))
      && (FaultFree(fs) ==> Met(end.w, x, end.outcome) && FaultFree(end.fs))
    decreases Rank(p), 1
  {
    var r := w.rows[x];
    assert r.id == x;
    if p.End? {
      KeepsSelf(w, x);
      PassOver(w, fs, r, p.outcome);
      MetAtEnd(w, x, p.outcome);
      hide Pass;
      hide Sound;
      hide Keeps;
      hide Met;
      hide OnTrack;
    } else {
      hide Pass;
      hide Sound;
      hide Keeps;
      hide Met;
      hide OnTrack;
      if FaultFor(fs, NextCall(p)).Fine? {
        FinePass(w, fs, x, p);
      } else {
        DisturbedPass(w, fs, x, p);
      }
    }
  }

  lemma MetAtEnd(w: World, x: string, o: Outcome)
    requires x in w.rows && OnTrack(w, x, End(o))
    ensures Met(w, x, o)
  {
    hide Met;
  }

  lemma DisturbedPass(w: World, fs: Faults, x: string, p: Point)
    requires Sound(w) && x in w.rows && OnTrack(w, x, p) && !p.End? && !FaultFor(fs, NextCall(p)).Fine?
    ensures var end := Pass(w, fs, w.rows[x], p); Keeps(w, end.w, x) && end.outcome == Broken && !FaultFree(fs)
  {
    var r := w.rows[x];
    assert r.id == x;
    var call := NextCall(p);
    if FaultFree(fs) { FaultFreeStays(fs, call); }
    hide FaultFree;
    DisturbedStep(w, x, p, FaultFor(fs, call));
    Derails(r, p);
    PassOn(w, fs, r, p);
    var (w', reply) := Exec(w, x, call, FaultFor(fs, call));
    var q := Advance(r, p, Failed);
    hide OnTrack;
    hide Exec;
    hide Advance;
    if q.Fail? {
      DerailedAfter(w, w', After(fs, call), x, q.code);
    } else {
      PassOver(w', After(fs, call), r, Broken);
    }
    hide Pass;
    hide Keeps;
    hide Sound;
  }

  lemma DerailedAfter(w: World, w': World, fs: Faults, x: string, code: string)
    requires x in w.rows && Keeps(w, w', x) && w'.rows == w.rows
    ensures var end := Pass(w', fs, w.rows[x], Fail(code)); Keeps(w, end.w, x) && end.outcome == Broken
  {
    DerailedPass(w', fs, x, code);
    KeepsChain(w, w', Pass(w', fs, w.rows[x], Fail(code)).w, x);
    hide Pass;
    hide Keeps;
  }

  lemma {:induction false} FinePass(w: World, fs: Faults, x: string, p: Point)
    requires Sound(w) && x in w.rows && OnTrack(w, x, p) && !p.End? && FaultFor(fs, NextCall(p)).Fine?
    ensures var end := Pass(w, fs, w.rows[x], p);
      && Keeps(w, end.w, x)
      && (end.outcome.Settled? ==> Met(end.w, x, end.outcome))
      && (FaultFree(fs) ==> Met(end.w, x, end.outcome) && FaultFree(end.fs))
    decreases Rank(p), 0
  {
    var r := w.rows[x];
    assert r.id == x;
    var call := NextCall(p);
    var skip := FaultFor(fs, call).skip;
    var (w', reply) := Exec(w, x, call, FaultFor(fs, call));
    if FaultFree(fs) { FaultFreeStays(fs, call); }
    FineStep(w, x, p, skip);
    PassOn(w, fs, r, p);
    RankFalls(r, p, reply);
    var q := Advance(r, p, reply);
    assert Effect(w, x, call, skip) == (w', reply);
    hide Exec;
    hide Effect;
    hide Advance;
    hide FaultFree;
    hide OnTrack;
    if q.End? {
      MetAtEnd(w', x, q.outcome);
      PassOver(w', After(fs, call), r, q.outcome);
    } else {
      PassMeets(w', After(fs, call), x, q);
      KeepsChain(w, w', Pass(w', After(fs, call), r, q).w, x);
    }
    hide Pass;
    hide Keeps;
    hide Sound;
    hide Met;
  }
}

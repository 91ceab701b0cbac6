/** What a pass and a run can touch, whatever goes wrong: the foreign frame. */
module Frame {
  import opened Text
  import opened Spiffe
  import opened Entries
  import opened Registration
  import opened Backends
  import opened Protocol

  /** The workload's ID as the server writes it. */
  function Identity(r: Rule): Option<string> {
    match ParseSpiffeId(r.workloadSpiffeId)
    case Err(_) => None
    case Ok(id) => Some(FormatSpiffeId(id))
  }

  /** The part of a row that only operators write. */
  function Desire(r: Rule): Rule { r.(binding := None, status := Pending, lastError := None) }

  /** From `w` to `w'` only rule `r` acted: it wrote its own row, entries that carried its hint,
      and entries under its own workload ID; the audit log only grew. */
  predicate Touches(w: World, w': World, r: Rule) {
    && w'.rows.Keys == w.rows.Keys
    && (forall x :: x in w.rows ==> Desire(w'.rows[x]) == Desire(w.rows[x]))
    && (forall x :: x in w.rows && x != r.id ==> w'.rows[x] == w.rows[x])
    && (forall k :: k in w.entries && !OwnedBy(w.entries[k], r.id) ==> k in w'.entries && w'.entries[k] == w.entries[k])
    && (forall k :: k in w'.entries ==> Own(w, w', r, k))
    && w.next <= w'.next && w.log <= w'.log
    && (IdsBelow(w) ==> IdsBelow(w'))
  }

  /** The server has handed out every ID in use. */
  predicate IdsBelow(w: World) { forall k :: k in w.entries ==> k < w.next }

  predicate Own(w: World, w': World, r: Rule, k: EntryId)
    requires k in w'.entries
  {
    || (k in w.entries && w'.entries[k] == w.entries[k])
    || (OwnedBy(w'.entries[k], r.id) && Identity(r) == Some(w'.entries[k].spiffeId) && (k in w.entries || w.next <= k))
  }

  lemma TouchesChain(w0: World, w1: World, w2: World, r: Rule)
    requires Touches(w0, w1, r) && Touches(w1, w2, r)
    ensures Touches(w0, w2, r)
  {
    forall k | k in w2.entries ensures Own(w0, w2, r, k) {
      assert Own(w1, w2, r, k);
      if k in w1.entries { assert Own(w0, w1, r, k); }
    }
  }

  /** What point `p` wants to write is its own, and so is the entry it is about to change. */
  predicate Poised(w: World, r: Rule, p: Point) {
    && (p.FetchPresent? || p.Create? || p.UpdateBound? || p.UpdateExisting? ==>
          p.desired.hint == OwnerHint(r.id) && p.desired.spiffeId == r.workloadSpiffeId)
    && (p.UpdateBound? || p.UpdateExisting? || p.Delete? ==>
          p.id in w.entries ==> OwnedBy(w.entries[p.id], r.id))
  }

  /** What the server stores for `e` is under the rule's hint and the workload's ID. */
  lemma StoredIsOwn(r: Rule, e: Entry)
    requires Stored(e).Some? && e.hint == OwnerHint(r.id) && e.spiffeId == r.workloadSpiffeId
    ensures OwnedBy(Stored(e).value, r.id) && Identity(r) == Some(Stored(e).value.spiffeId)
  {
    StoredAgrees(e);
  }

  lemma WriteTouches(w: World, r: Rule, k: EntryId, n: Entry, next: EntryId)
    requires OwnedBy(n, r.id) && Identity(r) == Some(n.spiffeId)
    requires if k in w.entries then OwnedBy(w.entries[k], r.id) else w.next <= k
    requires w.next <= next && k < next
    ensures Touches(w, w.(entries := w.entries[k := n], next := next), r)
  {
    hide Identity;
    hide OwnedBy;
    var w' := w.(entries := w.entries[k := n], next := next);
    assert Own(w, w', r, k);
  }

  lemma DeleteTouches(w: World, r: Rule, k: EntryId)
    requires k in w.entries ==> OwnedBy(w.entries[k], r.id)
    ensures Touches(w, w.(entries := w.entries - {k}), r)
  {
    hide Identity;
    hide OwnedBy;
    var w' := w.(entries := w.entries - {k});
    assert forall j :: j in w'.entries ==> Own(w, w', r, j);
  }

  lemma RowTouches(w: World, r: Rule, row: Rule)
    requires r.id in w.rows && Desire(row) == Desire(w.rows[r.id])
    ensures Touches(w, w.(rows := w.rows[r.id := row]), r)
  {
    hide Identity;
    hide OwnedBy;
  }

  lemma LogTouches(w: World, r: Rule, log: seq<AuditEvent>)
    requires w.log <= log
    ensures Touches(w, w.(log := log), r)
  {
  }

  /** What a create does to the world, apart from its reply. */
  lemma CreateWrites(w: World, x: string, d: Entry, skip: nat)
    ensures Effect(w, x, CreateEntry(d), skip).0 ==
            (if Stored(d).Some? && Similar(w.entries, Stored(d).value).None?
             then w.(entries := w.entries[w.next + skip := Stored(d).value], next := w.next + skip + 1)
             else w)
  {
    hide Stored;
    hide Similar;
  }

  lemma CreateTouches(w: World, r: Rule, d: Entry, skip: nat)
    requires d.hint == OwnerHint(r.id) && d.spiffeId == r.workloadSpiffeId && IdsBelow(w)
    ensures Touches(w, Effect(w, r.id, CreateEntry(d), skip).0, r)
  {
    hide *;
    CreateWrites(w, r.id, d, skip);
    NothingTouches(w, r);
    if Stored(d).Some? {
      StoredIsOwn(r, d);
      NewTouches(w, r, w.next + skip, Stored(d).value);
    }
  }

  lemma NothingTouches(w: World, r: Rule)
    ensures Touches(w, w, r)
  {
    hide Identity;
    hide OwnedBy;
  }

  lemma NewTouches(w: World, r: Rule, k: EntryId, n: Entry)
    requires OwnedBy(n, r.id) && Identity(r) == Some(n.spiffeId) && IdsBelow(w) && w.next <= k
    ensures Touches(w, w.(entries := w.entries[k := n], next := k + 1), r)
  {
    assert k !in w.entries;
    hide *;
    WriteTouches(w, r, k, n, k + 1);
  }

  lemma RowWriteTouches(w: World, r: Rule, call: Call, skip: nat)
    requires call.MarkConverged? || call.MarkError?
    ensures Touches(w, Effect(w, r.id, call, skip).0, r)
  {
    hide Touches;
    hide Desire;
    hide Taken;
    LogTouches(w, r, w.log);
    if r.id in w.rows {
      if call.MarkConverged? {
        DesireKept(w.rows[r.id], call.binding, "");
        RowTouches(w, r, Converge(w.rows[r.id], call.binding));
      } else {
        DesireKept(w.rows[r.id], None, call.code);
        RowTouches(w, r, Errs(w.rows[r.id], call.code));
      }
    }
  }

  lemma ReadTouches(w: World, r: Rule, call: Call, skip: nat)
    requires call.GetEntry? || call.Append?
    ensures Touches(w, Effect(w, r.id, call, skip).0, r)
  {
    hide Touches;
    LogTouches(w, r, w.log);
    if call.Append? { LogTouches(w, r, w.log + [Reconciled(r.id, call.operation, call.named)]); }
  }

  lemma RemovalTouches(w: World, r: Rule, k: EntryId, skip: nat)
    requires k in w.entries ==> OwnedBy(w.entries[k], r.id)
    ensures Touches(w, Effect(w, r.id, DeleteEntry(k), skip).0, r)
  {
    hide Touches;
    LogTouches(w, r, w.log);
    DeleteTouches(w, r, k);
  }

  lemma EffectTouches(w: World, r: Rule, p: Point, skip: nat)
    requires !p.End? && Poised(w, r, p) && IdsBelow(w)
    ensures Touches(w, Effect(w, r.id, NextCall(p), skip).0, r)
  {
    hide Effect;
    hide Touches;
    match p {
      case Create(d) => CreateTouches(w, r, d, skip);
      case UpdateBound(k, d) => UpdateTouches(w, r, k, d, skip);
      case UpdateExisting(k, d) => UpdateTouches(w, r, k, d, skip);
      case Delete(k) => RemovalTouches(w, r, k, skip);
      case Mark(_, _) => RowWriteTouches(w, r, NextCall(p), skip);
      case Fail(_) => RowWriteTouches(w, r, NextCall(p), skip);
      case FetchPresent(_, _) => ReadTouches(w, r, NextCall(p), skip);
      case FetchAbsent(_) => ReadTouches(w, r, NextCall(p), skip);
      case Record(_, _, _, _) => ReadTouches(w, r, NextCall(p), skip);
      case RecordConflict(_) => ReadTouches(w, r, NextCall(p), skip);
    }
  }

  lemma DesireKept(r: Rule, b: Option<EntryId>, code: string)
    ensures Desire(Converge(r, b)) == Desire(r) && Desire(Errs(r, code)) == Desire(r)
  {
  }

  lemma UpdateTouches(w: World, r: Rule, k: EntryId, d: Entry, skip: nat)
    requires d.hint == OwnerHint(r.id) && d.spiffeId == r.workloadSpiffeId && IdsBelow(w)
    requires k in w.entries ==> OwnedBy(w.entries[k], r.id)
    ensures Touches(w, Effect(w, r.id, UpdateEntry(k, d), skip).0, r)
  {
    hide Stored;
    hide Touches;
    LogTouches(w, r, w.log);
    if Stored(d).Some? && k in w.entries {
      StoredIsOwn(r, d);
      WriteTouches(w, r, k, Stored(d).value, w.next);
    }
  }

  lemma AdvancePoised(w: World, r: Rule, p: Point, f: Fault)
    requires !p.End? && Poised(w, r, p) && IdsBelow(w)
    ensures var (w', reply) := Exec(w, r.id, NextCall(p), f); Poised(w', r, Advance(r, p, reply))
  {
    hide Stored;
    hide Equivalent;
    if p.FetchPresent? || p.FetchAbsent? {
    } else if p.Create? {
    } else {
    }
  }

  lemma StepTouches(w: World, r: Rule, p: Point, f: Fault)
    requires !p.End? && Poised(w, r, p) && IdsBelow(w)
    ensures var (w', reply) := Exec(w, r.id, NextCall(p), f);
            Touches(w, w', r) && Poised(w', r, Advance(r, p, reply))
  {
    match f {
      case Fine(skip) => EffectTouches(w, r, p, skip);
      case Lost(skip) => EffectTouches(w, r, p, skip);
      case Refused =>
    }
    AdvancePoised(w, r, p, f);
  }

  lemma {:induction false} PassTouches(w: World, fs: Faults, r: Rule, p: Point)
    requires Poised(w, r, p) && IdsBelow(w)
    ensures Touches(w, Pass(w, fs, r, p).w, r)
    decreases Rank(p)
  {
    if !p.End? {
      var call := NextCall(p);
      var (w', reply) := Exec(w, r.id, call, FaultFor(fs, call));
      StepTouches(w, r, p, FaultFor(fs, call));
      RankFalls(r, p, reply);
      PassTouches(w', After(fs, call), r, Advance(r, p, reply));
      TouchesChain(w, w', Pass(w, fs, r, p).w, r);
    }
  }

  lemma StartPoised(w: World, r: Rule)
    ensures Poised(w, r, Start(r))
  {
  }

  /** Foreign frame: for every list of rules, SPIRE contents and fault schedule, a run leaves
      alone every entry without a listed rule's hint and every row not listed; whatever is new
      or changed carries a listed rule's hint; desired fields stay and the audit log only grows. */
  lemma {:induction false} ForeignFrame(w: World, fs: Faults, rules: seq<Rule>)
    requires IdsBelow(w)
    ensures var w' := RunOver(w, fs, rules).w;
      && w'.rows.Keys == w.rows.Keys
      && (forall x :: x in w.rows ==> Desire(w'.rows[x]) == Desire(w.rows[x]))
      && (forall x :: x in w.rows && (forall i :: 0 <= i < |rules| ==> rules[i].id != x) ==> w'.rows[x] == w.rows[x])
      && (forall k :: k in w.entries && (forall i :: 0 <= i < |rules| ==> !OwnedBy(w.entries[k], rules[i].id)) ==>
            k in w'.entries && w'.entries[k] == w.entries[k])
      && (forall k :: k in w'.entries ==>
            (k in w.entries && w'.entries[k] == w.entries[k]) ||
            (exists i :: 0 <= i < |rules| && OwnedBy(w'.entries[k], rules[i].id)))
      && w.log <= w'.log
    decreases |rules|
  {
    hide Pass; hide Start; hide OwnedBy; hide Desire;
    if rules != [] {
      var first := Pass(w, fs, rules[0], Start(rules[0]));
      var tail := rules[1..];
      StartPoised(w, rules[0]);
      PassTouches(w, fs, rules[0], Start(rules[0]));
      ForeignFrame(first.w, first.fs, tail);
      var w' := RunOver(w, fs, rules).w;
      assert forall i :: 0 <= i < |tail| ==> tail[i] == rules[i + 1];
      forall k | k in w.entries && (forall i :: 0 <= i < |rules| ==> !OwnedBy(w.entries[k], rules[i].id))
        ensures k in w'.entries && w'.entries[k] == w.entries[k]
      {
        assert !OwnedBy(w.entries[k], rules[0].id);
      }
      forall k | k in w'.entries
        ensures (k in w.entries && w'.entries[k] == w.entries[k]) ||
                (exists i :: 0 <= i < |rules| && OwnedBy(w'.entries[k], rules[i].id))
      {
        if k in first.w.entries && w'.entries[k] == first.w.entries[k] {
          assert Own(w, first.w, rules[0], k);
        } else {
          var i :| 0 <= i < |tail| && OwnedBy(w'.entries[k], tail[i].id);
          assert OwnedBy(w'.entries[k], rules[i + 1].id);
        }
      }
    }
  }

  /** Reconciling one rule never alters an entry that carries another rule's hint. */
  lemma OtherRulesEntries(w: World, fs: Faults, r: Rule, other: string, k: EntryId)
    requires IdsBelow(w) && other != r.id && k in w.entries && OwnedBy(w.entries[k], other)
    ensures var w' := Pass(w, fs, r, Start(r)).w; k in w'.entries && w'.entries[k] == w.entries[k]
  {
    HintInjective(other, r.id);
    PassTouches(w, fs, r, Start(r));
  }
}

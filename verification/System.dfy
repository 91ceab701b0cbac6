/** The whole system over time: one reconciler, operators, crashes, faults and other users of
    SPIRE, interleaved call by call. Others may delete entries, edit them short of the hint, and
    add entries without a rule's hint. */
module System {
  import opened Text
  import opened Entries
  import opened Registration
  import opened Backends
  import opened Protocol
  import opened Frame
  import opened Goals
  import opened Recovery
  import opened Runs
  import opened Convergence

  /** A run in progress: rows still to do, the row being reconciled as it was listed, and the
      entry that this row's pass created and has not yet bound. */
  datatype Running = Idle | Active(todo: seq<Rule>, current: Rule, point: Point, made: Option<EntryId>)

  /** `born` remembers under which hint each ID was first handed out, and `lost` counts per rule
      the passes that created an entry and ended without binding it. Both are history only. */
  datatype State = State(w: World, born: map<EntryId, string>, run: Running, lost: map<string, nat>)

  datatype Step =
    | Begin(order: seq<string>)
    | Call(fault: Fault)
    | NextRule
    | Crash
    | Replace(ruleId: string, input: ReplaceInput)
    | AddRule(rule: Rule)
    | OutsideDelete(id: EntryId)
    | OutsideInsert(skip: nat, entry: Entry)
    | OutsideEdit(id: EntryId, entry: Entry)

  predicate Enabled(s: State, step: Step) {
    match step
    case Begin(order) => s.run.Idle? && Enumerates(s.w, order)
    case Call(_) => s.run.Active? && !s.run.point.End?
    case NextRule => s.run.Active? && s.run.point.End?
    case Crash => s.run.Active?
    case Replace(x, input) => x in s.w.rows && s.w.rows[x].revision == input.expectedRevision
    case AddRule(r) =>
      && r.id !in s.w.rows && r.binding.None? && r.status == Pending && r.lastError.None?
      && (forall x :: x in s.w.rows ==> OtherIdentity(s.w.rows[x], r) && OtherIdentity(r, s.w.rows[x]))
      && (forall k :: k in s.born ==> s.born[k] != OwnerHint(r.id))
    case OutsideDelete(k) => true
    case OutsideInsert(_, e) => !("wtp-rule:" <= e.hint)
    case OutsideEdit(k, e) => k in s.w.entries && e.hint == s.w.entries[k].hint
  }

  function LostPasses(s: State, x: string): nat { if x in s.lost then s.lost[x] else 0 }

  /** The pass of the current row is over or has died. */
  function Forget(s: State): map<string, nat>
    requires s.run.Active?
  {
    if s.run.made.Some? then s.lost[s.run.current.id := LostPasses(s, s.run.current.id) + 1] else s.lost
  }

  function StartRule(rules: seq<Rule>): Running {
    if rules == [] then Idle else Active(rules[1..], rules[0], Start(rules[0]), None)
  }

  /** The entry made and not yet bound, after the current pass made a call that took effect. */
  function MadeBy(w: World, call: Backends.Call, w': World, made: Option<EntryId>): Option<EntryId> {
    if call.CreateEntry? && w'.next > w.next then Some(w'.next - 1)
    else if call.MarkConverged? && w'.rows != w.rows then None
    else made
  }

  /** The stores after the reconciler's next call, with what history records of it. */
  function AfterCall(s: State, f: Fault): State
    requires s.run.Active? && !s.run.point.End?
  {
    var r, p := s.run.current, s.run.point;
    var (w', reply) := Exec(s.w, r.id, NextCall(p), f);
    var born' := if w'.next > s.w.next then s.born[w'.next - 1 := OwnerHint(r.id)] else s.born;
    var run' := Active(s.run.todo, r, Advance(r, p, reply), MadeBy(s.w, NextCall(p), w', s.run.made));
    State(w', born', run', s.lost)
  }

  /** An operator's transaction: the row and its audit event together. */
  function Operate(w: World, r: Rule, operation: string): World {
    w.(rows := w.rows[r.id := r], log := w.log + [Operated(r.id, operation, r.revision)])
  }

  function Next(s: State, step: Step): State
    requires Enabled(s, step)
  {
    match step
    case Begin(order) => s.(run := StartRule(ListRows(s.w, order)))
    case Call(f) => AfterCall(s, f)
    case NextRule => s.(run := StartRule(s.run.todo), lost := Forget(s))
    case Crash => s.(run := Idle, lost := Forget(s))
    case Replace(x, input) => s.(w := Operate(s.w, Replaced(s.w.rows[x], input), "replace"))
    case AddRule(r) => s.(w := Operate(s.w, r, "create"))
    case OutsideDelete(k) => s.(w := s.w.(entries := s.w.entries - {k}))
    case OutsideInsert(skip, e) =>
      var k := s.w.next + skip;
      s.(w := s.w.(entries := s.w.entries[k := e], next := k + 1), born := s.born[k := e.hint])
    case OutsideEdit(k, e) => s.(w := s.w.(entries := s.w.entries[k := e]))
  }

  // ---- The invariant ----

  predicate IsOf(born: map<EntryId, string>, k: EntryId, x: string) { k in born && born[k] == OwnerHint(x) }

  /** The row's binding, as listed, is not an entry in SPIRE any more, or never was. */
  predicate Dead(w: World, r: Rule) { !Bound(w.entries, r) }

  /** What a pass knows about IDs at point `p`. */
  predicate PointOk(w: World, born: map<EntryId, string>, r: Rule, p: Point, made: Option<EntryId>) {
    && (p.FetchPresent? || p.Create? || p.UpdateBound? || p.UpdateExisting? ==> p.desired.hint == OwnerHint(r.id))
    && (p.FetchPresent? || p.FetchAbsent? ==> r.binding == Some(p.id))
    && (p.Create? || p.UpdateExisting? ==> Dead(w, r))
    && (p.UpdateBound? || p.Delete? ==> r.binding == Some(p.id))
    && (p.UpdateExisting? ==> IsOf(born, p.id, r.id))
    && (p.Record? || p.Mark? ==>
          if p.binding.Some? then IsOf(born, p.binding.value, r.id) && (r.binding == p.binding || Dead(w, r))
          else Dead(w, r))
    && (made.Some? ==> p.RecordConflict? || p.Fail? || p.End? || ((p.Record? || p.Mark?) && p.binding == made))
  }

  predicate BornOk(s: State) {
    && (forall k :: k in s.w.entries ==> k in s.born && s.born[k] == s.w.entries[k].hint)
    && (forall k :: k in s.born ==> k < s.w.next)
    && (forall x :: x in s.w.rows && s.w.rows[x].binding.Some? ==> IsOf(s.born, s.w.rows[x].binding.value, x))
  }

  predicate RowsOk(w: World) {
    && (forall x :: x in w.rows ==> w.rows[x].id == x)
    && (forall x :: x in w.rows ==> w.rows[x].status == Converged ==> w.rows[x].lastError.None?)
  }

  predicate ListedOk(w: World, r: Rule) { r.id in w.rows && r.binding == w.rows[r.id].binding }

  predicate RunOk(s: State) {
    s.run.Active? ==>
      && (forall i :: 0 <= i < |s.run.todo| ==> ListedOk(s.w, s.run.todo[i]) && s.run.todo[i].id != s.run.current.id)
      && (forall i, j :: 0 <= i < j < |s.run.todo| ==> s.run.todo[i].id != s.run.todo[j].id)
      && s.run.current.id in s.w.rows
      && (!s.run.point.End? ==> ListedOk(s.w, s.run.current))
      && PointOk(s.w, s.born, s.run.current, s.run.point, s.run.made)
  }

  /** Entries under the rule's hint that its row is not bound to. */
  function Orphans(w: World, x: string): set<EntryId>
    requires x in w.rows
  {
    set k | k in w.entries && OwnedBy(w.entries[k], x) && w.rows[x].binding != Some(k)
  }

  function InHand(s: State, x: string): set<EntryId> {
    if s.run.Active? && s.run.current.id == x && s.run.made.Some? then {s.run.made.value} else {}
  }

  predicate OrphansOk(s: State, x: string)
    requires x in s.w.rows
  {
    |Orphans(s.w, x) - InHand(s, x)| <= LostPasses(s, x)
  }

  predicate Inv(s: State) {
    && RowsOk(s.w) && BornOk(s) && RunOk(s) && DistinctIdentities(s.w)
    && forall x :: x in s.w.rows ==> OrphansOk(s, x)
  }

  /** Nothing registered, no run under way, and no entry with a rule's hint. */
  predicate Init(s: State) {
    && s.w.rows == map[] && s.run.Idle? && s.lost == map[]
    && (forall k :: k in s.w.entries ==> k in s.born && s.born[k] == s.w.entries[k].hint)
    && (forall k :: k in s.born ==> k < s.w.next && !("wtp-rule:" <= s.born[k]))
  }

  lemma InitInv(s: State)
    requires Init(s)
    ensures Inv(s)
  {
  }

  // ---- Each step keeps it ----

  lemma FewerAstray(s: State, s': State, x: string)
    requires x in s.w.rows && x in s'.w.rows && OrphansOk(s, x) && LostPasses(s', x) >= LostPasses(s, x)
    requires Orphans(s'.w, x) - InHand(s', x) <= Orphans(s.w, x) - InHand(s, x)
    ensures OrphansOk(s', x)
  {
    Smaller(Orphans(s'.w, x) - InHand(s', x), Orphans(s.w, x) - InHand(s, x));
  }

  lemma {:induction false} Smaller(a: set<EntryId>, b: set<EntryId>)
    requires a <= b
    ensures |a| <= |b|
  {
    if k :| k in a {
      Smaller(a - {k}, b - {k});
    }
  }

  /** The reconciler's next call changes the stores in one of these ways. */
  datatype Change =
    | Nothing
    | Inserts(id: EntryId, entry: Entry)
    | Overwrites(id: EntryId, entry: Entry)
    | Removes(id: EntryId)
    | Marks(row: Rule)
    | Logs(event: AuditEvent)

  function Changed(w: World, x: string, c: Change): World {
    match c
    case Nothing => w
    case Inserts(k, n) => w.(entries := w.entries[k := n], next := k + 1)
    case Overwrites(k, n) => w.(entries := w.entries[k := n])
    case Removes(k) => w.(entries := w.entries - {k})
    case Marks(row) => w.(rows := w.rows[x := row])
    case Logs(e) => w.(log := w.log + [e])
  }

  /** Which changes point `p` of a pass for rule `x` can make. */
  predicate MayChange(w: World, x: string, p: Point, c: Change) {
    match c
    case Nothing => true
    case Inserts(k, n) => p.Create? && w.next <= k && n.hint == p.desired.hint
    case Overwrites(k, n) => (p.UpdateBound? || p.UpdateExisting?) && p.id == k && k in w.entries && n.hint == p.desired.hint
    case Removes(k) => p.Delete? && p.id == k && k in w.entries
    case Marks(row) =>
      && x in w.rows
      && ((p.Mark? && row == Converge(w.rows[x], p.binding)) || (p.Fail? && row == Errs(w.rows[x], p.code)))
    case Logs(e) => p.Record? || p.RecordConflict?
  }

  lemma CreateChanges(w: World, x: string, p: Point, skip: nat) returns (c: Change)
    requires p.Create?
    ensures MayChange(w, x, p, c) && Effect(w, x, NextCall(p), skip).0 == Changed(w, x, c)
  {
    var d := p.desired;
    CreateEffect(w, x, d, skip);
    hide Effect;
    hide SameKey;
    c := NoChange(w, x, p);
    if Stored(d).Some? {
      var n, k := Stored(d).value, w.next + skip;
      StoredHint(d);
      InsertsMay(w, x, p, k, n);
      hide Stored;
      hide MayChange;
      hide Changed;
      if Similar(w.entries, n).None? { c := Inserts(k, n); }
    }
  }

  lemma InsertsMay(w: World, x: string, p: Point, k: EntryId, n: Entry)
    requires p.Create? && w.next <= k && n.hint == p.desired.hint
    ensures MayChange(w, x, p, Inserts(k, n))
    ensures Changed(w, x, Inserts(k, n)) == w.(entries := w.entries[k := n], next := k + 1)
  {
  }

  lemma UpdateDoes(w: World, x: string, k: EntryId, d: Entry, skip: nat)
    ensures Effect(w, x, UpdateEntry(k, d), skip).0 ==
            if Stored(d).Some? && k in w.entries then w.(entries := w.entries[k := Stored(d).value]) else w
  {
    hide Stored;
  }

  lemma UpdateChanges(w: World, x: string, p: Point, skip: nat) returns (c: Change)
    requires p.UpdateBound? || p.UpdateExisting?
    ensures MayChange(w, x, p, c) && Effect(w, x, NextCall(p), skip).0 == Changed(w, x, c)
  {
    var d := p.desired;
    if Stored(d).Some? { StoredHint(d); }
    c := if Stored(d).Some? && p.id in w.entries then Overwrites(p.id, Stored(d).value) else Nothing;
    UpdateDoes(w, x, p.id, d, skip);
    hide Stored;
    hide Effect;
  }

  lemma RowChanges(w: World, x: string, p: Point, skip: nat) returns (c: Change)
    requires p.Mark? || p.Fail?
    ensures MayChange(w, x, p, c) && Effect(w, x, NextCall(p), skip).0 == Changed(w, x, c)
  {
    hide Taken; hide Effect; hide Converge; hide Errs;
    if p.Mark? { MarkEffect(w, x, p.binding, skip); } else { ErrorEffect(w, x, p.code, skip); }
    if x !in w.rows || (p.Mark? && Taken(w.rows, x, p.binding)) {
      c := Nothing;
    } else if p.Mark? {
      c := Marks(Converge(w.rows[x], p.binding));
    } else {
      c := Marks(Errs(w.rows[x], p.code));
    }
  }

  lemma MarkEffect(w: World, x: string, b: Option<EntryId>, skip: nat)
    ensures Effect(w, x, MarkConverged(b), skip).0 ==
            if x !in w.rows || Taken(w.rows, x, b) then w else w.(rows := w.rows[x := Converge(w.rows[x], b)])
  {
    hide Taken; hide Converge;
  }

  lemma ErrorEffect(w: World, x: string, code: string, skip: nat)
    ensures Effect(w, x, MarkError(code), skip).0 ==
            if x !in w.rows then w else w.(rows := w.rows[x := Errs(w.rows[x], code)])
  {
    hide Errs;
  }

  lemma OtherChanges(w: World, x: string, p: Point, skip: nat) returns (c: Change)
    requires p.FetchPresent? || p.FetchAbsent? || p.Delete? || p.Record? || p.RecordConflict?
    ensures MayChange(w, x, p, c) && Effect(w, x, NextCall(p), skip).0 == Changed(w, x, c)
  {
    match p {
      case Delete(k) => c := if k in w.entries then Removes(k) else Nothing;
      case Record(op, named, _, _) => c := Logs(Reconciled(x, op, named));
      case RecordConflict(k) => c := Logs(Reconciled(x, "ownership_conflict", Some(k)));
      case _ => c := Nothing;
    }
  }

  lemma EffectChanges(w: World, x: string, p: Point, skip: nat) returns (c: Change)
    requires !p.End?
    ensures MayChange(w, x, p, c) && Effect(w, x, NextCall(p), skip).0 == Changed(w, x, c)
  {
    hide Effect;
    hide MayChange;
    hide NextCall;
    match p {
      case Create(_) => c := CreateChanges(w, x, p, skip);
      case UpdateBound(_, _) => c := UpdateChanges(w, x, p, skip);
      case UpdateExisting(_, _) => c := UpdateChanges(w, x, p, skip);
      case Mark(_, _) => c := RowChanges(w, x, p, skip);
      case Fail(_) => c := RowChanges(w, x, p, skip);
      case _ => c := OtherChanges(w, x, p, skip);
    }
  }

  lemma StoredHint(d: Entry)
    requires Stored(d).Some?
    ensures Stored(d).value.hint == d.hint
  {
    StoredAgrees(d);
  }

  lemma ExecChanges(w: World, x: string, p: Point, f: Fault) returns (c: Change)
    requires !p.End?
    ensures MayChange(w, x, p, c) && Exec(w, x, NextCall(p), f).0 == Changed(w, x, c)
  {
    hide Effect;
    hide MayChange;
    if f.Refused? {
      c := NoChange(w, x, p);
    } else {
      c := EffectChanges(w, x, p, f.skip);
    }
  }

  lemma NoChange(w: World, x: string, p: Point) returns (c: Change)
    ensures MayChange(w, x, p, c) && Changed(w, x, c) == w
  {
    c := Nothing;
  }

  lemma ChangeKeepsFields(w: World, x: string, p: Point, c: Change)
    requires RowsOk(w) && MayChange(w, x, p, c)
    ensures var w' := Changed(w, x, c);
            RowsOk(w') && w'.rows.Keys == w.rows.Keys
            && forall y :: y in w.rows ==> w'.rows[y].workloadSpiffeId == w.rows[y].workloadSpiffeId
    ensures forall y :: y in w.rows && (y != x || !c.Marks? || !p.Mark?) ==>
              Changed(w, x, c).rows[y].binding == w.rows[y].binding
  {
    hide OwnedBy;
  }

  /** Rows, history and orphans after a change that point `p` may make. */
  lemma ChangeKeepsRows(w: World, x: string, p: Point, c: Change)
    requires RowsOk(w) && DistinctIdentities(w) && MayChange(w, x, p, c)
    ensures var w' := Changed(w, x, c);
            RowsOk(w') && DistinctIdentities(w') && w'.rows.Keys == w.rows.Keys
    ensures forall y :: y in w.rows && (y != x || !c.Marks? || !p.Mark?) ==>
              Changed(w, x, c).rows[y].binding == w.rows[y].binding
  {
    hide Identity;
    hide OwnedBy;
    hide MayChange;
    ChangeKeepsFields(w, x, p, c);
    hide Changed;
    hide RowsOk;
    var w' := Changed(w, x, c);
    forall y, z | y in w'.rows && z in w'.rows && y != z ensures OtherIdentity(w'.rows[y], w'.rows[z]) {
      assert OtherIdentity(w.rows[y], w.rows[z]);
      SameIdentity(w.rows[y], w'.rows[y]);
      SameIdentity(w.rows[z], w'.rows[z]);
    }
  }

  function BornAfter(w: World, w': World, born: map<EntryId, string>, x: string): map<EntryId, string> {
    if w'.next > w.next then born[w'.next - 1 := OwnerHint(x)] else born
  }

  lemma ChangeKeepsBorn(s: State, x: string, c: Change)
    requires BornOk(s) && s.run.Active? && s.run.current.id == x && x in s.w.rows
    requires ListedOk(s.w, s.run.current) && PointOk(s.w, s.born, s.run.current, s.run.point, s.run.made)
    requires MayChange(s.w, x, s.run.point, c)
    ensures var w' := Changed(s.w, x, c);
            BornOk(s.(w := w', born := BornAfter(s.w, w', s.born, x)))
  {
    hide OwnerHint;
  }

  lemma ChangeKeepsOrphans(s: State, x: string, c: Change, y: string)
    requires BornOk(s) && s.run.Active? && s.run.current.id == x && x in s.w.rows && y in s.w.rows
    requires ListedOk(s.w, s.run.current) && PointOk(s.w, s.born, s.run.current, s.run.point, s.run.made)
    requires MayChange(s.w, x, s.run.point, c) && !s.run.point.End?
    ensures var w' := Changed(s.w, x, c);
            var made' := MadeBy(s.w, NextCall(s.run.point), w', s.run.made);
            Orphans(w', y) - (if x == y && made'.Some? then {made'.value} else {}) <= Orphans(s.w, y) - InHand(s, y)
  {
    HintInjective(x, y);
    hide OwnerHint;
  }

  /** Where the pass stands after a call, with or without a fault. */
  lemma PointKept(s: State, f: Fault)
    requires BornOk(s) && s.run.Active? && !s.run.point.End? && s.run.current.id in s.w.rows
    requires ListedOk(s.w, s.run.current) && PointOk(s.w, s.born, s.run.current, s.run.point, s.run.made)
    ensures var s' := AfterCall(s, f); PointOk(s'.w, s'.born, s'.run.current, s'.run.point, s'.run.made)
  {
    hide OwnerHint;
    hide Equivalent;
    var r, p := s.run.current, s.run.point;
    match p {
      case Create(d) => CreateKeepsPoint(s, f);
      case UpdateBound(_, d) => UpdateKeepsPoint(s, f);
      case UpdateExisting(_, d) => UpdateKeepsPoint(s, f);
      case _ => OtherKeepsPoint(s, f);
    }
  }

  lemma CreateActs(s: State, f: Fault)
    requires BornOk(s) && s.run.Active? && s.run.point.Create? && s.run.current.id in s.w.rows && !f.Refused?
    requires ListedOk(s.w, s.run.current) && PointOk(s.w, s.born, s.run.current, s.run.point, s.run.made)
    requires Stored(s.run.point.desired).Some?
    ensures var s' := AfterCall(s, f); PointOk(s'.w, s'.born, s'.run.current, s'.run.point, s'.run.made)
  {
    hide *;
    var n := Stored(s.run.point.desired).value;
    CreateOutcome(s, f);
    CreateFails(s);
    StoredHint(s.run.point.desired);
    PointHint(s);
    if Similar(s.w.entries, n).None? {
      CreateMakes(s, s.w.next + f.skip, n);
    } else {
      SimilarIsThere(s.w.entries, n);
      CreateFinds(s, Similar(s.w.entries, n).value);
    }
  }

  lemma SimilarIsThere(entries: map<EntryId, Entry>, n: Entry)
    requires Similar(entries, n).Some?
    ensures Similar(entries, n).value in entries
  {
  }

  lemma CreateKeepsPoint(s: State, f: Fault)
    requires BornOk(s) && s.run.Active? && s.run.point.Create? && s.run.current.id in s.w.rows
    requires ListedOk(s.w, s.run.current) && PointOk(s.w, s.born, s.run.current, s.run.point, s.run.made)
    ensures var s' := AfterCall(s, f); PointOk(s'.w, s'.born, s'.run.current, s'.run.point, s'.run.made)
  {
    hide *;
    CreateOutcome(s, f);
    CreateFails(s);
    if !f.Refused? && Stored(s.run.point.desired).Some? {
      CreateActs(s, f);
    }
  }

  lemma PointHint(s: State)
    requires s.run.Active? && s.run.point.Create? && PointOk(s.w, s.born, s.run.current, s.run.point, s.run.made)
    ensures s.run.point.desired.hint == OwnerHint(s.run.current.id)
  {
    hide OwnerHint;
  }

  /** What a create leads to, with or without its reply. */
  lemma CreateOutcome(s: State, f: Fault)
    requires s.run.Active? && s.run.point.Create?
    ensures
      var r, p, w, s' := s.run.current, s.run.point, s.w, AfterCall(s, f);
      && s'.run.current == r
      && if f.Refused? || Stored(p.desired).None?
         then s'.w == w && s'.born == s.born && s'.run.point == Advance(r, p, Failed) && s'.run.made == s.run.made
         else
           var n := Stored(p.desired).value;
           match Similar(w.entries, n)
           case Some(k) =>
             && s'.w == w && s'.born == s.born && s'.run.made == s.run.made
             && s'.run.point == Advance(r, p, if f.Fine? then Existing(k, w.entries[k]) else Failed)
           case None =>
             var k := w.next + f.skip;
             && s'.w == w.(entries := w.entries[k := n], next := k + 1) && s'.born == s.born[k := OwnerHint(r.id)]
             && s'.run.made == Some(k) && s'.run.point == Advance(r, p, if f.Fine? then Made(k, n) else Failed)
  {
    hide Stored;
    hide Similar;
    hide OwnerHint;
    hide Advance;
    hide Effect;
    CreateEffect(s.w, s.run.current.id, s.run.point.desired, if f.Refused? then 0 else f.skip);
  }

  lemma CreateFails(s: State)
    requires s.run.Active? && s.run.point.Create?
    requires PointOk(s.w, s.born, s.run.current, s.run.point, s.run.made)
    ensures PointOk(s.w, s.born, s.run.current, Advance(s.run.current, s.run.point, Failed), s.run.made)
  {
  }

  lemma CreateFinds(s: State, k: EntryId)
    requires BornOk(s) && s.run.Active? && s.run.point.Create? && k in s.w.entries
    requires PointOk(s.w, s.born, s.run.current, s.run.point, s.run.made)
    ensures PointOk(s.w, s.born, s.run.current, Advance(s.run.current, s.run.point, Existing(k, s.w.entries[k])), s.run.made)
  {
    hide OwnerHint;
    hide Equivalent;
  }

  lemma CreateMakes(s: State, k: EntryId, n: Entry)
    requires BornOk(s) && s.run.Active? && s.run.point.Create? && s.run.current.id in s.w.rows
    requires ListedOk(s.w, s.run.current) && PointOk(s.w, s.born, s.run.current, s.run.point, s.run.made)
    requires s.w.next <= k && n.hint == OwnerHint(s.run.current.id)
    ensures var w' := s.w.(entries := s.w.entries[k := n], next := k + 1);
            var born' := s.born[k := OwnerHint(s.run.current.id)];
      && PointOk(w', born', s.run.current, Advance(s.run.current, s.run.point, Made(k, n)), Some(k))
      && PointOk(w', born', s.run.current, Advance(s.run.current, s.run.point, Failed), Some(k))
  {
    hide OwnerHint;
    hide Equivalent;
  }

  lemma UpdateKeepsPoint(s: State, f: Fault)
    requires BornOk(s) && s.run.Active? && (s.run.point.UpdateBound? || s.run.point.UpdateExisting?)
    requires s.run.current.id in s.w.rows
    requires ListedOk(s.w, s.run.current) && PointOk(s.w, s.born, s.run.current, s.run.point, s.run.made)
    ensures var s' := AfterCall(s, f); PointOk(s'.w, s'.born, s'.run.current, s'.run.point, s'.run.made)
  {
    hide Stored;
    hide OwnerHint;
    hide Equivalent;
  }

  lemma OtherKeepsPoint(s: State, f: Fault)
    requires BornOk(s) && s.run.Active? && !s.run.point.End? && s.run.current.id in s.w.rows
    requires !s.run.point.Create? && !s.run.point.UpdateBound? && !s.run.point.UpdateExisting?
    requires ListedOk(s.w, s.run.current) && PointOk(s.w, s.born, s.run.current, s.run.point, s.run.made)
    ensures var s' := AfterCall(s, f); PointOk(s'.w, s'.born, s'.run.current, s'.run.point, s'.run.made)
  {
    hide OwnerHint;
    hide Equivalent;
    hide Taken;
  }

  lemma AfterCallParts(s: State, f: Fault)
    requires s.run.Active? && !s.run.point.End?
    ensures var s' := AfterCall(s, f);
      && s'.w == Exec(s.w, s.run.current.id, NextCall(s.run.point), f).0
      && s'.born == BornAfter(s.w, s'.w, s.born, s.run.current.id)
      && s'.run.Active? && s'.run.current == s.run.current && s'.run.todo == s.run.todo && s'.lost == s.lost
  {
    hide Exec;
    hide Advance;
    hide NextCall;
  }

  lemma BornKept(s: State, s': State, x: string, c: Change)
    requires BornOk(s.(w := Changed(s.w, x, c), born := BornAfter(s.w, Changed(s.w, x, c), s.born, x)))
    requires s'.w == Changed(s.w, x, c) && s'.born == BornAfter(s.w, s'.w, s.born, x)
    ensures BornOk(s')
  {
    hide Changed;
    hide BornAfter;
    hide OwnerHint;
  }

  lemma CallKeepsInv(s: State, f: Fault)
    requires Inv(s) && s.run.Active? && !s.run.point.End?
    ensures Inv(AfterCall(s, f))
  {
    var x := s.run.current.id;
    var c := ExecChanges(s.w, x, s.run.point, f);
    AfterCallParts(s, f);
    PointKept(s, f);
    CallKeepsRun(s, f, c);
    ChangeKeepsRows(s.w, x, s.run.point, c);
    CallKeepsOrphans(s, f, c);
    ChangeKeepsBorn(s, x, c);
    BornKept(s, AfterCall(s, f), x, c);
    hide AfterCall;
    hide Exec;
    hide NextCall;
    hide MayChange;
    hide Changed;
    hide PointOk;
    hide RowsOk;
    hide BornOk;
    hide DistinctIdentities;
    hide OrphansOk;
    hide RunOk;
  }

  lemma CallKeepsOrphans(s: State, f: Fault, c: Change)
    requires Inv(s) && s.run.Active? && !s.run.point.End?
    requires MayChange(s.w, s.run.current.id, s.run.point, c)
    requires Exec(s.w, s.run.current.id, NextCall(s.run.point), f).0 == Changed(s.w, s.run.current.id, c)
    requires Changed(s.w, s.run.current.id, c).rows.Keys == s.w.rows.Keys
    ensures var s' := AfterCall(s, f); forall y :: y in s'.w.rows ==> OrphansOk(s', y)
  {
    hide *;
    var s' := AfterCall(s, f);
    AfterCallParts(s, f);
    forall y | y in s'.w.rows ensures OrphansOk(s', y) {
      ActiveParts(s, y);
      ChangeKeepsOrphans(s, s.run.current.id, c, y);
      InHandAfter(s, f, y);
      FewerAstray(s, s', y);
    }
  }

  lemma ActiveParts(s: State, y: string)
    requires Inv(s) && s.run.Active? && !s.run.point.End? && y in s.w.rows
    ensures BornOk(s) && s.run.current.id in s.w.rows && ListedOk(s.w, s.run.current) && OrphansOk(s, y)
    ensures PointOk(s.w, s.born, s.run.current, s.run.point, s.run.made)
  {
    hide BornOk; hide ListedOk; hide PointOk; hide OrphansOk; hide DistinctIdentities; hide RowsOk;
  }

  lemma InHandAfter(s: State, f: Fault, y: string)
    requires s.run.Active? && !s.run.point.End?
    ensures var s' := AfterCall(s, f);
      && InHand(s', y) == (var made := MadeBy(s.w, NextCall(s.run.point), s'.w, s.run.made);
                           if s.run.current.id == y && made.Some? then {made.value} else {})
      && LostPasses(s', y) == LostPasses(s, y)
  {
    hide Exec; hide Advance; hide NextCall; hide MadeBy;
  }

  lemma CallKeepsRun(s: State, f: Fault, c: Change)
    requires Inv(s) && s.run.Active? && !s.run.point.End?
    requires MayChange(s.w, s.run.current.id, s.run.point, c)
    requires Exec(s.w, s.run.current.id, NextCall(s.run.point), f).0 == Changed(s.w, s.run.current.id, c)
    requires var s' := AfterCall(s, f); PointOk(s'.w, s'.born, s'.run.current, s'.run.point, s'.run.made)
    ensures RunOk(AfterCall(s, f))
  {
    hide PointOk;
    hide Exec;
    hide Advance;
    hide MayChange;
    hide BornOk;
    hide OrphansOk;
    hide RowsOk;
    hide DistinctIdentities;
    hide Changed;
    var x := s.run.current.id;
    ChangeKeepsRows(s.w, x, s.run.point, c);
    EndsOnRowWrite(s.run.current, s.run.point, Exec(s.w, x, NextCall(s.run.point), f).1);
  }

  lemma EndsOnRowWrite(r: Rule, p: Point, reply: Reply)
    requires !p.End?
    ensures p.Mark? || p.Fail? ==> Advance(r, p, reply).End?
  {
  }

  lemma StartPointOk(w: World, born: map<EntryId, string>, r: Rule)
    ensures PointOk(w, born, r, Start(r), None)
  {
    hide OwnerHint;
  }

  /** Taking up the next row, or the first. */
  lemma StartRunOk(s: State, rules: seq<Rule>, lost: map<string, nat>)
    requires RowsOk(s.w) && BornOk(s)
    requires forall i :: 0 <= i < |rules| ==> ListedOk(s.w, rules[i])
    requires forall i, j :: 0 <= i < j < |rules| ==> rules[i].id != rules[j].id
    ensures RunOk(s.(run := StartRule(rules), lost := lost))
  {
    if rules != [] {
      StartPointOk(s.w, s.born, rules[0]);
      assert forall i :: 0 <= i < |rules[1..]| ==> rules[1..][i] == rules[i + 1];
    }
    hide Start;
    hide PointOk;
    hide BornOk;
    hide RowsOk;
  }

  lemma StartOrphans(s: State, rules: seq<Rule>, lost: map<string, nat>, x: string)
    requires x in s.w.rows && |Orphans(s.w, x)| <= (if x in lost then lost[x] else 0)
    ensures OrphansOk(s.(run := StartRule(rules), lost := lost), x)
  {
    hide Start;
    var s' := s.(run := StartRule(rules), lost := lost);
    assert InHand(s', x) == {};
    assert Orphans(s'.w, x) - {} == Orphans(s.w, x);
  }

  lemma StartKeepsInv(s: State, rules: seq<Rule>, lost: map<string, nat>)
    requires RowsOk(s.w) && BornOk(s) && DistinctIdentities(s.w)
    requires forall i :: 0 <= i < |rules| ==> ListedOk(s.w, rules[i])
    requires forall i, j :: 0 <= i < j < |rules| ==> rules[i].id != rules[j].id
    requires forall x :: x in s.w.rows ==> |Orphans(s.w, x)| <= (if x in lost then lost[x] else 0)
    ensures Inv(s.(run := StartRule(rules), lost := lost))
  {
    var s' := s.(run := StartRule(rules), lost := lost);
    StartRunOk(s, rules, lost);
    hide RunOk;
    hide RowsOk;
    hide BornOk;
    hide DistinctIdentities;
    forall x | x in s'.w.rows ensures OrphansOk(s', x) {
      StartOrphans(s, rules, lost, x);
    }
  }

  lemma OneMore(all: set<EntryId>, hand: set<EntryId>)
    ensures |all| <= |all - hand| + |hand|
  {
    Smaller(all, (all - hand) + hand);
    assert |(all - hand) + hand| == |all - hand| + |hand|;
  }

  lemma Forgotten(s: State, x: string)
    requires Inv(s) && s.run.Active? && x in s.w.rows
    ensures |Orphans(s.w, x)| <= (if x in Forget(s) then Forget(s)[x] else 0)
  {
    assert OrphansOk(s, x);
    hide Inv;
    hide Orphans;
    OneMore(Orphans(s.w, x), InHand(s, x));
  }

  /** `r` is a row as an operator's transaction writes it. */
  predicate Operator(s: State, r: Rule) {
    && r.status == Pending && r.lastError.None?
    && (if r.id in s.w.rows then r.binding == s.w.rows[r.id].binding && r.workloadSpiffeId == s.w.rows[r.id].workloadSpiffeId
        else Enabled(s, AddRule(r)))
  }

  lemma OperateKeepsOrphans(s: State, r: Rule, operation: string)
    requires Inv(s) && Operator(s, r)
    ensures var s' := s.(w := Operate(s.w, r, operation)); forall x :: x in s'.w.rows ==> OrphansOk(s', x)
  {
    hide *;
    var s' := s.(w := Operate(s.w, r, operation));
    forall x | x in s'.w.rows ensures OrphansOk(s', x) {
      if x in s.w.rows {
        InvOrphans(s, x);
        SameOrphans(s, r, operation, x);
        SameOrphansOk(s, s', x);
      } else {
        OperateRows(s.w, r, operation);
        NewOrphans(s, r, operation);
        NoOrphansOk(s', x);
      }
    }
  }

  lemma InvOrphans(s: State, x: string)
    requires Inv(s) && x in s.w.rows
    ensures OrphansOk(s, x)
  {
    hide OrphansOk; hide BornOk; hide RunOk; hide DistinctIdentities; hide RowsOk;
  }

  lemma OperateRows(w: World, r: Rule, operation: string)
    ensures Operate(w, r, operation).rows == w.rows[r.id := r]
  {
  }

  lemma SameOrphans(s: State, r: Rule, operation: string, x: string)
    requires Operator(s, r) && x in s.w.rows
    ensures x in Operate(s.w, r, operation).rows && Orphans(Operate(s.w, r, operation), x) == Orphans(s.w, x)
  {
    hide OwnedBy; hide Enabled;
  }

  lemma NewOrphans(s: State, r: Rule, operation: string)
    requires Inv(s) && Operator(s, r) && r.id !in s.w.rows
    ensures r.id in Operate(s.w, r, operation).rows && Orphans(Operate(s.w, r, operation), r.id) == {}
  {
    hide OwnerHint; hide OrphansOk; hide RunOk; hide DistinctIdentities; hide RowsOk; hide OtherIdentity;
    assert forall k :: k in s.w.entries ==> k in s.born && s.born[k] == s.w.entries[k].hint;
  }

  lemma SameOrphansOk(s: State, s': State, x: string)
    requires x in s.w.rows && x in s'.w.rows && OrphansOk(s, x) && Orphans(s'.w, x) == Orphans(s.w, x)
    requires s' == s.(w := s'.w)
    ensures OrphansOk(s', x)
  {
    hide Orphans;
  }

  lemma NoOrphansOk(s: State, x: string)
    requires x in s.w.rows && Orphans(s.w, x) == {}
    ensures OrphansOk(s, x)
  {
    hide Orphans;
  }

  lemma IdleOk(s: State)
    requires !s.run.Active?
    ensures RunOk(s)
  {
  }

  lemma OperateKeepsBorn(s: State, r: Rule, operation: string)
    requires Inv(s) && Operator(s, r)
    ensures BornOk(s.(w := Operate(s.w, r, operation)))
  {
    hide OwnerHint;
    hide OrphansOk;
    hide DistinctIdentities;
    hide RowsOk;
    hide RunOk;
  }

  lemma OperateKeepsPoint(s: State, r: Rule, operation: string)
    requires Inv(s) && Operator(s, r) && s.run.Active?
    ensures PointOk(Operate(s.w, r, operation), s.born, s.run.current, s.run.point, s.run.made)
  {
    hide OwnerHint;
    hide OrphansOk;
    hide DistinctIdentities;
    hide RowsOk;
    hide BornOk;
    hide Enabled;
  }

  lemma OperateKeepsList(s: State, r: Rule, operation: string)
    requires Inv(s) && Operator(s, r) && s.run.Active?
    requires PointOk(Operate(s.w, r, operation), s.born, s.run.current, s.run.point, s.run.made)
    ensures RunOk(s.(w := Operate(s.w, r, operation)))
  {
    hide OwnerHint;
    hide OrphansOk;
    hide DistinctIdentities;
    hide RowsOk;
    hide BornOk;
    hide PointOk;
    hide Enabled;
  }

  lemma OperateKeepsRun(s: State, r: Rule, operation: string)
    requires Inv(s) && Operator(s, r)
    ensures var s' := s.(w := Operate(s.w, r, operation)); RunOk(s') && BornOk(s')
  {
    hide *;
    OperateKeepsBorn(s, r, operation);
    if s.run.Active? {
      OperateKeepsPoint(s, r, operation);
      OperateKeepsList(s, r, operation);
    } else {
      IdleOk(s.(w := Operate(s.w, r, operation)));
    }
  }

  /** An operator's transaction does not touch a binding. */
  lemma OperateKeepsInv(s: State, r: Rule, operation: string)
    requires Inv(s) && Operator(s, r)
    ensures Inv(s.(w := Operate(s.w, r, operation)))
  {
    hide *;
    OperatorRow(s, r);
    OperateKeepsRows(s.w, r, operation);
    OperateKeepsOrphans(s, r, operation);
    OperateKeepsRun(s, r, operation);
    InvIf(s.(w := Operate(s.w, r, operation)));
  }

  lemma InvIf(s: State)
    requires RowsOk(s.w) && BornOk(s) && RunOk(s) && DistinctIdentities(s.w)
    requires forall x :: x in s.w.rows ==> OrphansOk(s, x)
    ensures Inv(s)
  {
    hide OrphansOk; hide BornOk; hide RunOk; hide DistinctIdentities; hide RowsOk;
  }

  lemma OperatorRow(s: State, r: Rule)
    requires Inv(s) && Operator(s, r)
    ensures RowsOk(s.w) && DistinctIdentities(s.w) && r.status == Pending
    ensures if r.id in s.w.rows then r.workloadSpiffeId == s.w.rows[r.id].workloadSpiffeId
            else forall x :: x in s.w.rows ==> OtherIdentity(s.w.rows[x], r) && OtherIdentity(r, s.w.rows[x])
  {
    hide OrphansOk; hide BornOk; hide RunOk; hide DistinctIdentities; hide RowsOk; hide OtherIdentity; hide OwnerHint;
  }

  lemma SameIdentity(r: Rule, r': Rule)
    requires r'.workloadSpiffeId == r.workloadSpiffeId
    ensures Identity(r') == Identity(r)
  {
  }

  lemma OperateKeepsRows(w: World, r: Rule, operation: string)
    requires RowsOk(w) && DistinctIdentities(w) && r.status == Pending
    requires if r.id in w.rows then r.workloadSpiffeId == w.rows[r.id].workloadSpiffeId
             else forall x :: x in w.rows ==> OtherIdentity(w.rows[x], r) && OtherIdentity(r, w.rows[x])
    ensures RowsOk(Operate(w, r, operation)) && DistinctIdentities(Operate(w, r, operation))
  {
    hide Identity;
    var w' := Operate(w, r, operation);
    forall x, y | x in w'.rows && y in w'.rows && x != y ensures OtherIdentity(w'.rows[x], w'.rows[y]) {
      if x in w.rows && y in w.rows {
        assert OtherIdentity(w.rows[x], w.rows[y]);
        SameIdentity(w.rows[x], w'.rows[x]);
        SameIdentity(w.rows[y], w'.rows[y]);
      }
    }
  }

  lemma OutsideSame(s: State, step: Step)
    requires Enabled(s, step) && (step.OutsideDelete? || step.OutsideInsert? || step.OutsideEdit?)
    ensures var s' := Next(s, step); s'.w.rows == s.w.rows && s'.run == s.run && s'.lost == s.lost
  {
  }

  lemma OutsideOrphans(s: State, step: Step, x: string)
    requires Inv(s) && x in s.w.rows
    requires Enabled(s, step) && (step.OutsideDelete? || step.OutsideInsert? || step.OutsideEdit?)
    ensures OrphansOk(s, x) && x in Next(s, step).w.rows && Orphans(Next(s, step).w, x) <= Orphans(s.w, x)
  {
    hide RunOk;
    hide DistinctIdentities;
    hide RowsOk;
    assert OrphansOk(s, x);
    hide OrphansOk;
    assert "wtp-rule:" <= OwnerHint(x);
    hide OwnerHint;
  }

  lemma OutsideKeepsOrphans(s: State, step: Step)
    requires Inv(s) && Enabled(s, step) && (step.OutsideDelete? || step.OutsideInsert? || step.OutsideEdit?)
    ensures var s' := Next(s, step); forall x :: x in s'.w.rows ==> OrphansOk(s', x)
  {
    hide Inv;
    var s' := Next(s, step);
    OutsideSame(s, step);
    forall x | x in s'.w.rows ensures OrphansOk(s', x) {
      OutsideOrphans(s, step, x);
      FewerAstray(s, s', x);
    }
  }

  lemma OutsideIdle(s: State, step: Step)
    requires Enabled(s, step) && (step.OutsideDelete? || step.OutsideInsert? || step.OutsideEdit?)
    ensures Next(s, step).run == s.run
  {
  }

  lemma OutsideKeepsBorn(s: State, step: Step)
    requires Inv(s) && Enabled(s, step) && (step.OutsideDelete? || step.OutsideInsert? || step.OutsideEdit?)
    ensures BornOk(Next(s, step))
  {
    hide OwnerHint;
    hide OrphansOk;
    hide DistinctIdentities;
    hide RowsOk;
    hide RunOk;
  }

  /** Nobody outside hands out an ID again, and a binding is an ID handed out. */
  lemma OutsideKeepsIds(s: State, step: Step, k: EntryId)
    requires BornOk(s) && Enabled(s, step) && (step.OutsideDelete? || step.OutsideInsert? || step.OutsideEdit?)
    requires k in s.born
    ensures var s' := Next(s, step);
      k in s'.born && s'.born[k] == s.born[k] && (k !in s.w.entries ==> k !in s'.w.entries)
  {
    hide OwnerHint; hide IsOf;
  }

  lemma OutsideSameRun(s: State, step: Step)
    requires Enabled(s, step) && (step.OutsideDelete? || step.OutsideInsert? || step.OutsideEdit?)
    ensures Next(s, step).run == s.run
  {
    hide OwnerHint;
  }

  lemma PointStays(s: State, w: World, born: map<EntryId, string>, r: Rule, p: Point, made: Option<EntryId>)
    requires PointOk(s.w, s.born, r, p, made) && (r.binding.Some? ==> r.binding.value in s.born)
    requires forall k :: k in s.born ==> k in born && born[k] == s.born[k] && (k !in s.w.entries ==> k !in w.entries)
    ensures PointOk(w, born, r, p, made)
  {
    hide OwnerHint;
  }

  lemma OutsideKeepsPoint(s: State, step: Step)
    requires Inv(s) && Enabled(s, step) && (step.OutsideDelete? || step.OutsideInsert? || step.OutsideEdit?)
    requires s.run.Active?
    ensures var s' := Next(s, step); s'.run == s.run && PointOk(s'.w, s'.born, s.run.current, s.run.point, s.run.made)
  {
    hide *;
    var s' := Next(s, step);
    OutsideSameRun(s, step);
    ActivePoint(s);
    forall k | k in s.born
      ensures k in s'.born && s'.born[k] == s.born[k] && (k !in s.w.entries ==> k !in s'.w.entries)
    {
      OutsideKeepsIds(s, step, k);
    }
    if s.run.point.End? { EndedPoint(s, s'.w, s'.born); }
    else { PointStays(s, s'.w, s'.born, s.run.current, s.run.point, s.run.made); }
  }

  lemma ActivePoint(s: State)
    requires Inv(s) && s.run.Active?
    ensures BornOk(s) && PointOk(s.w, s.born, s.run.current, s.run.point, s.run.made)
    ensures !s.run.point.End? && s.run.current.binding.Some? ==> s.run.current.binding.value in s.born
  {
    hide OrphansOk; hide DistinctIdentities; hide PointOk; hide OwnerHint;
  }

  lemma EndedPoint(s: State, w: World, born: map<EntryId, string>)
    requires s.run.Active? && s.run.point.End?
    ensures PointOk(w, born, s.run.current, s.run.point, s.run.made)
  {
    hide OwnerHint;
  }

  lemma OutsideKeepsList(s: State, step: Step)
    requires Inv(s) && Enabled(s, step) && (step.OutsideDelete? || step.OutsideInsert? || step.OutsideEdit?)
    requires s.run.Active? && Next(s, step).run == s.run
    requires var s' := Next(s, step); PointOk(s'.w, s'.born, s.run.current, s.run.point, s.run.made)
    ensures RunOk(Next(s, step))
  {
    hide OrphansOk; hide DistinctIdentities; hide RowsOk; hide BornOk; hide PointOk; hide Next;
    OutsideRows(s, step);
  }

  lemma OutsideKeepsRun(s: State, step: Step)
    requires Inv(s) && Enabled(s, step) && (step.OutsideDelete? || step.OutsideInsert? || step.OutsideEdit?)
    ensures var s' := Next(s, step); RunOk(s') && BornOk(s')
  {
    hide *;
    OutsideKeepsBorn(s, step);
    if s.run.Active? {
      OutsideKeepsPoint(s, step);
      OutsideKeepsList(s, step);
    } else {
      OutsideIdle(s, step);
      IdleOk(Next(s, step));
    }
  }

  lemma OutsideKeepsInv(s: State, step: Step)
    requires Inv(s) && Enabled(s, step) && (step.OutsideDelete? || step.OutsideInsert? || step.OutsideEdit?)
    ensures Inv(Next(s, step))
  {
    OutsideKeepsOrphans(s, step);
    OutsideKeepsRun(s, step);
    OutsideRows(s, step);
    hide Next;
    hide Enabled;
    hide OrphansOk;
    hide RunOk;
    hide BornOk;
    SameRows(s.w, Next(s, step).w);
    hide RowsOk;
    hide DistinctIdentities;
  }

  lemma OutsideRows(s: State, step: Step)
    requires Enabled(s, step) && (step.OutsideDelete? || step.OutsideInsert? || step.OutsideEdit?)
    ensures Next(s, step).w.rows == s.w.rows
  {
  }

  lemma SameRows(w: World, w': World)
    requires RowsOk(w) && DistinctIdentities(w) && w'.rows == w.rows
    ensures RowsOk(w') && DistinctIdentities(w')
  {
  }

  lemma StepKeepsInv(s: State, step: Step)
    requires Inv(s) && Enabled(s, step)
    ensures Inv(Next(s, step))
  {
    hide Inv;
    match step {
      case Begin(order) => BeginKeepsInv(s, order);
      case Call(f) => CallKeepsInv(s, f);
      case NextRule => TurnKeepsInv(s, s.run.todo);
      case Crash => TurnKeepsInv(s, []);
      case Replace(x, input) =>
        ReplaceKeepsInv(s, x, input);
      case AddRule(r) => OperateKeepsInv(s, r, "create");
      case _ => OutsideKeepsInv(s, step);
    }
  }

  lemma BeginKeepsInv(s: State, order: seq<string>)
    requires Inv(s) && Enabled(s, Begin(order))
    ensures Inv(s.(run := StartRule(ListRows(s.w, order))))
  {
    forall x | x in s.w.rows ensures |Orphans(s.w, x)| <= LostPasses(s, x) {
      assert OrphansOk(s, x);
      assert Orphans(s.w, x) - InHand(s, x) == Orphans(s.w, x);
    }
    hide OwnedBy;
    StartKeepsInv(s, ListRows(s.w, order), s.lost);
    assert s.(run := StartRule(ListRows(s.w, order)), lost := s.lost) == s.(run := StartRule(ListRows(s.w, order)));
  }

  lemma TurnKeepsInv(s: State, rules: seq<Rule>)
    requires Inv(s) && s.run.Active? && (rules == s.run.todo || rules == [])
    ensures Inv(s.(run := StartRule(rules), lost := Forget(s)))
  {
    forall x | x in s.w.rows ensures |Orphans(s.w, x)| <= (if x in Forget(s) then Forget(s)[x] else 0) {
      Forgotten(s, x);
    }
    hide OwnedBy;
    hide Forget;
    StartKeepsInv(s, rules, Forget(s));
  }

  lemma ReplaceKeepsInv(s: State, x: string, input: ReplaceInput)
    requires Inv(s) && x in s.w.rows
    ensures Inv(s.(w := Operate(s.w, Replaced(s.w.rows[x], input), "replace")))
  {
    assert s.w.rows[x].id == x;
    hide OwnedBy;
    OperateKeepsInv(s, Replaced(s.w.rows[x], input), "replace");
  }
}

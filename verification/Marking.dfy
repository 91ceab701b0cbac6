/** What MarkConverged certifies, and what it does not: it has no guard on the revision. */
module Marking {
  import opened Text
  import opened Entries
  import opened Registration
  import opened Backends
  import opened Protocol
  import opened Frame
  import opened Goals
  import opened Runs
  import opened Convergence
  import opened Idempotence
  import opened System
  import opened Histories

  // ---- What a pass knows of its rule, whatever the replies ----

  /** The pass acts on its rule as listed. */
  predicate Acts(r: Rule, p: Point) {
    && (p.FetchPresent? || p.Create? || p.UpdateBound? || p.UpdateExisting? ==>
          r.desiredState == "present" && DesiredEntry(r) == Ok(p.desired))
    && (p.FetchAbsent? || p.Delete? ==> r.desiredState == "absent")
    && (p.Record? || p.Mark? ==>
          if p.binding.Some? then r.desiredState == "present" && DesiredEntry(r).Ok? else r.desiredState == "absent")
  }

  lemma StartActs(r: Rule)
    ensures Acts(r, Start(r))
  {
    hide DesiredEntry;
  }

  lemma AdvanceActs(r: Rule, p: Point, reply: Reply)
    requires !p.End? && Acts(r, p)
    ensures Acts(r, Advance(r, p, reply))
  {
    hide DesiredEntry;
    hide Equivalent;
    hide OwnedBy;
  }

  /** The entry about to be bound is what the rule as listed asks for. */
  predicate Upheld(w: World, r: Rule, p: Point) {
    (p.Record? || p.Mark?) && p.binding.Some? && DesiredEntry(r).Ok? ==>
      var k := p.binding.value;
      k in w.entries && OwnedBy(w.entries[k], r.id) && Wanted(w.entries[k], DesiredEntry(r).value)
  }

  /** The reconciler's own calls establish it: each binding is checked against a reply. */
  lemma EffectUpholds(w: World, r: Rule, p: Point, skip: nat)
    requires !p.End? && Acts(r, p) && Upheld(w, r, p)
    ensures var (w', reply) := Effect(w, r.id, NextCall(p), skip); Upheld(w', r, Advance(r, p, reply))
  {
    hide Stored;
    hide Equivalent;
    hide OwnerHint;
    hide DesiredEntry;
    hide Taken;
    hide SameKey;
  }

  lemma FailedUpholds(w: World, r: Rule, p: Point)
    requires !p.End? && Acts(r, p)
    ensures Upheld(w, r, Advance(r, p, Failed))
  {
  }

  lemma ExecUpholds(w: World, r: Rule, p: Point, f: Fault)
    requires !p.End? && Acts(r, p) && Upheld(w, r, p)
    ensures var (w', reply) := Exec(w, r.id, NextCall(p), f); Upheld(w', r, Advance(r, p, reply))
  {
    hide Upheld;
    hide Acts;
    hide Effect;
    hide NextCall;
    hide Advance;
    match f
    case Fine(skip) => EffectUpholds(w, r, p, skip);
    case Refused => FailedUpholds(w, r, p);
    case Lost(skip) => FailedUpholds(Effect(w, r.id, NextCall(p), skip).0, r, p);
  }

  /** A row at the revision it was listed at is the row that was listed, but for what the
      reconciler writes. */
  predicate Tells(w: World, r: Rule) {
    && r.id in w.rows && w.rows[r.id].revision >= r.revision
    && (w.rows[r.id].revision == r.revision ==> Desire(w.rows[r.id]) == Desire(r))
  }

  /** The run knows its rules as listed, and its current pass acts on one of them. */
  predicate Knows(s: State) {
    s.run.Active? ==>
      && Acts(s.run.current, s.run.point) && Tells(s.w, s.run.current)
      && forall i :: 0 <= i < |s.run.todo| ==> Tells(s.w, s.run.todo[i])
  }

  predicate Checked(s: State) {
    s.run.Active? ==> Upheld(s.w, s.run.current, s.run.point)
  }

  /** Somebody else deletes or edits the very entry that is about to be bound. */
  predicate Disturbs(s: State, step: Step) {
    && (step.OutsideDelete? || step.OutsideEdit?) && s.run.Active?
    && (s.run.point.Record? || s.run.point.Mark?) && s.run.point.binding == Some(step.id)
  }

  // ---- Every step keeps both, but for a disturbance ----

  lemma TellsOn(w: World, w': World, r: Rule)
    requires Tells(w, r) && r.id in w'.rows && Desire(w'.rows[r.id]) == Desire(w.rows[r.id])
    ensures Tells(w', r)
  {
    assert Desire(w'.rows[r.id]).revision == w'.rows[r.id].revision;
    assert Desire(w.rows[r.id]).revision == w.rows[r.id].revision;
  }

  lemma CallDesires(s: State, f: Fault, x: string)
    requires Inv(s) && s.run.Active? && !s.run.point.End? && x in s.w.rows
    ensures var w' := AfterCall(s, f).w; x in w'.rows && Desire(w'.rows[x]) == Desire(s.w.rows[x])
  {
    hide *;
    AfterCallIs(s, f);
    InvBelow(s);
    ExecDesires(s.w, s.run.current.id, NextCall(s.run.point), f, x);
  }

  lemma InvBelow(s: State)
    requires Inv(s)
    ensures forall x :: x in s.w.rows ==> s.w.rows[x].id == x
  {
    hide OrphansOk;
    hide OwnerHint;
    hide RunOk;
    hide DistinctIdentities;
  }

  lemma ExecDesires(w: World, x: string, call: Call, f: Fault, y: string)
    requires y in w.rows
    ensures var w' := Exec(w, x, call, f).0; y in w'.rows && Desire(w'.rows[y]) == Desire(w.rows[y])
  {
    hide Stored;
    hide Similar;
    hide Taken;
  }

  lemma AfterCallIs(s: State, f: Fault)
    requires s.run.Active? && !s.run.point.End?
    ensures var s' := AfterCall(s, f); var done := Exec(s.w, s.run.current.id, NextCall(s.run.point), f);
      && s'.w == done.0 && s'.run.Active? && s'.run.current == s.run.current && s'.run.todo == s.run.todo
      && s'.run.point == Advance(s.run.current, s.run.point, done.1)
  {
    hide Exec;
    hide Advance;
    hide NextCall;
  }

  lemma CallKnows(s: State, f: Fault)
    requires Inv(s) && Knows(s) && s.run.Active? && !s.run.point.End?
    ensures Knows(AfterCall(s, f)) && (Checked(s) ==> Checked(AfterCall(s, f)))
  {
    hide Inv;
    hide Acts;
    hide Tells;
    hide Upheld;
    hide AfterCall;
    hide Exec;
    hide Advance;
    hide NextCall;
    var s', r, p := AfterCall(s, f), s.run.current, s.run.point;
    AfterCallIs(s, f);
    AdvanceActs(r, p, Exec(s.w, r.id, NextCall(p), f).1);
    if Checked(s) { ExecUpholds(s.w, r, p, f); }
    CallTells(s, f, r);
    forall i | 0 <= i < |s.run.todo| ensures Tells(s'.w, s.run.todo[i]) { CallTells(s, f, s.run.todo[i]); }
  }

  lemma CallTells(s: State, f: Fault, r: Rule)
    requires Inv(s) && s.run.Active? && !s.run.point.End? && Tells(s.w, r)
    ensures Tells(AfterCall(s, f).w, r)
  {
    hide *;
    TellsIn(s.w, r);
    CallDesires(s, f, r.id);
    TellsOn(s.w, AfterCall(s, f).w, r);
  }

  lemma TellsIn(w: World, r: Rule)
    requires Tells(w, r)
    ensures r.id in w.rows
  {
  }

  lemma StartKnows(s: State, rules: seq<Rule>, lost: map<string, nat>)
    requires forall i :: 0 <= i < |rules| ==> Tells(s.w, rules[i])
    ensures var s' := s.(run := StartRule(rules), lost := lost); Knows(s') && Checked(s')
  {
    hide Tells;
    if rules != [] {
      assert forall i :: 0 <= i < |rules[1..]| ==> rules[1..][i] == rules[i + 1];
      StartActs(rules[0]);
      StartUpheld(s.w, rules[0]);
      hide Start;
      hide Acts;
      hide Upheld;
    }
  }

  lemma StartUpheld(w: World, r: Rule)
    ensures Upheld(w, r, Start(r))
  {
    hide DesiredEntry;
  }

  lemma ListedTells(w: World, order: seq<string>)
    requires Enumerates(w, order) && forall x :: x in w.rows ==> w.rows[x].id == x
    ensures forall i :: 0 <= i < |order| ==> Tells(w, ListRows(w, order)[i])
  {
  }

  /** An operator's step raises the revision of the row it replaces and touches no entry. */
  lemma OperateTells(w: World, row: Rule, operation: string, r: Rule)
    requires Tells(w, r) && (row.id in w.rows ==> row.revision > w.rows[row.id].revision)
    ensures Tells(Operate(w, row, operation), r)
  {
  }

  lemma OperateKnows(s: State, row: Rule, operation: string)
    requires Knows(s) && (row.id in s.w.rows ==> row.revision > s.w.rows[row.id].revision)
    ensures var s' := s.(w := Operate(s.w, row, operation)); Knows(s') && (Checked(s) ==> Checked(s'))
  {
    hide Tells;
    hide Acts;
    var s' := s.(w := Operate(s.w, row, operation));
    if s.run.Active? {
      OperateTells(s.w, row, operation, s.run.current);
      forall i | 0 <= i < |s.run.todo| ensures Tells(s'.w, s.run.todo[i]) {
        OperateTells(s.w, row, operation, s.run.todo[i]);
      }
      OperateUpholds(s.w, row, operation, s.run.current, s.run.point);
    }
    hide Operate;
    hide Upheld;
  }

  lemma OperateUpholds(w: World, row: Rule, operation: string, r: Rule, p: Point)
    ensures Upheld(w, r, p) ==> Upheld(Operate(w, row, operation), r, p)
  {
    hide DesiredEntry;
    hide Wanted;
    hide OwnedBy;
  }

  lemma OutsideKnows(s: State, step: Step)
    requires Inv(s) && Knows(s) && Enabled(s, step) && (step.OutsideDelete? || step.OutsideInsert? || step.OutsideEdit?)
    ensures Knows(Next(s, step)) && (Checked(s) && !Disturbs(s, step) ==> Checked(Next(s, step)))
  {
    hide Inv;
    hide Acts;
    OutsideSame(s, step);
    var s' := Next(s, step);
    if s.run.Active? {
      OutsideTells(s.w, s'.w, s.run.current);
      forall i | 0 <= i < |s.run.todo| ensures Tells(s'.w, s.run.todo[i]) { OutsideTells(s.w, s'.w, s.run.todo[i]); }
      if Checked(s) && !Disturbs(s, step) { OutsideUpholds(s, step); }
    }
    hide Tells;
    hide Upheld;
    hide Next;
    hide Enabled;
  }

  lemma OutsideTells(w: World, w': World, r: Rule)
    requires Tells(w, r) && w'.rows == w.rows
    ensures Tells(w', r)
  {
    hide Desire;
  }

  lemma OutsideUpholds(s: State, step: Step)
    requires Inv(s) && Enabled(s, step) && (step.OutsideDelete? || step.OutsideInsert? || step.OutsideEdit?)
    requires s.run.Active? && Upheld(s.w, s.run.current, s.run.point) && !Disturbs(s, step)
    ensures Upheld(Next(s, step).w, s.run.current, s.run.point)
  {
    hide Inv;
    hide DesiredEntry;
    hide Wanted;
    hide OwnedBy;
    InUse(s);
    var s', p := Next(s, step), s.run.point;
    if (p.Record? || p.Mark?) && p.binding.Some? && p.binding.value in s.w.entries {
      assert p.binding.value in s'.w.entries && s'.w.entries[p.binding.value] == s.w.entries[p.binding.value];
    }
  }

  lemma InUse(s: State)
    requires Inv(s)
    ensures forall k :: k in s.w.entries ==> k < s.w.next
  {
    hide OrphansOk;
    hide RunOk;
    hide DistinctIdentities;
    hide RowsOk;
    hide OwnerHint;
  }

  lemma StepKnows(s: State, step: Step)
    requires Inv(s) && Knows(s) && Enabled(s, step)
    ensures Knows(Next(s, step)) && (Checked(s) && !Disturbs(s, step) ==> Checked(Next(s, step)))
  {
    InvBelow(s);
    hide Inv;
    hide Tells;
    hide Acts;
    hide Upheld;
    hide AfterCall;
    hide Start;
    match step {
      case Begin(order) =>
        ListedTells(s.w, order);
        StartKnows(s, ListRows(s.w, order), s.lost);
        assert s.(run := StartRule(ListRows(s.w, order)), lost := s.lost) == Next(s, step);
      case Call(f) => CallKnows(s, f);
      case NextRule => StartKnows(s, s.run.todo, Forget(s));
      case Crash => StartKnows(s, [], Forget(s));
      case Replace(x, input) => OperateKnows(s, Replaced(s.w.rows[x], input), "replace");
      case AddRule(r) => OperateKnows(s, r, "create");
      case OutsideDelete(_) => OutsideKnows(s, step);
      case OutsideInsert(_, _) => OutsideKnows(s, step);
      case OutsideEdit(_, _) => OutsideKnows(s, step);
    }
  }

  // ---- Histories ----

  /** Nobody disturbs the entry about to be bound. */
  predicate Undisturbed(s: State, steps: seq<Step>)
    decreases |steps|
  {
    steps == [] ||
    (if Enabled(s, steps[0]) then !Disturbs(s, steps[0]) && Undisturbed(Next(s, steps[0]), steps[1..])
     else Undisturbed(s, steps[1..]))
  }

  lemma {:induction false} PlayKnows(s: State, steps: seq<Step>)
    requires Inv(s) && Knows(s)
    ensures var s' := Play(s, steps); Inv(s') && Knows(s') && (Checked(s) && Undisturbed(s, steps) ==> Checked(s'))
    decreases |steps|
  {
    hide Inv;
    hide Knows;
    hide Checked;
    hide Next;
    hide Enabled;
    hide Disturbs;
    if steps != [] {
      if Enabled(s, steps[0]) {
        StepKeepsInv(s, steps[0]);
        StepKnows(s, steps[0]);
        PlayKnows(Next(s, steps[0]), steps[1..]);
      } else {
        PlayKnows(s, steps[1..]);
      }
    }
  }

  // ---- What a mark is worth ----

  /** The entry bound, or none, is also what `row` asks for. */
  predicate StillAsked(w: World, row: Rule, b: Option<EntryId>) {
    if b.Some? then
      row.desiredState == "present" && DesiredEntry(row).Ok? && b.value in w.entries
      && Wanted(w.entries[b.value], DesiredEntry(row).value)
    else row.desiredState == "absent"
  }

  lemma MarkedAgrees(w: World, x: string, b: Option<EntryId>)
    requires x in w.rows && (b.Some? && b.value in w.entries ==> OwnedBy(w.entries[b.value], x))
    ensures var w' := w.(rows := w.rows[x := Converge(w.rows[x], b)]);
      && w'.rows[x].status == Converged && Desire(w'.rows[x]) == Desire(w.rows[x])
      && (Agrees(w', x) <==> StillAsked(w, w.rows[x], b))
  {
    hide Wanted;
    hide OwnerHint;
    hide OwnedBy;
  }

  lemma SameAsked(w: World, r: Rule, row: Rule, p: Point)
    requires p.Mark? && Acts(r, p) && Upheld(w, r, p) && Desire(row) == Desire(r)
    ensures StillAsked(w, row, p.binding)
  {
    DesireSame(r, row);
    hide DesiredEntry;
    hide Wanted;
    hide OwnedBy;
    hide Desire;
  }

  lemma CurrentListed(s: State)
    requires Inv(s) && s.run.Active? && s.run.point.Mark?
    ensures s.run.current.id in s.w.rows
    ensures var b := s.run.point.binding;
            b.Some? && b.value in s.w.entries ==> OwnedBy(s.w.entries[b.value], s.run.current.id)
  {
    hide OwnerHint;
    hide OrphansOk;
    hide DistinctIdentities;
  }

  lemma MarkDoes(w: World, x: string, p: Point, skip: nat)
    requires p.Mark? && x in w.rows && !Taken(w.rows, x, p.binding)
    ensures NextCall(p) == MarkConverged(p.binding)
    ensures Effect(w, x, NextCall(p), skip).0 == w.(rows := w.rows[x := Converge(w.rows[x], p.binding)])
  {
    hide Taken;
    hide Converge;
  }

  lemma MarkNow(s: State, skip: nat)
    requires s.run.Active? && s.run.point.Mark? && s.run.current.id in s.w.rows
    requires !Taken(s.w.rows, s.run.current.id, s.run.point.binding)
    ensures var x := s.run.current.id;
            Next(s, Step.Call(Fine(skip))).w == s.w.(rows := s.w.rows[x := Converge(s.w.rows[x], s.run.point.binding)])
  {
    hide AfterCall;
    hide Taken;
    hide Converge;
    AfterCallParts(s, Fine(skip));
    MarkDoes(s.w, s.run.current.id, s.run.point, skip);
    hide Effect;
    hide NextCall;
  }

  /** The two versions of a rule ask for the same. */
  predicate SameWish(r: Rule, row: Rule) {
    && row.desiredState == r.desiredState
    && (r.desiredState == "present" ==> DesiredEntry(r).Ok? && DesiredEntry(row).Ok? &&
                                        Equivalent(DesiredEntry(row).value, DesiredEntry(r).value))
  }

  lemma WishDecides(e: Entry, d: Entry, d': Entry)
    requires CanonicalEntry(d) && CanonicalEntry(d') && Wanted(e, d)
    ensures Wanted(e, d') <==> Equivalent(d', d)
  {
    hide CanonicalEntry;
    if Stored(d) == Some(e) { StoredAgrees(d); }
    if Stored(d') == Some(e) { StoredAgrees(d'); }
    hide Stored;
  }

  lemma AskedByWish(w: World, r: Rule, row: Rule, p: Point)
    requires p.Mark? && Acts(r, p) && Upheld(w, r, p) && CanonicalRule(r) && CanonicalRule(row)
    ensures StillAsked(w, row, p.binding) <==> SameWish(r, row)
  {
    hide DesiredEntry;
    hide Wanted;
    hide Equivalent;
    hide CanonicalEntry;
    hide OwnedBy;
    if r.desiredState == "present" && row.desiredState == "present" {
      WishDecides(w.entries[p.binding.value], DesiredEntry(r).value, DesiredEntry(row).value);
    }
  }

  /** A history that has come to a mark, after `early` up to before the pass checked the entry it
      is to bind, and `late` without anybody disturbing that entry. */
  predicate AtMark(s0: State, early: seq<Step>, late: seq<Step>) {
    var before := Play(s0, early);
    var s := Play(before, late);
    && Init(s0) && (before.run.Active? ==> !before.run.point.Record? && !before.run.point.Mark?)
    && Undisturbed(before, late) && s.run.Active? && s.run.point.Mark?
  }

  lemma AtMarkHolds(s0: State, early: seq<Step>, late: seq<Step>)
    requires AtMark(s0, early, late)
    ensures var s := Play(Play(s0, early), late);
      && Inv(s) && s.run.Active? && s.run.point.Mark? && s.run.current.id in s.w.rows
      && Acts(s.run.current, s.run.point) && Upheld(s.w, s.run.current, s.run.point) && Tells(s.w, s.run.current)
  {
    InitInv(s0);
    NothingKnown(s0);
    PlayKnows(s0, early);
    NotYet(Play(s0, early));
    PlayKnows(Play(s0, early), late);
    CurrentListed(Play(Play(s0, early), late));
    hide *;
    MarkKnows(Play(Play(s0, early), late));
  }

  lemma MarkKnows(s: State)
    requires Knows(s) && Checked(s) && s.run.Active?
    ensures Acts(s.run.current, s.run.point) && Upheld(s.w, s.run.current, s.run.point) && Tells(s.w, s.run.current)
  {
    hide Acts;
    hide Upheld;
    hide Tells;
  }

  lemma NothingKnown(s: State)
    requires Init(s)
    ensures Knows(s)
  {
  }

  lemma NotYet(s: State)
    requires s.run.Active? ==> !s.run.point.Record? && !s.run.point.Mark?
    ensures Checked(s)
  {
  }

  /** MarkConverged has no guard on the revision. At the revision that was listed, the row it marks
      agrees with SPIRE. A replacement committed since is marked converged as well, and then the
      row agrees exactly when the entry bound, or none, is also what the replacement asks for. */
  lemma StaleMark(s0: State, early: seq<Step>, late: seq<Step>, skip: nat)
    requires AtMark(s0, early, late)
    ensures var s := Play(Play(s0, early), late); var x := s.run.current.id;
      var w' := Next(s, Step.Call(Fine(skip))).w;
      && x in s.w.rows && x in w'.rows && w'.rows[x].status == Converged && Desire(w'.rows[x]) == Desire(s.w.rows[x])
      && (s.w.rows[x].revision == s.run.current.revision ==> Agrees(w', x))
      && (Agrees(w', x) <==> StillAsked(s.w, s.w.rows[x], s.run.point.binding))
  {
    hide *;
    AtMarkHolds(s0, early, late);
    var s := Play(Play(s0, early), late);
    var r := s.run.current;
    CurrentListed(s);
    BindingsApart(s);
    MarkNow(s, skip);
    MarkedAgrees(s.w, r.id, s.run.point.binding);
    if s.w.rows[r.id].revision == r.revision {
      TellsSame(s.w, r);
      SameAsked(s.w, r, s.w.rows[r.id], s.run.point);
    }
  }

  lemma TellsSame(w: World, r: Rule)
    requires r.id in w.rows && Tells(w, r) && w.rows[r.id].revision == r.revision
    ensures Desire(w.rows[r.id]) == Desire(r)
  {
    hide Desire;
  }

  /** Over canonical IDs the two versions of the rule decide: the mark is true exactly when the
      replacement asks for what the rule as listed asked for. */
  lemma StaleMarkDecides(s0: State, early: seq<Step>, late: seq<Step>, skip: nat)
    requires AtMark(s0, early, late)
    requires var s := Play(Play(s0, early), late);
      CanonicalRule(s.run.current) && (s.run.current.id in s.w.rows ==> CanonicalRule(s.w.rows[s.run.current.id]))
    ensures var s := Play(Play(s0, early), late); var x := s.run.current.id;
      var w' := Next(s, Step.Call(Fine(skip))).w;
      x in s.w.rows && x in w'.rows && (Agrees(w', x) <==> SameWish(s.run.current, s.w.rows[x]))
  {
    hide *;
    StaleMark(s0, early, late, skip);
    AtMarkHolds(s0, early, late);
    var s := Play(Play(s0, early), late);
    AskedByWish(s.w, s.run.current, s.w.rows[s.run.current.id], s.run.point);
  }
}

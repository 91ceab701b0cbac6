/** One rule's pass of the reconciler, written as the points at which it waits for a reply. */
module Protocol {
  import opened Text
  import opened Entries
  import opened Registration
  import opened Backends

  /** How a pass ends: the rule counts as converged, or the pass returns an error. */
  datatype Outcome = Settled(changed: bool) | Broken

  datatype Point =
    | FetchPresent(id: EntryId, desired: Entry)
    | Create(desired: Entry)
    | UpdateBound(id: EntryId, desired: Entry)
    | UpdateExisting(id: EntryId, desired: Entry)
    | FetchAbsent(id: EntryId)
    | Delete(id: EntryId)
    | Record(operation: string, named: Option<EntryId>, binding: Option<EntryId>, changed: bool)
    | Mark(binding: Option<EntryId>, changed: bool)
    | RecordConflict(id: EntryId)
    | Fail(code: string)
    | End(outcome: Outcome)

  predicate OwnedBy(e: Entry, ruleId: string) { e.hint == OwnerHint(ruleId) }

  /** reconcileRule up to its first call. */
  function Start(r: Rule): Point {
    if r.desiredState == "present" then
      match DesiredEntry(r)
      case Err(_) => Fail("invalid_desired_state")
      case Ok(d) => if r.binding.None? then Create(d) else FetchPresent(r.binding.value, d)
    else if r.desiredState == "absent" then
      if r.binding.Some? then FetchAbsent(r.binding.value)
      else if r.status != Converged then Record("absent_noop", None, None, false)
      else End(Settled(false))
    else Fail("invalid_desired_state")
  }

  /** The call made at a point. */
  function NextCall(p: Point): Call
    requires !p.End?
  {
    match p
    case FetchPresent(id, _) => GetEntry(id)
    case Create(d) => CreateEntry(d)
    case UpdateBound(id, d) => UpdateEntry(id, d)
    case UpdateExisting(id, d) => UpdateEntry(id, d)
    case FetchAbsent(id) => GetEntry(id)
    case Delete(id) => DeleteEntry(id)
    case Record(op, named, _, _) => Append(op, named)
    case Mark(binding, _) => MarkConverged(binding)
    case RecordConflict(id) => Append("ownership_conflict", Some(id))
    case Fail(code) => MarkError(code)
  }

  /** Where the pass goes on any reply; one of the wrong shape is an error like any other. */
  function Advance(r: Rule, p: Point, reply: Reply): Point
    requires !p.End?
  {
    match p
    case FetchPresent(_, d) =>
      (match reply
       case NotFound => Create(d)
       case Found(id, e) =>
         if !OwnedBy(e, r.id) then RecordConflict(id)
         else if !Equivalent(e, d) then UpdateBound(id, d)
         else if r.status != Converged then Record("bind_owned_existing", Some(id), Some(id), false)
         else End(Settled(false))
       case _ => Fail("spire_unavailable"))
    case UpdateBound(_, d) =>
      (match reply
       case NotFound => Create(d)
       case Updated(id, e) =>
         if !OwnedBy(e, r.id) then RecordConflict(id) else Record("update", Some(id), Some(id), true)
       case _ => Fail("spire_update_failed"))
    case Create(d) =>
      (match reply
       case Made(id, e) =>
         if !OwnedBy(e, r.id) then RecordConflict(id) else Record("create", Some(id), Some(id), true)
       case Existing(id, e) =>
         if !OwnedBy(e, r.id) then RecordConflict(id)
         else if Equivalent(e, d) then Record("bind_owned_existing", Some(id), Some(id), false)
         else UpdateExisting(id, d)
       case _ => Fail("spire_create_failed"))
    case UpdateExisting(_, d) =>
      (match reply
       case NotFound => Fail("spire_update_race")
       case Updated(id, e) =>
         if !OwnedBy(e, r.id) then RecordConflict(id)
         else Record("update_owned_existing", Some(id), Some(id), true)
       case _ => Fail("spire_update_failed"))
    case FetchAbsent(_) =>
      (match reply
       case NotFound => Record("clear_stale_binding", r.binding, None, false)
       case Found(id, e) => if !OwnedBy(e, r.id) then RecordConflict(id) else Delete(id)
       case _ => Fail("spire_unavailable"))
    case Delete(id) =>
      if reply == Done || reply == NotFound then Record("delete", Some(id), None, true)
      else Fail("spire_delete_failed")
    case Record(_, _, binding, changed) => if reply == Done then Mark(binding, changed) else End(Broken)
    case Mark(_, changed) => if reply == Done then End(Settled(changed)) else End(Broken)
    case RecordConflict(_) => if reply == Done then Fail("ownership_mismatch") else End(Broken)
    case Fail(_) => End(Broken)
  }

  /** The most calls that can still follow. */
  function Rank(p: Point): nat {
    match p
    case FetchPresent(_, _) => 7
    case UpdateBound(_, _) => 6
    case Create(_) => 5
    case FetchAbsent(_) => 5
    case UpdateExisting(_, _) => 4
    case Delete(_) => 3
    case Record(_, _, _, _) => 2
    case RecordConflict(_) => 2
    case Mark(_, _) => 1
    case Fail(_) => 1
    case End(_) => 0
  }

  lemma RankFalls(r: Rule, p: Point, reply: Reply)
    requires !p.End?
    ensures Rank(Advance(r, p, reply)) < Rank(p)
  {
  }

  datatype PassEnd = PassEnd(w: World, fs: Faults, outcome: Outcome)

  /** A pass from point `p` to its end, against the stores and a fault schedule. */
  function Pass(w: World, fs: Faults, r: Rule, p: Point): PassEnd
    decreases Rank(p)
  {
    if p.End? then PassEnd(w, fs, p.outcome)
    else
      var call := NextCall(p);
      var (w', reply) := Exec(w, r.id, call, FaultFor(fs, call));
      RankFalls(r, p, reply);
      Pass(w', After(fs, call), r, Advance(r, p, reply))
  }

  datatype RunEnd = RunEnd(w: World, fs: Faults, outcomes: seq<Outcome>)

  /** The loop of Run over the rows it listed. */
  function RunOver(w: World, fs: Faults, rules: seq<Rule>): (end: RunEnd)
    ensures |end.outcomes| == |rules|
    decreases |rules|
  {
    if rules == [] then RunEnd(w, fs, [])
    else
      var first := Pass(w, fs, rules[0], Start(rules[0]));
      var rest := RunOver(first.w, first.fs, rules[1..]);
      RunEnd(rest.w, rest.fs, [first.outcome] + rest.outcomes)
  }
}

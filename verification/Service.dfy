/** The reconciler as it runs: one call after another against the three stores. Each method is
    proved to do what the protocol says from the point it stands for. */
module Service {
  import opened Text
  import opened Entries
  import opened Registration
  import opened Backends
  import opened Protocol
  import opened Recovery
  import opened Stores

  datatype Summary = Summary(total: nat, converged: nat, changed: nat, failed: nat) {
    function Count(o: Outcome): Summary {
      match o
      case Broken => this.(total := total + 1, failed := failed + 1)
      case Settled(c) => Summary(total + 1, converged + 1, if c then changed + 1 else changed, failed)
    }
  }

  class Reconciler {
    const rules: RuleStore
    const spire: SpireClient
    const audit: AuditLog

    constructor (rules: RuleStore, spire: SpireClient, audit: AuditLog)
      ensures this.rules == rules && this.spire == spire && this.audit == audit
    {
      this.rules := rules;
      this.spire := spire;
      this.audit := audit;
    }

    ghost predicate Valid()
      reads rules, spire.server
    {
      rules.Valid() && spire.server.Valid()
    }

    ghost function Now(): World
      reads rules, spire.server, audit
    {
      World(rules.rows, spire.server.Contents(), spire.server.next, audit.events)
    }

    ghost function Schedule(): Faults
      reads rules, spire, audit
    {
      Faults(rules.faults, spire.faults, audit.faults)
    }

    // ---- One call ----

    method AskSpire(ruleId: string, call: Call) returns (reply: Reply)
      requires Valid() && (call.GetEntry? || call.CreateEntry? || call.UpdateEntry? || call.DeleteEntry?)
      modifies spire, spire.server
      ensures Valid()
      ensures (Now(), reply) == Exec(old(Now()), ruleId, call, FaultFor(old(Schedule()), call))
      ensures Schedule() == After(old(Schedule()), call)
    {
      hide Stored; hide Similar; hide AsRead;
      ghost var w, f := Now(), Head(spire.faults);
      match call
      case GetEntry(id) =>
        AsReadAt(spire.server.entries, id);
        reply := spire.GetEntry(id);
        assert (Now(), reply) == Exec(w, ruleId, call, f);
      case CreateEntry(e) =>
        reply := spire.CreateEntry(e);
        assert (Now(), reply) == Exec(w, ruleId, call, f);
      case UpdateEntry(id, e) =>
        reply := spire.UpdateEntry(id, e);
        assert (Now(), reply) == Exec(w, ruleId, call, f);
      case DeleteEntry(id) =>
        assert id !in w.entries ==> w.entries - {id} == w.entries;
        reply := spire.DeleteEntry(id);
        assert (Now(), reply) == Exec(w, ruleId, call, f);
    }

    method AskRules(ruleId: string, call: Call) returns (ok: bool)
      requires Valid() && (call.MarkConverged? || call.MarkError?)
      modifies rules
      ensures Valid() && rules.order == old(rules.order)
      ensures (Now(), if ok then Done else Failed) == Exec(old(Now()), ruleId, call, FaultFor(old(Schedule()), call))
      ensures Schedule() == After(old(Schedule()), call)
    {
      ghost var w, f := Now(), Head(rules.faults);
      match call
      case MarkConverged(binding) => ok := rules.MarkConverged(ruleId, binding);
      case MarkError(code) => ok := rules.MarkError(ruleId, code);
      assert (Now(), if ok then Done else Failed) == Exec(w, ruleId, call, f);
    }

    // ---- recordAudit, failRule, conflict ----

    method RecordAudit(rule: Rule, operation: string, named: Option<EntryId>) returns (ok: bool)
      requires Valid()
      modifies audit
      ensures Valid()
      ensures (Now(), if ok then Done else Failed)
           == Exec(old(Now()), rule.id, Append(operation, named), FaultFor(old(Schedule()), Append(operation, named)))
      ensures Schedule() == After(old(Schedule()), Append(operation, named))
    {
      ok := audit.Append(Reconciled(rule.id, operation, named));
    }

    method FailRule(rule: Rule, code: string) returns (outcome: Outcome)
      requires Valid()
      modifies rules
      ensures Valid() && rules.order == old(rules.order)
      ensures Pass(old(Now()), old(Schedule()), rule, Fail(code)) == PassEnd(Now(), Schedule(), outcome)
    {
      hide Pass; hide Exec;
      PassOn(Now(), Schedule(), rule, Fail(code));
      var ok := AskRules(rule.id, MarkError(code));
      PassOver(Now(), Schedule(), rule, Broken);
      outcome := Broken;
    }

    method Conflict(rule: Rule, id: EntryId) returns (outcome: Outcome)
      requires Valid()
      modifies rules, audit
      ensures Valid() && rules.order == old(rules.order)
      ensures Pass(old(Now()), old(Schedule()), rule, RecordConflict(id)) == PassEnd(Now(), Schedule(), outcome)
    {
      hide Pass; hide Exec;
      PassOn(Now(), Schedule(), rule, RecordConflict(id));
      var ok := RecordAudit(rule, "ownership_conflict", Some(id));
      if !ok {
        PassOver(Now(), Schedule(), rule, Broken);
        return Broken;
      }
      outcome := FailRule(rule, "ownership_mismatch");
    }

    /** recordAudit followed by MarkConverged. */
    method Settle(rule: Rule, operation: string, named: Option<EntryId>, binding: Option<EntryId>, changed: bool)
      returns (outcome: Outcome)
      requires Valid()
      modifies rules, audit
      ensures Valid() && rules.order == old(rules.order)
      ensures Pass(old(Now()), old(Schedule()), rule, Record(operation, named, binding, changed))
           == PassEnd(Now(), Schedule(), outcome)
    {
      hide Pass; hide Exec;
      PassOn(Now(), Schedule(), rule, Record(operation, named, binding, changed));
      var ok := RecordAudit(rule, operation, named);
      if !ok {
        PassOver(Now(), Schedule(), rule, Broken);
        return Broken;
      }
      PassOn(Now(), Schedule(), rule, Mark(binding, changed));
      ok := AskRules(rule.id, MarkConverged(binding));
      outcome := if ok then Settled(changed) else Broken;
      PassOver(Now(), Schedule(), rule, outcome);
    }

    // ---- createOrBind, reconcilePresent, reconcileAbsent ----

    method CreateOrBind(rule: Rule, desired: Entry) returns (outcome: Outcome)
      requires Valid()
      modifies rules, spire, spire.server, audit
      ensures Valid() && rules.order == old(rules.order)
      ensures Pass(old(Now()), old(Schedule()), rule, Create(desired)) == PassEnd(Now(), Schedule(), outcome)
    {
      hide Pass; hide Exec; hide Equivalent; hide OwnerHint;
      PassOn(Now(), Schedule(), rule, Create(desired));
      var result := AskSpire(rule.id, CreateEntry(desired));
      if !result.Made? && !result.Existing? {
        outcome := FailRule(rule, "spire_create_failed");
        return;
      }
      if !OwnedBy(result.entry, rule.id) {
        outcome := Conflict(rule, result.id);
        return;
      }
      var operation, changed, id := "create", true, result.id;
      if result.Existing? {
        var same := EntriesEquivalent(result.entry, desired);
        if same {
          operation, changed := "bind_owned_existing", false;
        } else {
          PassOn(Now(), Schedule(), rule, UpdateExisting(id, desired));
          var updated := AskSpire(rule.id, UpdateEntry(id, desired));
          if updated.NotFound? {
            outcome := FailRule(rule, "spire_update_race");
            return;
          }
          if !updated.Updated? {
            outcome := FailRule(rule, "spire_update_failed");
            return;
          }
          if !OwnedBy(updated.entry, rule.id) {
            outcome := Conflict(rule, updated.id);
            return;
          }
          id, operation := updated.id, "update_owned_existing";
        }
      }
      outcome := Settle(rule, operation, Some(id), Some(id), changed);
    }

    method ReconcilePresent(rule: Rule) returns (outcome: Outcome)
      requires Valid() && rule.desiredState == "present"
      modifies rules, spire, spire.server, audit
      ensures Valid() && rules.order == old(rules.order)
      ensures Pass(old(Now()), old(Schedule()), rule, Start(rule)) == PassEnd(Now(), Schedule(), outcome)
    {
      hide Pass; hide Exec; hide Equivalent; hide OwnerHint; hide DesiredEntry;
      var built := DesiredEntry(rule);
      if built.Err? {
        outcome := FailRule(rule, "invalid_desired_state");
        return;
      }
      var desired := built.value;
      if rule.binding.None? {
        outcome := CreateOrBind(rule, desired);
        return;
      }
      PassOn(Now(), Schedule(), rule, FetchPresent(rule.binding.value, desired));
      var actual := AskSpire(rule.id, GetEntry(rule.binding.value));
      if actual.NotFound? {
        outcome := CreateOrBind(rule, desired);
        return;
      }
      if !actual.Found? {
        outcome := FailRule(rule, "spire_unavailable");
        return;
      }
      if !OwnedBy(actual.entry, rule.id) {
        outcome := Conflict(rule, actual.id);
        return;
      }
      var same := EntriesEquivalent(actual.entry, desired);
      if same {
        if rule.status != Converged {
          outcome := Settle(rule, "bind_owned_existing", Some(actual.id), Some(actual.id), false);
          return;
        }
        PassOver(Now(), Schedule(), rule, Settled(false));
        return Settled(false);
      }
      outcome := UpdateOrRecreate(rule, actual.id, desired);
    }

    /** The rest of reconcilePresent, once the bound entry has been seen to drift. */
    method UpdateOrRecreate(rule: Rule, id: EntryId, desired: Entry) returns (outcome: Outcome)
      requires Valid()
      modifies rules, spire, spire.server, audit
      ensures Valid() && rules.order == old(rules.order)
      ensures Pass(old(Now()), old(Schedule()), rule, UpdateBound(id, desired)) == PassEnd(Now(), Schedule(), outcome)
    {
      hide Pass; hide Exec; hide OwnerHint;
      PassOn(Now(), Schedule(), rule, UpdateBound(id, desired));
      var updated := AskSpire(rule.id, UpdateEntry(id, desired));
      if updated.NotFound? {
        outcome := CreateOrBind(rule, desired);
        return;
      }
      if !updated.Updated? {
        outcome := FailRule(rule, "spire_update_failed");
        return;
      }
      if !OwnedBy(updated.entry, rule.id) {
        outcome := Conflict(rule, updated.id);
        return;
      }
      outcome := Settle(rule, "update", Some(updated.id), Some(updated.id), true);
    }

    method ReconcileAbsent(rule: Rule) returns (outcome: Outcome)
      requires Valid() && rule.desiredState == "absent"
      modifies rules, spire, spire.server, audit
      ensures Valid() && rules.order == old(rules.order)
      ensures Pass(old(Now()), old(Schedule()), rule, Start(rule)) == PassEnd(Now(), Schedule(), outcome)
    {
      hide Pass; hide Exec; hide OwnerHint;
      if rule.binding.None? {
        if rule.status != Converged {
          outcome := Settle(rule, "absent_noop", None, None, false);
          return;
        }
        PassOver(Now(), Schedule(), rule, Settled(false));
        return Settled(false);
      }
      PassOn(Now(), Schedule(), rule, FetchAbsent(rule.binding.value));
      var actual := AskSpire(rule.id, GetEntry(rule.binding.value));
      if actual.NotFound? {
        outcome := Settle(rule, "clear_stale_binding", rule.binding, None, false);
        return;
      }
      if !actual.Found? {
        outcome := FailRule(rule, "spire_unavailable");
        return;
      }
      if !OwnedBy(actual.entry, rule.id) {
        outcome := Conflict(rule, actual.id);
        return;
      }
      PassOn(Now(), Schedule(), rule, Delete(actual.id));
      var deleted := AskSpire(rule.id, DeleteEntry(actual.id));
      if deleted != Done && deleted != NotFound {
        outcome := FailRule(rule, "spire_delete_failed");
        return;
      }
      outcome := Settle(rule, "delete", Some(actual.id), None, true);
    }

    method ReconcileRule(rule: Rule) returns (outcome: Outcome)
      requires Valid()
      modifies rules, spire, spire.server, audit
      ensures Valid() && rules.order == old(rules.order)
      ensures Pass(old(Now()), old(Schedule()), rule, Start(rule)) == PassEnd(Now(), Schedule(), outcome)
    {
      hide Pass;
      if rule.desiredState == "present" {
        outcome := ReconcilePresent(rule);
      } else if rule.desiredState == "absent" {
        outcome := ReconcileAbsent(rule);
      } else {
        outcome := FailRule(rule, "invalid_desired_state");
      }
    }

    // ---- Run ----

    /** One run does what the protocol says for the rows listed, and reports it: every rule is
        counted once, and the IDs in the joined error are those of the rules that failed. */
    method Run() returns (summary: Summary, failures: Option<seq<string>>)
      requires Valid()
      modifies rules, spire, spire.server, audit
      ensures Valid()
      ensures Enumerates(old(Now()), old(rules.order))
      ensures
        var fs := old(Schedule()).(rules := Tail(old(rules.faults)));
        if !Head(old(rules.faults)).Fine?
        then summary == Summary(0, 0, 0, 0) && failures.None? && Now() == old(Now()) && Schedule() == fs
        else
          var items := ListRows(old(Now()), old(rules.order));
          var end := RunOver(old(Now()), fs, items);
          && Now() == end.w && Schedule() == end.fs && failures == Some(FailedIds(items, end.outcomes))
          && summary == Tally(end.outcomes)
    {
      hide Pass; hide RunOver; hide AsRead; hide Tally; hide FailedIds;
      var items, ok := rules.List();
      if !ok { return Summary(0, 0, 0, 0), None; }
      assert items == ListRows(old(Now()), old(rules.order));
      var failed;
      summary, failed := ReconcileAll(items);
      failures := Some(failed);
    }

    /** The loop of Run. */
    method ReconcileAll(items: seq<Rule>) returns (summary: Summary, failed: seq<string>)
      requires Valid()
      modifies rules, spire, spire.server, audit
      ensures Valid() && rules.order == old(rules.order)
      ensures var end := RunOver(old(Now()), old(Schedule()), items);
              && Now() == end.w && Schedule() == end.fs && failed == FailedIds(items, end.outcomes)
              && summary == Tally(end.outcomes)
    {
      hide Pass; hide RunOver; hide AsRead; hide Tally; hide FailedIds; hide Ahead; hide Start;
      ghost var whole := RunOver(Now(), Schedule(), items);
      ghost var outcomes: seq<Outcome> := [];
      summary := Summary(|items|, 0, 0, 0);
      failed := [];
      TallyNone(items);
      AheadOfNothing(whole);
      assert items[0..] == items;
      for i := 0 to |items|
        invariant Valid() && rules.order == old(rules.order) && |outcomes| == i
        invariant Ahead(outcomes, RunOver(Now(), Schedule(), items[i..])) == whole
        invariant summary == Tally(outcomes).(total := |items|)
        invariant failed == FailedIds(items[..i], outcomes)
      {
        RunFrom(Now(), Schedule(), items, i);
        var outcome := ReconcileRule(items[i]);
        Behind(outcomes, outcome, RunOver(Now(), Schedule(), items[i + 1..]));
        TallyMore(outcomes, outcome);
        FailedIdsMore(items[..i], outcomes, items[i], outcome);
        assert items[..i + 1] == items[..i] + [items[i]];
        outcomes := outcomes + [outcome];
        match outcome
        case Broken =>
          summary := summary.(failed := summary.failed + 1);
          failed := failed + [items[i].id];
        case Settled(changed) =>
          summary := summary.(converged := summary.converged + 1);
          if changed { summary := summary.(changed := summary.changed + 1); }
      }
      RunOut(outcomes, Now(), Schedule(), items);
    }
  }

  function Ahead(done: seq<Outcome>, rest: RunEnd): RunEnd {
    RunEnd(rest.w, rest.fs, done + rest.outcomes)
  }

  lemma Behind(done: seq<Outcome>, o: Outcome, rest: RunEnd)
    ensures Ahead(done, Ahead([o], rest)) == Ahead(done + [o], rest)
  {
    assert done + ([o] + rest.outcomes) == done + [o] + rest.outcomes;
  }

  lemma AheadOfNothing(rest: RunEnd)
    ensures Ahead([], rest) == rest
  {
  }

  lemma RunFrom(w: World, fs: Faults, rules: seq<Rule>, i: nat)
    requires i < |rules|
    ensures var first := Pass(w, fs, rules[i], Start(rules[i]));
            RunOver(w, fs, rules[i..]) == Ahead([first.outcome], RunOver(first.w, first.fs, rules[i + 1..]))
  {
    hide Pass;
    assert rules[i..][1..] == rules[i + 1..];
  }

  lemma RunOut(outcomes: seq<Outcome>, w: World, fs: Faults, rules: seq<Rule>)
    ensures Ahead(outcomes, RunOver(w, fs, rules[|rules|..])) == RunEnd(w, fs, outcomes)
    ensures rules[..|rules|] == rules
  {
    assert rules[|rules|..] == [];
    assert RunOver(w, fs, []) == RunEnd(w, fs, []);
    assert outcomes + [] == outcomes;
  }

  lemma TallyNone(rules: seq<Rule>)
    ensures Tally([]) == Summary(0, 0, 0, 0) && FailedIds(rules[..0], []) == []
  {
  }

  lemma TallyMore(outcomes: seq<Outcome>, o: Outcome)
    ensures Tally(outcomes + [o]) == Tally(outcomes).Count(o)
  {
    assert (outcomes + [o])[..|outcomes|] == outcomes;
  }

  lemma FailedIdsMore(rules: seq<Rule>, outcomes: seq<Outcome>, r: Rule, o: Outcome)
    requires |rules| == |outcomes|
    ensures FailedIds(rules + [r], outcomes + [o]) == FailedIds(rules, outcomes) + (if o.Broken? then [r.id] else [])
  {
    hide FailedIds;
    assert (rules + [r])[..|rules|] == rules && (outcomes + [o])[..|outcomes|] == outcomes;
    FailedIdsUnfolds(rules + [r], outcomes + [o]);
  }

  lemma FailedIdsUnfolds(rules: seq<Rule>, outcomes: seq<Outcome>)
    requires |rules| == |outcomes| && rules != []
    ensures var m := |rules| - 1;
            FailedIds(rules, outcomes)
            == FailedIds(rules[..m], outcomes[..m]) + (if outcomes[m].Broken? then [rules[m].id] else [])
  {
  }

  /** What Run reports of the outcomes. */
  function Tally(outcomes: seq<Outcome>): (s: Summary)
    ensures s.total == s.converged + s.failed == |outcomes| && s.changed <= s.converged
    ensures s.failed == 0 <==> forall i :: 0 <= i < |outcomes| ==> outcomes[i].Settled?
    ensures s.failed == s.changed == 0 <==> forall i :: 0 <= i < |outcomes| ==> outcomes[i] == Settled(false)
  {
    if outcomes == [] then Summary(0, 0, 0, 0)
    else
      Tally(outcomes[..|outcomes| - 1]).Count(outcomes[|outcomes| - 1])
  }

  /** The positions at which the outcome is `o`. */
  function At(outcomes: seq<Outcome>, o: Outcome): set<nat> {
    set i: nat | i < |outcomes| && outcomes[i] == o
  }

  lemma AtMore(outcomes: seq<Outcome>, last: Outcome, o: Outcome)
    ensures |At(outcomes + [last], o)| == |At(outcomes, o)| + (if last == o then 1 else 0)
  {
    var more := outcomes + [last];
    assert At(more, o) == At(outcomes, o) + (if last == o then {|outcomes|} else {});
  }

  /** Each counter counts. */
  lemma {:induction false} TallyCounts(outcomes: seq<Outcome>)
    ensures var s := Tally(outcomes);
      && s.changed == |At(outcomes, Settled(true))|
      && s.converged == |At(outcomes, Settled(true))| + |At(outcomes, Settled(false))|
      && s.failed == |At(outcomes, Broken)|
  {
    if outcomes != [] {
      var m := |outcomes| - 1;
      var init, o := outcomes[..m], outcomes[m];
      assert init + [o] == outcomes;
      TallyCounts(init);
      TallyMore(init, o);
      AtMore(init, o, Settled(true));
      AtMore(init, o, Settled(false));
      AtMore(init, o, Broken);
      hide Tally;
      hide At;
    }
  }

  /** The rules named in the joined error: those whose pass broke, in order. */
  function FailedIds(rules: seq<Rule>, outcomes: seq<Outcome>): (ids: seq<string>)
    requires |rules| == |outcomes|
    ensures |ids| == Tally(outcomes).failed
    ensures forall x :: x in ids <==> exists i :: 0 <= i < |rules| && rules[i].id == x && outcomes[i].Broken?
    decreases |rules|
  {
    if rules == [] then []
    else
      var m := |rules| - 1;
      var ids := FailedIds(rules[..m], outcomes[..m]);
      if outcomes[m].Broken? then ids + [rules[m].id] else ids
  }
}

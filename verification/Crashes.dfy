/** Crash recovery exactly: when a run that was cut or disturbed leaves no trace after the next one. */
module Crashes {
  import opened Text
  import opened Entries
  import opened Registration
  import opened Backends
  import opened Protocol
  import opened Frame
  import opened Goals
  import opened Recovery
  import opened Runs
  import opened Convergence
  import opened Obstacles

  // ---- Whole runs ----

  function Ids(rules: seq<Rule>): set<string> { set i | 0 <= i < |rules| :: rules[i].id }

  lemma HeadPassed(w: World, fs: Faults, rules: seq<Rule>) returns (first: PassEnd)
    requires Sound(w) && DistinctIdentities(w) && rules != [] && Listed(w, rules)
    ensures first == Pass(w, fs, rules[0], Start(rules[0])) && Passed(w, first.w, rules[0])
    ensures Sound(first.w) && DistinctIdentities(first.w) && Listed(first.w, rules[1..])
    ensures FaultFree(fs) ==> rules[0].id in first.w.rows && Met(first.w, rules[0].id, first.outcome) && FaultFree(first.fs)
  {
    hide *;
    first := HeadPass(w, fs, rules);
    IsListed(w, rules, 0);
    KeepsRow(w, first.w, rules[0].id);
    PassedIs(w, first.w, rules[0]);
  }

  lemma KeepsRow(w: World, w': World, x: string)
    requires x in w.rows && Keeps(w, w', x)
    ensures x in w'.rows
  {
    hide Goal;
    hide Firm;
    hide Sound;
  }

  lemma PassedIs(w: World, w': World, r: Rule)
    requires Sound(w) && Sound(w') && r.id in w.rows && w.rows[r.id] == r && Touches(w, w', r) && Keeps(w, w', r.id)
    ensures Passed(w, w', r)
  {
    hide Sound;
    hide Touches;
    hide Keeps;
  }

  /** What a row ends up as stays the same over a run, whatever goes wrong in it, as long as all the
      others in the run count as acting first, or nothing blocks the row. */
  lemma {:induction false} RunClears(w: World, fs: Faults, rules: seq<Rule>, s: set<string>, x: string)
    requires Sound(w) && DistinctIdentities(w) && Listed(w, rules) && x in w.rows && x !in s
    requires (forall i :: 0 <= i < |rules| ==> rules[i].id == x || rules[i].id in s) || !Blocked(w, s, x)
    ensures var end := RunOver(w, fs, rules).w;
      x in end.rows && ClearGoal(end, s, x) == ClearGoal(w, s, x) && (Blocked(end, s, x) <==> Blocked(w, s, x))
    decreases |rules|
  {
    hide *;
    if rules == [] {
      RunNone(w, fs);
    } else {
      var r := rules[0];
      var first := HeadPassed(w, fs, rules);
      IsListed(w, rules, 0);
      RunOn(w, fs, rules);
      if r.id == x {
        OwnPass(w, first.w, s, x);
      } else {
        PairApart(w, r, x);
        OtherPass(w, first.w, r, s, x);
      }
      assert forall i :: 0 <= i < |rules[1..]| ==> rules[1..][i] == rules[i + 1];
      RunClears(first.w, first.fs, rules[1..], s, x);
    }
  }

  lemma RunNone(w: World, fs: Faults)
    ensures RunOver(w, fs, []) == RunEnd(w, fs, [])
  {
  }

  /** Entry `k` is not under row `x`'s identity. */
  predicate NotUnder(w: World, x: string, k: EntryId)
    requires x in w.rows
  {
    k in w.entries ==> Some(w.entries[k].spiffeId) != Identity(w.rows[x])
  }

  lemma UnderIs(w: World, x: string, k: EntryId)
    requires x in w.rows
    ensures NotUnder(w, x, k) <==> (k in w.entries ==> Some(w.entries[k].spiffeId) != Identity(w.rows[x]))
  {
  }

  /** Rows that have nothing left to move in `x`'s way may as well not act. */
  lemma NothingLeft(w: World, s: set<string>, s': set<string>, x: string)
    requires Sound(w) && x in w.rows && x !in s' && s <= s'
    requires forall y, k :: y in s' && y !in s && Moves(w, y, k) ==> NotUnder(w, x, k)
    ensures ClearGoal(w, s', x) == ClearGoal(w, s, x) && (Blocked(w, s', x) <==> Blocked(w, s, x))
  {
    hide *;
    if Seeks(w, x).None? {
      NoSeek(w, s, x);
      NoSeek(w, s', x);
    } else {
      FindsIs(w, s, x);
      MoreMoved(w, s, s');
      var f := Finds(w, s, x);
      if f.Some? {
        SameEntryIs(w, w, f.value);
        UnderIs(w, x, f.value);
        MovedIs(w, s, f.value);
        MovedIs(w, s', f.value);
      }
      FindAgain(w, w, s, s', x);
      BlockedBy(w, s, s', x);
    }
  }

  lemma {:induction false} PicturePasses(w: World, fs: Faults, rules: seq<Rule>, x: string)
    requires Sound(w) && DistinctIdentities(w) && Listed(w, rules) && x in w.rows
    requires forall i :: 0 <= i < |rules| ==> rules[i].id != x
    ensures var end := RunOver(w, fs, rules).w; x in end.rows && PictureOf(end, x) == PictureOf(w, x)
    decreases |rules|
  {
    hide *;
    if rules == [] {
      RunNone(w, fs);
    } else {
      var first := HeadPassed(w, fs, rules);
      IsListed(w, rules, 0);
      RunOn(w, fs, rules);
      PassedSound(w, first.w, rules[0]);
      OtherRow(w, first.w, rules[0], x);
      HoldingsKept(w, first.w, rules[0], x);
      PictureTwin(w, first.w, x);
      assert forall i :: 0 <= i < |rules[1..]| ==> rules[1..][i] == rules[i + 1];
      PicturePasses(first.w, first.fs, rules[1..], x);
    }
  }

  lemma PictureTwin(w: World, w': World, x: string)
    requires x in w.rows && x in w'.rows && w'.rows[x] == w.rows[x] && Holdings(w'.entries, x) == Holdings(w.entries, x)
    ensures PictureOf(w', x) == PictureOf(w, x)
  {
    hide Holdings;
  }

  /** An undisturbed run leaves every listed row as what it ends up as when the rows listed before
      it act first, and counts it converged unless it is then still blocked. */
  lemma {:induction false} CleanReaches(w: World, fs: Faults, rules: seq<Rule>, i: nat)
    requires Sound(w) && DistinctIdentities(w) && Listed(w, rules) && i < |rules| && FaultFree(fs)
    ensures var end := RunOver(w, fs, rules); var x := rules[i].id;
      && x in w.rows && x in end.w.rows && PictureOf(end.w, x) == ClearGoal(w, Ids(rules[..i]), x)
      && (end.outcomes[i].Settled? <==> !Blocked(w, Ids(rules[..i]), x))
    decreases |rules|
  {
    hide *;
    var x, tail, r := rules[i].id, rules[1..], rules[0];
    var first := HeadPassed(w, fs, rules);
    IsListed(w, rules, i);
    IsListed(w, rules, 0);
    RunOn(w, fs, rules);
    assert forall j :: 0 <= j < |tail| ==> tail[j] == rules[j + 1];
    if i == 0 {
      assert rules[..0] == [];
      IdsNone();
      OthersFollow(w, rules);
      CleanOwn(w, first, r);
      PicturePasses(first.w, first.fs, tail, x);
    } else {
      var s, b := Ids(tail[..i - 1]), Ids(rules[..i]);
      IdsMore(rules, i);
      NotListedTwice(w, rules, i);
      PairApart(w, r, x);
      OtherPass(w, first.w, r, b, x);
      CleanReaches(first.w, first.fs, tail, i - 1);
      forall y, k | y in b && y !in s && Moves(first.w, y, k) ensures NotUnder(first.w, x, k) {
        MovesOwn(first.w, y, k);
        NoneAstray(w, first.w, r, x, first.outcome, k);
      }
      NothingLeft(first.w, s, b, x);
    }
  }

  lemma IdsNone()
    ensures Ids([]) == {}
  {
  }

  lemma IdsMore(rules: seq<Rule>, i: nat)
    requires 0 < i <= |rules|
    ensures Ids(rules[..i]) == Ids(rules[1..][..i - 1]) + {rules[0].id}
  {
    var tail := rules[1..][..i - 1];
    assert forall j :: 0 <= j < i - 1 ==> tail[j] == rules[..i][j + 1];
    assert rules[..i][0] == rules[0];
    forall x ensures x in Ids(rules[..i]) <==> x in Ids(tail) || x == rules[0].id {
      if x in Ids(rules[..i]) {
        var j :| 0 <= j < i && rules[..i][j].id == x;
        if j > 0 { assert tail[j - 1].id == x; }
      }
      if x in Ids(tail) {
        var j :| 0 <= j < i - 1 && tail[j].id == x;
        assert rules[..i][j + 1].id == x;
      }
    }
  }

  lemma NotListedTwice(w: World, rules: seq<Rule>, i: nat)
    requires Listed(w, rules) && i < |rules|
    ensures rules[i].id !in Ids(rules[..i]) && (i > 0 ==> rules[0].id != rules[i].id)
  {
  }

  lemma CleanOwn(w: World, first: PassEnd, r: Rule)
    requires Passed(w, first.w, r) && r.id in first.w.rows && Met(first.w, r.id, first.outcome)
    ensures r.id in w.rows && PictureOf(first.w, r.id) == ClearGoal(w, {}, r.id)
    ensures first.outcome.Settled? <==> !Blocked(w, {}, r.id)
  {
    hide *;
    PassedStart(w, first.w, r);
    PassedRow(w, first.w, r);
    NothingMoved(w);
    ClearIs(w, {}, r.id);
    assert w.entries - {} == w.entries;
    RejectShows(w, r.id);
    MetIs(first.w, r.id, first.outcome);
    GoalStatus(w, r.id);
  }

  lemma MetIs(w: World, x: string, o: Outcome)
    requires x in w.rows && Met(w, x, o)
    ensures PictureOf(w, x) == Goal(w, x) && (o.Settled? <==> Goal(w, x).row.status == Converged)
  {
    hide Goal;
    hide PictureOf;
  }

  lemma GoalStatus(w: World, x: string)
    requires x in w.rows
    ensures Goal(w, x).row.status == Converged || Goal(w, x).row.status == Errored
  {
    hide AimOf;
    hide OwnedBy;
    hide Holdings;
  }

  /** What `r` is still due to move after its undisturbed pass is not under `x`'s identity. */
  lemma NoneAstray(w: World, w': World, r: Rule, x: string, o: Outcome, k: EntryId)
    requires Passed(w, w', r) && r.id in w'.rows && Met(w', r.id, o) && Moves(w', r.id, k)
    requires x in w.rows && x in w'.rows && OtherIdentity(r, w.rows[x]) && w'.rows[x] == w.rows[x]
    ensures NotUnder(w', x, k)
  {
    hide *;
    UnderIs(w', x, k);
    if k in w'.entries && Some(w'.entries[k].spiffeId) == Identity(w'.rows[x]) {
      NotIdentity(r, w.rows[x], w'.entries[k]);
      CleanMoves(w, w', r, o, k);
    }
  }

  lemma {:induction false} MovesPasses(w: World, fs: Faults, rules: seq<Rule>, y: string, k: EntryId)
    requires Sound(w) && DistinctIdentities(w) && Listed(w, rules)
    requires forall i :: 0 <= i < |rules| ==> rules[i].id != y
    ensures var end := RunOver(w, fs, rules).w;
      Moves(end, y, k) ==> Moves(w, y, k) && k in end.entries && k in w.entries && end.entries[k] == w.entries[k]
    decreases |rules|
  {
    hide *;
    var end := RunOver(w, fs, rules).w;
    if rules == [] {
      RunNone(w, fs);
      if Moves(end, y, k) { MovesOwn(w, y, k); }
    } else {
      var first := HeadPassed(w, fs, rules);
      RunOn(w, fs, rules);
      assert forall i :: 0 <= i < |rules[1..]| ==> rules[1..][i] == rules[i + 1];
      MovesPasses(first.w, first.fs, rules[1..], y, k);
      OtherMoves(w, first.w, rules[0], y, k);
      if Moves(end, y, k) {
        MovesOwn(w, y, k);
        OwnersDiffer(w.entries[k], y, rules[0].id);
        NotOwnStays(w, first.w, rules[0], k);
      }
    }
  }

  lemma {:induction false} IdentityRuns(w: World, fs: Faults, rules: seq<Rule>, x: string)
    requires Sound(w) && DistinctIdentities(w) && Listed(w, rules) && x in w.rows
    ensures var end := RunOver(w, fs, rules).w; x in end.rows && Identity(end.rows[x]) == Identity(w.rows[x])
    decreases |rules|
  {
    hide *;
    if rules == [] {
      RunNone(w, fs);
    } else {
      var first := HeadPassed(w, fs, rules);
      RunOn(w, fs, rules);
      IdentityStays(w, first.w, rules[0], x);
      IdentityRuns(first.w, first.fs, rules[1..], x);
    }
  }

  /** After an undisturbed run no listed row is due to move anything in `x`'s way. */
  lemma {:induction false} CleanMoved(w: World, fs: Faults, rules: seq<Rule>, x: string, j: nat, k: EntryId)
    requires Sound(w) && DistinctIdentities(w) && Listed(w, rules) && FaultFree(fs)
    requires x in w.rows && j < |rules| && rules[j].id != x
    ensures var end := RunOver(w, fs, rules).w;
      x in end.rows && (Moves(end, rules[j].id, k) ==> NotUnder(end, x, k))
    decreases |rules|
  {
    hide *;
    var end, tail, r := RunOver(w, fs, rules).w, rules[1..], rules[0];
    var first := HeadPassed(w, fs, rules);
    IsListed(w, rules, 0);
    RunOn(w, fs, rules);
    PassedRow(w, first.w, r);
    IdentityStays(w, first.w, r, x);
    if j == 0 {
      OthersFollow(w, rules);
      MovesPasses(first.w, first.fs, tail, r.id, k);
      IdentityRuns(first.w, first.fs, tail, x);
      OtherRow(w, first.w, r, x);
      PairApart(w, r, x);
      UnderIs(end, x, k);
      UnderIs(first.w, x, k);
      if Moves(first.w, r.id, k) { NoneAstray(w, first.w, r, x, first.outcome, k); }
    } else {
      assert tail[j - 1] == rules[j];
      CleanMoved(first.w, first.fs, tail, x, j - 1, k);
    }
  }

  lemma IdentityStays(w: World, w': World, r: Rule, x: string)
    requires Passed(w, w', r) && x in w.rows
    ensures x in w'.rows && Identity(w'.rows[x]) == Identity(w.rows[x])
  {
    hide *;
    PassedStart(w, w', r);
    if x == r.id { PassedRow(w, w', r); } else { OtherRow(w, w', r, x); }
  }

  // ---- Crash recovery ----

  /** The world after any number of runs, each hit by its own faults or cut short, and one more. */
  function Recovered(w: World, runs: seq<Faults>, order: seq<string>, fine: Faults): World
    requires Sound(w) && DistinctIdentities(w) && Enumerates(w, order)
  {
    var crashed := AfterRuns(w, runs, order);
    RunsSound(w, runs, order);
    RunOver(crashed, fine, ListRows(crashed, order)).w
  }

  /** However many runs were disturbed or cut short, one undisturbed run leaves the rule's row and
      entries as one undisturbed run from the start would have, except for the ID of an entry it
      had to create; in particular it has as many entries. */
  ghost predicate Recovers(w: World, order: seq<string>, x: string)
    requires Sound(w) && DistinctIdentities(w) && Enumerates(w, order)
  {
    forall runs, fine, fine' :: FaultFree(fine) && FaultFree(fine') ==> SameEnd(w, runs, order, fine, fine', x)
  }

  predicate SameEnd(w: World, runs: seq<Faults>, order: seq<string>, fine: Faults, fine': Faults, x: string)
    requires Sound(w) && DistinctIdentities(w) && Enumerates(w, order)
  {
    var late, straight := Recovered(w, runs, order, fine), Recovered(w, [], order, fine');
    && x in late.rows && x in straight.rows && PictureOf(late, x) == PictureOf(straight, x)
    && |Holdings(late.entries, x)| == |Holdings(straight.entries, x)|
  }

  /** The rows listed before position `i`, and all listed rows but `order[i]`. */
  function Before(order: seq<string>, i: nat): set<string>
    requires i < |order|
  {
    set j | 0 <= j < i :: order[j]
  }

  function Others(order: seq<string>, i: nat): set<string>
    requires i < |order|
  {
    set j | 0 <= j < |order| && j != i :: order[j]
  }

  /** Rows listed later do not clear the way for `order[i]`: if nothing is in its way once all
      others have acted, nothing is in its way once those before it have. */
  predicate Timely(w: World, order: seq<string>, i: nat)
    requires i < |order| && order[i] in w.rows
  {
    var x := order[i];
    Sendable(w.rows[x]) && Unconflicted(Cleared(w, Others(order, i)), x) ==> Unconflicted(Cleared(w, Before(order, i)), x)
  }

  lemma {:induction false} RunsSound(w: World, runs: seq<Faults>, order: seq<string>)
    requires Sound(w) && DistinctIdentities(w) && Enumerates(w, order)
    ensures var w' := AfterRuns(w, runs, order); Sound(w') && DistinctIdentities(w') && Enumerates(w', order)
    decreases |runs|
  {
    hide Sound;
    hide DistinctIdentities;
    hide RunOver;
    if runs != [] {
      ListRowsListed(w, order);
      RunSound(w, runs[0], ListRows(w, order));
      RunsSound(RunOver(w, runs[0], ListRows(w, order)).w, runs[1..], order);
    }
  }

  lemma {:induction false} RunsClear(w: World, runs: seq<Faults>, order: seq<string>, s: set<string>, x: string)
    requires Sound(w) && DistinctIdentities(w) && Enumerates(w, order) && x in w.rows && x !in s
    requires (forall i :: 0 <= i < |order| ==> order[i] == x || order[i] in s) || !Blocked(w, s, x)
    ensures var w' := AfterRuns(w, runs, order);
      x in w'.rows && ClearGoal(w', s, x) == ClearGoal(w, s, x) && (Blocked(w', s, x) <==> Blocked(w, s, x))
    decreases |runs|
  {
    hide *;
    AfterRunsIs(w, runs, order);
    if runs != [] {
      var rules := ListRows(w, order);
      ListRowsListed(w, order);
      OrderIds(w, order);
      RunSound(w, runs[0], rules);
      RunClears(w, runs[0], rules, s, x);
      RunsClear(RunOver(w, runs[0], rules).w, runs[1..], order, s, x);
    }
  }

  lemma AfterRunsIs(w: World, runs: seq<Faults>, order: seq<string>)
    requires Sound(w) && DistinctIdentities(w) && Enumerates(w, order)
    ensures forall i :: 0 <= i < |order| ==> order[i] in w.rows
    ensures runs == [] ==> AfterRuns(w, runs, order) == w
    ensures runs != [] ==>
      var w' := RunOver(w, runs[0], ListRows(w, order)).w;
      && Sound(w') && DistinctIdentities(w') && Enumerates(w', order)
      && AfterRuns(w, runs, order) == AfterRuns(w', runs[1..], order)
  {
    hide Sound;
    hide DistinctIdentities;
    hide RunOver;
    if runs != [] {
      ListRowsListed(w, order);
      RunSound(w, runs[0], ListRows(w, order));
    }
  }

  lemma OrderIds(w: World, order: seq<string>)
    requires Sound(w) && Enumerates(w, order)
    ensures var rules := ListRows(w, order);
      |rules| == |order| && forall i :: 0 <= i < |order| ==> rules[i].id == order[i]
  {
  }

  lemma RecoveredIs(w: World, runs: seq<Faults>, order: seq<string>, fine: Faults)
    requires Sound(w) && DistinctIdentities(w) && Enumerates(w, order)
    ensures var crashed := AfterRuns(w, runs, order);
      && Sound(crashed) && DistinctIdentities(crashed) && Enumerates(crashed, order)
      && Recovered(w, runs, order, fine) == RunOver(crashed, fine, ListRows(crashed, order)).w
  {
    hide Sound;
    hide DistinctIdentities;
    hide AfterRuns;
    RunsSound(w, runs, order);
  }

  lemma BeforeIds(w: World, order: seq<string>, i: nat)
    requires Sound(w) && Enumerates(w, order) && i < |order|
    ensures order[i] in w.rows && Ids(ListRows(w, order)[..i]) == Before(order, i)
    ensures order[i] !in Before(order, i) && order[i] !in Others(order, i) && Before(order, i) <= Others(order, i)
  {
    OrderIds(w, order);
    var rules := ListRows(w, order);
    assert forall j :: 0 <= j < i ==> rules[..i][j].id == order[j];
    hide Sound;
  }

  /** Where an undisturbed run takes row `order[i]` after any number of disturbed ones. */
  lemma EndOf(w: World, runs: seq<Faults>, order: seq<string>, fine: Faults, i: nat)
    requires Sound(w) && DistinctIdentities(w) && Enumerates(w, order) && i < |order| && FaultFree(fine)
    ensures var x, late, crashed := order[i], Recovered(w, runs, order, fine), AfterRuns(w, runs, order);
      && Sound(crashed) && x in crashed.rows && x in late.rows
      && PictureOf(late, x) == ClearGoal(crashed, Before(order, i), x)
  {
    hide *;
    RecoveredIs(w, runs, order, fine);
    var crashed := AfterRuns(w, runs, order);
    ListRowsListed(crashed, order);
    OrderIds(crashed, order);
    BeforeIds(crashed, order, i);
    CleanReaches(crashed, fine, ListRows(crashed, order), i);
  }

  /** A row that stays blocked when more rows act first ends up the same either way. */
  lemma BlockedSame(w: World, s: set<string>, s': set<string>, x: string)
    requires Sound(w) && x in w.rows && x !in s' && s <= s' && Blocked(w, s', x)
    ensures Blocked(w, s, x) && ClearGoal(w, s, x) == ClearGoal(w, s', x)
  {
    hide *;
    if Seeks(w, x).None? {
      NoSeek(w, s, x);
      NoSeek(w, s', x);
    } else {
      if !Blocked(w, s, x) {
        FindOwn(w, s, x);
        FindThrough(w, s, s', x);
        BlockedBy(w, s, s', x);
      }
      BlockedGoal(w, s, x);
      BlockedGoal(w, s', x);
    }
  }

  lemma BlockedGoal(w: World, s: set<string>, x: string)
    requires Sound(w) && x in w.rows && x !in s && Seeks(w, x).Some? && Blocked(w, s, x)
    ensures ClearGoal(w, s, x) == PictureOf(w, x).(row := Errs(w.rows[x], "ownership_mismatch").(binding := None))
  {
    hide *;
    var c := Cleared(w, s);
    ClearedOwn(w, s, x);
    ClearedEntry(w, s, x);
    ClearIs(w, s, x);
    FiledUnder(w, x);
    SeeksMeans(w, x);
    SeeksMeans(c, x);
    CreateAim(c.entries, w.rows[x], DesiredEntry(w.rows[x]).value);
    FoundIsIn(c.entries, Seeks(w, x).value);
    CreateReject(c.entries, w.rows[x], Seeks(w, x).value);
    PictureTwin(w, c, x);
    RejectGoal(c, x, "ownership_mismatch");
  }

  lemma FoundIsIn(entries: map<EntryId, Entry>, n: Entry)
    ensures var f := Similar(entries, n); f.Some? ==> f.value in entries
  {
  }

  lemma CreateReject(entries: map<EntryId, Entry>, r: Rule, n: Entry)
    requires r.desiredState == "present" && DesiredEntry(r).Ok? && !Bound(entries, r)
    requires Stored(DesiredEntry(r).value) == Some(n) && AimOf(entries, r).Reject?
    ensures AimOf(entries, r) == Reject("ownership_mismatch")
  {
    hide Stored;
    hide DesiredEntry;
    hide Equivalent;
    hide OwnedBy;
    hide Similar;
  }

  lemma RejectGoal(w: World, x: string, code: string)
    requires x in w.rows && AimOf(w.entries, w.rows[x]) == Reject(code)
    ensures Goal(w, x) == PictureOf(w, x).(row := Errs(w.rows[x], code).(binding := None))
  {
    hide AimOf;
    hide PictureOf;
  }

  /** For a row with something to send, being blocked means that the create would find, or the row
      is bound to, an entry that is not its own. */
  lemma BlockedMeans(w: World, s: set<string>, x: string)
    requires Sound(w) && x in w.rows && x !in s && Sendable(w.rows[x])
    ensures Blocked(w, s, x) <==> !Unconflicted(Cleared(w, s), x)
  {
    FiledUnder(w, x);
    ClearIs(w, s, x);
    SendableActs(w.rows[x]);
    hide *;
    ConflictDecides(Cleared(w, s), x);
  }

  lemma SendableActs(r: Rule)
    requires Sendable(r)
    ensures Actionable(r)
  {
    hide Stored;
    hide DesiredEntry;
  }

  lemma SendableRuns(w: World, runs: seq<Faults>, order: seq<string>, x: string)
    requires Sound(w) && DistinctIdentities(w) && Enumerates(w, order) && x in w.rows
    ensures var crashed := AfterRuns(w, runs, order);
      x in crashed.rows && (Sendable(crashed.rows[x]) <==> Sendable(w.rows[x]))
    decreases |runs|
  {
    hide *;
    AfterRunsIs(w, runs, order);
    if runs != [] {
      ForeignFrame(w, runs[0], ListRows(w, order)) by { BelowSound(w); }
      var w' := RunOver(w, runs[0], ListRows(w, order)).w;
      SendableStays(w.rows[x], w'.rows[x]);
      SendableRuns(w', runs[1..], order, x);
    }
  }

  lemma BelowSound(w: World)
    requires Sound(w)
    ensures IdsBelow(w)
  {
  }

  /** If nothing blocks the row, or it stays blocked for good, every end is the same. */
  lemma TimelyEnds(w: World, runs: seq<Faults>, order: seq<string>, i: nat)
    requires Sound(w) && DistinctIdentities(w) && Enumerates(w, order) && i < |order|
    requires order[i] in w.rows && Timely(w, order, i)
    ensures var crashed := AfterRuns(w, runs, order);
      order[i] in crashed.rows && ClearGoal(crashed, Before(order, i), order[i]) == ClearGoal(w, Before(order, i), order[i])
  {
    hide *;
    var x, b, a := order[i], Before(order, i), Others(order, i);
    BeforeIds(w, order, i);
    RecoveredIs(w, runs, order, Faults([], [], []));
    var crashed := AfterRuns(w, runs, order);
    if !Blocked(w, b, x) {
      RunsClear(w, runs, order, b, x);
    } else {
      AllOthers(order, i);
      RunsClear(w, runs, order, a, x);
      if Sendable(w.rows[x]) {
        TimelyIs(w, order, i);
        BlockedMeans(w, b, x);
        BlockedMeans(w, a, x);
        BlockedSame(w, b, a, x);
        BlockedSame(crashed, b, a, x);
      } else {
        SendableRuns(w, runs, order, x);
        if Seeks(w, x).Some? { SeeksSendable(w, x); }
        if Seeks(crashed, x).Some? { SeeksSendable(crashed, x); }
        NoSeek(w, b, x);
        NoSeek(w, a, x);
        NoSeek(crashed, b, x);
        NoSeek(crashed, a, x);
      }
    }
  }

  lemma TimelyIs(w: World, order: seq<string>, i: nat)
    requires i < |order| && order[i] in w.rows
    ensures var x := order[i];
      Timely(w, order, i) <==>
        (Sendable(w.rows[x]) && Unconflicted(Cleared(w, Others(order, i)), x) ==>
           Unconflicted(Cleared(w, Before(order, i)), x))
  {
    hide Unconflicted;
    hide Sendable;
    hide Others;
    hide Before;
  }

  lemma AllOthers(order: seq<string>, i: nat)
    requires i < |order|
    ensures forall j :: 0 <= j < |order| ==> order[j] == order[i] || order[j] in Others(order, i)
  {
  }

  lemma AfterNone(w: World, order: seq<string>)
    requires Sound(w) && DistinctIdentities(w) && Enumerates(w, order)
    ensures AfterRuns(w, [], order) == w
  {
    hide Sound;
    hide DistinctIdentities;
  }

  lemma TimelyRecovers(w: World, runs: seq<Faults>, order: seq<string>, fine: Faults, fine': Faults, i: nat)
    requires Sound(w) && DistinctIdentities(w) && Enumerates(w, order) && i < |order|
    requires order[i] in w.rows && Timely(w, order, i) && FaultFree(fine) && FaultFree(fine')
    ensures SameEnd(w, runs, order, fine, fine', order[i])
  {
    hide *;
    EndOf(w, runs, order, fine, i);
    EndOf(w, [], order, fine', i);
    AfterNone(w, order);
    TimelyEnds(w, runs, order, i);
    var late, straight := Recovered(w, runs, order, fine), Recovered(w, [], order, fine');
    HoldingsCount(late, order[i]);
    HoldingsCount(straight, order[i]);
    SameEndIs(w, runs, order, fine, fine', order[i]);
  }

  lemma SameEndIs(w: World, runs: seq<Faults>, order: seq<string>, fine: Faults, fine': Faults, x: string)
    requires Sound(w) && DistinctIdentities(w) && Enumerates(w, order)
    ensures var late, straight := Recovered(w, runs, order, fine), Recovered(w, [], order, fine');
      SameEnd(w, runs, order, fine, fine', x) <==>
        && x in late.rows && x in straight.rows && PictureOf(late, x) == PictureOf(straight, x)
        && |Holdings(late.entries, x)| == |Holdings(straight.entries, x)|
  {
    hide Sound;
    hide DistinctIdentities;
    hide Recovered;
    hide PictureOf;
    hide Holdings;
  }

  /** The schedule on which nothing goes wrong. */
  const NO_FAULTS := Faults([], [], [])

  /** Otherwise one undisturbed run is not enough: it leaves the row an error, and the next one
      leaves it converged. */
  lemma UntimelyDiffers(w: World, order: seq<string>, i: nat)
    requires Sound(w) && DistinctIdentities(w) && Enumerates(w, order) && i < |order|
    requires order[i] in w.rows && !Timely(w, order, i)
    ensures var x := order[i];
      var once, twice := Recovered(w, [], order, NO_FAULTS), Recovered(w, [NO_FAULTS], order, NO_FAULTS);
      && x in once.rows && once.rows[x].status == Errored && once.rows[x].lastError == Some("ownership_mismatch")
      && x in twice.rows && twice.rows[x].status == Converged
      && !SameEnd(w, [NO_FAULTS], order, NO_FAULTS, NO_FAULTS, x)
  {
    hide *;
    var x, b, a := order[i], Before(order, i), Others(order, i);
    BeforeIds(w, order, i);
    AllOthers(order, i);
    TimelyIs(w, order, i);
    BlockedMeans(w, b, x);
    BlockedMeans(w, a, x);
    NoFaults();
    EndOf(w, [], order, NO_FAULTS, i);
    EndOf(w, [NO_FAULTS], order, NO_FAULTS, i);
    AfterNone(w, order);
    RunsClear(w, [NO_FAULTS], order, a, x);
    BlockedSeeks(w, b, a, x);
    BlockedGoal(w, b, x);
    var crashed := AfterRuns(w, [NO_FAULTS], order);
    AfterOne(w, order, NO_FAULTS);
    OneRunClears(w, order, i, NO_FAULTS);
    NothingLeft(crashed, b, a, x);
    ClearIs(crashed, b, x);
    ErrsIs(w.rows[x], "ownership_mismatch");
    RejectShows(Cleared(crashed, b), x);
    GoalStatus(Cleared(crashed, b), x);
    RowOfPicture(Recovered(w, [], order, NO_FAULTS), x);
    RowOfPicture(Recovered(w, [NO_FAULTS], order, NO_FAULTS), x);
    SameEndIs(w, [NO_FAULTS], order, NO_FAULTS, NO_FAULTS, x);
  }

  lemma ErrsIs(r: Rule, code: string)
    ensures var q := Errs(r, code).(binding := None); q.status == Errored && q.lastError == Some(code)
  {
  }

  lemma NoFaults()
    ensures FaultFree(NO_FAULTS)
  {
  }

  lemma RowOfPicture(w: World, x: string)
    requires x in w.rows
    ensures PictureOf(w, x).row.status == w.rows[x].status && PictureOf(w, x).row.lastError == w.rows[x].lastError
  {
    hide Holdings;
  }

  lemma BlockedSeeks(w: World, s: set<string>, s': set<string>, x: string)
    requires Sound(w) && x in w.rows && x !in s && x !in s' && Blocked(w, s, x) && !Blocked(w, s', x)
    ensures Seeks(w, x).Some?
  {
    hide *;
    if Seeks(w, x).None? {
      NoSeek(w, s, x);
      NoSeek(w, s', x);
    }
  }

  lemma AfterOne(w: World, order: seq<string>, f: Faults)
    requires Sound(w) && DistinctIdentities(w) && Enumerates(w, order)
    ensures AfterRuns(w, [f], order) == RunOver(w, f, ListRows(w, order)).w
  {
    hide *;
    AfterRunsIs(w, [f], order);
    assert [f][1..] == [];
    AfterNone(RunOver(w, f, ListRows(w, order)).w, order);
  }

  lemma {:induction false} AfterRunsMore(w: World, runs: seq<Faults>, f: Faults, order: seq<string>)
    requires Sound(w) && DistinctIdentities(w) && Enumerates(w, order)
    ensures var m := AfterRuns(w, runs, order);
      && Sound(m) && DistinctIdentities(m) && Enumerates(m, order)
      && AfterRuns(w, runs + [f], order) == RunOver(m, f, ListRows(m, order)).w
    decreases |runs|
  {
    hide *;
    RecoveredIs(w, runs, order, f);
    if runs == [] {
      AfterNone(w, order);
      assert [] + [f] == [f];
      AfterOne(w, order, f);
    } else {
      AfterRunsIs(w, runs, order);
      AfterRunsIs(w, runs + [f], order);
      assert (runs + [f])[1..] == runs[1..] + [f];
      AfterRunsMore(RunOver(w, runs[0], ListRows(w, order)).w, runs[1..], f, order);
    }
  }

  lemma OneRunClears(w: World, order: seq<string>, i: nat, fine: Faults)
    requires Sound(w) && DistinctIdentities(w) && Enumerates(w, order)
    requires i < |order| && order[i] in w.rows && FaultFree(fine)
    ensures var w' := RunOver(w, fine, ListRows(w, order)).w;
      order[i] in w'.rows && forall y, k :: y in Others(order, i) && Moves(w', y, k) ==> NotUnder(w', order[i], k)
  {
    hide *;
    AfterRunsIs(w, [], order);
    var rules, x := ListRows(w, order), order[i];
    var w' := RunOver(w, fine, rules).w;
    ListRowsListed(w, order);
    OrderIds(w, order);
    IdentityRuns(w, fine, rules, x);
    forall y, k | y in Others(order, i) && Moves(w', y, k) ensures NotUnder(w', x, k) {
      var j := OtherAt(order, i, y, w);
      CleanMoved(w, fine, rules, x, j, k);
    }
  }

  lemma OtherAt(order: seq<string>, i: nat, y: string, w: World) returns (j: nat)
    requires i < |order| && y in Others(order, i) && Enumerates(w, order)
    ensures j < |order| && order[j] == y && y != order[i]
  {
    j :| 0 <= j < |order| && j != i && order[j] == y;
  }

  /** Crash recovery, exactly: a row recovers from every number of disturbed or interrupted runs if
      and only if no row listed after it is the one to clear its way. */
  lemma CrashRecovery(w: World, order: seq<string>, i: nat)
    requires Sound(w) && DistinctIdentities(w) && Enumerates(w, order) && i < |order|
    ensures order[i] in w.rows && (Recovers(w, order, order[i]) <==> Timely(w, order, i))
  {
    hide *;
    BeforeIds(w, order, i);
    if Timely(w, order, i) {
      forall runs, fine, fine' | FaultFree(fine) && FaultFree(fine') ensures SameEnd(w, runs, order, fine, fine', order[i]) {
        TimelyRecovers(w, runs, order, fine, fine', i);
      }
      AllSame(w, order, order[i]);
    } else {
      UntimelyDiffers(w, order, i);
      NoFaults();
      if Recovers(w, order, order[i]) { Instance(w, order, order[i]); }
    }
  }

  lemma AllSame(w: World, order: seq<string>, x: string)
    requires Sound(w) && DistinctIdentities(w) && Enumerates(w, order)
    requires forall runs, fine, fine' :: FaultFree(fine) && FaultFree(fine') ==> SameEnd(w, runs, order, fine, fine', x)
    ensures Recovers(w, order, x)
  {
    hide SameEnd;
    hide FaultFree;
  }

  lemma Instance(w: World, order: seq<string>, x: string)
    requires Sound(w) && DistinctIdentities(w) && Enumerates(w, order) && Recovers(w, order, x) && FaultFree(NO_FAULTS)
    ensures SameEnd(w, [NO_FAULTS], order, NO_FAULTS, NO_FAULTS, x)
  {
    hide SameEnd;
    hide FaultFree;
  }

  /** A row whose create cannot run into another row's entry recovers. */
  lemma FirmIsTimely(w: World, order: seq<string>, i: nat)
    requires Sound(w) && Enumerates(w, order) && i < |order| && order[i] in w.rows && Firm(w, order[i])
    ensures Timely(w, order, i)
  {
    hide *;
    var x, b, a := order[i], Before(order, i), Others(order, i);
    BeforeIds(w, order, i);
    TimelyIs(w, order, i);
    if Sendable(w.rows[x]) {
      BlockedMeans(w, b, x);
      BlockedMeans(w, a, x);
      if Seeks(w, x).None? {
        NoSeek(w, b, x);
        NoSeek(w, a, x);
      } else {
        FirmFinds(w, b, x);
        FirmFinds(w, a, x);
        BlockedBy(w, b, a, x);
      }
    }
  }

  lemma FirmFinds(w: World, s: set<string>, x: string)
    requires Sound(w) && x in w.rows && x !in s && Seeks(w, x).Some? && Firm(w, x)
    ensures Finds(w, s, x) == Finds(w, {}, x)
  {
    hide *;
    NothingMoved(w);
    ClearIs(w, {}, x);
    assert w.entries - {} == w.entries;
    FindsIs(w, {}, x);
    var f := Finds(w, {}, x);
    if f.Some? {
      SameEntryIs(w, w, f.value);
      MovedIs(w, s, f.value);
      FirmSays(w, x);
      if y :| y in s && Moves(w, y, f.value) { MovesOwn(w, y, f.value); MoverIs(w, y, f.value); }
    }
    MoreMoved(w, {}, s);
    FindAgain(w, w, {}, s, x);
  }

  lemma MoverIs(w: World, y: string, k: EntryId)
    requires Moves(w, y, k)
    ensures y in w.rows
  {
    hide AimOf;
    hide OwnedBy;
  }

  lemma FirmSays(w: World, x: string)
    requires x in w.rows && Seeks(w, x).Some? && Firm(w, x)
    ensures var f := Similar(w.entries, Seeks(w, x).value);
      f.Some? ==> f.value in w.entries && forall y :: y in w.rows && y != x ==> !OwnedBy(w.entries[f.value], y)
  {
    hide Seeks;
    hide OwnedBy;
  }

  /** Two undisturbed runs always do: whatever went wrong before them, they leave every row as what
      it ends up as once all others have acted. */
  lemma TwoRunsDo(w: World, runs: seq<Faults>, order: seq<string>, fine: Faults, fine': Faults, i: nat)
    requires Sound(w) && DistinctIdentities(w) && Enumerates(w, order) && i < |order| && FaultFree(fine) && FaultFree(fine')
    ensures var x, late := order[i], Recovered(w, runs + [fine], order, fine');
      x in w.rows && x in late.rows && PictureOf(late, x) == ClearGoal(w, Others(order, i), x)
  {
    hide *;
    var x, b, a, m := order[i], Before(order, i), Others(order, i), AfterRuns(w, runs, order);
    BeforeIds(w, order, i);
    AllOthers(order, i);
    AfterRunsMore(w, runs, fine, order);
    BeforeIds(m, order, i);
    OneRunClears(m, order, i, fine);
    EndOf(w, runs + [fine], order, fine', i);
    NothingLeft(AfterRuns(w, runs + [fine], order), b, a, x);
    RunsClear(w, runs + [fine], order, a, x);
  }
}

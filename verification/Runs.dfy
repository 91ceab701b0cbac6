/** Whole runs of the reconciler: crash recovery, self-stabilisation and the truth of success. */
module Runs {
  import opened Text
  import opened Spiffe
  import opened Entries
  import opened Registration
  import opened Backends
  import opened Protocol
  import opened Frame
  import opened Goals
  import opened Recovery

  /** No two rows stand for the same workload ID. */
  predicate DistinctIdentities(w: World) {
    forall x, y :: x in w.rows && y in w.rows && x != y ==> OtherIdentity(w.rows[x], w.rows[y])
  }

  predicate OtherIdentity(r: Rule, s: Rule) {
    Identity(r).Some? ==> Identity(r) != Identity(s)
  }

  /** Distinct texts make distinct identities when each text is canonical. Without that they need
      not: a bare '#' is not part of the ID. */
  lemma DistinctTexts(w: World)
    requires forall x :: x in w.rows ==> Canonical(w.rows[x].workloadSpiffeId)
    requires forall x, y :: x in w.rows && y in w.rows && x != y ==>
               w.rows[x].workloadSpiffeId != w.rows[y].workloadSpiffeId
    ensures DistinctIdentities(w)
  {
    hide ParseSpiffeId;
    hide FormatSpiffeId;
  }

  // ---- One rule's pass leaves the others where they were ----

  lemma HoldingsKept(w: World, w': World, r: Rule, x: string)
    requires Touches(w, w', r) && r.id != x
    ensures Holdings(w'.entries, x) == Holdings(w.entries, x)
  {
    HintInjective(r.id, x);
    hide OwnerHint;
    forall k | k in w'.entries && OwnedBy(w'.entries[k], x) ensures k in w.entries && w.entries[k] == w'.entries[k] {
      assert Own(w, w', r, k);
    }
  }

  lemma BoundKept(w: World, w': World, r: Rule, x: string)
    requires Touches(w, w', r) && r.id != x && Sound(w) && x in w.rows && r.id in w.rows
    ensures Bound(w'.entries, w.rows[x]) <==> Bound(w.entries, w.rows[x])
    ensures Bound(w.entries, w.rows[x]) ==>
              w'.entries[w.rows[x].binding.value] == w.entries[w.rows[x].binding.value]
  {
    assert Apart(w, x, r.id);
    hide OwnedBy;
    if Bound(w'.entries, w.rows[x]) {
      assert Own(w, w', r, w.rows[x].binding.value);
    }
  }

  lemma SeeksOwnIdentity(w: World, x: string)
    requires x in w.rows && Seeks(w, x).Some?
    ensures Identity(w.rows[x]) == Some(Seeks(w, x).value.spiffeId)
  {
    hide Stored;
    hide OwnerHint;
    StoredIsOwn(w.rows[x], DesiredEntry(w.rows[x]).value);
  }

  /** What is under another identity than `r`'s after its pass was there before. */
  lemma OthersNotUnder(w: World, w': World, r: Rule, s: Rule)
    requires Touches(w, w', r) && OtherIdentity(r, s)
    ensures forall k :: k in w'.entries && Some(w'.entries[k].spiffeId) == Identity(s) ==>
              k in w.entries && w.entries[k] == w'.entries[k]
  {
    hide Identity;
    hide OwnedBy;
    forall k | k in w'.entries && Some(w'.entries[k].spiffeId) == Identity(s)
      ensures k in w.entries && w.entries[k] == w'.entries[k]
    {
      assert Own(w, w', r, k);
    }
  }

  lemma FirmFound(w: World, w': World, r: Rule, x: string)
    requires Touches(w, w', r) && r.id != x && x in w.rows && r.id in w.rows && Firm(w, x) && Seeks(w, x).Some?
    ensures var f := Similar(w.entries, Seeks(w, x).value);
            f.Some? ==> f.value in w.entries && f.value in w'.entries && w'.entries[f.value] == w.entries[f.value]
  {
    hide Seeks;
    hide OwnedBy;
    hide Identity;
  }

  lemma SimilarKept(w: World, w': World, r: Rule, x: string)
    requires Touches(w, w', r) && r.id != x && x in w.rows && r.id in w.rows
    requires OtherIdentity(r, w.rows[x]) && Firm(w, x) && Seeks(w, x).Some?
    ensures var n := Seeks(w, x).value;
            var f := Similar(w.entries, n);
            Similar(w'.entries, n) == f && (f.Some? ==> f.value in w'.entries && w'.entries[f.value] == w.entries[f.value])
  {
    hide *;
    SeeksOwnIdentity(w, x);
    FirmFound(w, w', r, x);
    OthersNotUnder(w, w', r, w.rows[x]);
    SimilarAgain(w.entries, w'.entries, Seeks(w, x).value);
  }

  /** A create finds the same entry again when that one is left alone and no other of the same
      workload ID is new or changed. */
  lemma SimilarAgain(entries: map<EntryId, Entry>, entries': map<EntryId, Entry>, n: Entry)
    requires forall k :: k in entries' && entries'[k].spiffeId == n.spiffeId ==> k in entries && entries[k] == entries'[k]
    requires var f := Similar(entries, n); f.Some? ==> f.value in entries' && entries'[f.value] == entries[f.value]
    ensures Similar(entries', n) == Similar(entries, n)
  {
    var f, f' := Similar(entries, n), Similar(entries', n);
    if f.Some? { assert SameKey(entries'[f.value], n); }
    if f'.Some? { assert entries'[f'.value].spiffeId == n.spiffeId && SameKey(entries[f'.value], n); }
    hide Similar;
    hide SameKey;
  }

  lemma AimDepends(entries: map<EntryId, Entry>, entries': map<EntryId, Entry>, w: World, x: string)
    requires x in w.rows && entries == w.entries
    requires var r := w.rows[x];
      && (Bound(entries', r) <==> Bound(entries, r))
      && (Bound(entries, r) ==> entries'[r.binding.value] == entries[r.binding.value])
    requires Seeks(w, x).Some? ==>
               var f := Similar(entries, Seeks(w, x).value);
               Similar(entries', Seeks(w, x).value) == f && (f.Some? ==> entries'[f.value] == entries[f.value])
    ensures AimOf(entries', w.rows[x]) == AimOf(entries, w.rows[x])
  {
    hide Stored;
    hide OwnerHint;
    hide Equivalent;
    hide DesiredEntry;
  }

  /** Another rule's pass changes neither the picture of row `x` nor its goal. */
  lemma LeftAlone(w: World, w': World, r: Rule, x: string)
    requires Touches(w, w', r) && r.id != x && Sound(w) && x in w.rows && r.id in w.rows
    requires OtherIdentity(r, w.rows[x]) && Firm(w, x)
    ensures PictureOf(w', x) == PictureOf(w, x) && Goal(w', x) == Goal(w, x) && Firm(w', x)
  {
    assert w'.rows[x] == w.rows[x];
    assert w'.rows.Keys == w.rows.Keys;
    HoldingsKept(w, w', r, x);
    BoundKept(w, w', r, x);
    if Seeks(w, x).Some? { SimilarKept(w, w', r, x); }
    AimDepends(w.entries, w'.entries, w, x);
    hide Touches;
    hide Sound;
    GoalDepends(w, w', x);
    FirmDepends(w, w', x);
  }

  lemma GoalDepends(w: World, w': World, x: string)
    requires x in w.rows && x in w'.rows && w'.rows[x] == w.rows[x]
    requires Holdings(w'.entries, x) == Holdings(w.entries, x)
    requires AimOf(w'.entries, w.rows[x]) == AimOf(w.entries, w.rows[x])
    ensures PictureOf(w', x) == PictureOf(w, x) && Goal(w', x) == Goal(w, x)
  {
    hide AimOf;
    hide Holdings;
  }

  lemma FirmDepends(w: World, w': World, x: string)
    requires x in w.rows && w'.rows.Keys == w.rows.Keys && w'.rows[x] == w.rows[x]
    requires Bound(w'.entries, w.rows[x]) <==> Bound(w.entries, w.rows[x])
    requires Seeks(w, x).Some? ==>
               var f := Similar(w.entries, Seeks(w, x).value);
               Similar(w'.entries, Seeks(w, x).value) == f && (f.Some? ==> w'.entries[f.value] == w.entries[f.value])
    requires Firm(w, x)
    ensures Firm(w', x)
  {
    hide Stored;
    hide OwnedBy;
    hide Bound;
    hide DesiredEntry;
    assert Seeks(w', x) == Seeks(w, x);
    hide Seeks;
    hide Similar;
  }

  // ---- The loop of Run ----

  /** `rules` are rows of `w` as List reads them, each once. */
  predicate Listed(w: World, rules: seq<Rule>) {
    && (forall i :: 0 <= i < |rules| ==> rules[i].id in w.rows && w.rows[rules[i].id] == rules[i])
    && (forall i, j :: 0 <= i < j < |rules| ==> rules[i].id != rules[j].id)
  }

  lemma ListedAfter(w: World, w': World, rules: seq<Rule>)
    requires rules != [] && Listed(w, rules) && Touches(w, w', rules[0])
    ensures Listed(w', rules[1..])
  {
    hide OwnedBy;
    var tail := rules[1..];
    forall i | 0 <= i < |tail| ensures tail[i].id in w'.rows && w'.rows[tail[i].id] == tail[i] {
      assert tail[i] == rules[i + 1];
      assert rules[0].id != rules[i + 1].id;
    }
  }

  lemma IdentitiesAfter(w: World, w': World, r: Rule)
    requires DistinctIdentities(w) && Touches(w, w', r)
    ensures DistinctIdentities(w')
  {
    forall x | x in w.rows ensures w'.rows[x].workloadSpiffeId == w.rows[x].workloadSpiffeId {
      assert Desire(w'.rows[x]).workloadSpiffeId == Desire(w.rows[x]).workloadSpiffeId;
    }
    hide Touches;
    forall x, y | x in w'.rows && y in w'.rows && x != y ensures OtherIdentity(w'.rows[x], w'.rows[y]) {
      assert OtherIdentity(w.rows[x], w.rows[y]);
    }
  }

  predicate Reaches(w: World, end: RunEnd, i: nat, x: string, fine: bool)
    requires x in w.rows
  {
    && i < |end.outcomes| && x in end.w.rows
    && (end.outcomes[i].Settled? || fine ==> Met(end.w, x, end.outcomes[i]))
  }

  predicate Stays(w: World, w': World, x: string)
    requires x in w.rows
  {
    x in w'.rows && Goal(w', x) == Goal(w, x) && Firm(w', x)
  }

  lemma PairApart(w: World, r: Rule, x: string)
    requires DistinctIdentities(w) && r.id in w.rows && w.rows[r.id] == r && x in w.rows && x != r.id
    ensures OtherIdentity(r, w.rows[x])
  {
    hide OtherIdentity;
  }

  lemma RowStays(w: World, w': World, r: Rule, x: string)
    requires Touches(w, w', r) && x in w.rows
    ensures x in w'.rows
  {
  }

  /** A run over rows that leave `x` out. */
  lemma {:induction false} RunPasses(w: World, fs: Faults, rules: seq<Rule>, x: string)
    requires Sound(w) && DistinctIdentities(w) && Listed(w, rules) && x in w.rows && Firm(w, x)
    requires forall i :: 0 <= i < |rules| ==> rules[i].id != x
    ensures var end := RunOver(w, fs, rules);
            Sound(end.w) && Stays(w, end.w, x) && PictureOf(end.w, x) == PictureOf(w, x)
    decreases |rules|
  {
    hide Sound;
    hide Firm;
    hide Goal;
    hide PictureOf;
    hide Touches;
    hide Pass;
    hide FaultFree;
    hide Start;
    hide Keeps;
    hide Met;
    if rules != [] {
      var r := rules[0];
      var first := HeadPass(w, fs, rules);
      assert r.id != x;
      PairApart(w, r, x);
      LeftAlone(w, first.w, r, x);
      RowStays(w, first.w, r, x);
      var tail := rules[1..];
      assert forall i :: 0 <= i < |tail| ==> tail[i] == rules[i + 1];
      hide DistinctIdentities;
      RunPasses(first.w, first.fs, tail, x);
    }
  }

  lemma IsListed(w: World, rules: seq<Rule>, i: nat)
    requires Listed(w, rules) && i < |rules|
    ensures rules[i].id in w.rows && w.rows[rules[i].id] == rules[i]
  {
  }

  lemma RunOn(w: World, fs: Faults, rules: seq<Rule>)
    requires rules != []
    ensures var first := Pass(w, fs, rules[0], Start(rules[0]));
            var rest := RunOver(first.w, first.fs, rules[1..]);
            RunOver(w, fs, rules) == RunEnd(rest.w, rest.fs, [first.outcome] + rest.outcomes)
  {
  }

  lemma HeadTouches(w: World, fs: Faults, r: Rule)
    requires Sound(w) && r.id in w.rows && w.rows[r.id] == r
    ensures Touches(w, Pass(w, fs, r, Start(r)).w, r)
  {
    hide Touches;
    hide Pass;
    PassTouches(w, fs, r, Start(r));
  }

  lemma HeadMeets(w: World, fs: Faults, r: Rule)
    requires Sound(w) && r.id in w.rows && w.rows[r.id] == r
    ensures var first := Pass(w, fs, r, Start(r)); var x := r.id;
      && Sound(first.w) && Keeps(w, first.w, x) && (first.outcome.Settled? ==> Met(first.w, x, first.outcome))
      && (FaultFree(fs) ==> Met(first.w, x, first.outcome) && FaultFree(first.fs))
  {
    hide Start;
    hide Pass;
    hide Sound;
    hide Met;
    hide FaultFree;
    StartOnTrack(w, r.id);
    PassMeets(w, fs, r.id, Start(r));
  }

  /** What the first pass of a run establishes for the rest of it. */
  lemma HeadPass(w: World, fs: Faults, rules: seq<Rule>) returns (first: PassEnd)
    requires Sound(w) && DistinctIdentities(w) && rules != [] && Listed(w, rules)
    ensures first == Pass(w, fs, rules[0], Start(rules[0]))
    ensures Touches(w, first.w, rules[0]) && Sound(first.w) && DistinctIdentities(first.w) && Listed(first.w, rules[1..])
    ensures var x := rules[0].id;
      && Keeps(w, first.w, x) && (first.outcome.Settled? ==> Met(first.w, x, first.outcome))
      && (FaultFree(fs) ==> Met(first.w, x, first.outcome) && FaultFree(first.fs))
  {
    hide *;
    var r := rules[0];
    first := Pass(w, fs, r, Start(r));
    IsListed(w, rules, 0);
    HeadTouches(w, fs, r);
    HeadMeets(w, fs, r);
    ListedAfter(w, first.w, rules);
    IdentitiesAfter(w, first.w, r);
  }

  lemma MeetsFirst(w: World, fs: Faults, rules: seq<Rule>)
    requires Sound(w) && DistinctIdentities(w) && Listed(w, rules) && rules != [] && Firm(w, rules[0].id)
    ensures var end := RunOver(w, fs, rules);
      Sound(end.w) && Stays(w, end.w, rules[0].id) && Reaches(w, end, 0, rules[0].id, FaultFree(fs))
  {
    hide Sound;
    hide Firm;
    hide Goal;
    hide PictureOf;
    hide DistinctIdentities;
    hide Touches;
    hide Pass;
    hide FaultFree;
    hide Start;
    var first := HeadPass(w, fs, rules);
    var tail, x, end := rules[1..], rules[0].id, RunOver(w, fs, rules);
    assert forall j :: 0 <= j < |tail| ==> tail[j] == rules[j + 1] && tail[j].id != x;
    RunPasses(first.w, first.fs, tail, x);
    assert end.outcomes[0] == first.outcome;
    MetCarries(first.w, end.w, x, first.outcome);
  }

  lemma LeavesLater(w: World, first: PassEnd, rules: seq<Rule>, i: nat)
    requires Sound(w) && DistinctIdentities(w) && Listed(w, rules) && 0 < i < |rules| && Firm(w, rules[i].id)
    requires Touches(w, first.w, rules[0])
    ensures var x := rules[i].id; x in first.w.rows && Goal(first.w, x) == Goal(w, x) && Firm(first.w, x)
  {
    hide Goal;
    hide Firm;
    hide PictureOf;
    var x := rules[i].id;
    assert rules[0].id != x;
    assert OtherIdentity(rules[0], w.rows[x]);
    LeftAlone(w, first.w, rules[0], x);
  }

  /** Every run keeps every row's goal; a row counted converged has met it, and after a run
      without faults every listed row has. */
  lemma {:induction false} RunMeets(w: World, fs: Faults, rules: seq<Rule>, i: nat)
    requires Sound(w) && DistinctIdentities(w) && Listed(w, rules) && i < |rules| && Firm(w, rules[i].id)
    ensures var end := RunOver(w, fs, rules);
      Sound(end.w) && Stays(w, end.w, rules[i].id) && Reaches(w, end, i, rules[i].id, FaultFree(fs))
    decreases |rules|
  {
    hide Sound;
    hide Firm;
    hide Goal;
    hide PictureOf;
    hide DistinctIdentities;
    hide Touches;
    hide Pass;
    hide FaultFree;
    hide Start;
    if i == 0 {
      MeetsFirst(w, fs, rules);
    } else {
      var first := HeadPass(w, fs, rules);
      var tail := rules[1..];
      assert tail[i - 1] == rules[i];
      LeavesLater(w, first, rules, i);
      RunMeets(first.w, first.fs, tail, i - 1);
      assert RunOver(w, fs, rules).outcomes[i] == RunOver(first.w, first.fs, tail).outcomes[i - 1];
    }
  }

  lemma MetCarries(w: World, w': World, x: string, o: Outcome)
    requires x in w.rows && x in w'.rows && PictureOf(w', x) == PictureOf(w, x) && Goal(w', x) == Goal(w, x)
    ensures Met(w, x, o) ==> Met(w', x, o)
  {
  }

  lemma {:induction false} OutcomePerRule(w: World, fs: Faults, rules: seq<Rule>)
    ensures |RunOver(w, fs, rules).outcomes| == |rules|
    decreases |rules|
  {
    if rules != [] {
      var first := Pass(w, fs, rules[0], Start(rules[0]));
      OutcomePerRule(first.w, first.fs, rules[1..]);
    }
  }
}

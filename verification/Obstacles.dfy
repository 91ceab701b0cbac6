/** What can stand in the way of a rule, and who clears it.

    A rule whose entry is missing creates it, and the server may answer with an entry of another
    rule that happens to have the same key. Such an entry can be about to go: its own rule may be
    bound to it and due to write over it or to delete it. Whether recovery holds depends on who
    acts first, the rule in need or the rule that clears its way. */
module Obstacles {
  import opened Text
  import opened Entries
  import opened Registration
  import opened Backends
  import opened Protocol
  import opened Frame
  import opened Goals
  import opened Recovery
  import opened Runs
  import opened Convergence

  // ---- Entries that are about to move ----

  /** Row `y` is bound to entry `k` of its own, which it is due to write over or to delete. */
  predicate Moves(w: World, y: string, k: EntryId) {
    && y in w.rows && w.rows[y].binding == Some(k) && k in w.entries && OwnedBy(w.entries[k], y)
    && (AimOf(w.entries, w.rows[y]).Write? || AimOf(w.entries, w.rows[y]).Release?)
  }

  function Moved(w: World, s: set<string>): set<EntryId> {
    set y | y in s && y in w.rows && w.rows[y].binding.Some? && Moves(w, y, w.rows[y].binding.value)
      :: w.rows[y].binding.value
  }

  /** The world with those entries out of the way that the rows in `s` are due to move. */
  function Cleared(w: World, s: set<string>): World { w.(entries := w.entries - Moved(w, s)) }

  lemma MovedIs(w: World, s: set<string>, k: EntryId)
    ensures k in Moved(w, s) <==> exists y :: y in s && Moves(w, y, k)
  {
    hide AimOf;
    hide OwnedBy;
    if y :| y in s && Moves(w, y, k) { assert w.rows[y].binding.value == k; }
  }

  // ---- Clearing leaves a row's own entries alone ----

  lemma ClearedOwn(w: World, s: set<string>, x: string)
    requires Sound(w) && x in w.rows && x !in s
    ensures var c := Cleared(w, s);
      && Holdings(c.entries, x) == Holdings(w.entries, x)
      && (Bound(c.entries, w.rows[x]) <==> Bound(w.entries, w.rows[x]))
      && Seeks(c, x) == Seeks(w, x)
  {
    hide AimOf;
    hide OwnerHint;
    hide Stored;
    hide DesiredEntry;
    forall k, y | k in w.entries && y in s && Moves(w, y, k)
      ensures !OwnedBy(w.entries[k], x) && w.rows[x].binding != Some(k)
    {
      HintInjective(x, y);
      assert Apart(w, x, y);
    }
    forall k ensures k in Moved(w, s) <==> exists y :: y in s && Moves(w, y, k) { MovedIs(w, s, k); }
    hide Moved;
    hide Moves;
  }

  /** What a row aims at depends on what it is bound to and on what its create would find. */
  lemma GoalFollows(w: World, w': World, x: string)
    requires x in w.rows && x in w'.rows && w'.rows[x] == w.rows[x]
    requires Holdings(w'.entries, x) == Holdings(w.entries, x)
    requires var r := w.rows[x];
      && (Bound(w'.entries, r) <==> Bound(w.entries, r))
      && (Bound(w.entries, r) ==> w'.entries[r.binding.value] == w.entries[r.binding.value])
    requires Seeks(w, x).Some? ==>
               var f := Similar(w.entries, Seeks(w, x).value);
               Similar(w'.entries, Seeks(w, x).value) == f && (f.Some? ==> w'.entries[f.value] == w.entries[f.value])
    ensures Goal(w', x) == Goal(w, x) && AimOf(w'.entries, w.rows[x]) == AimOf(w.entries, w.rows[x])
  {
    hide *;
    AimDepends(w.entries, w'.entries, w, x);
    GoalDepends(w, w', x);
  }

  // ---- What another rule's pass does to entries in the way ----

  lemma AimTargets(w: World, y: string)
    requires y in w.rows
    ensures var a := AimOf(w.entries, w.rows[y]);
      a.Keep? || a.Write? ==>
        || w.rows[y].binding == Some(a.id)
        || (Seeks(w, y).Some? && Similar(w.entries, Seeks(w, y).value) == Some(a.id))
  {
    hide Stored;
    hide OwnerHint;
    hide Equivalent;
    hide DesiredEntry;
    hide Similar;
    hide OwnedBy;
  }

  lemma SimilarUnder(entries: map<EntryId, Entry>, n: Entry)
    ensures var f := Similar(entries, n); f.Some? ==> f.value in entries && entries[f.value].spiffeId == n.spiffeId
  {
  }

  /** An aim that names an entry names the one bound, or the one a create would find. */
  lemma AimNames(w: World, y: string, k: EntryId)
    requires y in w.rows && w.rows[y].binding != Some(k) && k in w.entries
    requires Identity(w.rows[y]) != Some(w.entries[k].spiffeId)
    ensures var a := AimOf(w.entries, w.rows[y]); !(a.Keep? && a.id == k) && !(a.Write? && a.id == k)
  {
    AimTargets(w, y);
    hide AimOf;
    hide Seeks;
    hide Identity;
    if Seeks(w, y).Some? {
      SeeksOwnIdentity(w, y);
      SimilarUnder(w.entries, Seeks(w, y).value);
    }
  }

  lemma OthersUnbound(w: World, y: string, k: EntryId)
    requires y in w.rows && k in Holdings(w.entries, y) && w.rows[y].binding != Some(k)
    requires var a := AimOf(w.entries, w.rows[y]); !(a.Keep? && a.id == k) && !(a.Write? && a.id == k)
    ensures k in Goal(w, y).others
  {
    hide AimOf;
    hide Holdings;
  }

  lemma OthersBound(w: World, y: string, k: EntryId)
    requires y in w.rows && k in Holdings(w.entries, y) && w.rows[y].binding == Some(k)
    requires var a := AimOf(w.entries, w.rows[y]); !a.Insert? && (a.Keep? ==> a.id == k) && (a.Write? ==> a.id == k)
    ensures k !in Goal(w, y).others
  {
    hide AimOf;
    hide Holdings;
  }

  /** Among a row's entries under a foreign identity, all but the one bound stay as they are. */
  lemma OthersHold(w: World, y: string, k: EntryId)
    requires y in w.rows && k in w.entries && OwnedBy(w.entries[k], y)
    requires Identity(w.rows[y]) != Some(w.entries[k].spiffeId)
    ensures k in Goal(w, y).others <==> w.rows[y].binding != Some(k)
  {
    hide AimOf;
    hide Identity;
    hide OwnedBy;
    hide Holdings;
    HoldingsAt(w.entries, y);
    if w.rows[y].binding != Some(k) {
      AimNames(w, y, k);
      OthersUnbound(w, y, k);
    } else {
      AimBound(w, y, k);
      OthersBound(w, y, k);
    }
  }

  lemma AimBound(w: World, y: string, k: EntryId)
    requires y in w.rows && k in w.entries && w.rows[y].binding == Some(k)
    ensures var a := AimOf(w.entries, w.rows[y]);
            !a.Insert? && (a.Keep? ==> a.id == k) && (a.Write? ==> a.id == k)
  {
    hide Stored;
    hide OwnerHint;
    hide Equivalent;
    hide DesiredEntry;
  }

  lemma OthersAreHeld(w: World, y: string, k: EntryId)
    requires y in w.rows && k in Goal(w, y).others
    ensures k in w.entries && OwnedBy(w.entries[k], y) && w.entries[k] == Goal(w, y).others[k]
  {
    hide AimOf;
    hide OwnedBy;
    HoldingsAt(w.entries, y);
    hide Holdings;
  }

  /** Where a goal's anchor comes from, if it is not about to be written. */
  lemma AnchorSource(w: World, y: string, e: Entry) returns (j: EntryId)
    requires y in w.rows && w.rows[y].id == y && Goal(w, y).anchor == Holds(e)
    requires Identity(w.rows[y]) != Some(e.spiffeId)
    ensures j in w.entries && w.entries[j] == e && OwnedBy(e, y) && j !in Goal(w, y).others
  {
    AimIsOwn(w.entries, w.rows[y]);
    hide Identity;
    hide IsSent;
    HoldingsAt(w.entries, y);
    hide Holdings;
    var a := AimOf(w.entries, w.rows[y]);
    hide AimOf;
    hide OwnedBy;
    if a.Keep? { j := a.id; } else { j := w.rows[y].binding.value; }
  }

  /** Row `r`'s pass went from `w` to `w'`, whatever went wrong. */
  predicate Passed(w: World, w': World, r: Rule) {
    && Sound(w) && Sound(w') && r.id in w.rows && w.rows[r.id] == r
    && Touches(w, w', r) && Keeps(w, w', r.id)
  }

  lemma PassedRow(w: World, w': World, r: Rule)
    requires Passed(w, w', r)
    ensures r.id in w'.rows && w'.rows[r.id].id == r.id && Desire(w'.rows[r.id]) == Desire(r)
            && Identity(w'.rows[r.id]) == Identity(r) && Goal(w', r.id) == Goal(w, r.id)
  {
    hide OwnedBy;
    hide Goal;
    hide Firm;
    assert Desire(w'.rows[r.id]).workloadSpiffeId == Desire(r).workloadSpiffeId;
  }

  /** `k` is an entry of row `r` under another workload's ID. */
  predicate Astray(w: World, r: Rule, k: EntryId) {
    k in w.entries && OwnedBy(w.entries[k], r.id) && Identity(r) != Some(w.entries[k].spiffeId)
  }

  lemma PassedStart(w: World, w': World, r: Rule)
    requires Passed(w, w', r)
    ensures r.id in w.rows && w.rows[r.id] == r
  {
  }

  lemma AstrayIs(w: World, r: Rule, k: EntryId)
    ensures Astray(w, r, k) <==> k in w.entries && OwnedBy(w.entries[k], r.id) && Identity(r) != Some(w.entries[k].spiffeId)
  {
  }

  /** An astray entry that survives the pass is bound afterwards exactly if it was before. */
  lemma SameHold(w: World, w': World, r: Rule, k: EntryId)
    requires Passed(w, w', r) && Astray(w, r, k) && k in w'.entries && w'.entries[k] == w.entries[k]
    ensures r.id in w'.rows && (w'.rows[r.id].binding == Some(k) <==> r.binding == Some(k))
  {
    hide *;
    PassedStart(w, w', r);
    PassedRow(w, w', r);
    AstrayIs(w, r, k);
    OthersHold(w, r.id, k);
    OthersHold(w', r.id, k);
  }

  /** An astray entry that the rule is not due to move stays as it is. */
  lemma StaysPut(w: World, w': World, r: Rule, k: EntryId)
    requires Passed(w, w', r) && Astray(w, r, k) && !Moves(w, r.id, k)
    ensures k in w'.entries && w'.entries[k] == w.entries[k]
  {
    hide *;
    PassedStart(w, w', r);
    PassedRow(w, w', r);
    AstrayIs(w, r, k);
    OthersHold(w, r.id, k);
    if r.binding != Some(k) {
      OthersAreHeld(w, r.id, k);
      OthersAreHeld(w', r.id, k);
    } else {
      IdleAnchor(w, r.id, k);
      var j := AnchorSource(w', r.id, w.entries[k]);
      Unchanged(w, w', r, j);
      if j != k { OthersHold(w, r.id, j); }
    }
  }

  /** A bound entry that is not due to be moved is what the goal leaves bound. */
  lemma IdleAnchor(w: World, y: string, k: EntryId)
    requires y in w.rows && w.rows[y].binding == Some(k) && k in w.entries && OwnedBy(w.entries[k], y)
    requires !Moves(w, y, k)
    ensures Goal(w, y).anchor == Holds(w.entries[k])
  {
    AimBound(w, y, k);
    hide AimOf;
    hide OwnedBy;
    HoldingsAt(w.entries, y);
    hide Holdings;
  }

  /** What is under another identity after the pass was there before. */
  lemma Unchanged(w: World, w': World, r: Rule, k: EntryId)
    requires Passed(w, w', r) && k in w'.entries && Identity(r) != Some(w'.entries[k].spiffeId)
    ensures k in w.entries && w.entries[k] == w'.entries[k]
  {
    hide Identity;
    hide OwnedBy;
    hide Keeps;
    hide Sound;
    assert Own(w, w', r, k);
  }

  // ---- Moves, before and after a pass ----

  lemma BoundAims(entries: map<EntryId, Entry>, entries': map<EntryId, Entry>, r: Rule, r': Rule, k: EntryId)
    requires DesiredSame(r, r') && r.binding == r'.binding == Some(k)
    requires k in entries && k in entries' && entries[k] == entries'[k]
    ensures AimOf(entries', r') == AimOf(entries, r)
  {
    hide Stored;
    hide OwnerHint;
    hide Equivalent;
    hide DesiredEntry;
    hide OwnedBy;
  }

  lemma SameDesire(r: Rule, r': Rule)
    requires Desire(r) == Desire(r')
    ensures DesiredSame(r, r')
  {
    hide OwnerHint;
    assert DesiredEntry(Desire(r)) == DesiredEntry(r) && DesiredEntry(Desire(r')) == DesiredEntry(r');
    assert Desire(r).desiredState == r.desiredState && Desire(r).id == r.id;
  }

  /** A surviving astray entry is due to move after the pass exactly if it was before. */
  lemma SameMoves(w: World, w': World, r: Rule, k: EntryId)
    requires Passed(w, w', r) && Astray(w, r, k) && k in w'.entries && w'.entries[k] == w.entries[k]
    ensures Moves(w', r.id, k) <==> Moves(w, r.id, k)
  {
    SameHold(w, w', r, k);
    PassedRow(w, w', r);
    PassedStart(w, w', r);
    if r.binding == Some(k) {
      SameDesire(r, w'.rows[r.id]);
      BoundAims(w.entries, w'.entries, r, w'.rows[r.id], k);
    }
    hide Passed;
    hide AimOf;
    hide OwnedBy;
  }

  /** The pass of one rule changes nothing in what another is due to move. */
  lemma OtherMoves(w: World, w': World, r: Rule, y: string, k: EntryId)
    requires Passed(w, w', r) && y != r.id
    ensures Moves(w', y, k) <==> Moves(w, y, k)
  {
    OtherRow(w, w', r, y);
    if y in w.rows && w.rows[y].binding == Some(k) && k in w.entries && k in w'.entries {
      ReflDesired(w.rows[y]);
      BoundAims(w.entries, w'.entries, w.rows[y], w.rows[y], k);
    }
    hide Passed;
    hide AimOf;
    hide OwnedBy;
  }

  lemma ReflDesired(r: Rule)
    ensures DesiredSame(r, r)
  {
  }

  lemma OtherRow(w: World, w': World, r: Rule, y: string)
    requires Passed(w, w', r) && y != r.id
    ensures y in w'.rows <==> y in w.rows
    ensures y in w.rows ==>
      && w'.rows[y] == w.rows[y]
      && (Bound(w'.entries, w.rows[y]) <==> Bound(w.entries, w.rows[y]))
      && (Bound(w.entries, w.rows[y]) ==>
            w'.entries[w.rows[y].binding.value] == w.entries[w.rows[y].binding.value])
  {
    hide Keeps;
    hide OwnedBy;
    hide Identity;
    if y in w.rows { BoundKept(w, w', r, y); }
    hide Sound;
  }

  /** Once an undisturbed pass of its rule is over, no astray entry is left to move. */
  lemma CleanMoves(w: World, w': World, r: Rule, o: Outcome, k: EntryId)
    requires Passed(w, w', r) && r.id in w'.rows && Met(w', r.id, o)
    requires k in w'.entries && Identity(r) != Some(w'.entries[k].spiffeId)
    ensures !Moves(w', r.id, k)
  {
    PassedRow(w, w', r);
    AimIsOwn(w'.entries, w'.rows[r.id]);
    AnchorWhenBound(w', r.id, k);
    hide Passed;
    hide AimOf;
    hide Identity;
    hide IsSent;
    hide OwnedBy;
    hide Holdings;
  }

  lemma AnchorWhenBound(w: World, y: string, k: EntryId)
    requires y in w.rows
    ensures w.rows[y].binding == Some(k) && k in w.entries && OwnedBy(w.entries[k], y) ==>
              PictureOf(w, y).anchor == Holds(w.entries[k])
  {
    hide OwnedBy;
    HoldingsAt(w.entries, y);
    hide Holdings;
  }

  // ---- The goal of a row once its way is cleared ----

  /** What row `x` ends up as if the rows in `s` act first. */
  function ClearGoal(w: World, s: set<string>, x: string): Picture
    requires x in w.rows
  {
    Goal(Cleared(w, s), x)
  }

  predicate Blocked(w: World, s: set<string>, x: string)
    requires x in w.rows
  {
    AimOf(Cleared(w, s).entries, w.rows[x]).Reject?
  }

  /** The entry that row `x`'s create would find once the rows in `s` have acted. */
  function Finds(w: World, s: set<string>, x: string): Option<EntryId>
    requires x in w.rows && Seeks(w, x).Some?
  {
    Similar(Cleared(w, s).entries, Seeks(w, x).value)
  }

  lemma FindsIs(w: World, s: set<string>, x: string)
    requires x in w.rows && Seeks(w, x).Some?
    ensures var f := Finds(w, s, x);
      f.Some? ==> f.value in w.entries && f.value !in Moved(w, s) && Identity(w.rows[x]) == Some(w.entries[f.value].spiffeId)
  {
    SeeksOwnIdentity(w, x);
    SimilarUnder(Cleared(w, s).entries, Seeks(w, x).value);
    hide Seeks;
    hide Similar;
    hide Moved;
    hide Identity;
  }

  lemma FindOwn(w: World, s: set<string>, x: string)
    requires Sound(w) && x in w.rows && x !in s && Seeks(w, x).Some? && !Blocked(w, s, x)
    ensures var f := Finds(w, s, x); f.Some? ==> f.value in w.entries && OwnedBy(w.entries[f.value], x)
  {
    ClearedOwn(w, s, x);
    FindsIs(w, s, x);
    FiledUnder(w, x);
    SeeksMeans(Cleared(w, s), x);
    hide Moved;
    hide OwnedBy;
    hide Sound;
    hide Seeks;
    hide Identity;
    CreateAim(Cleared(w, s).entries, w.rows[x], DesiredEntry(w.rows[x]).value);
    hide AimOf;
    hide Similar;
  }

  lemma SeeksMeans(w: World, x: string)
    requires x in w.rows && Seeks(w, x).Some?
    ensures var r := w.rows[x];
      && r.desiredState == "present" && DesiredEntry(r).Ok? && !Bound(w.entries, r)
      && Stored(DesiredEntry(r).value) == Seeks(w, x)
  {
    hide Stored;
    hide DesiredEntry;
  }

  predicate SameEntry(w: World, w': World, k: EntryId) {
    k in w.entries && k in w'.entries && w'.entries[k] == w.entries[k]
  }

  /** Two cleared worlds in which the create finds the same give the row the same goal. */
  lemma ClearSame(w: World, w': World, s: set<string>, s': set<string>, x: string)
    requires Sound(w) && Sound(w') && x in w.rows && x in w'.rows && w'.rows[x] == w.rows[x] && x !in s && x !in s'
    requires Holdings(w'.entries, x) == Holdings(w.entries, x)
    requires var r := w.rows[x];
      && (Bound(w'.entries, r) <==> Bound(w.entries, r))
      && (Bound(w.entries, r) ==> w'.entries[r.binding.value] == w.entries[r.binding.value])
    requires Seeks(w, x).Some? ==> Seeks(w', x) == Seeks(w, x) && Finds(w', s', x) == Finds(w, s, x)
    requires Seeks(w, x).Some? && Finds(w, s, x).Some? ==> SameEntry(w, w', Finds(w, s, x).value)
    ensures ClearGoal(w', s', x) == ClearGoal(w, s, x) && (Blocked(w', s', x) <==> Blocked(w, s, x))
  {
    ClearedOwn(w, s, x);
    ClearedOwn(w', s', x);
    var c, c' := Cleared(w, s), Cleared(w', s');
    if Seeks(w, x).Some? { FindsIs(w, s, x); FindsIs(w', s', x); }
    hide Sound;
    hide Moved;
    hide Seeks;
    hide Holdings;
    hide Similar;
    hide Identity;
    hide AimOf;
    hide Goal;
    GoalFollows(c, c', x);
  }

  lemma FindsAre(w: World, s: set<string>, x: string)
    requires x in w.rows && Seeks(w, x).Some?
    ensures Finds(w, s, x) == Similar(Cleared(w, s).entries, Seeks(w, x).value)
    ensures var f := Finds(w, s, x); f.Some? ==> f.value in Cleared(w, s).entries
  {
    hide Seeks;
    hide Cleared;
  }

  /** Whether the ways differ at the entry that is found. */
  lemma FindAgain(w: World, w': World, s: set<string>, s': set<string>, x: string)
    requires x in w.rows && x in w'.rows && Seeks(w, x).Some? && Seeks(w', x) == Seeks(w, x)
    requires forall k :: k in w'.entries && k !in Moved(w', s') && Some(w'.entries[k].spiffeId) == Identity(w.rows[x]) ==>
               k in w.entries && k !in Moved(w, s) && w.entries[k] == w'.entries[k]
    requires var f := Finds(w, s, x); f.Some? ==> SameEntry(w, w', f.value) && f.value !in Moved(w', s')
    ensures Finds(w', s', x) == Finds(w, s, x)
  {
    hide Moved;
    hide Seeks;
    hide Identity;
    hide Similar;
    SeeksOwnIdentity(w, x);
    FindsAre(w, s, x);
    FindsAre(w', s', x);
    var n := Seeks(w, x).value;
    forall k | k in Cleared(w', s').entries && Cleared(w', s').entries[k].spiffeId == n.spiffeId
      ensures k in Cleared(w, s).entries && Cleared(w, s).entries[k] == Cleared(w', s').entries[k]
    {
      assert k in w'.entries && k !in Moved(w', s');
    }
    SimilarAgain(Cleared(w, s).entries, Cleared(w', s').entries, n);
  }

  // ---- One pass ----

  /** An entry under `x`'s identity that `r` owns is astray for `r`. */
  lemma AstrayFor(w: World, r: Rule, x: string, k: EntryId)
    requires x in w.rows && OtherIdentity(r, w.rows[x]) && k in w.entries
    requires Some(w.entries[k].spiffeId) == Identity(w.rows[x])
    ensures Identity(r) != Some(w.entries[k].spiffeId)
    ensures OwnedBy(w.entries[k], r.id) ==> Astray(w, r, k)
  {
    hide Identity;
    hide OwnedBy;
  }

  /** What is in `x`'s way after `r`'s pass was in its way before. */
  lemma WayBefore(w: World, w': World, r: Rule, s: set<string>, x: string, k: EntryId)
    requires Passed(w, w', r) && x in w.rows && x in w'.rows && OtherIdentity(r, w.rows[x])
    requires k in w'.entries && k !in Moved(w', s) && Some(w'.entries[k].spiffeId) == Identity(w.rows[x])
    ensures k in w.entries && k !in Moved(w, s) && w.entries[k] == w'.entries[k]
  {
    hide *;
    NotIdentity(r, w.rows[x], w'.entries[k]);
    Unchanged(w, w', r, k);
    AstrayFor(w, r, x, k);
    MovedIs(w, s, k);
    MovedIs(w', s, k);
    if y :| y in s && Moves(w, y, k) {
      MovesOwn(w, y, k);
      if y == r.id { SameMoves(w, w', r, k); } else { OtherMoves(w, w', r, y, k); }
    }
  }

  lemma NotIdentity(r: Rule, q: Rule, e: Entry)
    requires OtherIdentity(r, q) && Some(e.spiffeId) == Identity(q)
    ensures Identity(r) != Some(e.spiffeId)
  {
    hide Identity;
  }

  lemma MovesOwn(w: World, y: string, k: EntryId)
    requires Moves(w, y, k)
    ensures k in w.entries && OwnedBy(w.entries[k], y)
  {
  }

  /** An entry in `x`'s way that `r` is not due to move stays in its way. */
  lemma WayAfter(w: World, w': World, r: Rule, s: set<string>, x: string, k: EntryId)
    requires Passed(w, w', r) && x in w.rows && OtherIdentity(r, w.rows[x])
    requires k in w.entries && k !in Moved(w, s) && Some(w.entries[k].spiffeId) == Identity(w.rows[x])
    requires r.id in s || !OwnedBy(w.entries[k], r.id)
    ensures SameEntry(w, w', k) && k !in Moved(w', s)
  {
    hide *;
    AstrayFor(w, r, x, k);
    MovedIs(w, s, k);
    MovedIs(w', s, k);
    if OwnedBy(w.entries[k], r.id) {
      StaysPut(w, w', r, k);
    } else {
      NotOwnStays(w, w', r, k);
    }
    SameEntryIs(w, w', k);
    if y :| y in s && Moves(w', y, k) {
      MovesOwn(w', y, k);
      if y == r.id { SameMoves(w, w', r, k); } else { OtherMoves(w, w', r, y, k); }
    }
  }

  lemma SameEntryIs(w: World, w': World, k: EntryId)
    ensures SameEntry(w, w', k) <==> k in w.entries && k in w'.entries && w'.entries[k] == w.entries[k]
  {
  }

  lemma NotOwnStays(w: World, w': World, r: Rule, k: EntryId)
    requires Passed(w, w', r) && k in w.entries && !OwnedBy(w.entries[k], r.id)
    ensures k in w'.entries && w'.entries[k] == w.entries[k]
  {
    hide OwnedBy;
    hide Keeps;
    hide Sound;
    hide Own;
  }

  /** The pass of another rule does not change what row `x` ends up as, if that rule is one of
      those that act first, or if nothing blocks `x`. */
  lemma OtherPass(w: World, w': World, r: Rule, s: set<string>, x: string)
    requires Passed(w, w', r) && x in w.rows && x != r.id && x !in s && OtherIdentity(r, w.rows[x])
    requires r.id in s || !Blocked(w, s, x)
    ensures x in w'.rows && w'.rows[x] == w.rows[x]
    ensures ClearGoal(w', s, x) == ClearGoal(w, s, x) && (Blocked(w', s, x) <==> Blocked(w, s, x))
  {
    hide *;
    OtherRow(w, w', r, x);
    PassedSound(w, w', r);
    HoldingsKept(w, w', r, x);
    SeeksAgain(w, w', x);
    if Seeks(w, x).Some? {
      OtherPassFinds(w, w', r, s, x);
    }
    ClearSame(w, w', s, s, x);
  }

  lemma PassedSound(w: World, w': World, r: Rule)
    requires Passed(w, w', r)
    ensures Sound(w) && Sound(w') && Touches(w, w', r)
  {
  }

  lemma SeeksAgain(w: World, w': World, x: string)
    requires x in w.rows && x in w'.rows && w'.rows[x] == w.rows[x]
    requires Bound(w'.entries, w.rows[x]) <==> Bound(w.entries, w.rows[x])
    ensures Seeks(w', x) == Seeks(w, x)
  {
    hide Stored;
    hide DesiredEntry;
  }

  lemma OtherPassFinds(w: World, w': World, r: Rule, s: set<string>, x: string)
    requires Passed(w, w', r) && x in w.rows && x != r.id && x !in s && OtherIdentity(r, w.rows[x])
    requires r.id in s || !Blocked(w, s, x)
    requires x in w'.rows && Seeks(w, x).Some? && Seeks(w', x) == Seeks(w, x)
    ensures Finds(w', s, x) == Finds(w, s, x)
    ensures var f := Finds(w, s, x); f.Some? ==> SameEntry(w, w', f.value)
  {
    hide *;
    PassedSound(w, w', r);
    FindsIs(w, s, x);
    var f := Finds(w, s, x);
    if f.Some? {
      if r.id !in s {
        FindOwn(w, s, x);
        OwnersDiffer(w.entries[f.value], x, r.id);
      }
      WayAfter(w, w', r, s, x, f.value);
    }
    forall k | k in w'.entries && k !in Moved(w', s) && Some(w'.entries[k].spiffeId) == Identity(w.rows[x])
      ensures k in w.entries && k !in Moved(w, s) && w.entries[k] == w'.entries[k]
    {
      WayBefore(w, w', r, s, x, k);
    }
    FindAgain(w, w', s, s, x);
  }

  lemma OwnersDiffer(e: Entry, x: string, y: string)
    requires OwnedBy(e, x) && x != y
    ensures !OwnedBy(e, y)
  {
    HintInjective(x, y);
  }

  // ---- The rule's own pass ----

  lemma NoSeek(w: World, s: set<string>, x: string)
    requires Sound(w) && x in w.rows && x !in s && Seeks(w, x).None?
    ensures ClearGoal(w, s, x) == Goal(w, x) && (Blocked(w, s, x) <==> AimOf(w.entries, w.rows[x]).Reject?)
  {
    hide *;
    ClearedOwn(w, s, x);
    ClearedEntry(w, s, x);
    GoalFollows(w, Cleared(w, s), x);
    ClearIs(w, s, x);
  }

  lemma ClearIs(w: World, s: set<string>, x: string)
    requires x in w.rows
    ensures Cleared(w, s).rows == w.rows && Cleared(w, s).entries == w.entries - Moved(w, s)
    ensures ClearGoal(w, s, x) == Goal(Cleared(w, s), x)
    ensures Blocked(w, s, x) <==> AimOf(Cleared(w, s).entries, w.rows[x]).Reject?
    ensures Seeks(w, x).Some? ==> Finds(w, s, x) == Similar(Cleared(w, s).entries, Seeks(w, x).value)
  {
  }

  lemma ClearedEntry(w: World, s: set<string>, x: string)
    requires x in w.rows
    ensures var c, r := Cleared(w, s), w.rows[x];
      x in c.rows && c.rows[x] == r && (Bound(c.entries, r) && Bound(w.entries, r) ==>
                                          c.entries[r.binding.value] == w.entries[r.binding.value])
  {
    hide Moved;
  }

  /** Nothing needs clearing for a row that is not blocked. */
  lemma Unobstructed(w: World, s: set<string>, x: string)
    requires Sound(w) && x in w.rows && x !in s && !AimOf(w.entries, w.rows[x]).Reject?
    ensures ClearGoal(w, s, x) == Goal(w, x) && !Blocked(w, s, x)
  {
    hide *;
    if Seeks(w, x).None? {
      NoSeek(w, s, x);
    } else {
      NothingMoved(w);
      ClearIs(w, s, x);
      ClearIs(w, {}, x);
      assert w.entries - {} == w.entries;
      FindOwn(w, {}, x);
      FindsIs(w, {}, x);
      FindThrough(w, {}, s, x);
      BlockedBy(w, {}, s, x);
    }
  }

  lemma NothingMoved(w: World)
    ensures Moved(w, {}) == {} && Cleared(w, {}) == w
  {
    assert w.entries - {} == w.entries;
  }

  /** Clearing more entries out of the way does not change what is found if that is the row's own,
      or nothing. */
  lemma FindThrough(w: World, s: set<string>, s': set<string>, x: string)
    requires Sound(w) && x in w.rows && x !in s' && s <= s' && Seeks(w, x).Some?
    requires var f := Finds(w, s, x); f.Some? ==> f.value in w.entries && OwnedBy(w.entries[f.value], x)
    ensures Finds(w, s', x) == Finds(w, s, x)
  {
    hide *;
    var f := Finds(w, s, x);
    if f.Some? {
      FindsIs(w, s, x);
      OwnStays(w, s', x, f.value);
      SameEntryIs(w, w, f.value);
    }
    MoreMoved(w, s, s');
    FindAgain(w, w, s, s', x);
  }

  lemma MoreMoved(w: World, s: set<string>, s': set<string>)
    requires s <= s'
    ensures Moved(w, s) <= Moved(w, s')
  {
    hide Moves;
  }

  lemma OwnStays(w: World, s: set<string>, x: string, k: EntryId)
    requires k in w.entries && OwnedBy(w.entries[k], x) && x !in s
    ensures k !in Moved(w, s)
  {
    MovedIs(w, s, k);
    forall y | y in s && Moves(w, y, k) ensures OwnedBy(w.entries[k], y) && y != x {
      MovesOwn(w, y, k);
    }
    forall y | y != x ensures !OwnedBy(w.entries[k], y) {
      OwnersDiffer(w.entries[k], x, y);
    }
    hide *;
  }

  /** The same find means the same goal. */
  lemma BlockedBy(w: World, s: set<string>, s': set<string>, x: string)
    requires Sound(w) && x in w.rows && x !in s && x !in s' && Seeks(w, x).Some?
    requires Finds(w, s', x) == Finds(w, s, x)
    ensures ClearGoal(w, s', x) == ClearGoal(w, s, x) && (Blocked(w, s', x) <==> Blocked(w, s, x))
  {
    hide *;
    FindsIs(w, s, x);
    if Finds(w, s, x).Some? { SameEntryIs(w, w, Finds(w, s, x).value); }
    ClearSame(w, w, s, s', x);
  }

  lemma SeeksSendable(w: World, x: string)
    requires x in w.rows && Seeks(w, x).Some?
    ensures Sendable(w.rows[x])
  {
    hide Stored;
    hide DesiredEntry;
  }

  lemma SendableStays(r: Rule, r': Rule)
    requires Desire(r) == Desire(r')
    ensures Sendable(r') <==> Sendable(r)
  {
    SameDesire(r, r');
    hide Stored;
    hide DesiredEntry;
  }

  /** A row with something to send that is rejected is not bound to an entry of its own. */
  lemma RejectedAnchor(w: World, x: string)
    requires x in w.rows && w.rows[x].id == x && Sendable(w.rows[x]) && AimOf(w.entries, w.rows[x]).Reject?
    ensures !PictureOf(w, x).anchor.Holds?
  {
    RejectedBinding(w, x);
    HoldingsAt(w.entries, x);
    hide AimOf;
    hide OwnedBy;
    hide Sendable;
    hide Holdings;
  }

  lemma RejectedBinding(w: World, x: string)
    requires x in w.rows && w.rows[x].id == x && Sendable(w.rows[x]) && AimOf(w.entries, w.rows[x]).Reject?
    ensures Bound(w.entries, w.rows[x]) ==> !OwnedBy(w.entries[w.rows[x].binding.value], x)
  {
    hide Stored;
    hide DesiredEntry;
    hide Equivalent;
    hide OwnerHint;
  }

  lemma SameAnchor(w: World, w': World, x: string)
    requires x in w.rows && x in w'.rows && !PictureOf(w, x).anchor.Holds?
    requires PictureOf(w', x).anchor == PictureOf(w, x).anchor && PictureOf(w', x).others == PictureOf(w, x).others
    ensures w'.rows[x].binding == w.rows[x].binding && Holdings(w'.entries, x) == Holdings(w.entries, x)
  {
    hide Holdings;
  }

  lemma SameHoldings(w: World, w': World, r: Rule)
    requires Passed(w, w', r) && Holdings(w'.entries, r.id) == Holdings(w.entries, r.id)
    ensures w'.entries == w.entries
  {
    HoldingsAt(w.entries, r.id);
    HoldingsAt(w'.entries, r.id);
    hide Holdings;
    hide OwnedBy;
    hide Keeps;
    hide Sound;
    hide Identity;
    forall k | k in w'.entries ensures k in w.entries && w'.entries[k] == w.entries[k] { assert Own(w, w', r, k); }
    forall k | k in w.entries ensures k in w'.entries {
      if !OwnedBy(w.entries[k], r.id) { NotOwnStays(w, w', r, k); }
    }
  }

  lemma SameMoved(w: World, w': World, r: Rule, s: set<string>)
    requires Passed(w, w', r) && w'.entries == w.entries && r.id !in s
    ensures Moved(w', s) == Moved(w, s)
  {
    hide *;
    forall k ensures k in Moved(w', s) <==> k in Moved(w, s) {
      MovedIs(w, s, k);
      MovedIs(w', s, k);
      forall y | y in s ensures Moves(w', y, k) <==> Moves(w, y, k) { OtherMoves(w, w', r, y, k); }
    }
  }

  /** The goal looks at what operators wrote, at the binding and at the entries. */
  lemma GoalTwin(w: World, w': World, x: string)
    requires x in w.rows && x in w'.rows && w'.entries == w.entries
    requires Desire(w'.rows[x]) == Desire(w.rows[x]) && w'.rows[x].binding == w.rows[x].binding
    ensures Goal(w', x) == Goal(w, x) && AimOf(w'.entries, w'.rows[x]) == AimOf(w.entries, w.rows[x])
  {
    SameDesire(w.rows[x], w'.rows[x]);
    AimTwin(w.entries, w.rows[x], w'.rows[x]);
    RowTwin(w.rows[x], w'.rows[x]);
    hide AimOf;
    hide DesiredSame;
    hide Holdings;
    hide Desire;
  }

  lemma AimTwin(entries: map<EntryId, Entry>, r: Rule, r': Rule)
    requires DesiredSame(r, r') && r'.binding == r.binding
    ensures AimOf(entries, r') == AimOf(entries, r)
  {
    hide Stored;
    hide OwnerHint;
    hide Equivalent;
    hide DesiredEntry;
  }

  lemma RowTwin(r: Rule, r': Rule)
    requires Desire(r) == Desire(r') && r'.binding == r.binding
    ensures Converge(r', None) == Converge(r, None)
    ensures forall code :: Errs(r', code).(binding := None) == Errs(r, code).(binding := None)
  {
    assert forall q: Rule :: Converge(q, None) == Desire(q).(status := Converged);
    assert forall q: Rule, code :: Errs(q, code).(binding := None) == Desire(q).(status := Errored, lastError := Some(code));
  }

  /** The pass of the rule itself does not change what it ends up as. */
  lemma OwnPass(w: World, w': World, s: set<string>, x: string)
    requires x in w.rows && Passed(w, w', w.rows[x]) && w.rows[x].id == x && x !in s
    ensures x in w'.rows && ClearGoal(w', s, x) == ClearGoal(w, s, x) && (Blocked(w', s, x) <==> Blocked(w, s, x))
  {
    hide *;
    var r := w.rows[x];
    PassedRow(w, w', r);
    PassedSound(w, w', r);
    RejectShows(w, x);
    RejectShows(w', x);
    if !AimOf(w.entries, r).Reject? {
      Unobstructed(w, s, x);
      Unobstructed(w', s, x);
    } else if Sendable(r) {
      StuckPass(w, w', s, x);
    } else {
      SendableStays(r, w'.rows[x]);
      if Seeks(w, x).Some? { SeeksSendable(w, x); }
      if Seeks(w', x).Some? { SeeksSendable(w', x); }
      NoSeek(w, s, x);
      NoSeek(w', s, x);
    }
  }

  lemma RejectShows(w: World, x: string)
    requires x in w.rows
    ensures AimOf(w.entries, w.rows[x]).Reject? <==> Goal(w, x).row.status == Errored
  {
    hide AimOf;
    hide OwnedBy;
  }

  lemma StuckPass(w: World, w': World, s: set<string>, x: string)
    requires x in w.rows && Passed(w, w', w.rows[x]) && w.rows[x].id == x && x !in s && x in w'.rows
    requires AimOf(w.entries, w.rows[x]).Reject? && AimOf(w'.entries, w'.rows[x]).Reject? && Sendable(w.rows[x])
    ensures ClearGoal(w', s, x) == ClearGoal(w, s, x) && (Blocked(w', s, x) <==> Blocked(w, s, x))
  {
    hide *;
    var r := w.rows[x];
    PassedRow(w, w', r);
    RejectedAnchor(w, x);
    RejectedPicture(w, x);
    RejectedPicture(w', x);
    SameAnchor(w, w', x);
    SameHoldings(w, w', r);
    SameMoved(w, w', r, s);
    ClearIs(w, s, x);
    ClearIs(w', s, x);
    GoalTwin(Cleared(w, s), Cleared(w', s), x);
  }

  lemma RejectedPicture(w: World, x: string)
    requires x in w.rows && AimOf(w.entries, w.rows[x]).Reject?
    ensures Goal(w, x).anchor == PictureOf(w, x).anchor && Goal(w, x).others == PictureOf(w, x).others
  {
    hide AimOf;
    hide OwnedBy;
    hide Holdings;
  }
}

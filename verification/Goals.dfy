/** What a fault-free pass is after, and why no fault can change it.

    `Goal(w, x)` is the state of rule `x`'s row and entries that a pass without faults reaches
    from `w`. Every step of every pass keeps it, so a crashed pass only loses time. */
module Goals {
  import opened Text
  import opened Entries
  import opened Registration
  import opened Backends
  import opened Protocol
  import opened Frame

  /** What a pass without faults ends up doing for row `r`. */
  datatype Aim =
    | Reject(code: string)
    | Keep(id: EntryId)
    | Write(id: EntryId, entry: Entry)
    | Insert(entry: Entry)
    | Release

  function AimOf(entries: map<EntryId, Entry>, r: Rule): Aim {
    if r.desiredState == "present" then
      match DesiredEntry(r)
      case Err(_) => Reject("invalid_desired_state")
      case Ok(d) =>
        if Bound(entries, r) then AimAt(entries, r.id, d, r.binding.value, "spire_update_failed")
        else match Stored(d)
          case None => Reject("spire_create_failed")
          case Some(n) => match Similar(entries, n)
            case None => Insert(n)
            case Some(k) => AimAt(entries, r.id, d, k, "spire_update_failed")
    else if r.desiredState == "absent" then
      if Bound(entries, r) && !OwnedBy(entries[r.binding.value], r.id) then Reject("ownership_mismatch") else Release
    else Reject("invalid_desired_state")
  }

  predicate Bound(entries: map<EntryId, Entry>, r: Rule) {
    r.binding.Some? && r.binding.value in entries
  }

  function AimAt(entries: map<EntryId, Entry>, ruleId: string, d: Entry, k: EntryId, code: string): Aim
    requires k in entries
  {
    if !OwnedBy(entries[k], ruleId) then Reject("ownership_mismatch")
    else if Equivalent(entries[k], d) then Keep(k)
    else match Stored(d)
      case None => Reject(code)
      case Some(n) => Write(k, n)
  }

  /** How the row is tied to SPIRE, leaving out which ID an owned entry happens to have. */
  datatype Anchor = Unbound | Elsewhere(id: EntryId) | Holds(entry: Entry)

  /** One rule's row and entries up to the ID of the entry it is bound to. */
  datatype Picture = Picture(row: Rule, anchor: Anchor, others: map<EntryId, Entry>)

  function Holdings(entries: map<EntryId, Entry>, x: string): map<EntryId, Entry> {
    map k | k in entries && OwnedBy(entries[k], x) :: entries[k]
  }

  function PictureOf(w: World, x: string): Picture
    requires x in w.rows
  {
    var r := w.rows[x];
    var own := Holdings(w.entries, x);
    if r.binding.None? then Picture(r, Unbound, own)
    else if r.binding.value in own then Picture(r.(binding := None), Holds(own[r.binding.value]), own - {r.binding.value})
    else Picture(r.(binding := None), Elsewhere(r.binding.value), own)
  }

  function Goal(w: World, x: string): Picture
    requires x in w.rows
  {
    var r := w.rows[x];
    var own := Holdings(w.entries, x);
    match AimOf(w.entries, r)
    case Reject(code) => PictureOf(w, x).(row := Errs(r, code).(binding := None))
    case Keep(k) => Picture(Converge(r, None), if k in own then Holds(own[k]) else Unbound, own - {k})
    case Write(k, n) => Picture(Converge(r, None), Holds(n), own - {k})
    case Insert(n) => Picture(Converge(r, None), Holds(n), own)
    case Release => Picture(Converge(r, None), Unbound, if r.binding.Some? then own - {r.binding.value} else own)
  }

  /** What holds between runs: rows are filed under their IDs, a converged row has no error,
      IDs in use were handed out, and no row is bound to another row's entry. */
  predicate Sound(w: World) {
    && (forall x :: x in w.rows ==> w.rows[x].id == x)
    && (forall x :: x in w.rows ==> w.rows[x].status == Converged ==> w.rows[x].lastError.None?)
    && IdsBelow(w)
    && (forall x :: x in w.rows && w.rows[x].binding.Some? ==> w.rows[x].binding.value < w.next)
    && (forall x, y :: x in w.rows && y in w.rows && x != y ==> Apart(w, x, y))
  }

  /** Row `x` is not bound to an entry of row `y`. */
  predicate Apart(w: World, x: string, y: string)
    requires x in w.rows
  {
    Bound(w.entries, w.rows[x]) ==> !OwnedBy(w.entries[w.rows[x].binding.value], y)
  }

  /** If row `x` must create its entry, the entry it would find there is not another row's. */
  predicate Firm(w: World, x: string)
    requires x in w.rows
  {
    Seeks(w, x).Some? ==>
      match Similar(w.entries, Seeks(w, x).value)
      case None => true
      case Some(k) => forall y :: y in w.rows && y != x ==> !OwnedBy(w.entries[k], y)
  }

  /** The entry row `x` would create, if it is present, well formed and not bound to a live entry. */
  function Seeks(w: World, x: string): Option<Entry>
    requires x in w.rows
  {
    var r := w.rows[x];
    if r.desiredState == "present" && DesiredEntry(r).Ok? && !Bound(w.entries, r) then Stored(DesiredEntry(r).value)
    else None
  }

  // ---- What each kind of step does to the goal ----

  predicate IsSent(r: Rule, n: Entry) {
    && r.desiredState == "present" && DesiredEntry(r).Ok? && Stored(DesiredEntry(r).value) == Some(n)
  }

  lemma SentIsOwn(r: Rule, n: Entry)
    requires IsSent(r, n)
    ensures OwnedBy(n, r.id) && Identity(r) == Some(n.spiffeId)
  {
    hide Stored;
    StoredIsOwn(r, DesiredEntry(r).value);
  }

  lemma AimIsSent(entries: map<EntryId, Entry>, r: Rule)
    ensures var a := AimOf(entries, r);
      && (a.Insert? || a.Write? ==> IsSent(r, a.entry))
      && (a.Keep? || a.Write? ==> a.id in entries && OwnedBy(entries[a.id], r.id))
  {
    hide Stored;
    hide OwnerHint;
    hide Equivalent;
    hide Similar;
  }

  lemma AimIsOwn(entries: map<EntryId, Entry>, r: Rule)
    ensures var a := AimOf(entries, r);
      && (a.Insert? || a.Write? ==> IsSent(r, a.entry) && OwnedBy(a.entry, r.id) && Identity(r) == Some(a.entry.spiffeId))
      && (a.Keep? || a.Write? ==> a.id in entries && OwnedBy(entries[a.id], r.id))
  {
    hide AimOf;
    hide Identity;
    hide IsSent;
    hide OwnedBy;
    AimIsSent(entries, r);
    var a := AimOf(entries, r);
    if a.Insert? || a.Write? { SentIsOwn(r, a.entry); }
  }

  /** A row may be marked with `binding`: the entries are as the goal wants them. */
  predicate Ready(w: World, x: string, binding: Option<EntryId>)
    requires x in w.rows
  {
    var r := w.rows[x];
    var a := AimOf(w.entries, r);
    if binding.Some? then
      && binding.value in w.entries && OwnedBy(w.entries[binding.value], x)
      && (a == Keep(binding.value) || a == Write(binding.value, w.entries[binding.value]))
    else a == Release && !Bound(w.entries, r)
  }

  /** The goal once the right entry is in place. */
  lemma GoalAt(w: World, x: string, k: EntryId)
    requires x in w.rows && k in w.entries && OwnedBy(w.entries[k], x)
    requires var a := AimOf(w.entries, w.rows[x]); a == Keep(k) || a == Write(k, w.entries[k])
    ensures Goal(w, x) == Picture(Converge(w.rows[x], None), Holds(w.entries[k]), Holdings(w.entries, x) - {k})
    ensures Ready(w, x, Some(k))
  {
    hide AimOf;
    hide OwnerHint;
  }

  lemma AimInserted(w: World, r: Rule, k: EntryId, n: Entry)
    requires Sound(w) && AimOf(w.entries, r) == Insert(n) && w.next <= k
    requires r.binding.Some? ==> r.binding.value < w.next
    ensures var a := AimOf(w.entries[k := n], r); a == Keep(k) || a == Write(k, n)
    ensures OwnedBy(n, r.id)
  {
    hide Stored;
    hide OwnerHint;
    hide Equivalent;
    AimIsOwn(w.entries, r);
    SimilarInserted(w.entries, n, k);
  }

  lemma InsertPlace(w: World, x: string, k: EntryId)
    requires Sound(w) && x in w.rows && w.next <= k
    ensures w.rows[x].id == x && k !in w.entries && (w.rows[x].binding.Some? ==> w.rows[x].binding.value < w.next)
  {
    hide OwnedBy;
  }

  lemma GoalWhenInsert(w: World, x: string, n: Entry)
    requires x in w.rows && AimOf(w.entries, w.rows[x]) == Insert(n)
    ensures Goal(w, x) == Picture(Converge(w.rows[x], None), Holds(n), Holdings(w.entries, x))
  {
    hide AimOf;
    hide Holdings;
  }

  lemma HoldingsWith(entries: map<EntryId, Entry>, x: string, k: EntryId, n: Entry)
    requires k !in entries
    ensures Holdings(entries[k := n], x) - {k} == Holdings(entries, x)
  {
    hide OwnedBy;
  }

  lemma Inserted(w: World, x: string, k: EntryId, n: Entry)
    requires Sound(w) && x in w.rows && AimOf(w.entries, w.rows[x]) == Insert(n) && w.next <= k
    ensures var w' := w.(entries := w.entries[k := n], next := k + 1);
            Goal(w', x) == Goal(w, x) && Ready(w', x, Some(k))
  {
    hide *;
    var w' := w.(entries := w.entries[k := n], next := k + 1);
    InsertPlace(w, x, k);
    AimInserted(w, w.rows[x], k, n);
    GoalWhenInsert(w, x, n);
    HoldingsWith(w.entries, x, k, n);
    GoalAt(w', x, k);
  }

  lemma SimilarInserted(entries: map<EntryId, Entry>, n: Entry, k: EntryId)
    requires k !in entries && Similar(entries, n).None?
    ensures Similar(entries[k := n], n) == Some(k)
  {
    var found := Similar(entries[k := n], n);
    assert SameKey(entries[k := n][k], n);
    assert forall j :: j in entries && j != k ==> entries[k := n][j] == entries[j];
  }

  lemma SimilarOverwritten(entries: map<EntryId, Entry>, n: Entry, k: EntryId)
    requires Similar(entries, n) == Some(k)
    ensures Similar(entries[k := n], n) == Some(k)
  {
    var found := Similar(entries[k := n], n);
    assert SameKey(entries[k := n][k], n);
    assert forall j :: j in entries && j != k ==> entries[k := n][j] == entries[j];
  }

  lemma AimOverwritten(entries: map<EntryId, Entry>, r: Rule, k: EntryId, n: Entry)
    requires AimOf(entries, r) == Write(k, n)
    ensures var a := AimOf(entries[k := n], r); a == Keep(k) || a == Write(k, n)
    ensures OwnedBy(n, r.id)
  {
    hide Stored;
    hide OwnerHint;
    hide Equivalent;
    AimIsOwn(entries, r);
    if !Bound(entries, r) { SimilarOverwritten(entries, n, k); }
  }

  lemma Overwritten(w: World, x: string, k: EntryId, n: Entry)
    requires x in w.rows && w.rows[x].id == x && AimOf(w.entries, w.rows[x]) == Write(k, n)
    ensures var w' := w.(entries := w.entries[k := n]);
            Goal(w', x) == Goal(w, x) && Ready(w', x, Some(k))
  {
    var w' := w.(entries := w.entries[k := n]);
    hide AimOf;
    hide OwnerHint;
    AimOverwritten(w.entries, w.rows[x], k, n);
    assert Holdings(w'.entries, x) - {k} == Holdings(w.entries, x) - {k};
    GoalAt(w', x, k);
    hide Ready;
  }

  lemma Removed(w: World, x: string)
    requires Sound(w) && x in w.rows && AimOf(w.entries, w.rows[x]).Release? && Bound(w.entries, w.rows[x])
    ensures var w' := w.(entries := w.entries - {w.rows[x].binding.value});
            Goal(w', x) == Goal(w, x) && Ready(w', x, None)
  {
    hide OwnerHint;
    var k := w.rows[x].binding.value;
    assert Holdings(w.entries - {k}, x) == Holdings(w.entries, x) - {k};
  }

  lemma Marked(w: World, x: string, binding: Option<EntryId>)
    requires Sound(w) && x in w.rows && Ready(w, x, binding)
    ensures !Taken(w.rows, x, binding)
    ensures var w' := w.(rows := w.rows[x := Converge(w.rows[x], binding)]);
            Goal(w', x) == Goal(w, x) && PictureOf(w', x) == Goal(w, x) && Sound(w')
  {
    hide Sound;
    hide AimOf;
    hide Holdings;
    hide OwnedBy;
    MarkedSound(w, x, binding);
    AimMarked(w, x, binding);
    HoldingsAt(w.entries, x);
  }

  lemma HoldingsAt(entries: map<EntryId, Entry>, x: string)
    ensures forall k :: k in Holdings(entries, x) <==> k in entries && OwnedBy(entries[k], x)
    ensures forall k :: k in Holdings(entries, x) ==> Holdings(entries, x)[k] == entries[k]
  {
  }

  lemma AimMarked(w: World, x: string, binding: Option<EntryId>)
    requires Sound(w) && x in w.rows && Ready(w, x, binding)
    ensures AimOf(w.entries, Converge(w.rows[x], binding)) == AimOf(w.entries, w.rows[x])
  {
    hide Stored;
    hide OwnerHint;
    hide Equivalent;
    var r := w.rows[x];
    var r' := Converge(r, binding);
    assert DesiredSame(r, r');
    if binding.Some? {
      AimIsOwn(w.entries, r);
      AimAgain(w.entries, r, r', binding.value);
    }
  }

  lemma MarkedSound(w: World, x: string, binding: Option<EntryId>)
    requires Sound(w) && x in w.rows && Ready(w, x, binding)
    ensures w.rows[x].id == x && !Taken(w.rows, x, binding)
    ensures Sound(w.(rows := w.rows[x := Converge(w.rows[x], binding)]))
  {
    hide AimOf;
    var w' := w.(rows := w.rows[x := Converge(w.rows[x], binding)]);
    assert forall y :: binding.Some? && y in w.rows && y != x && w.rows[y].binding == binding ==> !Apart(w, y, x);
    forall y, z | y in w'.rows && z in w'.rows && y != z ensures Apart(w', y, z) {
      HintInjective(y, z);
      if y != x { assert Apart(w, y, z); }
    }
  }

  predicate DesiredSame(r: Rule, r': Rule) {
    r'.desiredState == r.desiredState && DesiredEntry(r') == DesiredEntry(r) && r'.id == r.id
  }

  /** Once the entry is there, binding the row to it does not change what the pass is after. */
  lemma AimAgain(entries: map<EntryId, Entry>, r: Rule, r': Rule, k: EntryId)
    requires DesiredSame(r, r') && r'.binding == Some(k) && k in entries
    requires AimOf(entries, r) == Keep(k) || AimOf(entries, r) == Write(k, entries[k])
    ensures AimOf(entries, r') == AimOf(entries, r)
  {
    hide Stored;
    hide OwnerHint;
    hide Equivalent;
  }

  lemma MarkedError(w: World, x: string, code: string)
    requires Sound(w) && x in w.rows
    ensures var w' := w.(rows := w.rows[x := Errs(w.rows[x], code)]);
            Goal(w', x) == Goal(w, x) && Sound(w') &&
            (AimOf(w.entries, w.rows[x]) == Reject(code) ==> PictureOf(w', x) == Goal(w, x))
  {
    hide Sound;
    hide AimOf;
    hide Holdings;
    ErredSound(w, x, code);
    AimErred(w.entries, w.rows[x], code);
  }

  lemma AimErred(entries: map<EntryId, Entry>, r: Rule, code: string)
    ensures AimOf(entries, Errs(r, code)) == AimOf(entries, r)
  {
    hide Stored;
    hide OwnerHint;
    hide Equivalent;
    assert DesiredSame(r, Errs(r, code));
  }

  lemma ErredSound(w: World, x: string, code: string)
    requires Sound(w) && x in w.rows
    ensures w.rows[x].id == x && Sound(w.(rows := w.rows[x := Errs(w.rows[x], code)]))
  {
    hide OwnedBy;
    var w' := w.(rows := w.rows[x := Errs(w.rows[x], code)]);
    forall y, z | y in w'.rows && z in w'.rows && y != z ensures Apart(w', y, z) {
      assert Apart(w, y, z);
    }
  }
}

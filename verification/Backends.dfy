/** The three stores the reconciler drives, as one value, and what each call does to them.

    No transaction spans the stores. A call can be answered (`Fine`), fail before it takes
    effect (`Refused`), or take effect while its reply is lost (`Lost`). A process that dies is
    one whose later calls are all refused: none of them reaches a store. */
module Backends {
  import opened Text
  import opened Entries
  import opened Registration

  datatype AuditEvent =
    | Reconciled(ruleId: string, operation: string, entry: Option<EntryId>)
    | Operated(ruleId: string, operation: string, revision: int)

  /** `next` bounds the IDs handed out so far; IDs are never used twice. */
  datatype World = World(rows: map<string, Rule>, entries: map<EntryId, Entry>, next: EntryId, log: seq<AuditEvent>)

  datatype Call =
    | GetEntry(id: EntryId)
    | CreateEntry(entry: Entry)
    | UpdateEntry(id: EntryId, entry: Entry)
    | DeleteEntry(id: EntryId)
    | Append(operation: string, named: Option<EntryId>)
    | MarkConverged(binding: Option<EntryId>)
    | MarkError(code: string)

  datatype Reply =
    | Found(id: EntryId, entry: Entry)
    | Made(id: EntryId, entry: Entry)
    | Existing(id: EntryId, entry: Entry)
    | Updated(id: EntryId, entry: Entry)
    | Done
    | NotFound
    | Failed

  datatype Fault = Fine(skip: nat) | Refused | Lost(skip: nat)

  function Least(s: set<nat>): (k: nat)
    requires s != {}
    ensures k in s && forall x :: x in s ==> k <= x
  {
    HasLeast(s);
    var k :| k in s && forall x :: x in s ==> k <= x;
    k
  }

  lemma HasLeast(s: set<nat>)
    requires s != {}
    ensures exists k :: k in s && forall x :: x in s ==> k <= x
  {
    var k :| k in s;
    var m := LeastFrom(s, k);
  }

  lemma {:induction false} LeastFrom(s: set<nat>, k: nat) returns (m: nat)
    requires k in s
    ensures m in s && forall x :: x in s ==> m <= x
    decreases k
  {
    if y :| y in s && y < k { m := LeastFrom(s, y); } else { m := k; }
  }

  /** The entry that a create of `n` finds already there: the first with the same key. */
  function Similar(entries: map<EntryId, Entry>, n: Entry): (found: Option<EntryId>)
    ensures found.Some? ==> found.value in entries && SameKey(entries[found.value], n)
    ensures forall k :: k in entries && SameKey(entries[k], n) ==> found.Some? && found.value <= k
  {
    var s := set k | k in entries && SameKey(entries[k], n);
    assert forall k :: k in entries && SameKey(entries[k], n) ==> k in s;
    if s == {} then None else Some(Least(s))
  }

  function Converge(r: Rule, binding: Option<EntryId>): Rule {
    r.(binding := binding, status := Converged, lastError := None)
  }

  function Errs(r: Rule, code: string): Rule {
    r.(status := Errored, lastError := Some(code))
  }

  /** The unique index on bindings would be violated. */
  predicate Taken(rows: map<string, Rule>, ruleId: string, binding: Option<EntryId>) {
    binding.Some? && exists x :: x in rows && x != ruleId && rows[x].binding == binding
  }

  /** What a call made for rule `ruleId` does, and its reply, when it goes through. */
  function Effect(w: World, ruleId: string, call: Call, skip: nat): (World, Reply) {
    match call
    case GetEntry(k) => (w, if k in w.entries then Found(k, w.entries[k]) else NotFound)
    case CreateEntry(e) =>
      (match Stored(e)
       case None => (w, Failed)
       case Some(n) =>
         match Similar(w.entries, n)
         case Some(k) => (w, Existing(k, w.entries[k]))
         case None => (w.(entries := w.entries[w.next + skip := n], next := w.next + skip + 1),
                       Made(w.next + skip, n)))
    case UpdateEntry(k, e) =>
      (match Stored(e)
       case None => (w, Failed)
       case Some(n) => if k in w.entries then (w.(entries := w.entries[k := n]), Updated(k, n)) else (w, NotFound))
    case DeleteEntry(k) =>
      if k in w.entries then (w.(entries := w.entries - {k}), Done) else (w, NotFound)
    case Append(operation, named) => (w.(log := w.log + [Reconciled(ruleId, operation, named)]), Done)
    case MarkConverged(binding) =>
      if ruleId !in w.rows || Taken(w.rows, ruleId, binding) then (w, Failed)
      else (w.(rows := w.rows[ruleId := Converge(w.rows[ruleId], binding)]), Done)
    case MarkError(code) =>
      if ruleId !in w.rows then (w, Failed)
      else (w.(rows := w.rows[ruleId := Errs(w.rows[ruleId], code)]), Done)
  }

  function Exec(w: World, ruleId: string, call: Call, f: Fault): (World, Reply) {
    match f
    case Fine(skip) => Effect(w, ruleId, call, skip)
    case Refused => (w, Failed)
    case Lost(skip) => (Effect(w, ruleId, call, skip).0, Failed)
  }

  /** What is still to go wrong, store by store. An exhausted schedule means no more faults. */
  datatype Faults = Faults(rules: seq<Fault>, spire: seq<Fault>, audit: seq<Fault>)

  function Head(s: seq<Fault>): Fault { if s == [] then Fine(0) else s[0] }

  function Tail(s: seq<Fault>): seq<Fault> { if s == [] then [] else s[1..] }

  predicate FineOnly(s: seq<Fault>) { forall i :: 0 <= i < |s| ==> s[i].Fine? }

  predicate FaultFree(fs: Faults) { FineOnly(fs.rules) && FineOnly(fs.spire) && FineOnly(fs.audit) }

  function FaultFor(fs: Faults, call: Call): Fault {
    match call
    case Append(_, _) => Head(fs.audit)
    case MarkConverged(_) => Head(fs.rules)
    case MarkError(_) => Head(fs.rules)
    case _ => Head(fs.spire)
  }

  function After(fs: Faults, call: Call): Faults {
    match call
    case Append(_, _) => fs.(audit := Tail(fs.audit))
    case MarkConverged(_) => fs.(rules := Tail(fs.rules))
    case MarkError(_) => fs.(rules := Tail(fs.rules))
    case _ => fs.(spire := Tail(fs.spire))
  }

  lemma FaultFreeStays(fs: Faults, call: Call)
    requires FaultFree(fs)
    ensures FaultFor(fs, call).Fine? && FaultFree(After(fs, call))
  {
  }

  // ---- Listing the rows ----

  /** The rows of the table in the order the query returns them. */
  function ListRows(w: World, order: seq<string>): (rules: seq<Rule>)
    requires forall i :: 0 <= i < |order| ==> order[i] in w.rows
    ensures |rules| == |order| && forall i :: 0 <= i < |order| ==> rules[i] == w.rows[order[i]]
  {
    seq(|order|, i requires 0 <= i < |order| => w.rows[order[i]])
  }

  /** `order` names rows of the table, each once. */
  predicate Enumerates(w: World, order: seq<string>) {
    && (forall i :: 0 <= i < |order| ==> order[i] in w.rows)
    && (forall i, j :: 0 <= i < j < |order| ==> order[i] != order[j])
  }
}

/** Audit before convergence, seen from the stores: what a converged row left in the audit log. */
module AuditTrail {
  import opened Text
  import opened Entries
  import opened Registration
  import opened Backends
  import opened Protocol

  /** Since `log`, an event of rule `r` was recorded that names `binding`, if it is one. */
  predicate Trail(log: seq<AuditEvent>, log': seq<AuditEvent>, ruleId: string, binding: Option<EntryId>) {
    exists j :: |log| <= j < |log'| && log'[j].Reconciled? && log'[j].ruleId == ruleId &&
                (binding.Some? ==> log'[j].entry == binding)
  }

  /** How a pass may have left its row. */
  predicate Written(log: seq<AuditEvent>, row: Rule, w: World, ruleId: string) {
    && ruleId in w.rows && log <= w.log
    && var row' := w.rows[ruleId];
       || row' == row
       || (row'.status == Errored && row'.binding == row.binding)
       || (row'.status == Converged && Trail(log, w.log, ruleId, row'.binding))
  }

  predicate Trailed(log: seq<AuditEvent>, w: World, r: Rule, p: Point) {
    && log <= w.log
    && (p.Record? && p.binding.Some? ==> p.named == p.binding)
    && (p.Mark? ==> Trail(log, w.log, r.id, p.binding))
  }

  lemma TrailedOnward(log: seq<AuditEvent>, w: World, r: Rule, p: Point, f: Fault)
    requires !p.End? && Trailed(log, w, r, p) && r.id in w.rows
    ensures var (w', reply) := Exec(w, r.id, NextCall(p), f);
      && Trailed(log, w', r, Advance(r, p, reply)) && r.id in w'.rows
      && (w'.rows[r.id] == w.rows[r.id] || (Written(log, w.rows[r.id], w', r.id) && Advance(r, p, reply).End?))
  {
    hide Stored;
    hide Similar;
    hide Equivalent;
    hide OwnerHint;
    hide Taken;
    var (w', reply) := Exec(w, r.id, NextCall(p), f);
    if p.Record? && !f.Refused? {
      var event := Reconciled(r.id, p.operation, p.named);
      assert w'.log[|w.log|] == event;
    }
  }

  lemma {:induction false} PassWrites(log: seq<AuditEvent>, w: World, fs: Faults, r: Rule, p: Point)
    requires Trailed(log, w, r, p) && r.id in w.rows
    ensures Written(log, w.rows[r.id], Pass(w, fs, r, p).w, r.id)
    decreases Rank(p)
  {
    hide Exec;
    hide Advance;
    hide NextCall;
    hide Trail;
    if !p.End? {
      var call := NextCall(p);
      var (w', reply) := Exec(w, r.id, call, FaultFor(fs, call));
      var q := Advance(r, p, reply);
      TrailedOnward(log, w, r, p, FaultFor(fs, call));
      RankFalls(r, p, reply);
      if q.End? {
        assert Pass(w', After(fs, call), r, q).w == w';
      } else {
        PassWrites(log, w', After(fs, call), r, q);
      }
    }
  }

  /** Whatever goes wrong, a pass that turns its row to converged, or changes its binding, has left
      an audit event of this rule in the log that names the entry it bound, if it bound one. */
  lemma ConvergenceIsAudited(w: World, fs: Faults, r: Rule)
    requires r.id in w.rows
    ensures var end := Pass(w, fs, r, Start(r)).w;
      && r.id in end.rows && w.log <= end.log
      && ((end.rows[r.id].status == Converged && w.rows[r.id].status != Converged)
          || end.rows[r.id].binding != w.rows[r.id].binding ==>
            Trail(w.log, end.log, r.id, end.rows[r.id].binding))
  {
    StartTrailed(w, r);
    PassWrites(w.log, w, fs, r, Start(r));
    hide *;
    WrittenMeans(w.log, w.rows[r.id], Pass(w, fs, r, Start(r)).w, r.id);
  }

  lemma StartTrailed(w: World, r: Rule)
    ensures Trailed(w.log, w, r, Start(r))
  {
    hide DesiredEntry;
  }

  lemma WrittenMeans(log: seq<AuditEvent>, row: Rule, w: World, ruleId: string)
    requires Written(log, row, w, ruleId)
    ensures ruleId in w.rows && log <= w.log
    ensures (w.rows[ruleId].status == Converged && row.status != Converged) || w.rows[ruleId].binding != row.binding ==>
              Trail(log, w.log, ruleId, w.rows[ruleId].binding)
  {
    hide Trail;
  }
}

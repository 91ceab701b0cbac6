/** The reconciler's three stores as objects: the rule table, the SPIRE server behind its client,
    and the audit log. Each takes its faults, one per call, from a schedule of its own. */
module Stores {
  import opened Text
  import opened Spiffe
  import opened Entries
  import opened Registration
  import opened Backends

  /** registration_rules. `order` is the order in which the query returns the rows. */
  class RuleStore {
    var rows: map<string, Rule>
    var order: seq<string>
    var faults: seq<Fault>

    ghost predicate Valid()
      reads this
    {
      && (forall i :: 0 <= i < |order| ==> order[i] in rows)
      && (forall i, j :: 0 <= i < j < |order| ==> order[i] != order[j])
    }

    method List() returns (items: seq<Rule>, ok: bool)
      requires Valid()
      modifies this`faults
      ensures Valid() && faults == Tail(old(faults)) && (ok <==> Head(old(faults)).Fine?)
      ensures ok ==> |items| == |order| && forall i :: 0 <= i < |order| ==> items[i] == rows[order[i]]
      ensures !ok ==> items == []
    {
      var f := Head(faults);
      faults := Tail(faults);
      items := [];
      if !f.Fine? { return [], false; }
      for i := 0 to |order|
        invariant |items| == i && forall j :: 0 <= j < i ==> items[j] == rows[order[j]]
      {
        items := items + [rows[order[i]]];
      }
      ok := true;
    }

    method MarkConverged(ruleId: string, binding: Option<EntryId>) returns (ok: bool)
      requires Valid()
      modifies this
      ensures Valid() && order == old(order) && faults == Tail(old(faults))
      ensures var f := Head(old(faults));
              var hits := ruleId in old(rows) && !Taken(old(rows), ruleId, binding);
              && rows == (if f.Refused? || !hits then old(rows)
                          else old(rows)[ruleId := Converge(old(rows)[ruleId], binding)])
              && (ok <==> f.Fine? && hits)
    {
      var f := Head(faults);
      faults := Tail(faults);
      ok := false;
      if !f.Refused? && ruleId in rows && !Taken(rows, ruleId, binding) {
        rows := rows[ruleId := rows[ruleId].(binding := binding, status := Converged, lastError := None)];
        ok := f.Fine?;
      }
    }

    method MarkError(ruleId: string, code: string) returns (ok: bool)
      requires Valid()
      modifies this
      ensures Valid() && order == old(order) && faults == Tail(old(faults))
      ensures var f := Head(old(faults));
              && rows == (if f.Refused? || ruleId !in old(rows) then old(rows)
                          else old(rows)[ruleId := Errs(old(rows)[ruleId], code)])
              && (ok <==> f.Fine? && ruleId in old(rows))
    {
      var f := Head(faults);
      faults := Tail(faults);
      ok := false;
      if !f.Refused? && ruleId in rows {
        rows := rows[ruleId := rows[ruleId].(status := Errored, lastError := Some(code))];
        ok := f.Fine?;
      }
    }
  }

  class AuditLog {
    var events: seq<AuditEvent>
    var faults: seq<Fault>

    method Append(event: AuditEvent) returns (ok: bool)
      modifies this
      ensures faults == Tail(old(faults)) && (ok <==> Head(old(faults)).Fine?)
      ensures events == if Head(old(faults)).Refused? then old(events) else old(events) + [event]
    {
      var f := Head(faults);
      faults := Tail(faults);
      if !f.Refused? { events := events + [event]; }
      ok := f.Fine?;
    }
  }

  /** gRPC status codes that the client tells apart. */
  datatype Code = OK | ALREADY_EXISTS | NOT_FOUND

  /** The server's table as the client reads it. */
  function AsRead(entries: map<EntryId, Proto>): map<EntryId, Entry> {
    map k | k in entries :: FromProto(entries[k])
  }

  lemma AsReadPut(entries: map<EntryId, Proto>, k: EntryId, q: Proto)
    ensures AsRead(entries[k := q]) == AsRead(entries)[k := FromProto(q)]
  {
  }

  lemma AsReadAt(entries: map<EntryId, Proto>, k: EntryId)
    ensures k in AsRead(entries) <==> k in entries
    ensures k in entries ==> AsRead(entries)[k] == FromProto(entries[k])
  {
  }

  /** A server in order, over the alphabet, is read back in canonical form throughout. */
  lemma ReadBackCanonical(entries: map<EntryId, Proto>, k: EntryId)
    requires k in entries && WellFormedProto(entries[k]) && PlainId(entries[k].spiffeId) && PlainId(entries[k].parentId)
    ensures CanonicalEntry(AsRead(entries)[k])
  {
    ParseFormat(entries[k].spiffeId);
    ParseFormat(entries[k].parentId);
    hide ParseSpiffeId;
  }

  lemma AsReadDrop(entries: map<EntryId, Proto>, k: EntryId)
    ensures AsRead(entries - {k}) == AsRead(entries) - {k}
  {
  }

  lemma SentAndStored(e: Entry)
    ensures ToProto(e).Err? <==> Stored(e).None?
    ensures ToProto(e).Ok? ==> WellFormedProto(ToProto(e).value)
                               && Stored(e) == Some(FromProto(Arrange(ToProto(e).value)))
  {
    if ToProto(e).Ok? { ToProtoWellFormed(e); }
  }

  /** The entry table of the SPIRE server. */
  class SpireServer {
    var entries: map<EntryId, Proto>
    var next: EntryId

    ghost predicate Valid()
      reads this
    {
      forall k :: k in entries ==> k < next && WellFormedProto(entries[k])
    }

    ghost function Contents(): map<EntryId, Entry>
      reads this
    {
      AsRead(entries)
    }

    method BatchCreate(p: Proto, skip: nat) returns (code: Code, id: EntryId)
      requires Valid() && WellFormedProto(p)
      modifies this
      ensures Valid() && id in entries
      ensures var n := FromProto(Arrange(p));
              match Similar(old(Contents()), n)
              case Some(k) => code == ALREADY_EXISTS && id == k && entries == old(entries) && next == old(next)
              case None => code == OK && id == old(next) + skip && next == id + 1 &&
                           entries == old(entries)[id := Arrange(p)]
    {
      var q := Arrange(p);
      var n := FromProto(q);
      var k := 0;
      while k < next
        invariant k <= next
        invariant forall j :: 0 <= j < k && j in entries ==> !SameKey(FromProto(entries[j]), n)
      {
        if k in entries && SameKey(FromProto(entries[k]), n) {
          ghost var found := Similar(Contents(), n);
          assert SameKey(Contents()[k], n);
          assert found == Some(k);
          return ALREADY_EXISTS, k;
        }
        k := k + 1;
      }
      assert Similar(Contents(), n).None?;
      id := next + skip;
      entries := entries[id := q];
      next := id + 1;
      code := OK;
    }

    method BatchUpdate(id: EntryId, p: Proto) returns (code: Code)
      requires Valid() && WellFormedProto(p)
      modifies this`entries
      ensures Valid()
      ensures if id in old(entries) then code == OK && entries == old(entries)[id := Arrange(p)]
              else code == NOT_FOUND && entries == old(entries)
    {
      if id !in entries { return NOT_FOUND; }
      entries := entries[id := Arrange(p)];
      code := OK;
    }

    method BatchDelete(id: EntryId) returns (code: Code)
      requires Valid()
      modifies this`entries
      ensures Valid() && entries == old(entries) - {id}
      ensures code == if id in old(entries) then OK else NOT_FOUND
    {
      if id !in entries {
        assert entries - {id} == entries;
        return NOT_FOUND;
      }
      entries := entries - {id};
      code := OK;
    }
  }

  /** The SPIRE client: conversion, the call, and what the reply is taken to mean. */
  class SpireClient {
    const server: SpireServer
    var faults: seq<Fault>

    constructor (server: SpireServer, faults: seq<Fault>)
      ensures this.server == server && this.faults == faults
    {
      this.server := server;
      this.faults := faults;
    }

    method TakeFault() returns (f: Fault)
      modifies this
      ensures f == Head(old(faults)) && faults == Tail(old(faults))
    {
      f := Head(faults);
      faults := Tail(faults);
    }

    method GetEntry(id: EntryId) returns (reply: Reply)
      modifies this
      ensures faults == Tail(old(faults))
      ensures reply == if !Head(old(faults)).Fine? then Failed
                       else if id in server.entries then Found(id, server.Contents()[id]) else NotFound
    {
      var f := TakeFault();
      if !f.Fine? { return Failed; }
      if id !in server.entries { return NotFound; }
      var e := FromProtoEntry(server.entries[id]);
      reply := Found(id, e);
    }

    method CreateEntry(e: Entry) returns (reply: Reply)
      requires server.Valid()
      modifies this, server
      ensures server.Valid() && faults == Tail(old(faults))
      ensures Created(e, Head(old(faults)), reply)
    {
      hide Stored; hide Arrange; hide ToProto; hide FromProto; hide AsRead; hide Similar;
      hide WellFormedProto; hide SameKey;
      SentAndStored(e);
      var f := TakeFault();
      var p := ToProtoEntry(e);
      if p.Err? || f.Refused? { return Failed; }
      var code, id := server.BatchCreate(p.value, f.skip);
      AsReadPut(old(server.entries), id, Arrange(p.value));
      AsReadAt(server.entries, id);
      if f.Lost? { return Failed; }
      var stored := FromProtoEntry(server.entries[id]);
      reply := if code == OK then Made(id, stored) else Existing(id, stored);
    }

    /** What a create did, in terms of what the client reads before and after. */
    twostate predicate Created(e: Entry, f: Fault, reply: Reply)
      reads server
    {
      var before, now := old(server.Contents()), server.Contents();
      if f.Refused? || Stored(e).None? then now == before && server.next == old(server.next) && reply == Failed
      else
        var n := Stored(e).value;
        match Similar(before, n)
        case Some(k) =>
          && now == before && server.next == old(server.next)
          && reply == (if f.Fine? then Existing(k, before[k]) else Failed)
        case None =>
          var k := old(server.next) + f.skip;
          now == before[k := n] && server.next == k + 1 && reply == (if f.Fine? then Made(k, n) else Failed)
    }

    method UpdateEntry(id: EntryId, e: Entry) returns (reply: Reply)
      requires server.Valid()
      modifies this, server
      ensures server.Valid() && faults == Tail(old(faults)) && server.next == old(server.next)
      ensures var f := Head(old(faults)); var before := old(server.Contents());
              if f.Refused? || Stored(e).None? then server.Contents() == before && reply == Failed
              else if id in before
              then server.Contents() == before[id := Stored(e).value] &&
                   reply == (if f.Fine? then Updated(id, Stored(e).value) else Failed)
              else server.Contents() == before && reply == (if f.Fine? then NotFound else Failed)
    {
      hide Stored; hide Arrange; hide ToProto; hide FromProto; hide AsRead; hide WellFormedProto;
      SentAndStored(e);
      AsReadAt(server.entries, id);
      var f := TakeFault();
      var p := ToProtoEntry(e);
      if p.Err? || f.Refused? { return Failed; }
      AsReadPut(server.entries, id, Arrange(p.value));
      var code := server.BatchUpdate(id, p.value);
      AsReadAt(server.entries, id);
      if f.Lost? { return Failed; }
      if code == NOT_FOUND { return NotFound; }
      var stored := FromProtoEntry(server.entries[id]);
      reply := Updated(id, stored);
    }

    method DeleteEntry(id: EntryId) returns (reply: Reply)
      requires server.Valid()
      modifies this, server
      ensures server.Valid() && faults == Tail(old(faults)) && server.next == old(server.next)
      ensures var f := Head(old(faults)); var before := old(server.Contents());
              && server.Contents() == (if f.Refused? then before else before - {id})
              && reply == (if !f.Fine? then Failed else if id in before then Done else NotFound)
    {
      var f := TakeFault();
      if f.Refused? { return Failed; }
      AsReadDrop(server.entries, id);
      var code := server.BatchDelete(id);
      if f.Lost? { return Failed; }
      reply := if code == NOT_FOUND then NotFound else Done;
    }
  }
}

/** The durable queue: immutable approvals, one current row per objective and an append-only,
    MAC-chained event log. A transaction is one atomic method; a rejection changes nothing. */
module Queue {
  import opened Results
  import opened Candidates
  import opened Objectives
  import opened Records

  /** What the integrity key signs for one event. */
  datatype Message = Message(objectiveId: string, version: nat, event: string, record: Record, previous: string)

  datatype Event = Event(version: nat, event: string, record: Record, previous: string, mac: string)

  datatype Row = Row(record: Record, mac: string)

  const GENESIS := "0000000000000000000000000000000000000000000000000000000000000000"

  ghost predicate Injective(mac: Message -> string) {
    forall a, b :: mac(a) == mac(b) ==> a == b
  }

  function PreviousMac(log: seq<Event>, i: nat): string
    requires i <= |log|
  {
    if i == 0 then GENESIS else log[i - 1].mac
  }

  predicate LinkValid(mac: Message -> string, id: string, log: seq<Event>, i: nat)
    requires i < |log|
  {
    && log[i].version == i
    && log[i].previous == PreviousMac(log, i)
    && log[i].mac == mac(Message(id, i, log[i].event, log[i].record, PreviousMac(log, i)))
  }

  predicate ChainValid(mac: Message -> string, id: string, log: seq<Event>) {
    forall i | 0 <= i < |log| :: LinkValid(mac, id, log, i)
  }

  /** The row and its history agree. */
  predicate Authentic(mac: Message -> string, id: string, row: Row, log: seq<Event>) {
    && log != []
    && ChainValid(mac, id, log)
    && row == Row(log[|log| - 1].record, log[|log| - 1].mac)
    && row.record.version == |log| - 1
    && row.record.objectiveId == id
  }

  /** One MAC pins the whole history behind it. */
  lemma {:induction false} FinalMacPinsHistory(mac: Message -> string, id1: string, log1: seq<Event>, id2: string,
                                               log2: seq<Event>)
    requires Injective(mac)
    requires log1 != [] && ChainValid(mac, id1, log1)
    requires log2 != [] && ChainValid(mac, id2, log2)
    requires log1[|log1| - 1].mac == log2[|log2| - 1].mac
    ensures id1 == id2 && log1 == log2
    decreases |log1|
  {
    var n := |log1| - 1;
    assert LinkValid(mac, id1, log1, n) && LinkValid(mac, id2, log2, |log2| - 1);
    assert |log2| - 1 == n;
    assert log1[n] == log2[n];
    if n > 0 {
      ChainPrefix(mac, id1, log1, n);
      ChainPrefix(mac, id2, log2, n);
      FinalMacPinsHistory(mac, id1, log1[..n], id2, log2[..n]);
      assert log1 == log1[..n] + [log1[n]] && log2 == log2[..n] + [log2[n]];
    }
  }

  lemma ChainPrefix(mac: Message -> string, id: string, log: seq<Event>, n: nat)
    requires n <= |log| && ChainValid(mac, id, log)
    ensures ChainValid(mac, id, log[..n])
  {
    forall i | 0 <= i < n
      ensures LinkValid(mac, id, log[..n], i)
    {
      assert LinkValid(mac, id, log, i);
    }
  }

  function NextEvent(mac: Message -> string, record: Record, event: string, log: seq<Event>): Event {
    var previous := PreviousMac(log, |log|);
    Event(record.version, event, record, previous,
        mac(Message(record.objectiveId, record.version, event, record, previous)))
  }

  lemma ChainExtends(mac: Message -> string, id: string, log: seq<Event>, record: Record, event: string)
    requires ChainValid(mac, id, log) && record.objectiveId == id && record.version == |log|
    ensures ChainValid(mac, id, log + [NextEvent(mac, record, event, log)])
  {
    var longer := log + [NextEvent(mac, record, event, log)];
    forall i | 0 <= i < |longer|
      ensures LinkValid(mac, id, longer, i)
    {
      if i < |log| {
        assert LinkValid(mac, id, log, i);
        assert PreviousMac(longer, i) == PreviousMac(log, i);
      }
    }
  }

  /** The stored tables as one value. */
  datatype Tables = Tables(
    approvals: map<string, Approval>,
    objectives: map<string, Row>,
    events: map<string, seq<Event>>)

  /** Every objective has an approval and a history that authenticates its row. */
  ghost predicate Intact(mac: Message -> string, t: Tables) {
    && t.objectives.Keys == t.events.Keys == t.approvals.Keys
    && forall id | id in t.objectives :: Authentic(mac, id, t.objectives[id], t.events[id])
  }

  /** What `_read` demands of the stored tables, tampered with or not. */
  predicate ReadAccepts(mac: Message -> string, t: Tables, id: string) {
    && id in t.objectives && id in t.events
    && 0 < |t.events[id]| <= MAX_HISTORY
    && ChainValid(mac, id, t.events[id])
    && t.objectives[id] == Row(t.events[id][|t.events[id]| - 1].record, t.events[id][|t.events[id]| - 1].mac)
    && t.objectives[id].record.version == |t.events[id]| - 1
  }

  /** On intact tables the only thing that can stop a read is the history limit. */
  lemma IntactReads(mac: Message -> string, t: Tables, id: string)
    requires Intact(mac, t)
    ensures ReadAccepts(mac, t, id) <==> id in t.objectives && Readable(t.objectives[id].record)
  {
    if id in t.objectives {
      assert Authentic(mac, id, t.objectives[id], t.events[id]);
    }
  }

  /** One more event, and the row that goes with it. */
  function Append(mac: Message -> string, t: Tables, record: Record, event: string): Tables {
    var id := record.objectiveId;
    var log := if id in t.events then t.events[id] else [];
    var next := NextEvent(mac, record, event, log);
    t.(events := t.events[id := log + [next]], objectives := t.objectives[id := Row(record, next.mac)])
  }

  lemma AppendKeepsIntact(mac: Message -> string, t: Tables, record: Record, event: string)
    requires Intact(mac, t)
    requires record.objectiveId in t.objectives
    requires record.version == t.objectives[record.objectiveId].record.version + 1
    ensures Intact(mac, Append(mac, t, record, event))
  {
    var id := record.objectiveId;
    assert Authentic(mac, id, t.objectives[id], t.events[id]);
    ChainExtends(mac, id, t.events[id], record, event);
    var after := Append(mac, t, record, event);
    forall other | other in after.objectives
      ensures Authentic(mac, other, after.objectives[other], after.events[other])
    {
      if other != id {
        assert Authentic(mac, other, t.objectives[other], t.events[other]);
      }
    }
  }

  /** What a guarded mutation does to the tables: one authenticated event for the specified
      record, or nothing at all. */
  function Transact(mac: Message -> string, t: Tables, id: string, specified: Result<Record>, event: string): Tables {
    if id in t.objectives && Readable(t.objectives[id].record)
       && specified.Ok? && specified.value != t.objectives[id].record
    then Append(mac, t, specified.value, event) else t
  }

  /** ... and what it answers. */
  function Answer(t: Tables, id: string, specified: Result<Record>): Result<Record> {
    if id in t.objectives && Readable(t.objectives[id].record) then specified else Rejected
  }

  class ObjectiveQueue {
    const mac: Message -> string
    var approvals: map<string, Approval>
    var objectives: map<string, Row>
    var events: map<string, seq<Event>>

    constructor (mac: Message -> string)
      ensures Valid() && this.mac == mac
      ensures Contents() == Tables(map[], map[], map[])
    {
      this.mac := mac;
      approvals, objectives, events := map[], map[], map[];
    }

    ghost function Contents(): Tables
      reads this
    {
      Tables(approvals, objectives, events)
    }

    ghost predicate Valid()
      reads this
    {
      Intact(mac, Contents())
    }

    /** `_read` re-authenticates the whole history. It accepts exactly an intact one. */
    method Read(id: string) returns (r: Result<Record>)
      ensures r.Ok? <==> ReadAccepts(mac, Contents(), id)
      ensures r.Ok? ==> r.value == objectives[id].record
    {
      if id !in objectives || id !in events {
        return Rejected;
      }
      var log := events[id];
      if !(0 < |log| <= MAX_HISTORY) {
        return Rejected;
      }
      var authentic := CheckChain(mac, id, log);
      if !authentic || objectives[id] != Row(log[|log| - 1].record, log[|log| - 1].mac)
         || objectives[id].record.version != |log| - 1 {
        return Rejected;
      }
      return Ok(objectives[id].record);
    }

    static method CheckChain(mac: Message -> string, id: string, log: seq<Event>) returns (ok: bool)
      ensures ok <==> ChainValid(mac, id, log)
    {
      var previous := GENESIS;
      for i := 0 to |log|
        invariant previous == PreviousMac(log, i)
        invariant forall j | 0 <= j < i :: LinkValid(mac, id, log, j)
      {
        var expected := mac(Message(id, log[i].version, log[i].event, log[i].record, previous));
        if !(log[i].version == i && log[i].previous == previous && log[i].mac == expected) {
          assert !LinkValid(mac, id, log, i);
          return false;
        }
        previous := log[i].mac;
      }
      return true;
    }

    /** `_write`. */
    method Write(record: Record, event: string)
      requires Valid()
      requires record.objectiveId in objectives
      requires record.version == objectives[record.objectiveId].record.version + 1
      modifies this`objectives, this`events
      ensures Valid()
      ensures Contents() == Append(mac, old(Contents()), record, event)
    {
      var id := record.objectiveId;
      assert Authentic(mac, id, objectives[id], events[id]);
      AppendKeepsIntact(mac, Contents(), record, event);
      var log := events[id];
      var previous := objectives[id].mac;
      var code := mac(Message(id, record.version, event, record, previous));
      assert Event(record.version, event, record, previous, code) == NextEvent(mac, record, event, log);
      events := events[id := log + [Event(record.version, event, record, previous, code)]];
      objectives := objectives[id := Row(record, code)];
    }

    /** Admits one immutable approval. A second submission is answered with the stored record
        if it is the same approval, and refused if it is not. */
    method Enqueue(a: Approval, verified: bool, now: int) returns (r: Result<Record>)
      requires Valid()
      modifies this
      ensures Valid()
      ensures !verified ==> r.Rejected? && Contents() == old(Contents())
      ensures verified && a.objectiveId in old(approvals) ==>
        && Contents() == old(Contents())
        && (r.Ok? <==> approvals[a.objectiveId].digest == a.digest && Readable(objectives[a.objectiveId].record))
        && (r.Ok? ==> r.value == objectives[a.objectiveId].record)
      ensures verified && a.objectiveId !in old(approvals) ==>
        && r == Ok(Initial(a, now))
        && Contents() == Append(mac, old(Contents()), Initial(a, now), "approved")
                         .(approvals := old(approvals)[a.objectiveId := a])
    {
      if !verified {
        return Rejected;
      }
      var id := a.objectiveId;
      IntactReads(mac, Contents(), id);
      if id in approvals {
        if approvals[id].digest != a.digest {
          return Rejected;
        }
        r := Read(id);
        return;
      }
      var record := Initial(a, now);
      FirstEvent(mac, Contents(), a, now);
      var code := mac(Message(id, record.version, "approved", record, GENESIS));
      approvals := approvals[id := a];
      events := events[id := [] + [Event(record.version, "approved", record, GENESIS, code)]];
      objectives := objectives[id := Row(record, code)];
      return Ok(record);
    }

    method ClaimLease(id: string, worker: string, now: int, leaseSeconds: int) returns (r: Result<Record>)
      requires Valid()
      modifies this`objectives, this`events
      ensures Valid()
      ensures id in old(objectives) ==>
        var specified := Claim(old(objectives)[id].record, worker, now, leaseSeconds);
        && r == Answer(old(Contents()), id, specified)
        && Contents() == Transact(mac, old(Contents()), id, specified,
             if specified.Ok? && specified.value.phase == Blocked then "reconciliation_required" else "claimed")
      ensures id !in old(objectives) ==> r.Rejected? && Contents() == old(Contents())
    {
      IntactReads(mac, Contents(), id);
      var current := Read(id);
      if current.Rejected? {
        return Rejected;
      }
      r := GrantLease(current.value, worker, now, leaseSeconds);
      if r.Ok? {
        assert Authentic(mac, id, objectives[id], events[id]);
        Write(r.value, if r.value.phase != Blocked then "claimed" else "reconciliation_required");
      }
    }

    /** The in-place part of a claim. */
    static method GrantLease(current: Record, worker: string, now: int, leaseSeconds: int) returns (r: Result<Record>)
      requires Readable(current)
      ensures r == Claim(current, worker, now, leaseSeconds)
    {
      if !(IsText(worker, 128) && 0 <= now <= MAX_TIME && 1 <= leaseSeconds <= 300) {
        return Rejected;
      }
      if current.Terminal() || now >= current.deadline || current.leaseUntil > now {
        return Rejected;
      }
      var record := current;
      if record.intent.Some? {
        record := record.(phase := Blocked, reason := Some("unresolved publication intent"));
      } else {
        record := record.(leaseOwner := Some(worker), generation := record.generation + 1,
                          leaseUntil := Min(now + leaseSeconds, record.deadline));
        if record.phase == Pending {
          record := record.(phase := Admitted);
        }
      }
      return Ok(record.(version := record.version + 1));
    }

    method UpdateRecord(id: string, worker: Option<string>, generation: nat, version: nat, now: int, event: string,
                        c: Changes)
      returns (r: Result<Record>)
      requires Valid()
      modifies this`objectives, this`events
      ensures Valid()
      ensures !IsText(event, 128) || id !in old(objectives) ==> r.Rejected? && Contents() == old(Contents())
      ensures IsText(event, 128) && id in old(objectives) ==>
        var specified := Update(old(objectives)[id].record, worker, generation, version, now, c);
        r == Answer(old(Contents()), id, specified)
            && Contents() == Transact(mac, old(Contents()), id, specified, event)
    {
      IntactReads(mac, Contents(), id);
      if !IsText(event, 128) {
        return Rejected;
      }
      var current := Read(id);
      if current.Rejected? {
        return Rejected;
      }
      r := Update(current.value, worker, generation, version, now, c);
      if r.Ok? {
        assert Authentic(mac, id, objectives[id], events[id]);
        Write(r.value, event);
      }
    }

    method ExpireRecord(id: string, now: int) returns (r: Result<Record>)
      requires Valid()
      modifies this`objectives, this`events
      ensures Valid()
      ensures id in old(objectives) ==>
        var specified := Expire(old(objectives)[id].record, now);
        && r == Answer(old(Contents()), id, specified)
        && Contents() == Transact(mac, old(Contents()), id, specified, "objective_timed_out")
      ensures id !in old(objectives) ==> r.Rejected? && Contents() == old(Contents())
    {
      IntactReads(mac, Contents(), id);
      var current := Read(id);
      if current.Rejected? {
        return Rejected;
      }
      var record := current.value;
      ghost var specified := Expire(record, now);
      var expired := now >= record.deadline;
      var uncertain := record.intent.Some? && 0 < record.leaseUntil <= now;
      if !record.Terminal() && (expired || uncertain) {
        record := record.(phase := Blocked, reason := Some("objective deadline/lease exceeded"),
            version := record.version + 1);
        assert specified == Ok(record);
        assert Authentic(mac, id, objectives[id], events[id]);
        Write(record, "objective_timed_out");
      } else {
        assert specified == Ok(record);
      }
      return Ok(record);
    }
  }

  lemma FirstEvent(mac: Message -> string, t: Tables, a: Approval, now: int)
    requires Intact(mac, t) && a.objectiveId !in t.approvals
    ensures Intact(mac, Append(mac, t, Initial(a, now), "approved").(approvals := t.approvals[a.objectiveId := a]))
  {
    var id := a.objectiveId;
    ChainExtends(mac, id, [], Initial(a, now), "approved");
    var after := Append(mac, t, Initial(a, now), "approved");
    forall other | other in after.objectives
      ensures Authentic(mac, other, after.objectives[other], after.events[other])
    {
      if other != id {
        assert Authentic(mac, other, t.objectives[other], t.events[other]);
      }
    }
  }
}

/** The Redis challenge store: created once if absent, consumed by removal. */
module ChallengeStore {
  import opened Schema
  import opened Bytes
  import opened ChallengeCodec

  const MAXIMUM_TTL: Time := 2 * MINUTE
  const MILLISECOND: Time := 1_000_000

  datatype Entry = Entry(wire: seq<byte>, until: Time)

  predicate Live(entries: map<string, Entry>, id: string, now: Time) { id in entries && now < entries[id].until }

  /** Every stored value is the encoding of a valid record under its own identifier. */
  ghost predicate WellStored(entries: map<string, Entry>) {
    forall id {:trigger entries[id]} :: id in entries ==> DecodeDevice(id, entries[id].wire).Some?
  }

  lemma StoredOneMore(entries: map<string, Entry>, record: DeviceRecord, until: Time)
    requires WellStored(entries) && DeviceValid(record)
    ensures EncodeDevice(record).Some? && DecodeDevice(record.id, EncodeDevice(record).value) == Some(record)
    ensures WellStored(entries[record.id := Entry(EncodeDevice(record).value, until)])
  {
    DeviceDecodesEncoding(record);
  }

  lemma StoredOneLess(entries: map<string, Entry>, id: string)
    requires WellStored(entries)
    ensures WellStored(entries - {id})
  {
  }

  /** A lifetime cut to whole milliseconds. */
  function Whole(ttl: Time): (whole: Time)
    ensures ttl - MILLISECOND < whole <= ttl && (whole > 0 <==> ttl >= MILLISECOND)
  {
    (ttl / MILLISECOND) * MILLISECOND
  }

  datatype Consumption = Taken(record: DeviceRecord) | NotFound | Invalid | Unavailable

  /** A Redis command runs and answers, does not run, or runs without the caller learning it. */
  datatype Fault = Clean | NotRun | Lost

  predicate Accepts(entries: map<string, Entry>, record: DeviceRecord, ttl: Time, now: Time) {
    MILLISECOND <= ttl <= MAXIMUM_TTL && DeviceValid(record) && !Live(entries, record.id, now)
  }

  predicate Admits(id: string, grant: Digest, context: Digest) { !Zero(grant) && !Zero(context) && CanonicalUuid(id) }

  /** What GETDEL finds and the checks after it decide. */
  function Consuming(entries: map<string, Entry>, id: string, grant: Digest, context: Digest, now: Time): Consumption
    requires Live(entries, id, now) ==> DecodeDevice(id, entries[id].wire).Some?
  {
    if !Admits(id, grant, context) then Invalid
    else if !Live(entries, id, now) then NotFound
    else
      var record := DecodeDevice(id, entries[id].wire).value;
      if now < record.expires && record.grant == grant && record.context == context then Taken(record) else NotFound
  }

  class RedisChallengeStore {
    var entries: map<string, Entry>

    constructor ()
      ensures entries == map[]
    {
      entries := map[];
    }

    // Create: SETNX with a lifetime cut to whole milliseconds
    method Create(record: DeviceRecord, ttl: Time, now: Time, fault: Fault) returns (created: bool)
      requires WellStored(entries)
      modifies this
      ensures WellStored(entries)
      ensures created <==> Accepts(old(entries), record, ttl, now) && fault.Clean?
      ensures Accepts(old(entries), record, ttl, now) && !fault.NotRun? ==>
                && record.id in entries && DecodeDevice(record.id, entries[record.id].wire) == Some(record)
                && now + ttl - MILLISECOND < entries[record.id].until <= now + ttl
                && entries == old(entries)[record.id := entries[record.id]]
      ensures !Accepts(old(entries), record, ttl, now) || fault.NotRun? ==> entries == old(entries)
    {
      if ttl <= 0 || ttl > MAXIMUM_TTL || !DeviceValid(record) { return false; }
      var whole := Whole(ttl);
      if whole <= 0 { return false; }
      if fault.NotRun? || Live(entries, record.id, now) { return false; }
      StoredOneMore(entries, record, now + whole);
      entries := entries[record.id := Entry(EncodeDevice(record).value, now + whole)];
      created := fault.Clean?;
    }

    // Consume: whatever the checks say, and whether or not the reply arrives, a challenge whose script ran is gone
    method Consume(id: string, grant: Digest, context: Digest, now: Time, fault: Fault) returns (result: Consumption)
      requires WellStored(entries)
      modifies this
      ensures WellStored(entries)
      ensures result == if Admits(id, grant, context) && !fault.Clean? then Unavailable
              else Consuming(old(entries), id, grant, context, now)
      ensures !Admits(id, grant, context) || fault.NotRun? ==> entries == old(entries)
      ensures Admits(id, grant, context) && !fault.NotRun? ==> entries == old(entries) - {id}
    {
      if !Admits(id, grant, context) { return Invalid; }
      if fault.NotRun? { return Unavailable; }
      if fault.Lost? {
        StoredOneLess(entries, id);
        entries := entries - {id};
        return Unavailable;
      }
      if !Live(entries, id, now) {
        StoredOneLess(entries, id);
        entries := entries - {id};
        return NotFound;
      }
      result := GetDel(id, grant, context, now);
    }

    // Consume, once the script returned a value
    method GetDel(id: string, grant: Digest, context: Digest, now: Time) returns (result: Consumption)
      requires WellStored(entries) && id in entries && DecodeDevice(id, entries[id].wire).Some?
      modifies this
      ensures WellStored(entries) && entries == old(entries) - {id}
      ensures var record := DecodeDevice(id, old(entries)[id].wire).value;
              result == if now < record.expires && record.grant == grant && record.context == context then Taken(record)
              else NotFound
    {
      var record := DecodeDevice(id, entries[id].wire).value;
      StoredOneLess(entries, id);
      entries := entries - {id};
      if now < record.expires && record.grant == grant && record.context == context { return Taken(record); }
      result := NotFound;
    }
  }

  /** One shot: what was stored for a record is given out to a caller with its own digests before it expires, and to
      nobody after that. */
  lemma OneShot(entries: map<string, Entry>, record: DeviceRecord, grant: Digest, context: Digest, now: Time,
                later: Time)
    requires WellStored(entries) && DeviceValid(record) && Live(entries, record.id, now) &&
             entries[record.id].wire == EncodeDevice(record).value
    requires !Zero(grant) && !Zero(context)
    ensures Consuming(entries, record.id, grant, context, now) ==
            if now < record.expires && grant == record.grant && context == record.context then Taken(record)
            else NotFound
    ensures Consuming(entries - {record.id}, record.id, grant, context, later) == NotFound
  {
    DeviceDecodesEncoding(record);
  }

  // ----- histories -----

  datatype Op =
    | Create(record: DeviceRecord, ttl: Time, now: Time, fault: Fault)
    | Consume(id: string, grant: Digest, context: Digest, now: Time, fault: Fault)

  /** The operation stores an entry under the identifier, whether or not its caller learns it. */
  predicate Stores(entries: map<string, Entry>, op: Op, id: string) {
    op.Create? && op.record.id == id && Accepts(entries, op.record, op.ttl, op.now) && !op.fault.NotRun?
  }

  /** The operation hands the identifier's record to its caller. */
  predicate Takes(entries: map<string, Entry>, op: Op, id: string) {
    && op.Consume? && op.id == id && Admits(id, op.grant, op.context) && op.fault.Clean?
    && (Live(entries, id, op.now) ==> DecodeDevice(id, entries[id].wire).Some?) &&
       Consuming(entries, id, op.grant, op.context, op.now).Taken?
  }

  /** The entries after one operation, as the two methods change them. */
  function Step(entries: map<string, Entry>, op: Op): map<string, Entry> {
    match op
    case Create(record, ttl, now, fault) =>
      if Stores(entries, op, record.id) && EncodeDevice(record).Some?
      then entries[record.id := Entry(EncodeDevice(record).value, now + Whole(ttl))] else entries
    case Consume(id, grant, context, now, fault) =>
      if Admits(id, grant, context) && !fault.NotRun? then entries - {id} else entries
  }

  function After(entries: map<string, Entry>, ops: seq<Op>): map<string, Entry>
    decreases |ops|
  {
    if ops == [] then entries else After(Step(entries, ops[0]), ops[1..])
  }

  function StoredTimes(entries: map<string, Entry>, ops: seq<Op>, id: string): nat
    decreases |ops|
  {
    if ops == [] then 0 else
      (if Stores(entries, ops[0], id) then 1 else 0) + StoredTimes(Step(entries, ops[0]), ops[1..], id)
  }

  function TakenTimes(entries: map<string, Entry>, ops: seq<Op>, id: string): nat
    decreases |ops|
  {
    if ops == [] then 0 else
      (if Takes(entries, ops[0], id) then 1 else 0) + TakenTimes(Step(entries, ops[0]), ops[1..], id)
  }

  function There(entries: map<string, Entry>, id: string): nat { if id in entries then 1 else 0 }

  /** Over any history with any faults a challenge is handed out at most as often as it was stored, and what is still
      there was not handed out: a challenge stored once is used once. */
  lemma {:induction false} TakenWithinStored(entries: map<string, Entry>, ops: seq<Op>, id: string)
    ensures TakenTimes(entries, ops, id) + There(After(entries, ops), id) <= StoredTimes(entries, ops, id) +
            There(entries, id)
    decreases |ops|
  {
    if ops != [] { TakenWithinStored(Step(entries, ops[0]), ops[1..], id); }
  }
}

/** src/components/layers/MBTA/MBTAStreamLayer.tsx: the page-side reconciler
    that folds the worker's messages into the displayed vehicle collection. */
module StreamLayer {
  import opened Wrappers
  import opened Types
  import opened Conversions
  import Seqs

  /** An element of the displayed collection: a converted point, or the raw
      payload that an `add` event appends without converting it. */
  datatype Entry = Converted(feature: PointFeature) | RawPayload(data: EventData)

  /** The element's `id` property; `undefined` for an appended array. */
  function EntryId(e: Entry): Option<string> {
    match e
    case Converted(f) => Some(f.id)
    case RawPayload(d) => EventDataId(d)
  }

  /** `reset`: the payload's records converted to points, in order. */
  function ResetFeatures(records: seq<VehicleRecord>): (r: seq<Entry>)
    ensures |r| == |records|
    ensures forall i :: 0 <= i < |r| ==> r[i] == Converted(StreamingEventToPoint(records[i]))
  {
    Seqs.Map(records, (rec: VehicleRecord) => Converted(StreamingEventToPoint(rec)))
  }

  /** `update`: each element whose id is the item's id becomes the item;
      nothing is inserted. */
  function UpdateFeatures(fs: seq<Entry>, item: PointFeature): (r: seq<Entry>)
    ensures |r| == |fs|
    ensures forall i :: 0 <= i < |r| ==>
      r[i] == if EntryId(fs[i]) == Some(item.id) then Converted(item) else fs[i]
  {
    Seqs.Map(fs, (e: Entry) => if EntryId(e) == Some(item.id) then Converted(item) else e)
  }

  predicate Outlives(id: Option<string>, e: Entry) {
    EntryId(e) != id
  }

  /** The `filter` callback of `remove`, named once so that every use is the same function. */
  function Survivor(id: Option<string>): Entry -> bool {
    e => Outlives(id, e)
  }

  /** `remove`: the elements whose id differs from the payload's, in order. */
  function RemoveFeatures(fs: seq<Entry>, id: Option<string>): (r: seq<Entry>)
    ensures forall i :: 0 <= i < |r| ==> EntryId(r[i]) != id && r[i] in fs
    ensures forall i :: 0 <= i < |fs| && EntryId(fs[i]) != id ==> fs[i] in r
    ensures Seqs.Subsequence(r, fs)
    ensures forall e :: multiset(r)[e] == if EntryId(e) != id then multiset(fs)[e] else 0
  {
    Seqs.FilterIsSubsequence(fs, Survivor(id));
    Seqs.FilterCounts(fs, Survivor(id));
    Seqs.Filter(fs, Survivor(id))
  }

  /** The messages on which `handleWorkerMessage` throws before it sets the
      state: a `reset` whose payload is not an array (`.map` is missing), an
      `update` whose payload is not a full record (`attributes` is missing). */
  function Throws(m: Message): (t: bool)
    ensures t ==> m.DataMessage? && (m.eventType == "reset" || m.eventType == "update")
  {
    && m.DataMessage?
    && ((m.eventType == "reset" && !m.data.Records?) || (m.eventType == "update" && !m.data.Record?))
  }

  /** The collection after one message from the worker. */
  function Apply(fs: seq<Entry>, m: Message): (r: seq<Entry>)
    ensures !m.DataMessage? || Throws(m) ==> r == fs
    ensures m.DataMessage? && m.eventType != "reset" ==> |r| <= |fs| + 1
  {
    match m
    case DataMessage(eventType, data) =>
      if eventType == "reset" then
        (if data.Records? then ResetFeatures(data.records) else fs)
      else if eventType == "add" then
        fs + [RawPayload(data)]
      else if eventType == "update" then
        (if data.Record? then UpdateFeatures(fs, StreamingEventToPoint(data.record)) else fs)
      else if eventType == "remove" then
        RemoveFeatures(fs, EventDataId(data))
      else
        fs
    case _ => fs
  }

  /** The collection after a sequence of messages, delivered in order. */
  function ApplyAll(fs: seq<Entry>, ms: seq<Message>): seq<Entry>
    decreases |ms|
  {
    if ms == [] then fs else Apply(ApplyAll(fs, ms[..|ms| - 1]), ms[|ms| - 1])
  }

  /** The state cell `vehicleData` and the worker reference of the component. */
  class StreamLayer {
    var features: seq<Entry>
    var hasWorker: bool

    constructor ()
      ensures features == [] && !hasWorker
    {
      features := [];
      hasWorker := false;
    }

    /** The effect's setup: the worker reference is set before streaming starts. */
    method Setup()
      modifies this
      ensures hasWorker && features == old(features)
    {
      hasWorker := true;
    }

    method Reset(records: seq<VehicleRecord>)
      modifies this
      ensures features == ResetFeatures(records) && hasWorker == old(hasWorker)
    {
      features := ResetFeatures(records);
    }

    method Add(data: EventData)
      modifies this
      ensures features == old(features) + [RawPayload(data)] && hasWorker == old(hasWorker)
    {
      features := features + [RawPayload(data)];
    }

    method Update(record: VehicleRecord)
      modifies this
      ensures features == UpdateFeatures(old(features), StreamingEventToPoint(record))
      ensures hasWorker == old(hasWorker)
    {
      var updatedItem := StreamingEventToPoint(record);
      features := UpdateFeatures(features, updatedItem);
    }

    method Remove(data: EventData)
      modifies this
      ensures features == RemoveFeatures(old(features), EventDataId(data)) && hasWorker == old(hasWorker)
    {
      features := RemoveFeatures(features, EventDataId(data));
    }

    /** `handleWorkerMessage`: dispatch on the message type, then on the event type. */
    method HandleWorkerMessage(m: Message) returns (threw: bool)
      modifies this
      ensures features == Apply(old(features), m) && hasWorker == old(hasWorker)
      ensures threw == Throws(m)
    {
      threw := false;
      match m {
        case DataMessage(eventType, data) =>
          if eventType == "reset" {
            if data.Records? {
              Reset(data.records);
            } else {
              threw := true;
            }
          } else if eventType == "add" {
            Add(data);
          } else if eventType == "update" {
            if data.Record? {
              Update(data.record);
            } else {
              threw := true;
            }
          } else if eventType == "remove" {
            Remove(data);
          }
        case StatusMessage(_) =>
        case ErrorMessage(_) =>
        case OtherMessage(_) =>
      }
    }

    /** The effect's cleanup: with a worker, drop it and empty the collection. */
    method Cleanup()
      modifies this
      ensures !hasWorker
      ensures features == if old(hasWorker) then [] else old(features)
    {
      if hasWorker {
        hasWorker := false;
        features := [];
      }
    }
  }

  // ---------------------------------------------------------------------
  // Properties of the reconciler

  function ResetMessage(records: seq<VehicleRecord>): Message {
    DataMessage("reset", Records(records))
  }

  /** After a `reset` the identities shown are exactly the payload's. */
  lemma ResetShowsExactlyPayload(fs: seq<Entry>, records: seq<VehicleRecord>, id: string)
    ensures |Apply(fs, ResetMessage(records))| == |records|
    ensures (exists i :: 0 <= i < |records| && EntryId(Apply(fs, ResetMessage(records))[i]) == Some(id))
        <==> (exists j :: 0 <= j < |records| && records[j].id == id)
  {
    var r := Apply(fs, ResetMessage(records));
    if exists j :: 0 <= j < |records| && records[j].id == id {
      var j :| 0 <= j < |records| && records[j].id == id;
      assert EntryId(r[j]) == Some(id);
    }
  }

  /** `add` appends the payload untouched; earlier elements keep their places. */
  lemma AddAppendsRaw(fs: seq<Entry>, data: EventData)
    ensures Apply(fs, DataMessage("add", data)) == fs + [RawPayload(data)]
    ensures |Apply(fs, DataMessage("add", data))| == |fs| + 1
  {
  }

  /** An `add` under an identity already shown leaves two elements with it. */
  lemma DuplicateAddKeepsBoth(fs: seq<Entry>, rec: VehicleRecord, k: int)
    requires 0 <= k < |fs| && EntryId(fs[k]) == Some(rec.id)
    ensures var r := Apply(fs, DataMessage("add", Record(rec)));
      EntryId(r[k]) == Some(rec.id) && EntryId(r[|r| - 1]) == Some(rec.id) && k < |r| - 1
  {
  }

  function UpdateMessage(rec: VehicleRecord): Message {
    DataMessage("update", Record(rec))
  }

  /** An `update` for an identity not shown changes nothing: no insertion. */
  lemma UpdateUnknownIsNoOp(fs: seq<Entry>, rec: VehicleRecord)
    requires forall i :: 0 <= i < |fs| ==> EntryId(fs[i]) != Some(rec.id)
    ensures Apply(fs, UpdateMessage(rec)) == fs
  {
  }

  /** Applying the same `update` twice is applying it once. */
  lemma UpdateIdempotent(fs: seq<Entry>, rec: VehicleRecord)
    ensures Apply(Apply(fs, UpdateMessage(rec)), UpdateMessage(rec)) == Apply(fs, UpdateMessage(rec))
  {
  }

  function RemoveMessage(id: string): Message {
    DataMessage("remove", Removed(id, "vehicle"))
  }

  /** Removing an identity that is not shown changes nothing. */
  lemma RemoveAbsentIsNoOp(fs: seq<Entry>, id: string)
    requires forall i :: 0 <= i < |fs| ==> EntryId(fs[i]) != Some(id)
    ensures Apply(fs, RemoveMessage(id)) == fs
  {
    ApplyRemove(fs, id);
    Seqs.FilterAllPass(fs, Survivor(Some(id)));
  }

  /** Removing twice is removing once. */
  lemma RemoveIdempotent(fs: seq<Entry>, id: string)
    ensures Apply(Apply(fs, RemoveMessage(id)), RemoveMessage(id)) == Apply(fs, RemoveMessage(id))
  {
    ApplyRemove(fs, id);
    ApplyRemove(RemoveFeatures(fs, Some(id)), id);
    RemoveFeaturesIdempotent(fs, Some(id));
  }

  /** A `remove` message filters by its id. */
  lemma ApplyRemove(fs: seq<Entry>, id: string)
    ensures Apply(fs, RemoveMessage(id)) == RemoveFeatures(fs, Some(id))
  {
  }

  lemma RemoveFeaturesIdempotent(fs: seq<Entry>, id: Option<string>)
    ensures RemoveFeatures(RemoveFeatures(fs, id), id) == RemoveFeatures(fs, id)
  {
    Seqs.FilterIdempotent(fs, Survivor(id));
  }

  /** `add` then `remove` of the same identity is `remove` alone: the element
      added is gone, and so is every earlier one with that identity. */
  lemma AddThenRemove(fs: seq<Entry>, rec: VehicleRecord)
    ensures Apply(Apply(fs, DataMessage("add", Record(rec))), RemoveMessage(rec.id))
         == Apply(fs, RemoveMessage(rec.id))
  {
    var keep := Survivor(Some(rec.id));
    Seqs.FilterAppend(fs, [RawPayload(Record(rec))], keep);
    assert Seqs.Filter([RawPayload(Record(rec))], keep) == [];
  }

  /** The messages that can change the collection. */
  predicate Mutates(m: Message) {
    m.DataMessage? && m.eventType in {"reset", "add", "update", "remove"}
  }

  /** Status, error and unknown messages, and data messages of an unknown
      event type, leave the collection as it was. */
  lemma NonMutatingMessagesKeepCollection(fs: seq<Entry>, m: Message)
    requires !Mutates(m)
    ensures Apply(fs, m) == fs
  {
  }

  /** Dropping every message that cannot change the collection from a stream
      does not change the collection it produces. */
  lemma {:induction false} OnlyMutatingMessagesMatter(fs: seq<Entry>, ms: seq<Message>)
    ensures ApplyAll(fs, Seqs.Filter(ms, Mutates)) == ApplyAll(fs, ms)
    decreases |ms|
  {
    if ms != [] {
      var front, m := ms[..|ms| - 1], ms[|ms| - 1];
      assert ms == front + [m];
      OnlyMutatingMessagesMatter(fs, front);
      Seqs.FilterAppend(front, [m], Mutates);
      var kept := Seqs.Filter(front, Mutates);
      if Mutates(m) {
        assert Seqs.Filter([m], Mutates) == [m];
        assert (kept + [m])[..|kept + [m]| - 1] == kept;
      } else {
        assert Seqs.Filter([m], Mutates) == [];
        assert kept + [] == kept;
      }
    }
  }

  lemma {:induction false} ApplyAllAppend(fs: seq<Entry>, ms: seq<Message>, rest: seq<Message>)
    ensures ApplyAll(fs, ms + rest) == ApplyAll(ApplyAll(fs, ms), rest)
    decreases |rest|
  {
    if rest == [] {
      assert ms + rest == ms;
    } else {
      var front := rest[..|rest| - 1];
      assert (ms + rest)[..|ms + rest| - 1] == ms + front;
      ApplyAllAppend(fs, ms, front);
    }
  }

  /** A `reset` erases history: whatever came before it, the collection
      afterwards depends only on the reset and the messages after it. */
  lemma ResetForgetsHistory(fs1: seq<Entry>, ms1: seq<Message>, fs2: seq<Entry>, ms2: seq<Message>,
                            records: seq<VehicleRecord>, rest: seq<Message>)
    ensures ApplyAll(fs1, ms1 + [ResetMessage(records)] + rest)
         == ApplyAll(fs2, ms2 + [ResetMessage(records)] + rest)
  {
    ApplyAllAppend(fs1, ms1 + [ResetMessage(records)], rest);
    ApplyAllAppend(fs1, ms1, [ResetMessage(records)]);
    ApplyAllAppend(fs2, ms2 + [ResetMessage(records)], rest);
    ApplyAllAppend(fs2, ms2, [ResetMessage(records)]);
    assert [ResetMessage(records)][..0] == [];
  }

  /** The stream `reset [A, B]`, `update A'`, `remove B`, `add C` shows `A'`
      converted and then `C` exactly as received. */
  lemma ResetUpdateRemoveAddScenario(fs: seq<Entry>, a: VehicleRecord, a': VehicleRecord,
                                     b: VehicleRecord, c: VehicleRecord)
    requires a'.id == a.id && b.id != a.id
    ensures ApplyAll(fs, [ResetMessage([a, b]), UpdateMessage(a'), RemoveMessage(b.id),
                          DataMessage("add", Record(c))])
         == [Converted(StreamingEventToPoint(a')), RawPayload(Record(c))]
  {
    var ms := [ResetMessage([a, b]), UpdateMessage(a'), RemoveMessage(b.id), DataMessage("add", Record(c))];
    assert ms[..1] == [ResetMessage([a, b])];
    assert ms[..2] == ms[..1] + [UpdateMessage(a')];
    assert ms[..3] == ms[..2] + [RemoveMessage(b.id)];
    var s0 := [Converted(StreamingEventToPoint(a)), Converted(StreamingEventToPoint(b))];
    assert ApplyAll(fs, ms[..1]) == s0;
    var s1 := [Converted(StreamingEventToPoint(a')), Converted(StreamingEventToPoint(b))];
    assert ApplyAll(fs, ms[..2]) == s1;
    var keep := Survivor(Some(b.id));
    assert s1 == [s1[0]] + [s1[1]];
    Seqs.FilterAppend([s1[0]], [s1[1]], keep);
    assert Seqs.Filter([s1[1]], keep) == [];
    assert Seqs.Filter([s1[0]], keep) == [s1[0]];
    assert RemoveFeatures(s1, Some(b.id)) == [Converted(StreamingEventToPoint(a'))];
    ApplyRemove(s1, b.id);
    assert ApplyAll(fs, ms[..3]) == RemoveFeatures(s1, Some(b.id));
  }
}

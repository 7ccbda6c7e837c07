/** The one-slot queue: what may follow CONSUMED, and that queued text is delivered at most once, unchanged. */
module QueueDelivery {
  import opened Basics
  import opened Messages
  import opened History
  import opened Replay
  import opened ReplayInvariants

  /** The queued text as the next turn's user message. */
  predicate Delivers(b: Builder, r: Record) {
    && b.pending.Some?
    && IsUserRecord(r)
    && r.turnId == b.lastStarted + 1 == b.pending.value.turnId
    && r.payload.message.value.content == b.pending.value.content
  }

  predicate Discards(b: Builder, r: Record) {
    && b.pending.Some?
    && r.payload.QueueResolved?
    && r.payload.resolution.Discarded?
    && r.turnId == b.pending.value.turnId
    && r.payload.queuedRecordId == b.pending.value.recordId
  }

  /** After CONSUMED, exactly delivery or discard is accepted, and either empties the slot. */
  lemma AfterConsumed(b: Builder, r: Record)
    requires Coherent(b) && b.queueConsumed
    ensures Step(b, r).Some? <==> Delivers(b, r) || Discards(b, r)
    ensures Step(b, r).Some? ==> Step(b, r).value.pending.None? && !Step(b, r).value.queueConsumed
  {
  }

  /** While something is queued, nothing else can be. */
  lemma OneSlot(b: Builder, r: Record)
    requires Coherent(b) && b.pending.Some? && r.payload.QueuedInput?
    ensures Step(b, r).None?
  {
  }

  /** A queued input handed to a turn: the record that queued it and the text the turn got. */
  datatype Delivery = Delivery(recordId: u64, text: bytes)

  function DeliveredBy(b: Builder, r: Record): (result: seq<Delivery>) {
    if b.queueConsumed && b.pending.Some? && IsUserRecord(r)
    then [Delivery(b.pending.value.recordId, r.payload.message.value.content)]
    else []
  }

  /** The deliveries of an accepted history, in order. */
  function Deliveries(legacy: seq<Message>, typed: seq<Record>): (result: seq<Delivery>)
    requires Fold(legacy, typed).Some?
  {
    if |typed| <= 1 then []
    else
      var last, prior := typed[|typed| - 1], typed[..|typed| - 1];
      var b := Fold(legacy, prior).value;
      Deliveries(legacy, prior) + DeliveredBy(b, last)
  }

  predicate QueuedAs(typed: seq<Record>, recordId: u64, text: bytes) {
    exists i :: 0 <= i < |typed| && typed[i].recordId == recordId && typed[i].payload == QueuedInput(text)
  }

  predicate AllQueued(typed: seq<Record>, ds: seq<Delivery>) {
    forall k :: 0 <= k < |ds| ==> QueuedAs(typed, ds[k].recordId, ds[k].text)
  }

  predicate IdsIncrease(ds: seq<Delivery>) {
    forall j, k :: 0 <= j < k < |ds| ==> ds[j].recordId < ds[k].recordId
  }

  predicate IdsBelow(ds: seq<Delivery>, bound: nat) {
    forall k :: 0 <= k < |ds| ==> ds[k].recordId < bound
  }

  /** The slot holds what some record queued, and none of the deliveries so far is that record's. */
  predicate SlotBacked(b: Builder, typed: seq<Record>, ds: seq<Delivery>) {
    b.pending.Some? ==>
      QueuedAs(typed, b.pending.value.recordId, b.pending.value.content) && IdsBelow(ds, b.pending.value.recordId)
  }

  lemma QueuedAsGrows(prior: seq<Record>, last: Record, ds: seq<Delivery>)
    requires AllQueued(prior, ds)
    ensures AllQueued(prior + [last], ds)
  {
    forall k | 0 <= k < |ds| ensures QueuedAs(prior + [last], ds[k].recordId, ds[k].text) {
      QueuedGrows(prior, last, ds[k].recordId, ds[k].text);
    }
  }

  lemma QueuedGrows(prior: seq<Record>, last: Record, recordId: u64, text: bytes)
    requires QueuedAs(prior, recordId, text)
    ensures QueuedAs(prior + [last], recordId, text)
  {
    var i :| 0 <= i < |prior| && prior[i].recordId == recordId && prior[i].payload == QueuedInput(text);
    assert (prior + [last])[i] == prior[i];
  }

  /** How one record may move the slot: emptied, kept, or filled by a QUEUED_INPUT. */
  predicate SlotMoves(b: Builder, r: Record, after: Builder) {
    && (|| after.pending.None?
        || after.pending == b.pending
        || (r.payload.QueuedInput? && after.pending == Some(Pending(r.payload.content, r.recordId, r.turnId))))
    && (b.queueConsumed ==> after.pending.None?)
  }

  lemma StepSlot(b: Builder, r: Record)
    requires Coherent(b) && Step(b, r).Some?
    ensures SlotMoves(b, r, Step(b, r).value)
  {
    if r.payload.MessageRecord? {
      OtherContext(b, r);
    }
  }

  lemma {:induction false} SlotIsOld(legacy: seq<Message>, typed: seq<Record>)
    requires Fold(legacy, typed).Some?
    ensures
      var b := Fold(legacy, typed).value;
      b.pending.Some? ==> b.pending.value.recordId <= LastRecordId(legacy, typed)
  {
    if |typed| >= 2 {
      var prior := typed[..|typed| - 1];
      SlotIsOld(legacy, prior);
      FoldCoherent(legacy, prior);
      StepSlot(Fold(legacy, prior).value, typed[|typed| - 1]);
    }
  }

  lemma DeliveredContent(b: Builder, r: Record)
    requires Coherent(b) && Step(b, r).Some? && DeliveredBy(b, r) != []
    ensures r.payload.message.value.content == b.pending.value.content
  {
    AfterConsumed(b, r);
  }

  lemma OneMoreRecord(prior: seq<Record>, last: Record, b: Builder, after: Builder, ds: seq<Delivery>)
    requires AllQueued(prior, ds) && IdsIncrease(ds) && IdsBelow(ds, last.recordId) && SlotBacked(b, prior, ds)
    requires b.pending.Some? ==> b.pending.value.recordId < last.recordId
    requires SlotMoves(b, last, after)
    requires DeliveredBy(b, last) != [] ==> last.payload.message.value.content == b.pending.value.content
    ensures
      var more := ds + DeliveredBy(b, last);
      && AllQueued(prior + [last], more)
      && IdsIncrease(more)
      && IdsBelow(more, last.recordId + 1)
      && SlotBacked(after, prior + [last], more)
  {
    QueuedAsGrows(prior, last, ds);
    if b.pending.Some? {
      QueuedGrows(prior, last, b.pending.value.recordId, b.pending.value.content);
    }
    assert (prior + [last])[|prior|] == last;
  }

  /** The last record of an accepted history is one more step, with the next id. */
  lemma LastStep(legacy: seq<Message>, typed: seq<Record>)
    requires Fold(legacy, typed).Some? && |typed| >= 2
    ensures
      var last, prior := typed[|typed| - 1], typed[..|typed| - 1];
      && typed == prior + [last]
      && Fold(legacy, prior).Some?
      && Step(Fold(legacy, prior).value, last) == Fold(legacy, typed)
      && Deliveries(legacy, typed) == Deliveries(legacy, prior) + DeliveredBy(Fold(legacy, prior).value, last)
      && LastRecordId(legacy, typed) == last.recordId == LastRecordId(legacy, prior) + 1
  {
    hide Step;
  }

  /**
   * Every delivery is the unchanged text of an earlier QUEUED_INPUT record, and no record is delivered
   * twice: the ids of the deliveries strictly increase.
   */
  lemma {:induction false} DeliveredAtMostOnce(legacy: seq<Message>, typed: seq<Record>)
    requires Fold(legacy, typed).Some?
    ensures
      var ds := Deliveries(legacy, typed);
      && AllQueued(typed, ds)
      && IdsIncrease(ds)
      && IdsBelow(ds, LastRecordId(legacy, typed) + 1)
      && SlotBacked(Fold(legacy, typed).value, typed, ds)
  {
    hide *;
    if |typed| <= 1 {
      NothingDelivered(legacy, typed);
    } else {
      var last, prior := typed[|typed| - 1], typed[..|typed| - 1];
      LastStep(legacy, typed);
      var b, ds := Fold(legacy, prior).value, Deliveries(legacy, prior);
      DeliveredAtMostOnce(legacy, prior);
      FoldCoherent(legacy, prior);
      SlotIsOld(legacy, prior);
      if DeliveredBy(b, last) != [] { DeliveredContent(b, last); }
      StepSlot(b, last);
      OneMoreRecord(prior, last, b, Step(b, last).value, ds);
    }
  }

  lemma NothingDelivered(legacy: seq<Message>, typed: seq<Record>)
    requires Fold(legacy, typed).Some? && |typed| <= 1
    ensures Deliveries(legacy, typed) == [] && Fold(legacy, typed).value.pending.None?
    ensures AllQueued(typed, []) && IdsIncrease([]) && IdsBelow([], LastRecordId(legacy, typed) + 1)
    ensures SlotBacked(Fold(legacy, typed).value, typed, [])
  {
  }
}

/**
 * DeduplicatingMessageListenerAdapter: a message listener that passes each
 * consumer record on to its delegate unless the de-duplication strategy calls
 * it a duplicate.
 *
 * The strategy is an uninterpreted predicate over the records offered so far
 * and the new record, so it may depend on history. The delegate is a
 * listener that records, in order, every record it receives.
 */
module Deduplication {

  /** A MessageListener delegate; `received` is every record passed to it, in order. */
  class RecordingListener<R> {
    var received: seq<R>

    constructor()
      ensures received == []
    {
      received := [];
    }

    /** `onMessage`. */
    method OnMessage(consumerRecord: R)
      modifies this
      ensures received == old(received) + [consumerRecord]
    {
      received := received + [consumerRecord];
    }
  }

  /**
   * The records a de-duplicating listener passes on when `records` arrive, in
   * order, after `history`: each one that is not a duplicate of what came before it.
   */
  function Forwarded<R>(isDuplicate: (seq<R>, R) -> bool, history: seq<R>, records: seq<R>): seq<R>
    decreases |records|
  {
    if |records| == 0 then []
    else
      (if isDuplicate(history, records[0]) then [] else [records[0]])
        + Forwarded(isDuplicate, history + [records[0]], records[1..])
  }

  /** One more arriving record extends what was forwarded by at most that record. */
  lemma {:induction false} ForwardedAppend<R>(isDuplicate: (seq<R>, R) -> bool, history: seq<R>, records: seq<R>, next: R)
    ensures Forwarded(isDuplicate, history, records + [next])
         == Forwarded(isDuplicate, history, records) + (if isDuplicate(history + records, next) then [] else [next])
    decreases |records|
  {
    if |records| == 0 {
      assert records + [next] == [next];
      assert history + records == history;
    } else {
      var head := records[0];
      assert (records + [next])[0] == head;
      assert (records + [next])[1..] == records[1..] + [next];
      ForwardedAppend(isDuplicate, history + [head], records[1..], next);
      assert history + [head] + records[1..] == history + records;
    }
  }

  /** When no record is a duplicate of what came before it, every record is forwarded, in order. */
  lemma {:induction false} ForwardedAllWhenNoDuplicates<R>(isDuplicate: (seq<R>, R) -> bool, history: seq<R>, records: seq<R>)
    requires forall i :: 0 <= i < |records| ==> !isDuplicate(history + records[..i], records[i])
    ensures Forwarded(isDuplicate, history, records) == records
    decreases |records|
  {
    if |records| > 0 {
      assert records[..0] == [];
      assert history + records[..0] == history;
      forall i | 0 <= i < |records| - 1
        ensures !isDuplicate(history + [records[0]] + records[1..][..i], records[1..][i])
      {
        assert history + [records[0]] + records[1..][..i] == history + records[..i + 1];
      }
      ForwardedAllWhenNoDuplicates(isDuplicate, history + [records[0]], records[1..]);
    }
  }

  /** When every record is a duplicate of what came before it, nothing is forwarded. */
  lemma {:induction false} NothingForwardedWhenAllDuplicates<R>(isDuplicate: (seq<R>, R) -> bool, history: seq<R>, records: seq<R>)
    requires forall i :: 0 <= i < |records| ==> isDuplicate(history + records[..i], records[i])
    ensures Forwarded(isDuplicate, history, records) == []
    decreases |records|
  {
    if |records| > 0 {
      assert records[..0] == [];
      assert history + records[..0] == history;
      forall i | 0 <= i < |records| - 1
        ensures isDuplicate(history + [records[0]] + records[1..][..i], records[1..][i])
      {
        assert history + [records[0]] + records[1..][..i] == history + records[..i + 1];
      }
      NothingForwardedWhenAllDuplicates(isDuplicate, history + [records[0]], records[1..]);
    }
  }

  /** Only arriving records are forwarded, each at most as often as it arrived. */
  lemma {:induction false} ForwardedIsSubMultiset<R>(isDuplicate: (seq<R>, R) -> bool, history: seq<R>, records: seq<R>)
    ensures multiset(Forwarded(isDuplicate, history, records)) <= multiset(records)
    decreases |records|
  {
    if |records| > 0 {
      ForwardedIsSubMultiset(isDuplicate, history + [records[0]], records[1..]);
      assert records == [records[0]] + records[1..];
    }
  }

  class DeduplicatingMessageListenerAdapter<R> {
    /** The de-duplication strategy: is a record a duplicate, given the records offered before it? */
    const isDuplicate: (seq<R>, R) -> bool
    /** The listener that non-duplicate records are passed to; fixed at construction. */
    const delegate: RecordingListener<R>
    /** The records offered to this listener so far, which the strategy may consult. */
    var history: seq<R>
    /** What the delegate had received before this listener was built. */
    ghost const receivedBefore: seq<R>

    /** The delegate has received, after what it had before, exactly the forwarded records. */
    ghost predicate Valid()
      reads this, delegate
    {
      delegate.received == receivedBefore + Forwarded(isDuplicate, [], history)
    }

    constructor(deDupStrategy: (seq<R>, R) -> bool, delegate: RecordingListener<R>)
      ensures Valid()
      ensures this.isDuplicate == deDupStrategy && this.delegate == delegate
      ensures history == [] && receivedBefore == delegate.received
    {
      isDuplicate := deDupStrategy;
      this.delegate := delegate;
      history := [];
      receivedBefore := delegate.received;
    }

    /**
     * `onMessage`: the record is passed on, unchanged, to the delegate exactly
     * when it is not a duplicate; a duplicate is dropped without a call.
     */
    method OnMessage(consumerRecord: R)
      modifies this, delegate
      ensures old(Valid()) ==> Valid()
      ensures history == old(history) + [consumerRecord]
      ensures delegate.received == old(delegate.received)
        + (if isDuplicate(old(history), consumerRecord) then [] else [consumerRecord])
    {
      if !isDuplicate(history, consumerRecord) {
        delegate.OnMessage(consumerRecord);
      }
      ForwardedAppend(isDuplicate, [], history, consumerRecord);
      assert [] + history == history;
      history := history + [consumerRecord];
    }
  }
}

/**
 * Sequences of provider operations, as a consumer issues them one after another,
 * and what such a sequence delivers, leaves cached and issues to SQS.
 */
module Consumption {
  import opened Broker
  import opened SqsBackend
  import opened MessageProvider

  /** One provider operation; `GetOp` carries what SQS would answer a receive. */
  datatype Op =
    | GetOp(response: Option<seq<RawEntry>>)
    | AckOp(message: Message)
    | NackOp(message: Message, requeue: bool)

  /** The effect of one operation on a provider whose cache holds `cache`. */
  function Apply(queueUrl: string, cache: seq<Message>, op: Op): (e: Effect)
  {
    match op
    case GetOp(response) => GetEffect(queueUrl, cache, response)
    case AckOp(m) => Effect(None, cache, AckCalls(queueUrl, m), [])
    case NackOp(m, requeue) => Effect(None, cache, NackCalls(queueUrl, m, requeue), [])
  }

  /** The messages answered, the cache left, the calls issued and the messages fetched. */
  datatype Trace = Trace(delivered: seq<Message>, cache: seq<Message>, calls: seq<Call>, fetched: seq<Message>)

  /** The operations `ops` applied in order to a provider whose cache holds `cache`. */
  function Run(queueUrl: string, cache: seq<Message>, ops: seq<Op>): (t: Trace)
    decreases |ops|
  {
    if ops == [] then Trace([], cache, [], [])
    else
      var e := Apply(queueUrl, cache, ops[0]);
      var t := Run(queueUrl, e.cache, ops[1..]);
      Trace(OptionToSeq(e.answer) + t.delivered, t.cache, e.calls + t.calls, e.fetched + t.fetched)
  }

  /** The ids of the messages acknowledged by `ops`, in order. */
  function AckedIds(ops: seq<Op>): (ids: seq<string>)
  {
    if ops == [] then []
    else (if ops[0].AckOp? then [ops[0].message.id] else []) + AckedIds(ops[1..])
  }

  /** The ids of the messages rejected with requeue by `ops`, in order. */
  function RequeuedIds(ops: seq<Op>): (ids: seq<string>)
  {
    if ops == [] then []
    else (if ops[0].NackOp? && ops[0].requeue then [ops[0].message.id] else []) + RequeuedIds(ops[1..])
  }

  /** No single operation loses or invents a message. */
  lemma ApplyConserves(queueUrl: string, cache: seq<Message>, op: Op)
    ensures var e := Apply(queueUrl, cache, op); OptionToSeq(e.answer) + e.cache == cache + e.fetched
  {
  }

  /**
   * At-least-once delivery on the provider's side: every message taken from the
   * cache or fetched from SQS is either delivered or still cached, in FIFO order.
   */
  lemma {:induction false} RunConserves(queueUrl: string, cache: seq<Message>, ops: seq<Op>)
    ensures var t := Run(queueUrl, cache, ops); t.delivered + t.cache == cache + t.fetched
    decreases |ops|
  {
    if ops != [] {
      var e := Apply(queueUrl, cache, ops[0]);
      var t := Run(queueUrl, e.cache, ops[1..]);
      RunConserves(queueUrl, e.cache, ops[1..]);
      ApplyConserves(queueUrl, cache, ops[0]);
      var a := OptionToSeq(e.answer);
      assert a + e.cache == cache + e.fetched;
      assert t.delivered + t.cache == e.cache + t.fetched;
      var r := Run(queueUrl, cache, ops);
      assert r.delivered == a + t.delivered && r.cache == t.cache && r.fetched == e.fetched + t.fetched;
      calc {
        r.delivered + r.cache;
        a + (t.delivered + t.cache);
        (a + e.cache) + t.fetched;
        cache + r.fetched;
      }
    }
  }

  /** Deletion happens through `ack` only: the handles deleted are exactly the ids acked, in order. */
  lemma {:induction false} DeletesAreAcks(queueUrl: string, cache: seq<Message>, ops: seq<Op>)
    ensures DeletedHandles(Run(queueUrl, cache, ops).calls) == AckedIds(ops)
    decreases |ops|
  {
    if ops != [] {
      var e := Apply(queueUrl, cache, ops[0]);
      DeletesAreAcks(queueUrl, e.cache, ops[1..]);
      DeletedHandlesAppend(e.calls, Run(queueUrl, e.cache, ops[1..]).calls);
    }
  }

  /** Messages are made visible again exactly for the `nack`s with requeue, in order. */
  lemma {:induction false} RequeuesAreNacks(queueUrl: string, cache: seq<Message>, ops: seq<Op>)
    ensures RequeuedHandles(Run(queueUrl, cache, ops).calls) == RequeuedIds(ops)
    decreases |ops|
  {
    if ops != [] {
      var e := Apply(queueUrl, cache, ops[0]);
      RequeuesAreNacks(queueUrl, e.cache, ops[1..]);
      RequeuedHandlesAppend(e.calls, Run(queueUrl, e.cache, ops[1..]).calls);
    }
  }

  /** Every call issued names the queue the provider was built with. */
  lemma {:induction false} CallsUseQueue(queueUrl: string, cache: seq<Message>, ops: seq<Op>)
    ensures var t := Run(queueUrl, cache, ops);
      forall c :: c in t.calls ==> c.queueUrl == queueUrl
    decreases |ops|
  {
    if ops != [] {
      var e := Apply(queueUrl, cache, ops[0]);
      CallsUseQueue(queueUrl, e.cache, ops[1..]);
      assert forall c :: c in e.calls ==> c.queueUrl == queueUrl;
    }
  }

  /**
   * Gets served by a cache holding enough messages issue no call to SQS and
   * deliver the cached messages in order.
   */
  lemma {:induction false} DrainCache(queueUrl: string, cache: seq<Message>, ops: seq<Op>)
    requires forall i :: 0 <= i < |ops| ==> ops[i].GetOp?
    requires |ops| <= |cache|
    ensures var t := Run(queueUrl, cache, ops);
      t.calls == [] && t.delivered == cache[..|ops|] && t.cache == cache[|ops|..]
    decreases |ops|
  {
    if ops != [] {
      DrainCache(queueUrl, cache[1..], ops[1..]);
      assert cache[1..][..|ops| - 1] == cache[1..|ops|];
      assert cache[1..][|ops| - 1..] == cache[|ops|..];
      assert [cache[0]] + cache[1..|ops|] == cache[..|ops|];
    }
  }

  /**
   * One receive answered by K entries serves the next K - 1 gets from the
   * cache, in the order received, with no further call.
   */
  lemma PrefetchServesLaterGets(queueUrl: string, entries: seq<RawEntry>, ops: seq<Op>)
    requires entries != []
    requires forall i :: 0 <= i < |ops| ==> ops[i].GetOp?
    requires |ops| < |entries|
    ensures var t := Run(queueUrl, [], [GetOp(Some(entries))] + ops);
      t.calls == [ReceiveCall(queueUrl)] && t.delivered == Translate(entries)[..|ops| + 1]
  {
    var all := [GetOp(Some(entries))] + ops;
    assert all[1..] == ops;
    var fetched := Translate(entries);
    DrainCache(queueUrl, fetched[1..], ops);
    assert [fetched[0]] + fetched[1..][..|ops|] == fetched[..|ops| + 1];
  }
}

/**
 * The provider's test cases, each run against a fresh provider on
 * queue "foo": what the answer is, what is issued to SQS and what is cached.
 */
module Scenarios {
  import opened Broker
  import opened SqsBackend
  import opened Driver
  import opened MessageProvider
  import Consumption

  /** An empty prefetch cache and SQS answering one entry: a message, from one receive. */
  method GetWithNoCache() returns (m: Option<Message>, ghost issued: seq<Call>, left: seq<Message>)
    ensures m == Some(Message("Body", map[], "bar"))
    ensures issued == [Receive("foo", 9, 5)]
    ensures left == []
  {
    var cache := new PrefetchMessageCache();
    var provider := new SqsMessageProvider("foo", cache);
    m := provider.Get(Some([RawEntry("Body", "bar")]));
    issued := provider.calls;
    left := cache.messages;
  }

  /** An empty cache and a null or empty response: no message, after one receive. */
  method GetWithNoResult(response: Option<seq<RawEntry>>) returns (m: Option<Message>, ghost issued: seq<Call>)
    requires response == None || response == Some([])
    ensures m == None
    ensures issued == [Receive("foo", 9, 5)]
  {
    var cache := new PrefetchMessageCache();
    var provider := new SqsMessageProvider("foo", cache);
    m := provider.Get(response);
    issued := provider.calls;
  }

  /** A cache holding `cached`: that message, no receive and nothing pushed, whatever SQS holds. */
  method GetWithCache(cached: Message, response: Option<seq<RawEntry>>)
    returns (m: Option<Message>, ghost issued: seq<Call>, left: seq<Message>)
    ensures m == Some(cached)
    ensures issued == []
    ensures left == []
  {
    var cache := new PrefetchMessageCache.Holding([cached]);
    var provider := new SqsMessageProvider("foo", cache);
    m := provider.Get(response);
    issued := provider.calls;
    left := cache.messages;
  }

  /** Acknowledging a message with id "123" deletes receipt handle "123" on "foo", nothing else. */
  method Ack(body: string) returns (ghost issued: seq<Call>, left: seq<Message>)
    ensures issued == [Delete("foo", "123")]
    ensures left == []
  {
    var cache := new PrefetchMessageCache();
    var provider := new SqsMessageProvider("foo", cache);
    provider.Ack(Message(body, map[], "123"));
    issued := provider.calls;
    left := cache.messages;
  }

  /** Rejecting with requeue makes "123" visible at once on "foo" and deletes nothing. */
  method NackWithRequeue(body: string) returns (ghost issued: seq<Call>)
    ensures issued == [ChangeVisibility("foo", "123", 0)]
    ensures DeletedHandles(issued) == []
  {
    var cache := new PrefetchMessageCache();
    var provider := new SqsMessageProvider("foo", cache);
    provider.Nack(Message(body, map[], "123"), true);
    issued := provider.calls;
  }

  /** Rejecting with the default (no requeue) issues nothing at all. */
  method NackWithoutRequeue(body: string) returns (ghost issued: seq<Call>)
    ensures issued == []
  {
    var cache := new PrefetchMessageCache();
    var provider := new SqsMessageProvider("foo", cache);
    provider.Nack(Message(body, map[], "123"));
    issued := provider.calls;
  }

  /**
   * SQS answering three entries: the first three gets answer them in the order
   * received, and only the first get issues a receive.
   */
  method PrefetchThree(a: RawEntry, b: RawEntry, c: RawEntry, later: Option<seq<RawEntry>>)
    returns (first: Option<Message>, second: Option<Message>, third: Option<Message>, ghost issued: seq<Call>)
    ensures first == Some(FromEntry(a)) && second == Some(FromEntry(b)) && third == Some(FromEntry(c))
    ensures issued == [Receive("foo", 9, 5)]
  {
    var cache := new PrefetchMessageCache();
    var provider := new SqsMessageProvider("foo", cache);
    first := provider.Get(Some([a, b, c]));
    second := provider.Get(later);
    third := provider.Get(later);
    issued := provider.calls;
  }

  /**
   * A `get` followed by an `ack` on the class has the outcome `Run` gives the
   * same two operations: what the lemmas about `Run` say holds of the provider.
   */
  method GetThenAck(queueUrl: string, initial: seq<Message>, response: Option<seq<RawEntry>>, acked: Message)
    returns (m: Option<Message>, left: seq<Message>, ghost issued: seq<Call>)
    ensures OptionToSeq(m) == Consumption.Run(queueUrl, initial, [Consumption.GetOp(response), Consumption.AckOp(acked)]).delivered
    ensures left == Consumption.Run(queueUrl, initial, [Consumption.GetOp(response), Consumption.AckOp(acked)]).cache
    ensures issued == Consumption.Run(queueUrl, initial, [Consumption.GetOp(response), Consumption.AckOp(acked)]).calls
  {
    var cache := new PrefetchMessageCache.Holding(initial);
    var provider := new SqsMessageProvider(queueUrl, cache);
    m := provider.Get(response);
    provider.Ack(acked);
    left := cache.messages;
    issued := provider.calls;
    ghost var ops := [Consumption.GetOp(response), Consumption.AckOp(acked)];
    ghost var e := GetEffect(queueUrl, initial, response);
    assert ops[1..] == [Consumption.AckOp(acked)] && ops[1..][1..] == [];
    assert Consumption.Run(queueUrl, e.cache, ops[1..]) == Consumption.Trace([], e.cache, AckCalls(queueUrl, acked), []);
  }
}

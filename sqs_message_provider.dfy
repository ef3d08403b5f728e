/**
 * The SQS message provider: `get` serves the prefetch cache first and receives
 * from the queue only on a miss; `ack` deletes; `nack` requeues or does nothing.
 */
module MessageProvider {
  import opened Broker
  import opened SqsBackend
  import opened Driver

  /**
   * What one provider operation does: the message it answers, the cache it
   * leaves, the calls it issues to SQS, and the messages it fetched from SQS.
   */
  datatype Effect = Effect(answer: Option<Message>, cache: seq<Message>, calls: seq<Call>, fetched: seq<Message>)

  /** The single receive a cache miss issues. */
  function ReceiveCall(queueUrl: string): (c: Call)
  {
    Receive(queueUrl, MAX_NUMBER_OF_MESSAGES, WAIT_TIME_SECONDS)
  }

  /**
   * `get` on a cache holding `cache`, where `response` is what SQS answers if
   * it is asked (`None` for a null response, `Some([])` for no messages).
   * A hit answers the head of the cache. A miss receives once, answers the first
   * entry received and caches the others in the order received.
   */
  function GetEffect(queueUrl: string, cache: seq<Message>, response: Option<seq<RawEntry>>): (e: Effect)
  {
    if cache != [] then Effect(Some(cache[0]), cache[1..], [], [])
    else match response
      case None => Effect(None, [], [ReceiveCall(queueUrl)], [])
      case Some(entries) =>
        if entries == [] then Effect(None, [], [ReceiveCall(queueUrl)], [])
        else
          var fetched := Translate(entries);
          Effect(Some(fetched[0]), fetched[1..], [ReceiveCall(queueUrl)], fetched)
  }

  /** The calls `ack(m)` issues. */
  function AckCalls(queueUrl: string, m: Message): (calls: seq<Call>)
  {
    [Delete(queueUrl, m.id)]
  }

  /** The calls `nack(m, requeue)` issues. */
  function NackCalls(queueUrl: string, m: Message, requeue: bool): (calls: seq<Call>)
  {
    if requeue then [ChangeVisibility(queueUrl, m.id, REQUEUE_VISIBILITY_TIMEOUT)] else []
  }

  /** A cache hit answers the cached head, issues no receive and pushes nothing. */
  lemma GetWithCache(queueUrl: string, cache: seq<Message>, response: Option<seq<RawEntry>>)
    requires cache != []
    ensures var e := GetEffect(queueUrl, cache, response);
      e.answer == Some(cache[0]) && e.cache == cache[1..] && e.calls == [] && e.fetched == []
  {
  }

  /** A cache miss issues exactly one receive, on this queue, for 9 messages, waiting 5 seconds. */
  lemma GetReceivesOnMiss(queueUrl: string, response: Option<seq<RawEntry>>)
    ensures GetEffect(queueUrl, [], response).calls == [Receive(queueUrl, 9, 5)]
  {
  }

  /** A miss answered by a null or empty response gives no message and leaves the cache empty. */
  lemma GetWithNoResult(queueUrl: string, response: Option<seq<RawEntry>>)
    requires response == None || response == Some([])
    ensures var e := GetEffect(queueUrl, [], response); e.answer == None && e.cache == []
  {
  }

  /**
   * A miss answered by one entry gives the message built from it, with the
   * entry's body and receipt handle, and leaves the cache empty.
   */
  lemma GetWithOneEntry(queueUrl: string, body: string, handle: string)
    ensures var e := GetEffect(queueUrl, [], Some([RawEntry(body, handle)]));
      e.answer.Some? && e.answer.value.id == handle && e.answer.value.body == body && e.cache == []
  {
  }

  /**
   * A miss answered by K >= 1 entries answers the first and caches the other
   * K - 1, in the order received.
   */
  lemma GetPrefetches(queueUrl: string, entries: seq<RawEntry>)
    requires entries != []
    ensures var e := GetEffect(queueUrl, [], Some(entries));
      e.answer == Some(FromEntry(entries[0])) && |e.cache| == |entries| - 1
      && forall i :: 0 <= i < |e.cache| ==> e.cache[i] == FromEntry(entries[i + 1])
  {
  }

  /**
   * No message is lost or invented by `get`: the answer followed by the cache
   * left behind is the cache before followed by what was fetched.
   */
  lemma GetConserves(queueUrl: string, cache: seq<Message>, response: Option<seq<RawEntry>>)
    ensures var e := GetEffect(queueUrl, cache, response);
      OptionToSeq(e.answer) + e.cache == cache + e.fetched
  {
  }

  /** `ack(m)` deletes exactly `m`'s handle on this queue and issues nothing else. */
  lemma AckDeletes(queueUrl: string, m: Message)
    ensures AckCalls(queueUrl, m) == [Delete(queueUrl, m.id)]
    ensures DeletedHandles(AckCalls(queueUrl, m)) == [m.id]
    ensures RequeuedHandles(AckCalls(queueUrl, m)) == []
  {
  }

  /**
   * `nack(m, true)` makes `m` visible again at once and `nack(m, false)` issues
   * nothing; neither ever deletes.
   */
  lemma NackNeverDeletes(queueUrl: string, m: Message, requeue: bool)
    ensures requeue ==> NackCalls(queueUrl, m, requeue) == [ChangeVisibility(queueUrl, m.id, 0)]
    ensures !requeue ==> NackCalls(queueUrl, m, requeue) == []
    ensures DeletedHandles(NackCalls(queueUrl, m, requeue)) == []
  {
  }

  /**
   * A provider bound to one SQS queue and one prefetch cache. The SQS client is
   * not modelled; `calls` records, in order, every call issued to it.
   */
  class SqsMessageProvider {
    const queueUrl: string
    const cache: PrefetchMessageCache
    ghost var calls: seq<Call>

    constructor (queueUrl: string, cache: PrefetchMessageCache)
      ensures this.queueUrl == queueUrl && this.cache == cache && calls == []
      ensures unchanged(cache)
    {
      this.queueUrl := queueUrl;
      this.cache := cache;
      calls := [];
    }

    /**
     * The next message: popped from the cache when it holds one; otherwise the
     * first of those `response` delivers to one receive, the others being pushed
     * to the cache; `None` when the cache is empty and SQS has nothing.
     */
    method Get(response: Option<seq<RawEntry>>) returns (m: Option<Message>)
      modifies this, cache
      ensures m == GetEffect(queueUrl, old(cache.messages), response).answer
      ensures cache.messages == GetEffect(queueUrl, old(cache.messages), response).cache
      ensures calls == old(calls) + GetEffect(queueUrl, old(cache.messages), response).calls
    {
      var cached := cache.Pop();
      if cached.Some? {
        return cached;
      }
      calls := calls + [ReceiveCall(queueUrl)];
      if response.None? || response.value == [] {
        return None;
      }
      var entries := response.value;
      var i := 1;
      while i < |entries|
        invariant 1 <= i <= |entries|
        invariant cache.messages == Translate(entries[1..i])
        invariant calls == old(calls) + [ReceiveCall(queueUrl)]
      {
        assert entries[1..i + 1] == entries[1..i] + [entries[i]];
        TranslateAppend(entries[1..i], [entries[i]]);
        cache.Push(FromEntry(entries[i]));
        i := i + 1;
      }
      assert entries[1..i] == entries[1..];
      m := Some(FromEntry(entries[0]));
    }

    /** Deletes `m` from the queue, so that it is never delivered again. */
    method Ack(m: Message)
      modifies this
      ensures calls == old(calls) + AckCalls(queueUrl, m)
      ensures unchanged(cache)
    {
      calls := calls + [Delete(queueUrl, m.id)];
    }

    /**
     * Gives `m` back: with `requeue` it is made visible again at once; without,
     * nothing is issued and it reappears when its visibility timeout lapses.
     */
    method Nack(m: Message, requeue: bool := false)
      modifies this
      ensures calls == old(calls) + NackCalls(queueUrl, m, requeue)
      ensures unchanged(cache)
    {
      if requeue {
        calls := calls + [ChangeVisibility(queueUrl, m.id, REQUEUE_VISIBILITY_TIMEOUT)];
      }
    }
  }
}

/** The prefetch cache a provider keeps between receives. */
module Driver {
  import opened Broker

  /**
   * An in-memory FIFO of prefetched messages. `push` appends at the tail,
   * `pop` removes the head, or reports that there is nothing cached.
   */
  class PrefetchMessageCache {
    var messages: seq<Message>

    /** An empty cache. */
    constructor ()
      ensures messages == []
    {
      messages := [];
    }

    /** A cache already holding `initial`, as a cache handed to a provider may. */
    constructor Holding(initial: seq<Message>)
      ensures messages == initial
    {
      messages := initial;
    }

    method Push(m: Message)
      modifies this
      ensures messages == old(messages) + [m]
    {
      messages := messages + [m];
    }

    /** The oldest cached message, or `None` (not an error) when the cache is empty. */
    method Pop() returns (m: Option<Message>)
      modifies this
      ensures old(messages) == [] ==> m == None && messages == []
      ensures old(messages) != [] ==> m == Some(old(messages)[0]) && messages == old(messages)[1..]
      ensures OptionToSeq(m) + messages == old(messages)
    {
      if messages == [] {
        m := None;
      } else {
        m := Some(messages[0]);
        messages := messages[1..];
      }
    }
  }
}

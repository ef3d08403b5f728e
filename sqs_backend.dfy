/**
 * The calls a provider issues to the SQS client, recorded as values, and the
 * fixed parameters it issues them with.
 */
module SqsBackend {

  /** At most this many messages are asked for by one receive. */
  const MAX_NUMBER_OF_MESSAGES: int := 9
  /** A receive long-polls for at most this many seconds. */
  const WAIT_TIME_SECONDS: int := 5
  /** A requeued message is made visible again after this many seconds. */
  const REQUEUE_VISIBILITY_TIMEOUT: int := 0

  /** `receiveMessage`, `deleteMessage` and `changeMessageVisibility`, with their arguments. */
  datatype Call =
    | Receive(queueUrl: string, maxNumberOfMessages: int, waitTimeSeconds: int)
    | Delete(queueUrl: string, receiptHandle: string)
    | ChangeVisibility(queueUrl: string, receiptHandle: string, visibilityTimeout: int)

  /** The receipt handles of the deletes among `calls`, in the order issued. */
  function DeletedHandles(calls: seq<Call>): (hs: seq<string>)
    ensures forall h :: h in hs <==> exists c :: c in calls && c.Delete? && c.receiptHandle == h
  {
    if calls == [] then []
    else (if calls[0].Delete? then [calls[0].receiptHandle] else []) + DeletedHandles(calls[1..])
  }

  /** The receipt handles made visible again among `calls`, in the order issued. */
  function RequeuedHandles(calls: seq<Call>): (hs: seq<string>)
    ensures forall h :: h in hs <==> exists c :: c in calls && c.ChangeVisibility? && c.receiptHandle == h
  {
    if calls == [] then []
    else (if calls[0].ChangeVisibility? then [calls[0].receiptHandle] else []) + RequeuedHandles(calls[1..])
  }

  lemma {:induction false} DeletedHandlesAppend(a: seq<Call>, b: seq<Call>)
    ensures DeletedHandles(a + b) == DeletedHandles(a) + DeletedHandles(b)
  {
    if a != [] {
      assert (a + b)[1..] == a[1..] + b;
      DeletedHandlesAppend(a[1..], b);
    } else {
      assert a + b == b;
    }
  }

  lemma {:induction false} RequeuedHandlesAppend(a: seq<Call>, b: seq<Call>)
    ensures RequeuedHandles(a + b) == RequeuedHandles(a) + RequeuedHandles(b)
  {
    if a != [] {
      assert (a + b)[1..] == a[1..] + b;
      RequeuedHandlesAppend(a[1..], b);
    } else {
      assert a + b == b;
    }
  }
}

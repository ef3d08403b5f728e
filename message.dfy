/** Messages as the broker sees them, and the raw entries an SQS receive returns. */
module Broker {

  datatype Option<+T> = None | Some(value: T)

  /** The sequence holding the value of `o`, or the empty sequence for `None`. */
  function OptionToSeq<T>(o: Option<T>): (s: seq<T>)
  {
    match o
    case None => []
    case Some(v) => [v]
  }

  /** One entry of a receive response: its `Body` and its `ReceiptHandle`. */
  datatype RawEntry = RawEntry(body: string, receiptHandle: string)

  /**
   * A broker message: an opaque body, a map of properties and an id.
   * For SQS the id is the receipt handle of the delivery, which ack and nack hand back.
   */
  datatype Message = Message(body: string, properties: map<string, string>, id: string)

  /** The message built from one raw entry: no properties, the receipt handle as id. */
  function FromEntry(e: RawEntry): (m: Message)
  {
    Message(e.body, map[], e.receiptHandle)
  }

  /** The raw entry a message of SQS origin came from. */
  function ToEntry(m: Message): (e: RawEntry)
  {
    RawEntry(m.body, m.id)
  }

  /** `ToEntry` undoes `FromEntry`: no body or handle is lost in translation. */
  lemma EntryRoundTrip(e: RawEntry)
    ensures ToEntry(FromEntry(e)) == e
    ensures FromEntry(e).id == e.receiptHandle && FromEntry(e).body == e.body
  {
  }

  /** Every entry of a response translated, one message per entry, in the order received. */
  function Translate(entries: seq<RawEntry>): (ms: seq<Message>)
    ensures |ms| == |entries|
    ensures forall i :: 0 <= i < |entries| ==> ms[i] == FromEntry(entries[i])
  {
    if entries == [] then [] else [FromEntry(entries[0])] + Translate(entries[1..])
  }

  /** Translation distributes over concatenation of responses. */
  lemma TranslateAppend(a: seq<RawEntry>, b: seq<RawEntry>)
    ensures Translate(a + b) == Translate(a) + Translate(b)
  {
  }
}

/** The broker side of the relay: message keys and the `MessageProducer` the relay publishes through. */
module Messaging {
  import opened Base
  import opened TimeUuid

  /** A message as the broker stores it: its routing key and its body. */
  datatype BrokerMessage = BrokerMessage(key: string, payload: Bytes)

  /** The routing key `fmt.Sprintf("%s:%v", eventType, id)`. */
  function Key(eventType: string, id: Uuid): string {
    eventType + ":" + ToString(id)
  }

  /** A key is the event type, a colon, and the 36-character printed id, which parses back to the id. */
  lemma KeyLayout(eventType: string, id: Uuid)
    ensures var k := Key(eventType, id);
      |k| == |eventType| + 37 && k[..|eventType|] == eventType && k[|eventType|] == ':'
      && Parse(k[|eventType| + 1..]) == Some(id)
  {
    var k := Key(eventType, id);
    StringRoundTrip(id);
    assert k[..|eventType|] == eventType;
    assert k[|eventType| + 1..] == ToString(id);
  }

  /** A key names one envelope: the event type and the id can both be read back from it. */
  lemma KeyInjective(t1: string, id1: Uuid, t2: string, id2: Uuid)
    ensures Key(t1, id1) == Key(t2, id2) <==> t1 == t2 && id1 == id2
  {
    if Key(t1, id1) == Key(t2, id2) {
      StringRoundTrip(id1);
      StringRoundTrip(id2);
      var k := Key(t1, id1);
      assert |t1| == |t2|;
      assert k[..|t1|] == t1;
      assert Key(t2, id2)[..|t2|] == t2;
      assert k[|t1| + 1..] == ToString(id1);
      assert Key(t2, id2)[|t2| + 1..] == ToString(id2);
      StringInjective(id1, id2);
    }
  }

  /**
   * A producer: `Publish` sends one message and waits for the broker's acknowledgement.
   * `sent` is what the broker has acknowledged, in order; `outcome` is the error the wait
   * ends with (a failed acknowledgement or a cancelled context), if any.
   */
  class Producer {
    var sent: seq<BrokerMessage>

    constructor ()
      ensures sent == []
    {
      sent := [];
    }

    /** `MessageProducer.Publish`; the event type is passed along but is not part of the message. */
    method Publish(eventType: string, key: string, payload: Bytes, outcome: Option<Error>) returns (err: Option<Error>)
      modifies this
      ensures err == outcome
      ensures sent == old(sent) + (if outcome.None? then [BrokerMessage(key, payload)] else [])
    {
      if outcome.None? {
        sent := sent + [BrokerMessage(key, payload)];
      }
      return outcome;
    }
  }
}

/**
 * Client code that uses only the contracts of `EventBus`: what a bus and an
 * application handler can conclude about envelopes they hold.
 */
module Scenarios {

  import opened Wrappers
  import opened EventBus

  /**
   * A publish of "hello" at "news.tech" with no reply address, delivered to
   * three receivers: every copy has the template's address and body, and a
   * header added by one receiver is seen by neither the others nor the
   * template.
   */
  method PublishToThreeReceivers()
  {
    var codec := new MessageCodec(b => Some(b));
    var template := new LocalMessage(Some("news.tech"), None, null, Some(Payload("hello")), codec, false);
    var first := template.CopyBeforeReceive();
    var second := template.CopyBeforeReceive();
    var third := template.CopyBeforeReceive();
    assert codec.transformed == [Payload("hello"), Payload("hello"), Payload("hello")];

    var h1 := first.Headers();
    var h2 := second.Headers();
    var h3 := third.Headers();
    h1.Add("seen-by", "first");
    assert h1 != h2 && h1 != h3 && h2 != h3;
    assert h2.entries == [] && h3.entries == [];
    assert template.headers == null;

    var a := second.Address();
    var b := third.Body();
    assert a == Some("news.tech") && b == Some(Payload("hello"));
    assert !second.send && second.replyAddress == None;
  }

  /** A copy of a template carrying headers gets its own container with the same entries. */
  method CopyKeepsHeaderOrder()
  {
    var codec := new MessageCodec(b => Some(b));
    var headers := new MultiMap();
    headers.Add("a", "1");
    headers.Add("b", "2");
    var template := new LocalMessage(Some("orders"), Some("reply.7"), headers, None, codec, true);
    var copy := template.CopyBeforeReceive();
    assert copy.headers != headers;
    assert copy.headers.entries == [("a", "1"), ("b", "2")];
    assert copy.receivedBody == None && codec.transformed == [];
    copy.headers.Add("c", "3");
    assert headers.entries == [("a", "1"), ("b", "2")];
  }

  /** A codec that yields no body leaves the copy with a sent body but no received body. */
  method CodecMayYieldNoBody()
  {
    var codec := new MessageCodec(b => None);
    var template := new LocalMessage(Some("orders"), None, null, Some(Payload("x")), codec, true);
    var copy := template.CopyBeforeReceive();
    assert copy.sentBody == Some(Payload("x")) && copy.receivedBody == None;
    assert codec.transformed == [Payload("x")];
  }

  /** Asking twice for the headers of an envelope without any gives the same new, empty container. */
  method HeadersAreStable()
  {
    var m := new LocalMessage.Empty();
    var h1 := m.Headers();
    var h2 := m.Headers();
    assert h1 == h2 && h1.entries == [];
  }

  /** `fail(404, "missing")` at reply address "addr1". */
  method FailAnswersTheReplyAddress()
  {
    var bus := new LocalEventBus();
    var m := new LocalMessage(Some("service"), Some("addr1"), null, None, null, true);
    m.SetBus(bus);
    m.Fail(404, Some("missing"));
    assert |bus.log| == 2;
    assert bus.log[0].CreateMessageCall? && bus.log[0].send && bus.log[0].address == "addr1";
    assert bus.log[0].body == Some(ReplyException(RecipientFailure, 404, Some("missing")));
    assert bus.log[1] == SendReplyCall(bus.log[0].created, None, None);
  }

  /** Replying to a message that carries no reply address leaves the bus untouched. */
  method ReplyWithoutReplyAddressIsSilent()
  {
    var bus := new LocalEventBus();
    var m := new LocalMessage(Some("news.tech"), None, null, None, null, false);
    m.SetBus(bus);
    m.Reply(Some(Payload("thanks")));
    m.ReplyWithOptions(Some(Payload("thanks")), None);
    m.Fail(500, None);
    assert bus.log == [];
  }
}

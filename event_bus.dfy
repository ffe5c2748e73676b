/**
 * The in-process message envelope of the vert.x event bus (`LocalMessage`),
 * together with abstract stand-ins for the collaborators it talks to: the
 * header container, the message codec and the local event bus.
 *
 * The envelope is a class whose fields are updated in place. Its copy
 * before delivery is specified by the value-level function `CopyOf` on an
 * `Envelope` snapshot; replies and failures are specified by what they
 * append to the bus's ghost call log.
 */
module EventBus {

  import opened Wrappers

  /** One header entry: a name and a value. */
  type Header = (string, string)

  /** A Java `int`. */
  type Int32 = x: int | -0x8000_0000 <= x < 0x8000_0000

  /** The kinds of reply failure; a recipient calling `fail` produces `RecipientFailure`. */
  datatype ReplyFailure = Timeout | NoHandlers | RecipientFailure

  /**
   * A message body. Application bodies are opaque; the one body this core
   * builds itself is the failure record sent by `fail`.
   */
  datatype MessageBody =
    | Payload(content: string)
    | ReplyException(failureType: ReplyFailure, failureCode: Int32, message: Option<string>)

  /** An opaque reply handler supplied by the application; only passed through. */
  datatype Handler = Handler(id: nat)

  /** The two delivery options the envelope reads: extra headers and a codec name. */
  datatype DeliveryOptions = DeliveryOptions(headers: MultiMap?, codecName: Option<string>)

  /** The options of `new DeliveryOptions()`: no extra headers and no codec name. */
  function DefaultOptions(): (o: DeliveryOptions)
    ensures o.headers == null && o.codecName == None
  {
    DeliveryOptions(null, None)
  }

  /** One call received by the bus, in the bus's ghost log. */
  datatype BusCall =
    | CreateMessageCall(send: bool, address: string, headers: MultiMap?, body: Option<MessageBody>,
                        codecName: Option<string>, created: LocalMessage)
    | SendReplyCall(msg: LocalMessage, options: Option<DeliveryOptions>, replyHandler: Option<Handler>)

  /**
   * `after` is `before` followed by exactly two calls: the bus was asked to
   * create a send-mode message at `replyAddress` with the given headers, body
   * and codec name, and then to route that very message with the given
   * options and handler.
   */
  ghost predicate RepliedWith(before: seq<BusCall>, after: seq<BusCall>, replyAddress: string,
                              headers: MultiMap?, body: Option<MessageBody>, codecName: Option<string>,
                              options: Option<DeliveryOptions>, replyHandler: Option<Handler>)
  {
    |after| == |before| + 2 && after[..|before|] == before &&
    after[|before| + 1].SendReplyCall? &&
    after[|before|] == CreateMessageCall(true, replyAddress, headers, body, codecName, after[|before| + 1].msg) &&
    after[|before| + 1].options == options &&
    after[|before| + 1].replyHandler == replyHandler
  }

  /** An ordinary reply: headers and codec name come from `options`, which is also handed to the bus. */
  ghost predicate ReplyLogged(before: seq<BusCall>, after: seq<BusCall>, replyAddress: string,
                              body: Option<MessageBody>, options: DeliveryOptions, replyHandler: Option<Handler>)
  {
    RepliedWith(before, after, replyAddress, options.headers, body, options.codecName, Some(options), replyHandler)
  }

  /** A failure reply: a recipient-failure record, no headers, no codec name, no options, no handler. */
  ghost predicate FailureLogged(before: seq<BusCall>, after: seq<BusCall>, replyAddress: string,
                                failureCode: Int32, message: Option<string>)
  {
    RepliedWith(before, after, replyAddress, null, Some(ReplyException(RecipientFailure, failureCode, message)),
                None, None, None)
  }

  // ---------------------------------------------------------------------------
  // Value-level specification of the copy made before delivery
  // ---------------------------------------------------------------------------

  /** A snapshot of an envelope's own data; `headers` is `None` when no container exists. */
  datatype Envelope = Envelope(address: Option<string>, replyAddress: Option<string>, headers: Option<seq<Header>>,
                               sentBody: Option<MessageBody>, receivedBody: Option<MessageBody>, send: bool)

  /**
   * The entries of a container that held `entries` after `add` is called
   * once for each element of `added`, in order.
   */
  function AddEach(entries: seq<Header>, added: seq<Header>): (r: seq<Header>)
    ensures r == entries + added
    decreases |added|
  {
    if added == [] then entries
    else
      assert added == [added[0]] + added[1..];
      AddEach(entries + [added[0]], added[1..])
  }

  /**
   * The envelope a receiver gets: routing data copied, the headers re-added
   * one by one into a new container, and the received body derived from the
   * sent body by the codec (never from the template's own received body).
   * With no sent body there is no received body; with one, the received
   * body is whatever the codec yields, which may be none.
   */
  function CopyOf(template: Envelope, codec: MessageCodec?): (c: Envelope)
    requires template.sentBody.Some? ==> codec != null
    ensures c.address == template.address && c.replyAddress == template.replyAddress && c.send == template.send
    ensures c.headers == template.headers
    ensures c.sentBody == template.sentBody
    ensures c.receivedBody.Some? ==> template.sentBody.Some?
    ensures template.sentBody.Some? ==> c.receivedBody == codec.transformFn(template.sentBody.value)
  {
    assert template.headers.Some? ==> [] + template.headers.value == template.headers.value;
    Envelope(template.address, template.replyAddress,
             if template.headers.Some? then Some(AddEach([], template.headers.value)) else None,
             template.sentBody,
             if template.sentBody.Some? then codec.transformFn(template.sentBody.value) else None,
             template.send)
  }

  /** Copying a copy gives the same envelope again: the codec only ever sees the sent body. */
  lemma CopyIsIdempotent(template: Envelope, codec: MessageCodec?)
    requires template.sentBody.Some? ==> codec != null
    ensures CopyOf(CopyOf(template, codec), codec) == CopyOf(template, codec)
  {
  }

  /** The template's own received body never reaches a copy. */
  lemma CopyIgnoresReceivedBody(template: Envelope, codec: MessageCodec?, receivedBody: Option<MessageBody>)
    requires template.sentBody.Some? ==> codec != null
    ensures CopyOf(template.(receivedBody := receivedBody), codec) == CopyOf(template, codec)
  {
  }

  // ---------------------------------------------------------------------------
  // Collaborators, modelled only as far as the envelope uses them
  // ---------------------------------------------------------------------------

  /** The header container: an ordered list of entries with an appending `add`. */
  class MultiMap {
    var entries: seq<Header>

    constructor ()
      ensures entries == []
    {
      entries := [];
    }

    method Add(name: string, value: string)
      modifies this
      ensures entries == old(entries) + [(name, value)]
    {
      entries := entries + [(name, value)];
    }

    /** All entries, in the order they were added. */
    method Entries() returns (es: seq<Header>)
      ensures es == entries
    {
      es := entries;
    }
  }

  /**
   * A message codec. Its transform is a deterministic function, which may
   * yield no body (`null` in Java) even for a body it is given; the ghost
   * `transformed` records every body it was asked to transform.
   */
  class MessageCodec {
    const transformFn: MessageBody -> Option<MessageBody>
    ghost var transformed: seq<MessageBody>

    constructor (transformFn: MessageBody -> Option<MessageBody>)
      ensures this.transformFn == transformFn && transformed == []
    {
      this.transformFn := transformFn;
      transformed := [];
    }

    method Transform(sent: MessageBody) returns (received: Option<MessageBody>)
      modifies this
      ensures received == transformFn(sent)
      ensures transformed == old(transformed) + [sent]
    {
      received := transformFn(sent);
      transformed := transformed + [sent];
    }
  }

  /**
   * The local event bus, as seen from an envelope: a factory for reply
   * envelopes and a router for them. Both only record the call.
   */
  class LocalEventBus {
    ghost var log: seq<BusCall>

    constructor ()
      ensures log == []
    {
      log := [];
    }

    method CreateMessage(send: bool, address: string, headers: MultiMap?, body: Option<MessageBody>,
                         codecName: Option<string>) returns (m: LocalMessage)
      modifies this
      ensures fresh(m)
      ensures log == old(log) + [CreateMessageCall(send, address, headers, body, codecName, m)]
    {
      m := new LocalMessage(Some(address), None, headers, body, null, send);
      log := log + [CreateMessageCall(send, address, headers, body, codecName, m)];
    }

    method SendReply(msg: LocalMessage, options: Option<DeliveryOptions>, replyHandler: Option<Handler>)
      modifies this
      ensures log == old(log) + [SendReplyCall(msg, options, replyHandler)]
    {
      log := log + [SendReplyCall(msg, options, replyHandler)];
    }
  }

  // ---------------------------------------------------------------------------
  // The envelope
  // ---------------------------------------------------------------------------

  class LocalMessage {
    var messageCodec: MessageCodec?
    var bus: LocalEventBus?
    var address: Option<string>
    var replyAddress: Option<string>
    var headers: MultiMap?
    var sentBody: Option<MessageBody>
    var receivedBody: Option<MessageBody>
    var send: bool

    /** The envelope's own data as a value. */
    ghost function State(): Envelope
      reads this, headers
    {
      Envelope(address, replyAddress, if headers == null then None else Some(headers.entries),
               sentBody, receivedBody, send)
    }

    /** An envelope with every reference field `null` and the send flag `false`. */
    constructor Empty()
      ensures messageCodec == null && bus == null && address == None && replyAddress == None && headers == null
      ensures sentBody == None && receivedBody == None && !send
    {
      messageCodec := null;
      bus := null;
      address := None;
      replyAddress := None;
      headers := null;
      sentBody := None;
      receivedBody := None;
      send := false;
    }

    /** A new envelope as the sender builds it: no bus yet and nothing received. */
    constructor (address: Option<string>, replyAddress: Option<string>, headers: MultiMap?, sentBody: Option<MessageBody>,
                 messageCodec: MessageCodec?, send: bool)
      ensures this.address == address && this.replyAddress == replyAddress && this.headers == headers
      ensures this.sentBody == sentBody && this.messageCodec == messageCodec && this.send == send
      ensures bus == null && receivedBody == None
    {
      this.messageCodec := messageCodec;
      this.address := address;
      this.replyAddress := replyAddress;
      this.headers := headers;
      this.sentBody := sentBody;
      this.send := send;
      bus := null;
      receivedBody := None;
    }

    /**
     * The per-receiver copy of `other`. The header container, when there is
     * one, is a new container filled entry by entry; the codec is run once
     * on the sent body, and not at all when there is none. `other` and its
     * header container are left as they were.
     */
    constructor Copy(other: LocalMessage)
      requires other.sentBody.Some? ==> other.messageCodec != null
      modifies other.messageCodec
      ensures State() == CopyOf(old(other.State()), other.messageCodec)
      ensures messageCodec == other.messageCodec && bus == other.bus
      ensures other.headers != null ==> fresh(headers)
      ensures unchanged(other) && (other.headers != null ==> unchanged(other.headers))
      ensures other.sentBody.Some? ==>
                other.messageCodec.transformed == old(other.messageCodec.transformed) + [other.sentBody.value]
      ensures other.sentBody.None? && other.messageCodec != null ==> unchanged(other.messageCodec)
    {
      bus := other.bus;
      address := other.address;
      replyAddress := other.replyAddress;
      messageCodec := other.messageCodec;
      if other.headers != null {
        var entries := other.headers.Entries();
        var copied := new MultiMap();
        for i := 0 to |entries|
          modifies copied
          invariant fresh(copied)
          invariant copied.entries == AddEach([], entries[..i])
        {
          assert entries[..i + 1] == entries[..i] + [entries[i]];
          copied.Add(entries[i].0, entries[i].1);
        }
        assert entries[..|entries|] == entries;
        headers := copied;
      } else {
        headers := null;
      }
      if other.sentBody.Some? {
        sentBody := other.sentBody;
        var received := other.messageCodec.Transform(other.sentBody.value);
        receivedBody := received;
      } else {
        sentBody := None;
        receivedBody := None;
      }
      send := other.send;
    }

    /** The copy handed to one receiver; see `Copy`. */
    method CopyBeforeReceive() returns (c: LocalMessage)
      requires sentBody.Some? ==> messageCodec != null
      modifies messageCodec
      ensures fresh(c)
      ensures c.State() == CopyOf(old(State()), messageCodec)
      ensures c.messageCodec == messageCodec && c.bus == bus
      ensures headers != null ==> fresh(c.headers) && unchanged(headers)
      ensures sentBody.Some? ==> messageCodec.transformed == old(messageCodec.transformed) + [sentBody.value]
      ensures sentBody.None? && messageCodec != null ==> unchanged(messageCodec)
    {
      c := new LocalMessage.Copy(this);
    }

    method Address() returns (a: Option<string>)
      ensures a == address
    {
      a := address;
    }

    /**
     * The header container, created empty on first use; later calls return
     * the same container.
     */
    method Headers() returns (h: MultiMap)
      modifies this`headers
      ensures h == headers
      ensures old(headers) != null ==> h == old(headers)
      ensures old(headers) == null ==> fresh(h) && h.entries == []
    {
      if headers == null {
        headers := new MultiMap();
      }
      h := headers;
    }

    /** The received body; `None` until a copy has derived it. */
    method Body() returns (b: Option<MessageBody>)
      ensures b == receivedBody
    {
      b := receivedBody;
    }

    method ReplyAddress() returns (a: Option<string>)
      ensures a == replyAddress
    {
      a := replyAddress;
    }

    method Send() returns (s: bool)
      ensures s == send
    {
      s := send;
    }

    method Codec() returns (c: MessageCodec?)
      ensures c == messageCodec
    {
      c := messageCodec;
    }

    method SetReplyAddress(replyAddress: Option<string>)
      modifies this`replyAddress
      ensures this.replyAddress == replyAddress
    {
      this.replyAddress := replyAddress;
    }

    method SetBus(bus: LocalEventBus?)
      modifies this`bus
      ensures this.bus == bus
    {
      this.bus := bus;
    }

    /**
     * Answers the sender with a recipient failure. Without a reply address
     * the bus is not contacted. With one, the bus must be set: the bus is
     * used to build the failure message before any null check.
     */
    method Fail(failureCode: Int32, message: Option<string>)
      requires replyAddress.Some? ==> bus != null
      modifies bus
      ensures replyAddress.None? && bus != null ==> bus.log == old(bus.log)
      ensures replyAddress.Some? ==> FailureLogged(old(bus.log), bus.log, replyAddress.value, failureCode, message)
      ensures replyAddress.Some? ==> fresh(bus.log[|bus.log| - 1].msg)
    {
      if replyAddress.Some? {
        var failure := bus.CreateMessage(true, replyAddress.value, null,
                                         Some(ReplyException(RecipientFailure, failureCode, message)), None);
        SendReply(failure, None, None);
      }
    }

    /** `reply(message)`: the full reply with default options and no handler. */
    method Reply(message: Option<MessageBody>)
      requires replyAddress.Some? ==> bus != null
      modifies bus
      ensures replyAddress.None? && bus != null ==> bus.log == old(bus.log)
      ensures replyAddress.Some? ==> ReplyLogged(old(bus.log), bus.log, replyAddress.value, message, DefaultOptions(), None)
      ensures replyAddress.Some? ==> fresh(bus.log[|bus.log| - 1].msg)
    {
      ReplyWithOptionsAndHandler(message, Some(DefaultOptions()), None);
    }

    /** `reply(message, replyHandler)`: the full reply with default options. */
    method ReplyWithHandler(message: Option<MessageBody>, replyHandler: Option<Handler>)
      requires replyAddress.Some? ==> bus != null
      modifies bus
      ensures replyAddress.None? && bus != null ==> bus.log == old(bus.log)
      ensures replyAddress.Some? ==>
                ReplyLogged(old(bus.log), bus.log, replyAddress.value, message, DefaultOptions(), replyHandler)
      ensures replyAddress.Some? ==> fresh(bus.log[|bus.log| - 1].msg)
    {
      ReplyWithOptionsAndHandler(message, Some(DefaultOptions()), replyHandler);
    }

    /** `reply(message, options)`: the full reply with no handler. */
    method ReplyWithOptions(message: Option<MessageBody>, options: Option<DeliveryOptions>)
      requires replyAddress.Some? ==> bus != null && options.Some?
      modifies bus
      ensures replyAddress.None? && bus != null ==> bus.log == old(bus.log)
      ensures replyAddress.Some? ==> ReplyLogged(old(bus.log), bus.log, replyAddress.value, message, options.value, None)
      ensures replyAddress.Some? ==> fresh(bus.log[|bus.log| - 1].msg)
    {
      ReplyWithOptionsAndHandler(message, options, None);
    }

    /**
     * Answers the sender. Without a reply address nothing happens, even when
     * `options` is absent. With one, `options` must be present and the bus
     * builds a send-mode message at the reply address carrying the options'
     * headers and codec name, and then routes it with `options` and
     * `replyHandler`.
     */
    method ReplyWithOptionsAndHandler(message: Option<MessageBody>, options: Option<DeliveryOptions>,
                                      replyHandler: Option<Handler>)
      requires replyAddress.Some? ==> bus != null && options.Some?
      modifies bus
      ensures replyAddress.None? && bus != null ==> bus.log == old(bus.log)
      ensures replyAddress.Some? ==>
                ReplyLogged(old(bus.log), bus.log, replyAddress.value, message, options.value, replyHandler)
      ensures replyAddress.Some? ==> fresh(bus.log[|bus.log| - 1].msg)
    {
      if replyAddress.Some? {
        var reply := bus.CreateMessage(true, replyAddress.value, options.value.headers, message,
                                       options.value.codecName);
        SendReply(reply, options, replyHandler);
      }
    }

    /** Hands a reply envelope to the bus, if there is a bus. */
    method SendReply(msg: LocalMessage, options: Option<DeliveryOptions>, replyHandler: Option<Handler>)
      modifies bus
      ensures bus != null ==> bus.log == old(bus.log) + [SendReplyCall(msg, options, replyHandler)]
    {
      if bus != null {
        bus.SendReply(msg, options, replyHandler);
      }
    }
  }
}

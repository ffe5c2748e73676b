# LocalMessage: the in-process envelope of the vert.x event bus

This project models `LocalMessage`, the envelope that carries one message on
the vert.x event bus inside one process, and proves its contracts in Dafny.

- `event_bus.dfy`, module `EventBus`, holds the model.
  - `LocalMessage` is a class with the same mutable fields as the source:
    codec, bus, address, reply address, header container, sent body,
    received body and the send flag.
  - `CopyOf` is the value-level specification of the per-receiver copy. It
    works on an `Envelope` snapshot, which `LocalMessage.State()` gives.
  - The collaborators are abstract stand-ins. `MultiMap` is the header
    container: an ordered list of entries with an appending `Add`.
    `MessageCodec` is a deterministic `transformFn` with a ghost log of the
    bodies it was asked to transform. `LocalEventBus` has `CreateMessage` and
    `SendReply`, which only append to a ghost call log.
- `wrappers.dfy`, module `Wrappers`, holds `Option`. The envelope's address,
  reply address, bodies, the delivery options argument of `reply`, the codec
  name and reply handlers may all be `null` in Java; each is an `Option` here.
  References to model objects (codec, bus, header container) are nullable
  class types.
- `scenarios.dfy`, module `Scenarios`, holds client methods that use only the
  contracts:
  - a publish to three receivers, each with its own header container;
  - a copy that keeps the header order;
  - a codec that yields no body for a sent body;
  - `headers()` returning the same container twice;
  - `fail(404, "missing")` at reply address `"addr1"`;
  - a reply without a reply address, which leaves the bus untouched.

What is proved:

- Copying keeps address, reply address, codec, bus and send flag.
- Copying re-adds every header entry, in order, into a fresh container. The
  template's container is left unchanged.
- The copy's received body is `transform(sentBody)`, and the codec runs
  exactly once. The codec may yield no body, as a Java codec may return
  `null`. With no sent body there is no received body and the codec is
  not run. The template's received body never reaches the copy.
- `headers()` returns the existing container, or a fresh empty one that it
  stores.
- `reply` and `fail` leave the bus untouched when there is no reply address.
  Otherwise the bus log grows by exactly one `createMessage` (send mode, at the
  reply address), followed by one `sendReply` of that same fresh message.

An envelope's address is meant to be always set, but the code does not
enforce it: the no-argument constructor leaves it `null`, and the six-argument
constructor stores whatever it is given. The model therefore keeps the address
as an `Option` and copies it as it is.

## Model

| member | source | states |
|---|---|---|
| `EventBus.AddEach` | src/main/java/io/vertx/core/eventbus/impl/local/LocalMessage.java:66-70 | adding each entry of a list, in order, to a container holding `entries` leaves exactly `entries` followed by that list |
| `EventBus.CopyOf` | src/main/java/io/vertx/core/eventbus/impl/local/LocalMessage.java:60-77 | a receiver's copy has the template's address, reply address, send flag, header entries and sent body; it has a received body only if the template has a sent body, and with a sent body its received body is the codec's transform of it, which may be absent |
| `EventBus.CopyIsIdempotent` | src/main/java/io/vertx/core/eventbus/impl/local/LocalMessage.java:72-75 | copying a copy yields that copy again, because the received body is derived only from the sent body |
| `EventBus.CopyIgnoresReceivedBody` | src/main/java/io/vertx/core/eventbus/impl/local/LocalMessage.java:72-75 | the template's own received body has no effect on the copy |
| `EventBus.MultiMap.Add` | src/main/java/io/vertx/core/eventbus/impl/local/LocalMessage.java:69 | adding a header appends the pair to the entry list |
| `EventBus.MultiMap.Entries` | src/main/java/io/vertx/core/eventbus/impl/local/LocalMessage.java:66 | the entry list is given in insertion order |
| `EventBus.MessageCodec.Transform` | src/main/java/io/vertx/core/eventbus/impl/local/LocalMessage.java:74 | the received body is the codec's function of the sent body, possibly absent, and the call is recorded |
| `EventBus.LocalEventBus.CreateMessage` | src/main/java/io/vertx/core/eventbus/impl/local/LocalMessage.java:110-111 | the bus returns a fresh envelope and logs the send flag, address, headers, body and codec name it was given |
| `EventBus.LocalEventBus.SendReply` | src/main/java/io/vertx/core/eventbus/impl/local/LocalMessage.java:155 | the bus logs the envelope, options and handler it was asked to route |
| `EventBus.DefaultOptions` | src/main/java/io/vertx/core/eventbus/impl/local/LocalMessage.java:117 | the options built by `new DeliveryOptions()` carry no extra headers and no codec name |
| `EventBus.MultiMap.constructor` | src/main/java/io/vertx/core/eventbus/impl/local/LocalMessage.java:67 | a new header container has no entries |
| `EventBus.LocalMessage.Empty` | src/main/java/io/vertx/core/eventbus/impl/local/LocalMessage.java:46-47 | a new envelope has every reference field `null` and the send flag `false` |
| `EventBus.LocalMessage.constructor` | src/main/java/io/vertx/core/eventbus/impl/local/LocalMessage.java:49-58 | a new envelope holds the given address, reply address, headers, sent body, codec and send flag; it has no bus and no received body |
| `EventBus.LocalMessage.Copy` | src/main/java/io/vertx/core/eventbus/impl/local/LocalMessage.java:60-77 | the new envelope's state is `CopyOf` the template's state; it has the template's codec and bus; its header container is fresh when the template has one and absent otherwise; the template and its container are unchanged; the codec runs once on the sent body, or not at all when there is none |
| `EventBus.LocalMessage.CopyBeforeReceive` | src/main/java/io/vertx/core/eventbus/impl/local/LocalMessage.java:79-81 | returns a fresh envelope with the same guarantees as the copy constructor, leaving this envelope's headers unchanged |
| `EventBus.LocalMessage.Address` | src/main/java/io/vertx/core/eventbus/impl/local/LocalMessage.java:83-86 | returns the destination address |
| `EventBus.LocalMessage.Headers` | src/main/java/io/vertx/core/eventbus/impl/local/LocalMessage.java:88-95 | always returns a container that is then stored in the envelope: the existing one if there was one, otherwise a fresh empty one, so a second call returns the same instance |
| `EventBus.LocalMessage.Body` | src/main/java/io/vertx/core/eventbus/impl/local/LocalMessage.java:97-100 | returns the received body, not the sent one |
| `EventBus.LocalMessage.ReplyAddress` | src/main/java/io/vertx/core/eventbus/impl/local/LocalMessage.java:102-105 | returns the reply address, absent when no reply is expected |
| `EventBus.LocalMessage.Fail` | src/main/java/io/vertx/core/eventbus/impl/local/LocalMessage.java:107-113 | without a reply address the bus log is unchanged; with one, the log gains a send-mode `createMessage` at the reply address with no headers, no codec name and a recipient-failure body carrying the code and message, then a `sendReply` of that fresh envelope with no options and no handler |
| `EventBus.LocalMessage.Reply` | src/main/java/io/vertx/core/eventbus/impl/local/LocalMessage.java:115-118 | behaves as the full reply with default delivery options and no handler |
| `EventBus.LocalMessage.ReplyWithHandler` | src/main/java/io/vertx/core/eventbus/impl/local/LocalMessage.java:120-123 | behaves as the full reply with default delivery options and the given handler |
| `EventBus.LocalMessage.ReplyWithOptions` | src/main/java/io/vertx/core/eventbus/impl/local/LocalMessage.java:125-128 | behaves as the full reply with the given options and no handler |
| `EventBus.LocalMessage.ReplyWithOptionsAndHandler` | src/main/java/io/vertx/core/eventbus/impl/local/LocalMessage.java:130-135 | without a reply address the bus log is unchanged; with one, the log gains a send-mode `createMessage` at the reply address with the options' headers and codec name and the given body, then a `sendReply` of that fresh envelope with the options and handler |
| `EventBus.LocalMessage.SetReplyAddress` | src/main/java/io/vertx/core/eventbus/impl/local/LocalMessage.java:137-139 | the reply address becomes the given one and no other field changes |
| `EventBus.LocalMessage.Send` | src/main/java/io/vertx/core/eventbus/impl/local/LocalMessage.java:141-143 | returns the send (point-to-point) flag |
| `EventBus.LocalMessage.Codec` | src/main/java/io/vertx/core/eventbus/impl/local/LocalMessage.java:145-147 | returns the codec reference |
| `EventBus.LocalMessage.SetBus` | src/main/java/io/vertx/core/eventbus/impl/local/LocalMessage.java:149-151 | the bus becomes the given one and no other field changes |
| `EventBus.LocalMessage.SendReply` | src/main/java/io/vertx/core/eventbus/impl/local/LocalMessage.java:153-157 | with a bus, the bus log gains exactly one `sendReply` of the given envelope, options and handler; without one, nothing is modified |

## Left out

- `EventBus.LocalMessage.Copy`: excludes the `NullPointerException` thrown at line 74 when a sent body exists and the codec is `null`; it requires a codec in that case. `EventBus.LocalMessage.CopyBeforeReceive` carries the same requirement.
- `EventBus.LocalMessage.Fail`: excludes the `NullPointerException` thrown at line 110 when a reply address is set and the bus is `null` (the bus is used before the `null` check in `sendReply`); it requires a bus in that case.
- `EventBus.LocalMessage.ReplyWithOptionsAndHandler`: excludes the `NullPointerException` thrown at line 133 when a reply address is set and either the bus or the options argument is `null`; it requires both in that case. Without a reply address a `null` options argument is accepted and nothing happens, as in the source. `EventBus.LocalMessage.ReplyWithOptions`, `EventBus.LocalMessage.Reply` and `EventBus.LocalMessage.ReplyWithHandler` inherit the bus requirement, and `ReplyWithOptions` the options requirement.
- `EventBus.DefaultOptions`: `DeliveryOptions` is not part of this model. That its default instance holds no headers and no codec name is assumed, not derived from its source.
- The unused `log` field and all logging are left out.
- `LocalEventBus` is not part of this model. Its codec lookup by name, routing, timeouts and handler invocation are left out. `CreateMessage` and `SendReply` only log their arguments.
- `EventBus.LocalEventBus.CreateMessage`: promises only that the envelope is fresh and that the call is logged. What the real bus puts in that envelope, its codec in particular, is not modelled.
- Case-insensitive key comparison and the rest of the `MultiMap` interface are left out. The container is an ordered list of pairs with an appending `Add`.
- `DeliveryOptions` keeps only its headers and codec name. The send timeout is not read by this class and is left out.
- Generic body types `U`/`V` are collapsed into one `MessageBody` datatype. Application bodies are opaque `Payload`s.
- Handlers and `AsyncResult` callbacks are opaque tokens that are passed through and never run.
- Concurrency between copies made on different threads is left out. The model is sequential.
- A codec transform that throws is left out; `transformFn` is total. A codec that returns `null` is modelled: `transformFn` yields an `Option`.

# Client request dispatcher of a small pub/sub broker

This project models the per-connection protocol handler of a broker in which
remote clients read, set and watch named channels owned by nodes. One
`Client` serves one socket. It reads a request's `type`, looks a node and one
of its channels up in the process-wide node registry (`nodeManager`), and then
reads the channel, sets it, or changes its subscriber set (`channel.clients`).
It answers by writing typed messages to its socket. When the connection goes
away, `destroy` removes the client from the subscriber set of every channel
in the registry.

How the model is laid out:

- `Protocol` (protocol.dfy) holds the requests, the outbound types and
  messages. It also holds `Outgoing`, which is the message `send(type, data)`
  builds, and `Written`, which is what `sendRaw` writes.
- `Channels` (channels.dfy) holds the channel object: its id, its `data` and
  its `clients`. It also holds the three channel operations the dispatcher
  calls, reduced to their least behaviour.
- `Registry` (registry.dfy) holds the registry as a value passed to every
  call instead of a global: nodes in insertion order, each node's channels by
  name, and the registry's own channel map. `Resolve` is the two-step lookup
  `nodes.get(nodeId)` then `node.channels.get(channelName)`.
- `Dispatch` (dispatch.dfy) is the specification. `Step` is one
  `handleRequest` call as a function of the channel state. `Detach` is what
  `destroy` does. The lemmas state each case's effect, and they state the
  subscription behaviour over any history of requests and disconnects.
- `Net` (client.dfy) holds the `Client` class. The field `written` holds
  the messages this client's handlers write to its socket. `Destroy` is the loop
  over the registry's channels. `Send` and `SendRaw` follow the source's
  branches. `HandleRequest` switches on the request type as the source does,
  and each case body is its own method. Each is proved to change exactly what
  `Step` or `Detach` says and nothing else.

The source dereferences a missing node or channel without checking. That
throws before anything is changed or written, and the asynchronous handler
then rejects. The model turns that into the outcome
`Rejected(NodeNotFound)` or `Rejected(ChannelNotFound)`, with no state change
and no output, so every handler is total.

In the NODE_CHANNEL_LIST case, `src/net/Client.js:58` passes
`node.listChannel()` as the *type* argument of `send`. The model keeps this as
it is (`OutType.ChannelListResult`). The code of `listChannel` is not part of
this model, so two things are assumptions. It is assumed to return a value
equal to neither output type constant (presumably a list of channels), so
`send` writes nothing. It is also assumed not to throw when the node exists,
so the request ends as `Handled`.

`handleRequest` switches on `type`, writes `{type, ...}` objects and keeps no
sequence counter.

## Model

| member | source | states |
|---|---|---|
| `Protocol.Outgoing` | src/net/Client.js:17-37 | `send` builds a message exactly when the type is NODE_LIST or NODE_CHANNEL_UPDATE, and that message's type field and payload give back the arguments it was built from; any other type yields nothing, because the switch has no default branch |
| `Protocol.Written` | src/net/Client.js:39-43 | `sendRaw` writes one message for a defined argument and nothing for `undefined` |
| `Protocol.OutgoingRoundTrip` | src/net/Client.js:17-37 | every message is what `send` produces from its own type and payload |
| `Protocol.SendWritesOneOrNone` | src/net/Client.js:17-37 | `send` writes exactly one message for the two output types and none for any other type |
| `Channels.ChannelState.Set` | src/net/Client.js:72 | assumed `channel.set(data)`: the data becomes the argument; id and subscribers are unchanged |
| `Channels.ChannelState.Watch` | src/net/Client.js:82 | assumed `channel.watch(client)`: the client is subscribed; the data and every other subscriber are unchanged |
| `Channels.ChannelState.Unwatch` | src/net/Client.js:90 | assumed `channel.unwatch(client)`: the client is not subscribed; the data and every other subscriber are unchanged |
| `Channels.WatchIdempotent` | src/net/Client.js:82 | watching twice leaves the same state as watching once |
| `Channels.UnwatchUndoesWatch` | src/net/Client.js:78-92 | an unwatch restores the state from before a watch by a client that was not subscribed |
| `Channels.Channel.Set` | src/net/Client.js:72 | the channel object's new state is `ChannelState.Set` of its old state |
| `Channels.Channel.Watch` | src/net/Client.js:82 | the channel object's new state is `ChannelState.Watch` of its old state |
| `Channels.Channel.Unwatch` | src/net/Client.js:90 | the channel object's new state is `ChannelState.Unwatch` of its old state |
| `Registry.DistinctCount` | src/net/Client.js:51 | a key list without repetitions is as long as the key set it enumerates |
| `Registry.NodeManager.NodeIds` | src/net/Client.js:51 | `Array.from(nodes.keys())` lists every node id, each exactly once, and nothing else; its length is the number of nodes |
| `Registry.NodeManager.Resolve` | src/net/Client.js:62-64 | the lookup succeeds exactly when the node exists and has a channel of that name, and it then yields that channel, which the dispatcher can reach; it fails with NodeNotFound exactly when the node is missing |
| `Dispatch.Step` | src/net/Client.js:45-95 | a handled request keeps the set of channels and every channel id; only send changes data; only watch and unwatch change subscribers; only the named channel changes; a rejected request changes nothing and writes nothing; at most one message is written |
| `Dispatch.Detach` | src/net/Client.js:10-13 | after `destroy`, the client is in no registered channel's subscriber set; every other client's membership and every channel's id and data are unchanged; unregistered channels are untouched |
| `Dispatch.NodeListReply` | src/net/Client.js:49-53 | NODE_LIST writes one message whose ids are exactly the registry's node ids, each once, and changes no state |
| `Dispatch.ChannelListWritesNothing` | src/net/Client.js:55-60 | NODE_CHANNEL_LIST writes nothing and changes nothing; it is rejected exactly when the node is missing |
| `Dispatch.ChannelReadReply` | src/net/Client.js:61-66 | NODE_CHANNEL_READ writes one update with the channel's id and current data and changes nothing |
| `Dispatch.ChannelSendEffect` | src/net/Client.js:68-76 | NODE_CHANNEL_SEND sets only that channel's data to the request's data; a sender that is not subscribed gets one update carrying the new value, and a subscribed sender gets nothing from the handler |
| `Dispatch.ChannelWatchEffect` | src/net/Client.js:78-84 | NODE_CHANNEL_WATCH subscribes the requester to that channel only, and writes one update carrying the channel's current data as a snapshot |
| `Dispatch.ChannelUnwatchEffect` | src/net/Client.js:86-92 | NODE_CHANNEL_UNWATCH removes the requester from that channel only, and writes nothing |
| `Dispatch.UnknownTypeIsInert` | src/net/Client.js:48-94 | a request whose type matches no case changes nothing and writes nothing |
| `Dispatch.FailedLookupIsInert` | src/net/Client.js:62-90 | a read, send, watch or unwatch that names a missing node or channel is rejected with that lookup's error, changes nothing and writes nothing |
| `Dispatch.ReadAfterSend` | src/net/Client.js:61-76 | a read following a send on the same channel, by any client, returns the sent data |
| `Dispatch.DestroyCoversResolvable` | src/net/Client.js:10-13 | when every node's channel is in the registry's channel map, `destroy` unsubscribes the client from every channel a request can name |
| `Dispatch.SubscriptionHistory` | src/net/Client.js:10-92 | after any sequence of requests and disconnects, a client is subscribed to a channel exactly when its latest watch, unwatch or disconnect that concerns that channel was a watch, or, if there was none, when it was subscribed at the start |
| `Net.Client.constructor` | src/net/Client.js:5-8 | a new client has written nothing |
| `Net.Client.Destroy` | src/net/Client.js:10-15 | every channel in the registry's channel map loses this client from its subscribers and keeps its data; the new state of all channels is `Detach` of the old |
| `Net.Client.Send` | src/net/Client.js:17-37 | appends `Written(Outgoing(type, data))` to the socket and changes nothing else |
| `Net.Client.SendRaw` | src/net/Client.js:39-43 | appends the message when it is defined, and nothing when it is `undefined` |
| `Net.Client.HandleRequest` | src/net/Client.js:45-95 | outcome, new channel state and written messages are exactly those of `Step` on the old state |
| `Net.Client.HandleNodeList` | src/net/Client.js:49-53 | the NODE_LIST case follows `Step` |
| `Net.Client.HandleChannelList` | src/net/Client.js:55-60 | the NODE_CHANNEL_LIST case follows `Step` |
| `Net.Client.HandleChannelRead` | src/net/Client.js:61-67 | the NODE_CHANNEL_READ case follows `Step` |
| `Net.Client.HandleChannelSend` | src/net/Client.js:68-77 | the NODE_CHANNEL_SEND case follows `Step`, channel state included |
| `Net.Client.HandleChannelWatch` | src/net/Client.js:78-85 | the NODE_CHANNEL_WATCH case follows `Step`, channel state included |
| `Net.Client.HandleChannelUnwatch` | src/net/Client.js:86-93 | the NODE_CHANNEL_UNWATCH case follows `Step`, channel state included |

## Left out

- src/net/Disposer.js is not part of this model. It holds the listeners, the hard-coded ports and the live-client set, and it was written against a different constructor of `Client`.
- babel.config.js is build configuration only.
- The socket's byte stream is left out. `JSON.stringify` and `socket.write` are modelled as appending a structured `Msg` to `written`, and only for writes made by this client's own `send`.
- The `console.log` calls are left out, and so is the `async` marker on `handleRequest`, which never awaits.
- The code of Channel, Node and NodeManager is not part of this model. `set`, `watch` and `unwatch` are assumed to assign the data, add the subscriber and remove it. The broadcast `set` makes to every subscriber is left out. That includes the requester when it is subscribed, which is why `src/net/Client.js:73` skips the handler's own reply. Those broadcasts, and the ones other clients' sends cause, never appear in `written`.
- The result of `node.listChannel()` is left out. The model assumes it equals neither output type, so `send` drops it, and that the call does not throw when the node exists.
- The values of the `inputTypes` and `outputTypes` constants are not part of this model. The request and output types are enumerations.
- A request that lacks a field is not modelled apart. A missing `nodeId` or `channelName` acts like one that names a missing node or channel. A missing `data` is just another payload.
- `Net.Client.Destroy` visits the registry's channels as a set, not in the map's entry order. Each removal touches only its own channel, so the order cannot change the result.
- The registry's link between `nodes[n].channels` and its own `channels` map is not given by these sources. `Dispatch.DestroyCoversResolvable` assumes it (`Coherent`); the other members do not.
- `Protocol.Outgoing`: requires the data shape its type destructures. Every call in `src/net/Client.js` passes that shape, so a mismatched call is not modelled.
- `Net.Client.Send`: requires the same matching data shape as `Protocol.Outgoing`, for the same reason.

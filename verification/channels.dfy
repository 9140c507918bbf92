/**
 * Channels: a mutable value cell with a set of subscribed clients.
 *
 * The channel's own code is not part of this model. Its three operations
 * are given the least behaviour the dispatcher relies on: `set` assigns the
 * data, `watch` adds a subscriber, `unwatch` removes one. The broadcast
 * `set` makes to every subscriber, the requester included when it is
 * subscribed, is left out.
 */
module Channels {
  import opened Protocol

  /** The observable state of one channel object. */
  datatype ChannelState = ChannelState(id: ChannelId, data: Value, clients: set<object>) {

    function View(): ChannelView {
      ChannelView(id, data)
    }

    /** Assumed `channel.set(data)`. */
    function Set(v: Value): (s: ChannelState)
      ensures s.View() == ChannelView(id, v)
      ensures s.clients == clients
    {
      this.(data := v)
    }

    /** Assumed `channel.watch(client)`. */
    function Watch(c: object): (s: ChannelState)
      ensures s.View() == View()
      ensures c in s.clients
      ensures s.clients - {c} == clients - {c}
    {
      this.(clients := clients + {c})
    }

    /** Assumed `channel.unwatch(client)`. */
    function Unwatch(c: object): (s: ChannelState)
      ensures s.View() == View()
      ensures c !in s.clients
      ensures s.clients - {c} == clients - {c}
    {
      this.(clients := clients - {c})
    }
  }

  /** Watching twice is watching once. */
  lemma WatchIdempotent(s: ChannelState, c: object)
    ensures s.Watch(c).Watch(c) == s.Watch(c)
  {
  }

  /** Unwatching undoes a watch by a client that was not subscribed. */
  lemma UnwatchUndoesWatch(s: ChannelState, c: object)
    requires c !in s.clients
    ensures s.Watch(c).Unwatch(c) == s
  {
  }

  class Channel {
    const id: ChannelId
    var data: Value
    var clients: set<object>

    function State(): ChannelState
      reads this
    {
      ChannelState(id, data, clients)
    }

    method Set(v: Value)
      modifies this
      ensures State() == old(State()).Set(v)
    {
      data := v;
    }

    method Watch(c: object)
      modifies this
      ensures State() == old(State()).Watch(c)
    {
      clients := clients + {c};
    }

    method Unwatch(c: object)
      modifies this
      ensures State() == old(State()).Unwatch(c)
    {
      clients := clients - {c};
    }
  }
}

/**
 * The request dispatcher as a function of the channel state it reads and
 * writes. `Step` is what one `handleRequest` call does; `Detach` is what
 * `destroy` does. The client class in module Net is proved to follow both.
 */
module Dispatch {
  import opened Wrappers
  import opened Protocol
  import opened Channels
  import opened Registry

  /** The state of the channel objects in scope, by object identity. */
  type Heap = map<Channel, ChannelState>

  ghost function Snapshot(chs: set<Channel>): (h: Heap)
    reads chs
    ensures h.Keys == chs
  {
    map ch | ch in chs :: ch.State()
  }

  /** How a `handleRequest` call ends: normally, or by a failed lookup. */
  datatype Outcome = Handled | Rejected(error: LookupError)

  datatype StepResult = StepResult(outcome: Outcome, heap: Heap, out: seq<Msg>)

  /** The channel a request may change: the one it names, for send, watch and unwatch. */
  function Target(reg: NodeManager, req: Request): (t: Option<Channel>)
    ensures t.Some? ==> t.value in reg.Reachable()
  {
    match req
    case ChannelSendReq(n, k, _) => reg.Resolve(n, k).ToOption()
    case ChannelWatchReq(n, k) => reg.Resolve(n, k).ToOption()
    case ChannelUnwatchReq(n, k) => reg.Resolve(n, k).ToOption()
    case _ => None
  }

  /**
   * One `handleRequest(req)` by client `me` against channel state `h`: the
   * outcome, the new channel state and the messages `me` writes.
   */
  function Step(reg: NodeManager, h: Heap, me: object, req: Request): (s: StepResult)
    requires reg.Reachable() <= h.Keys
    ensures s.heap.Keys == h.Keys
    ensures forall ch :: ch in h && Some(ch) != Target(reg, req) ==> s.heap[ch] == h[ch]
    ensures forall ch :: ch in h ==> s.heap[ch].id == h[ch].id
    ensures !req.ChannelSendReq? ==> forall ch :: ch in h ==> s.heap[ch].data == h[ch].data
    ensures !(req.ChannelWatchReq? || req.ChannelUnwatchReq?) ==>
              forall ch :: ch in h ==> s.heap[ch].clients == h[ch].clients
    ensures s.outcome.Rejected? ==> s.heap == h && s.out == []
    ensures |s.out| <= 1
  {
    match req
    case NodeListReq =>
      StepResult(Handled, h, Written(Outgoing(NodeListType, NodeIdsData(reg.nodeOrder))))
    case ChannelListReq(nodeId) =>
      if nodeId !in reg.nodes then StepResult(Rejected(NodeNotFound), h, [])
      else StepResult(Handled, h, Written(Outgoing(ChannelListResult, NoData)))
    case ChannelReadReq(nodeId, name) =>
      (match reg.Resolve(nodeId, name)
       case Err(e) => StepResult(Rejected(e), h, [])
       case Ok(ch) =>
         StepResult(Handled, h, Written(Outgoing(ChannelUpdateType, ChannelData(h[ch].View())))))
    case ChannelSendReq(nodeId, name, data) =>
      (match reg.Resolve(nodeId, name)
       case Err(e) => StepResult(Rejected(e), h, [])
       case Ok(ch) =>
         var h' := h[ch := h[ch].Set(data)];
         StepResult(Handled, h',
           if me in h'[ch].clients then []
           else Written(Outgoing(ChannelUpdateType, ChannelData(h'[ch].View())))))
    case ChannelWatchReq(nodeId, name) =>
      (match reg.Resolve(nodeId, name)
       case Err(e) => StepResult(Rejected(e), h, [])
       case Ok(ch) =>
         var h' := h[ch := h[ch].Watch(me)];
         StepResult(Handled, h', Written(Outgoing(ChannelUpdateType, ChannelData(h'[ch].View())))))
    case ChannelUnwatchReq(nodeId, name) =>
      (match reg.Resolve(nodeId, name)
       case Err(e) => StepResult(Rejected(e), h, [])
       case Ok(ch) => StepResult(Handled, h[ch := h[ch].Unwatch(me)], []))
    case UnknownType =>
      StepResult(Handled, h, [])
  }

  /** `destroy` by client `me`: it leaves the subscriber set of every channel in `targets`. */
  function Detach(h: Heap, targets: set<Channel>, me: object): (h': Heap)
    ensures h'.Keys == h.Keys
    ensures forall ch :: ch in h ==> h'[ch].View() == h[ch].View()
    ensures forall ch :: ch in h && ch in targets ==> me !in h'[ch].clients
    ensures forall ch :: ch in h ==> h'[ch].clients - {me} == h[ch].clients - {me}
    ensures forall ch :: ch in h && ch !in targets ==> h'[ch] == h[ch]
  {
    map ch | ch in h :: if ch in targets then h[ch].(clients := h[ch].clients - {me}) else h[ch]
  }

  /** A heap that agrees with `h` except at `target` is `h` updated there. */
  lemma UpdatedAt(h: Heap, h': Heap, target: Channel)
    requires target in h && h'.Keys == h.Keys
    requires forall ch :: ch in h && ch != target ==> h'[ch] == h[ch]
    ensures h' == h[target := h'[target]]
  {
  }

  /** A heap that agrees with `Detach` at every channel is `Detach`'s result. */
  lemma DetachedAt(h: Heap, h': Heap, targets: set<Channel>, me: object)
    requires h'.Keys == h.Keys
    requires forall ch :: ch in h ==>
      h'[ch] == if ch in targets then h[ch].(clients := h[ch].clients - {me}) else h[ch]
    ensures h' == Detach(h, targets, me)
  {
  }

  // ---------------------------------------------------------------------
  // What each case of the dispatcher does

  /** NODE_LIST replies with every node id, once each, and changes nothing. */
  lemma NodeListReply(reg: NodeManager, h: Heap, me: object)
    requires reg.Valid() && reg.Reachable() <= h.Keys
    ensures var s := Step(reg, h, me, NodeListReq);
      && s.outcome == Handled && s.heap == h
      && |s.out| == 1 && s.out[0].NodeList?
      && (forall id :: id in s.out[0].nodeIds <==> id in reg.nodes)
      && Distinct(s.out[0].nodeIds)
      && |s.out[0].nodeIds| == |reg.nodes|
  {
    var ids := reg.NodeIds();
    assert Step(reg, h, me, NodeListReq).out == [NodeList(ids)];
  }

  /** NODE_CHANNEL_LIST hands the channel list to `send` as its type: nothing is written. */
  lemma ChannelListWritesNothing(reg: NodeManager, h: Heap, me: object, nodeId: NodeId)
    requires reg.Reachable() <= h.Keys
    ensures var s := Step(reg, h, me, ChannelListReq(nodeId));
      && s.heap == h && s.out == []
      && (s.outcome == Handled <==> nodeId in reg.nodes)
  {
  }

  /** NODE_CHANNEL_READ writes one update with the channel's current value. */
  lemma ChannelReadReply(reg: NodeManager, h: Heap, me: object, nodeId: NodeId, name: ChannelName)
    requires reg.Reachable() <= h.Keys
    requires reg.Resolve(nodeId, name).Ok?
    ensures var ch := reg.Resolve(nodeId, name).value;
      var s := Step(reg, h, me, ChannelReadReq(nodeId, name));
      s.outcome == Handled && s.heap == h && s.out == [ChannelUpdate(h[ch].id, h[ch].data)]
  {
  }

  /**
   * NODE_CHANNEL_SEND stores the data; the sender gets one update carrying
   * it exactly when it is not subscribed to the channel.
   */
  lemma ChannelSendEffect(reg: NodeManager, h: Heap, me: object, nodeId: NodeId, name: ChannelName, v: Value)
    requires reg.Reachable() <= h.Keys
    requires reg.Resolve(nodeId, name).Ok?
    ensures var ch := reg.Resolve(nodeId, name).value;
      var s := Step(reg, h, me, ChannelSendReq(nodeId, name, v));
      && s.outcome == Handled
      && s.heap == h[ch := h[ch].Set(v)]
      && s.heap[ch].data == v
      && s.out == (if me in h[ch].clients then [] else [ChannelUpdate(h[ch].id, v)])
  {
  }

  /** NODE_CHANNEL_WATCH subscribes the requester and writes the current value as a snapshot. */
  lemma ChannelWatchEffect(reg: NodeManager, h: Heap, me: object, nodeId: NodeId, name: ChannelName)
    requires reg.Reachable() <= h.Keys
    requires reg.Resolve(nodeId, name).Ok?
    ensures var ch := reg.Resolve(nodeId, name).value;
      var s := Step(reg, h, me, ChannelWatchReq(nodeId, name));
      && s.outcome == Handled
      && s.heap == h[ch := h[ch].Watch(me)]
      && me in s.heap[ch].clients
      && s.out == [ChannelUpdate(h[ch].id, h[ch].data)]
  {
  }

  /** NODE_CHANNEL_UNWATCH unsubscribes the requester and writes nothing. */
  lemma ChannelUnwatchEffect(reg: NodeManager, h: Heap, me: object, nodeId: NodeId, name: ChannelName)
    requires reg.Reachable() <= h.Keys
    requires reg.Resolve(nodeId, name).Ok?
    ensures var ch := reg.Resolve(nodeId, name).value;
      var s := Step(reg, h, me, ChannelUnwatchReq(nodeId, name));
      && s.outcome == Handled
      && s.heap == h[ch := h[ch].Unwatch(me)]
      && me !in s.heap[ch].clients
      && s.out == []
  {
  }

  /** A request of no recognised type changes nothing and writes nothing. */
  lemma UnknownTypeIsInert(reg: NodeManager, h: Heap, me: object)
    requires reg.Reachable() <= h.Keys
    ensures Step(reg, h, me, UnknownType) == StepResult(Handled, h, [])
  {
  }

  /** A request naming a missing node or channel changes nothing and writes nothing. */
  lemma FailedLookupIsInert(reg: NodeManager, h: Heap, me: object, req: Request)
    requires reg.Reachable() <= h.Keys
    requires req.ChannelReadReq? || req.ChannelSendReq? || req.ChannelWatchReq? || req.ChannelUnwatchReq?
    requires reg.Resolve(req.nodeId, req.channelName).Err?
    ensures Step(reg, h, me, req) == StepResult(Rejected(reg.Resolve(req.nodeId, req.channelName).error), h, [])
  {
  }

  /** A read after a send on the same channel, by any client, returns the sent data. */
  lemma ReadAfterSend(reg: NodeManager, h: Heap, a: object, b: object, nodeId: NodeId, name: ChannelName, v: Value)
    requires reg.Reachable() <= h.Keys
    requires reg.Resolve(nodeId, name).Ok?
    ensures var ch := reg.Resolve(nodeId, name).value;
      var h' := Step(reg, h, a, ChannelSendReq(nodeId, name, v)).heap;
      Step(reg, h', b, ChannelReadReq(nodeId, name)).out == [ChannelUpdate(h[ch].id, v)]
  {
    var ch := reg.Resolve(nodeId, name).value;
    ChannelSendEffect(reg, h, a, nodeId, name, v);
    var h' := Step(reg, h, a, ChannelSendReq(nodeId, name, v)).heap;
    ChannelReadReply(reg, h', b, nodeId, name);
  }

  /**
   * When every node's channel is registered, `destroy` unsubscribes the
   * client from every channel any request can name.
   */
  lemma DestroyCoversResolvable(reg: NodeManager, h: Heap, me: object, nodeId: NodeId, name: ChannelName)
    requires reg.Coherent() && reg.Reachable() <= h.Keys
    requires reg.Resolve(nodeId, name).Ok?
    ensures me !in Detach(h, reg.channels.Values, me)[reg.Resolve(nodeId, name).value].clients
  {
    var ch := reg.Resolve(nodeId, name).value;
    assert ch in reg.NodeChannels();
  }

  // ---------------------------------------------------------------------
  // Subscriptions over a history of requests and disconnects

  /** Something that happens on some connection: a request, or a `destroy`. */
  datatype Event = Requested(client: object, req: Request) | Destroyed(client: object)

  function Apply(reg: NodeManager, h: Heap, e: Event): (h': Heap)
    requires reg.Reachable() <= h.Keys
    ensures h'.Keys == h.Keys
  {
    match e
    case Requested(c, req) => Step(reg, h, c, req).heap
    case Destroyed(c) => Detach(h, reg.channels.Values, c)
  }

  function Run(reg: NodeManager, h: Heap, evs: seq<Event>): (h': Heap)
    requires reg.Reachable() <= h.Keys
    ensures h'.Keys == h.Keys
    decreases |evs|
  {
    if evs == [] then h
    else Apply(reg, Run(reg, h, evs[..|evs| - 1]), evs[|evs| - 1])
  }

  /**
   * Whether event `e` decides that client `x` is subscribed to `ch`
   * (`Some(true)`), is not (`Some(false)`), or leaves it as it was (`None`).
   */
  function TouchOf(reg: NodeManager, ch: Channel, x: object, e: Event): Option<bool> {
    match e
    case Destroyed(c) =>
      if c == x && ch in reg.channels.Values then Some(false) else None
    case Requested(c, ChannelWatchReq(n, k)) =>
      if c == x && reg.Resolve(n, k) == Ok(ch) then Some(true) else None
    case Requested(c, ChannelUnwatchReq(n, k)) =>
      if c == x && reg.Resolve(n, k) == Ok(ch) then Some(false) else None
    case Requested(_, _) => None
  }

  /** The most recent decision about `x` on `ch` in `evs`, if any. */
  function LastTouch(reg: NodeManager, ch: Channel, x: object, evs: seq<Event>): Option<bool>
    decreases |evs|
  {
    if evs == [] then None
    else match TouchOf(reg, ch, x, evs[|evs| - 1])
         case Some(b) => Some(b)
         case None => LastTouch(reg, ch, x, evs[..|evs| - 1])
  }

  lemma ApplyTouch(reg: NodeManager, h: Heap, ch: Channel, x: object, e: Event)
    requires reg.Reachable() <= h.Keys && ch in h
    ensures x in Apply(reg, h, e)[ch].clients <==>
      match TouchOf(reg, ch, x, e)
      case Some(b) => b
      case None => x in h[ch].clients
  {
    match e
    case Destroyed(c) =>
    case Requested(c, req) =>
      match req
      case ChannelWatchReq(n, k) =>
        if reg.Resolve(n, k) == Ok(ch) {
          assert Step(reg, h, c, req).heap[ch] == h[ch].Watch(c);
        }
      case ChannelUnwatchReq(n, k) =>
        if reg.Resolve(n, k) == Ok(ch) {
          assert Step(reg, h, c, req).heap[ch] == h[ch].Unwatch(c);
        }
      case _ =>
  }

  /**
   * A client is subscribed to a channel exactly when its latest watch,
   * unwatch or disconnect concerning that channel was a watch, or, if there
   * was none, when it was subscribed at the start.
   */
  lemma {:induction false} SubscriptionHistory(reg: NodeManager, h: Heap, ch: Channel, x: object, evs: seq<Event>)
    requires reg.Reachable() <= h.Keys && ch in h
    ensures x in Run(reg, h, evs)[ch].clients <==>
      match LastTouch(reg, ch, x, evs)
      case Some(b) => b
      case None => x in h[ch].clients
    decreases |evs|
  {
    if evs != [] {
      var prefix := evs[..|evs| - 1];
      SubscriptionHistory(reg, h, ch, x, prefix);
      ApplyTouch(reg, Run(reg, h, prefix), ch, x, evs[|evs| - 1]);
    }
  }
}

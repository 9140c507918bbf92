/**
 * The process-wide node registry, passed explicitly instead of being read
 * from a global. The dispatcher only reads the registry's maps; the channel
 * objects they hold are what it changes.
 */
module Registry {
  import opened Wrappers
  import opened Protocol
  import opened Channels

  /** Why a handler's lookup failed (the source dereferences `undefined`). */
  datatype LookupError = NodeNotFound | ChannelNotFound

  /** A node, as far as the dispatcher sees it: its channels by name. */
  datatype Node = Node(channels: map<ChannelName, Channel>)

  ghost predicate Distinct<T>(s: seq<T>) {
    forall i, j :: 0 <= i < j < |s| ==> s[i] != s[j]
  }

  /** A repetition-free sequence has as many elements as the set it enumerates. */
  lemma {:induction false} DistinctCount<T>(s: seq<T>, keys: set<T>)
    requires Distinct(s)
    requires forall x :: x in s <==> x in keys
    ensures |keys| == |s|
  {
    if s != [] {
      var rest := keys - {s[0]};
      forall x
        ensures x in s[1..] <==> x in rest
      {
        if x in s[1..] {
          var i :| 1 <= i < |s| && s[i] == x;
          assert s[0] != s[i];
        }
        if x in rest {
          assert x in s;
          var i :| 0 <= i < |s| && s[i] == x;
          assert i != 0;
          assert s[1..][i - 1] == x;
        }
      }
      assert Distinct(s[1..]) by {
        forall i, j | 0 <= i < j < |s| - 1
          ensures s[1..][i] != s[1..][j]
        {
          assert s[1..][i] == s[i + 1] && s[1..][j] == s[j + 1];
        }
      }
      DistinctCount(s[1..], rest);
    }
  }

  /**
   * `nodes` and `channels` are the registry's two maps; `nodeOrder` is the
   * insertion order of the `nodes` map, the order in which its keys iterate.
   */
  datatype NodeManager = NodeManager(
    nodeOrder: seq<NodeId>,
    nodes: map<NodeId, Node>,
    channels: map<ChannelId, Channel>)
  {
    /** `nodeOrder` enumerates the keys of `nodes`, each once. */
    ghost predicate Valid() {
      && Distinct(nodeOrder)
      && (forall id :: id in nodeOrder <==> id in nodes)
    }

    /** Every channel reachable through some node. */
    ghost function NodeChannels(): set<Channel> {
      set id, name | id in nodes && name in nodes[id].channels :: nodes[id].channels[name]
    }

    /** Every channel object the dispatcher can touch. */
    ghost function Reachable(): set<Channel> {
      channels.Values + NodeChannels()
    }

    /** Every channel a node owns is also listed in the registry's channel map. */
    ghost predicate Coherent() {
      NodeChannels() <= channels.Values
    }

    /** `Array.from(nodes.keys())`. */
    function NodeIds(): (ids: seq<NodeId>)
      requires Valid()
      ensures forall id :: id in ids <==> id in nodes
      ensures Distinct(ids)
      ensures |ids| == |nodes|
    {
      DistinctCount(nodeOrder, nodes.Keys);
      nodeOrder
    }

    /** `nodes.get(nodeId)` followed by `node.channels.get(channelName)`. */
    function Resolve(nodeId: NodeId, name: ChannelName): (r: Result<Channel, LookupError>)
      ensures r.Ok? <==> nodeId in nodes && name in nodes[nodeId].channels
      ensures r.Ok? ==> r.value == nodes[nodeId].channels[name] && r.value in Reachable()
      ensures r == Err(NodeNotFound) <==> nodeId !in nodes
    {
      if nodeId !in nodes then Err(NodeNotFound)
      else if name !in nodes[nodeId].channels then Err(ChannelNotFound)
      else Ok(nodes[nodeId].channels[name])
    }
  }
}

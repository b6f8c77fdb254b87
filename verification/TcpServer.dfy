/** `TcpServer` as an object: the connection map, the name counter and the functors it posts,
    proved to be the server's part of the life-cycle steps. */
module TcpServers {
  import opened Lifecycle

  predicate QueuesMatch(queues: seq<seq<Task>>, sys: System) {
    |queues| == |sys.loops| > 0 && forall l :: 0 <= l < |queues| ==> queues[l] == sys.loops[l].queue
  }

  predicate NamesMatch(names: seq<nat>, homes: seq<LoopId>, sys: System) {
    && |names| == |homes| == |sys.conns|
    && forall c :: 0 <= c < |names| ==> names[c] == Name(sys.conns[c].serial) && homes[c] == sys.conns[c].home
  }

  class TcpServer {
    var connections: map<nat, ConnId>
    var nextConnId: nat             // an unsigned 32-bit counter
    var queues: seq<seq<Task>>      // the functor queues of the loops, the base loop's first
    var names: seq<nat>             // of the connections accepted so far
    var homes: seq<LoopId>

    ghost var sys: System

    ghost predicate Valid()
      reads this
    {
      && connections == sys.connections
      && nextConnId == Name(sys.serial)
      && QueuesMatch(queues, sys)
      && NamesMatch(names, homes, sys)
    }

    constructor (loops: nat)
      requires loops > 0
      ensures Valid() && sys == Initial(loops) && nextConnId == 1 && connections == map[]
    {
      connections, nextConnId, queues, names, homes := map[], 1, seq(loops, _ => []), [], [];
      sys := Initial(loops);
    }

    /** The next functor queue state after `loop.queueInLoop(task)`. */
    method QueueInLoop(l: LoopId, task: Task)
      requires Valid() && l < |queues|
      modifies this`queues, this`sys
      ensures Valid() && sys == Post(old(sys), l, task) && queues == old(queues)[l := old(queues)[l] + [task]]
    {
      queues := queues[l := queues[l] + [task]];
      sys := Post(sys, l, task);
    }

    /** Accepts `sockfd` for the loop `ioLoop`; `named` says whether getsockname succeeded. A
        name is used up either way. */
    method NewConnection(ioLoop: LoopId, sockfd: int, named: bool)
      requires Valid() && (if named then Enabled(sys, Accept(ioLoop, sockfd)) else Enabled(sys, AcceptFails))
      modifies this
      ensures Valid()
      ensures sys == Next(old(sys), if named then Accept(ioLoop, sockfd) else AcceptFails)
      ensures nextConnId == (old(nextConnId) + 1) % 0x1_0000_0000
      ensures !named ==> names == old(names) && connections == old(connections) && queues == old(queues)
      ensures named ==> names == old(names) + [old(nextConnId)] && homes == old(homes) + [ioLoop]
      ensures named ==> connections == if old(nextConnId) in old(connections) then old(connections)
                                       else old(connections)[old(nextConnId) := |old(names)|]
      ensures named ==> queues == if ioLoop == 0 then old(queues)
                                  else old(queues)[ioLoop := old(queues)[ioLoop] + [Establish(|old(names)|)]]
    {
      hide Lifecycle.NewConnection, QueuesMatch, NamesMatch;
      if named {
        AcceptMatches(queues, names, homes, sys, ioLoop, sockfd);
      } else {
        FailureMatches(queues, names, homes, sys);
      }
      var connName := nextConnId;
      nextConnId := (nextConnId + 1) % NAMES;
      sys := Next(sys, if named then Accept(ioLoop, sockfd) else AcceptFails);
      if !named {
        return;
      }
      var conn := |names|;
      names := names + [connName];
      homes := homes + [ioLoop];
      if connName !in connections {
        connections := connections[connName := conn];
      }
      if ioLoop != 0 {
        queues := queues[ioLoop := queues[ioLoop] + [Establish(conn)]];
      }
    }

    /** The close callback, on the connection's own loop. */
    method RemoveConnection(conn: ConnId)
      requires Valid() && Known(sys, conn)
      modifies this
      ensures Valid()
      ensures sys == if old(homes)[conn] == 0 then Lifecycle.RemoveConnectionInLoop(old(sys), conn) else Post(old(sys), 0, Remove(conn))
      ensures old(homes)[conn] != 0 ==>
                connections == old(connections) && queues == old(queues)[0 := old(queues)[0] + [Remove(conn)]]
      ensures old(homes)[conn] == 0 ==>
                connections == old(connections) - {old(names)[conn]} &&
                queues == if old(names)[conn] in old(connections) then old(queues)[0 := old(queues)[0] + [Destroy(conn)]] else old(queues)
    {
      if homes[conn] == 0 {
        RemoveConnectionInLoop(conn);
      } else {
        QueueInLoop(0, Remove(conn));
      }
    }

    method RemoveConnectionInLoop(conn: ConnId)
      requires Valid() && Known(sys, conn)
      modifies this
      ensures Valid() && sys == Lifecycle.RemoveConnectionInLoop(old(sys), conn)
      ensures names == old(names) && homes == old(homes) && connections == old(connections) - {names[conn]}
      ensures queues == if names[conn] in old(connections)
                        then old(queues)[homes[conn] := old(queues)[homes[conn]] + [Destroy(conn)]] else old(queues)
    {
      sys := Lifecycle.RemoveConnectionInLoop(sys, conn);
      if names[conn] in connections {
        connections := connections - {names[conn]};
        queues := queues[homes[conn] := queues[homes[conn]] + [Destroy(conn)]];
      }
    }
  }

  /** What an accept changes in the map, the names and the queues. */
  lemma AcceptMatches(queues: seq<seq<Task>>, names: seq<nat>, homes: seq<LoopId>, s: System, home: LoopId, fd: int)
    requires QueuesMatch(queues, s) && NamesMatch(names, homes, s) && home < |s.loops|
    ensures home < |queues|
    ensures var t := Lifecycle.NewConnection(s, home, fd);
      var c := |s.conns|;
      && |names| == c && t.serial == s.serial + 1
      && t.connections == (if Name(s.serial) in s.connections then s.connections else s.connections[Name(s.serial) := c])
      && NamesMatch(names + [Name(s.serial)], homes + [home], t)
      && QueuesMatch(if home == 0 then queues else queues[home := queues[home] + [Establish(c)]], t)
  {
    AcceptEffect(s, home, fd);
  }

  lemma AcceptEffect(s: System, home: LoopId, fd: int)
    requires home < |s.loops|
    ensures var t := Lifecycle.NewConnection(s, home, fd);
      var c := |s.conns|;
      && t.serial == s.serial + 1
      && t.connections == (if Name(s.serial) in s.connections then s.connections else s.connections[Name(s.serial) := c])
      && |t.conns| == c + 1 && t.conns[c].serial == s.serial && t.conns[c].home == home
      && (forall d :: 0 <= d < c ==> t.conns[d] == s.conns[d])
      && |t.loops| == |s.loops|
      && (forall l :: 0 <= l < |s.loops| ==>
            t.loops[l].queue == if l == home && home != 0 then s.loops[l].queue + [Establish(c)] else s.loops[l].queue)
  {
    hide Poller.Apply;
  }

  lemma FailureMatches(queues: seq<seq<Task>>, names: seq<nat>, homes: seq<LoopId>, s: System)
    requires QueuesMatch(queues, s) && NamesMatch(names, homes, s)
    ensures var t := s.(serial := s.serial + 1, incoming := false);
      QueuesMatch(queues, t) && NamesMatch(names, homes, t)
  {
  }
}

/** `Channel` and `EPollPoller` as objects, proved against the registers of `Poller`. */
module Channels {
  import opened Poller

  datatype Callback = CloseCallback | ErrorCallback | ReadCallback | WriteCallback

  /** One entry of the array that `epoll_wait` fills. */
  datatype Ready = Ready(channel: Channel, revents: Mask)

  class EPollPoller {
    var channels: map<int, Channel>
    var kernel: map<int, Interest<Channel>>  // the interest list behind epollfd_
    var eventListSize: nat                   // events_.size()
    var faults: nat                          // failed epoll_ctl calls
    var exited: bool                         // a failed ADD or MOD ends the process
    ghost var universe: set<Channel>         // the channels created on this loop

    ghost predicate Valid()
      reads this
    {
      eventListSize > 0 && (exited ==> faults > 0)
    }

    ghost function View(): Registry<Channel>
      reads this, universe
    {
      Registry(channels, kernel, map c | c in universe :: Slot(c.fd, c.index, c.events), faults)
    }

    constructor ()
      ensures Valid() && universe == {} && Coherent(View()) && eventListSize == 16 && !exited
    {
      channels, kernel, eventListSize, faults, exited, universe := map[], map[], 16, 0, false, {};
    }

    method UpdateOperation(op: CtlOp, channel: Channel)
      requires Valid() && channel in universe
      modifies this`kernel, this`faults, this`exited
      ensures Valid() && View() == Poller.UpdateOperation(old(View()), op, channel)
      ensures var refused := (op == CtlAdd) == (channel.fd in old(kernel));
        && faults == old(faults) + (if refused then 1 else 0)
        && exited == (old(exited) || (refused && op != CtlDel))
        && kernel == if refused then old(kernel)
                     else if op == CtlDel then old(kernel) - {channel.fd}
                     else old(kernel)[channel.fd := Interest(channel, channel.events)]
    {
      if (op == CtlAdd && channel.fd !in kernel) || (op == CtlMod && channel.fd in kernel) {
        kernel := kernel[channel.fd := Interest(channel, channel.events)];
      } else if op == CtlDel && channel.fd in kernel {
        kernel := kernel - {channel.fd};
      } else {
        faults := faults + 1;
        if op != CtlDel {
          exited := true;
        }
      }
    }

    method UpdateChannel(channel: Channel)
      requires Valid() && channel in universe && channel.poller == this
      modifies this`channels, this`kernel, this`faults, this`exited, channel`index
      ensures Valid() && View() == Update(old(View()), channel)
      ensures channel.index == if old(channel.index) == KAdded && channel.events == {} then KDeleted else KAdded
    {
      var index := channel.index;
      if index == KNew || index == KDeleted {
        ghost var before := View();
        if index == KNew {
          channels := channels[channel.fd := channel];
        }
        assert View() == before.(channels := channels);
        channel.SetIndex(KAdded);
        UpdateOperation(CtlAdd, channel);
      } else if channel.events == NONE_EVENT {
        UpdateOperation(CtlDel, channel);
        channel.SetIndex(KDeleted);
      } else {
        UpdateOperation(CtlMod, channel);
      }
    }

    method RemoveChannel(channel: Channel)
      requires Valid() && channel in universe && channel.poller == this
      modifies this`channels, this`kernel, this`faults, this`exited, channel`index
      ensures Valid() && View() == Remove(old(View()), channel)
      ensures channel.index == KNew
    {
      ghost var before := View();
      channels := channels - {channel.fd};
      assert View() == before.(channels := channels);
      if channel.index == KAdded {
        UpdateOperation(CtlDel, channel);
      }
      channel.SetIndex(KNew);
    }

    method HasChannel(channel: Channel) returns (exists_: bool)
      requires channel in universe
      ensures exists_ <==> Poller.HasChannel(View(), channel)
      ensures Coherent(View()) ==> (exists_ <==> channel.index != KNew)
    {
      exists_ := channel.fd in channels && channels[channel.fd] == channel;
      assert Coherent(View()) ==> Agrees(View(), channel);
    }

    /** `epoll_wait` returned `ready`, each channel once and no more than fit. The active
        list is the ready channels in order, each carries its own returned events, and the
        event list doubles exactly when it was full. */
    method Poll(ready: seq<Ready>) returns (active: seq<Channel>)
      requires Valid() && |ready| <= eventListSize
      requires forall i, j :: 0 <= i < j < |ready| ==> ready[i].channel != ready[j].channel
      modifies this`eventListSize, (set i | 0 <= i < |ready| :: ready[i].channel)`revents
      ensures Valid()
      ensures |active| == |ready|
      ensures forall i :: 0 <= i < |ready| ==> active[i] == ready[i].channel && active[i].revents == ready[i].revents
      ensures eventListSize == if |ready| == old(eventListSize) then 2 * old(eventListSize) else old(eventListSize)
    {
      active := [];
      for i := 0 to |ready|
        invariant |active| == i && eventListSize == old(eventListSize)
        invariant forall k :: 0 <= k < i ==> active[k] == ready[k].channel && active[k].revents == ready[k].revents
      {
        ready[i].channel.revents := ready[i].revents;
        active := active + [ready[i].channel];
      }
      if |ready| > 0 && |ready| == eventListSize {
        eventListSize := eventListSize * 2;
      }
    }
  }

  class Channel {
    const poller: EPollPoller  // loop_->poller_
    const fd: int
    var events: Mask
    var revents: Mask
    var index: Index
    var tied: bool

    ghost predicate Known()
      reads this, poller
    {
      poller.Valid() && this in poller.universe
    }

    constructor (poller: EPollPoller, fd: int)
      requires poller.Valid()
      modifies poller`universe
      ensures Known() && fresh(this) && this.poller == poller && this.fd == fd && events == {} && index == KNew && !tied
      ensures poller.universe == old(poller.universe) + {this}
      ensures poller.View() == Adopt(old(poller.View()), this, fd)
    {
      this.poller, this.fd, events, revents, index, tied := poller, fd, NONE_EVENT, NONE_EVENT, KNew, false;
      new;
      poller.universe := poller.universe + {this};
    }

    method SetIndex(index: Index)
      requires Known()
      modifies this`index
      ensures this.index == index && poller.View() == Poller.SetIndex(old(poller.View()), this, index)
    {
      this.index := index;
    }

    /** `tie`: from now on dispatch needs the owner alive. */
    method Tie()
      modifies this`tied
      ensures tied
    {
      tied := true;
    }

    method EnableReading()
      requires Known()
      modifies this`events, this`index, poller`channels, poller`kernel, poller`faults, poller`exited
      ensures Known() && poller.View() == Apply(old(poller.View()), this, ChannelOp.EnableReading)
      ensures events == old(events) + {In, Pri}
    {
      ghost var before := poller.View();
      events := events + READ_EVENT;
      assert poller.View() == before.(slots := before.slots[this := before.slots[this].(events := events)]);
      poller.UpdateChannel(this);
    }

    method DisableReading()
      requires Known()
      modifies this`events, this`index, poller`channels, poller`kernel, poller`faults, poller`exited
      ensures Known() && poller.View() == Apply(old(poller.View()), this, ChannelOp.DisableReading)
      ensures events == old(events) - {In, Pri}
    {
      ghost var before := poller.View();
      events := events - READ_EVENT;
      assert poller.View() == before.(slots := before.slots[this := before.slots[this].(events := events)]);
      poller.UpdateChannel(this);
    }

    method EnableWriting()
      requires Known()
      modifies this`events, this`index, poller`channels, poller`kernel, poller`faults, poller`exited
      ensures Known() && poller.View() == Apply(old(poller.View()), this, ChannelOp.EnableWriting)
      ensures events == old(events) + {Out}
    {
      ghost var before := poller.View();
      events := events + WRITE_EVENT;
      assert poller.View() == before.(slots := before.slots[this := before.slots[this].(events := events)]);
      poller.UpdateChannel(this);
    }

    method DisableWriting()
      requires Known()
      modifies this`events, this`index, poller`channels, poller`kernel, poller`faults, poller`exited
      ensures Known() && poller.View() == Apply(old(poller.View()), this, ChannelOp.DisableWriting)
      ensures events == old(events) - {Out}
    {
      ghost var before := poller.View();
      events := events - WRITE_EVENT;
      assert poller.View() == before.(slots := before.slots[this := before.slots[this].(events := events)]);
      poller.UpdateChannel(this);
    }

    method DisableAll()
      requires Known()
      modifies this`events, this`index, poller`channels, poller`kernel, poller`faults, poller`exited
      ensures Known() && poller.View() == Apply(old(poller.View()), this, ChannelOp.DisableAll)
      ensures events == {}
    {
      ghost var before := poller.View();
      events := NONE_EVENT;
      assert poller.View() == before.(slots := before.slots[this := before.slots[this].(events := events)]);
      poller.UpdateChannel(this);
    }

    method Remove()
      requires Known()
      modifies this`index, poller`channels, poller`kernel, poller`faults, poller`exited
      ensures Known() && poller.View() == Apply(old(poller.View()), this, ChannelOp.RemoveChannel)
      ensures index == KNew
    {
      poller.RemoveChannel(this);
    }

    predicate IsWriting()
      reads this
    {
      Out in events
    }

    /** Which callbacks one dispatch runs, in order. A tied channel whose owner is gone
        runs none. */
    method HandleEvent(ownerAlive: bool) returns (ran: seq<Callback>)
      ensures ran == if tied && !ownerAlive then [] else Dispatched(revents)
    {
      DispatchedInOrder(revents);
      ran := [];
      if !tied || ownerAlive {
        if Hup in revents && In !in revents {
          ran := ran + [CloseCallback];
        }
        if Err in revents {
          ran := ran + [ErrorCallback];
        }
        if In in revents || Pri in revents {
          ran := ran + [ReadCallback];
        }
        if Out in revents {
          ran := ran + [WriteCallback];
        }
      }
    }
  }

  /** The callbacks that a set of returned events selects, in dispatch order. */
  function Dispatched(revents: Mask): seq<Callback> {
    Select(revents, [CloseCallback, ErrorCallback, ReadCallback, WriteCallback])
  }

  function Select(revents: Mask, from: seq<Callback>): seq<Callback> {
    if from == [] then []
    else (if Selects(revents, from[0]) then [from[0]] else []) + Select(revents, from[1..])
  }

  predicate Selects(revents: Mask, callback: Callback) {
    match callback
    case CloseCallback => Hup in revents && In !in revents
    case ErrorCallback => Err in revents
    case ReadCallback => revents * READ_EVENT != {}
    case WriteCallback => Out in revents
  }

  lemma DispatchedInOrder(revents: Mask)
    ensures Dispatched(revents) ==
            (if Hup in revents && In !in revents then [CloseCallback] else [])
            + (if Err in revents then [ErrorCallback] else [])
            + (if In in revents || Pri in revents then [ReadCallback] else [])
            + (if Out in revents then [WriteCallback] else [])
  {
    assert In in revents ==> In in revents * READ_EVENT;
    assert Pri in revents ==> Pri in revents * READ_EVENT;
    SelectFirst(revents, CloseCallback, [ErrorCallback, ReadCallback, WriteCallback]);
    SelectFirst(revents, ErrorCallback, [ReadCallback, WriteCallback]);
    SelectFirst(revents, ReadCallback, [WriteCallback]);
    SelectFirst(revents, WriteCallback, []);
  }

  lemma SelectFirst(revents: Mask, first: Callback, rest: seq<Callback>)
    ensures Select(revents, [first] + rest) == (if Selects(revents, first) then [first] else []) + Select(revents, rest)
  {
    assert ([first] + rest)[1..] == rest;
  }

  /** How often `handleClose` runs while a connection's channel is dispatched: the close
      callback calls it, and the read callback calls it when the read returns zero. */
  function ClosesRun(ran: seq<Callback>, readReturnsZero: bool): nat {
    if ran == [] then 0
    else
      (if ran[0] == CloseCallback || (ran[0] == ReadCallback && readReturnsZero) then 1 else 0)
      + ClosesRun(ran[1..], readReturnsZero)
  }

  /** One dispatch closes a connection at most twice, and twice exactly on a hang-up that
      reports urgent data but no input and whose read returns zero. */
  lemma DoubleClose(revents: Mask, readReturnsZero: bool)
    ensures var n := ClosesRun(Dispatched(revents), readReturnsZero);
      && n <= 2
      && (n == 2 <==> Hup in revents && Pri in revents && In !in revents && readReturnsZero)
      && (n == 0 <==> !(Hup in revents && In !in revents) && !(readReturnsZero && (In in revents || Pri in revents)))
  {
    DispatchedInOrder(revents);
    var close := if Hup in revents && In !in revents then [CloseCallback] else [];
    var error := if Err in revents then [ErrorCallback] else [];
    var read := if In in revents || Pri in revents then [ReadCallback] else [];
    var write := if Out in revents then [WriteCallback] else [];
    ClosesAdd(close + error + read, write, readReturnsZero);
    ClosesAdd(close + error, read, readReturnsZero);
    ClosesAdd(close, error, readReturnsZero);
  }

  lemma {:induction false} ClosesAdd(a: seq<Callback>, b: seq<Callback>, zero: bool)
    ensures ClosesRun(a + b, zero) == ClosesRun(a, zero) + ClosesRun(b, zero)
  {
    if a == [] {
      assert a + b == b;
    } else {
      assert (a + b)[1..] == a[1..] + b;
      ClosesAdd(a[1..], b, zero);
    }
  }
}

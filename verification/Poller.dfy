/** The three registers of which channel watches which descriptor: a channel's own
    `index_`, the poller's `channels_` map, and the kernel's epoll interest list. */
module Poller {

  /** Event masks as sets of epoll flags; `kReadEvent` is EPOLLIN | EPOLLPRI. */
  datatype Flag = In | Pri | Out | Err | Hup

  type Mask = set<Flag>

  const NONE_EVENT: Mask := {}
  const READ_EVENT: Mask := {In, Pri}
  const WRITE_EVENT: Mask := {Out}

  datatype Index = KNew | KAdded | KDeleted

  datatype CtlOp = CtlAdd | CtlMod | CtlDel

  datatype Interest<+C> = Interest(owner: C, mask: Mask)

  /** What one channel stores about itself. */
  datatype Slot = Slot(fd: int, index: Index, events: Mask)

  /** A poller, the kernel's interest list behind it, the channels that use it, and how
      many `epoll_ctl` calls have failed so far. */
  datatype Registry<!C(==)> = Registry(
    channels: map<int, C>,
    kernel: map<int, Interest<C>>,
    slots: map<C, Slot>,
    faults: nat)

  /** The calls a channel offers to its owner. */
  datatype ChannelOp = EnableReading | DisableReading | EnableWriting | DisableWriting | DisableAll | RemoveChannel

  /** The kernel refuses to add a descriptor twice and to change or delete an absent one. */
  predicate CtlAccepts<C>(kernel: map<int, Interest<C>>, op: CtlOp, fd: int) {
    match op
    case CtlAdd => fd !in kernel
    case CtlMod => fd in kernel
    case CtlDel => fd in kernel
  }

  function EpollCtl<C>(kernel: map<int, Interest<C>>, op: CtlOp, fd: int, interest: Interest<C>): map<int, Interest<C>> {
    if !CtlAccepts(kernel, op, fd) then kernel
    else if op == CtlDel then kernel - {fd}
    else kernel[fd := interest]
  }

  function UpdateOperation<C>(r: Registry<C>, op: CtlOp, c: C): Registry<C>
    requires c in r.slots
  {
    var slot := r.slots[c];
    r.(kernel := EpollCtl(r.kernel, op, slot.fd, Interest(c, slot.events)),
       faults := if CtlAccepts(r.kernel, op, slot.fd) then r.faults else r.faults + 1)
  }

  function SetIndex<C>(r: Registry<C>, c: C, index: Index): Registry<C>
    requires c in r.slots
  {
    r.(slots := r.slots[c := r.slots[c].(index := index)])
  }

  /** What `updateChannel` does to the three registers. */
  function Update<C>(r: Registry<C>, c: C): Registry<C>
    requires c in r.slots
  {
    var slot := r.slots[c];
    if slot.index == KAdded then
      if slot.events == NONE_EVENT then SetIndex(UpdateOperation(r, CtlDel, c), c, KDeleted)
      else UpdateOperation(r, CtlMod, c)
    else
      var r1 := if slot.index == KNew then r.(channels := r.channels[slot.fd := c]) else r;
      UpdateOperation(SetIndex(r1, c, KAdded), CtlAdd, c)
  }

  /** What `removeChannel` does to the three registers. */
  function Remove<C>(r: Registry<C>, c: C): Registry<C>
    requires c in r.slots
  {
    var slot := r.slots[c];
    var r1 := r.(channels := r.channels - {slot.fd});
    SetIndex(if slot.index == KAdded then UpdateOperation(r1, CtlDel, c) else r1, c, KNew)
  }

  function NewEvents(events: Mask, op: ChannelOp): Mask {
    match op
    case EnableReading => events + READ_EVENT
    case DisableReading => events - READ_EVENT
    case EnableWriting => events + WRITE_EVENT
    case DisableWriting => events - WRITE_EVENT
    case DisableAll => NONE_EVENT
    case RemoveChannel => events
  }

  /** One call on channel `c`. */
  function Apply<C>(r: Registry<C>, c: C, op: ChannelOp): Registry<C>
    requires c in r.slots
  {
    if op == RemoveChannel then Remove(r, c)
    else Update(r.(slots := r.slots[c := r.slots[c].(events := NewEvents(r.slots[c].events, op))]), c)
  }

  /** A channel object is created: it is known to the poller but not registered. */
  function Adopt<C>(r: Registry<C>, c: C, fd: int): Registry<C> {
    r.(slots := r.slots[c := Slot(fd, KNew, NONE_EVENT)])
  }

  /** `hasChannel`: the map has this very channel under its descriptor. */
  predicate HasChannel<C>(r: Registry<C>, c: C)
    requires c in r.slots
  {
    r.slots[c].fd in r.channels && r.channels[r.slots[c].fd] == c
  }

  predicate Watched<C>(r: Registry<C>, c: C)
    requires c in r.slots
  {
    r.slots[c].fd in r.kernel && r.kernel[r.slots[c].fd].owner == c
  }

  /** The agreement of the three registers for one channel. */
  predicate Agrees<C>(r: Registry<C>, c: C)
    requires c in r.slots
  {
    var slot := r.slots[c];
    && (slot.index != KNew <==> HasChannel(r, c))
    && (slot.index == KAdded <==> Watched(r, c))
    && (slot.index == KAdded ==> r.kernel[slot.fd].mask == slot.events)
    && (slot.index == KDeleted ==> slot.events == NONE_EVENT)
  }

  ghost predicate Coherent<C>(r: Registry<C>) {
    && r.faults == 0
    && (forall c :: c in r.slots ==> Agrees(r, c))
    && (forall fd :: fd in r.channels ==> r.channels[fd] in r.slots && r.slots[r.channels[fd]].fd == fd)
    && (forall fd :: fd in r.kernel ==> r.kernel[fd].owner in r.slots && r.slots[r.kernel[fd].owner].fd == fd)
  }

  /** Descriptors are distinct among live channels: a channel that is about to register
      does not find another one under its descriptor. */
  predicate FdFree<C>(r: Registry<C>, c: C)
    requires c in r.slots
  {
    r.slots[c].index == KNew ==> r.slots[c].fd !in r.channels
  }

  // ----- one call ---------------------------------------------------------------------

  /** What a call leaves alone: descriptors, every other channel's slot, and every entry of
      the map and of the interest list that is not under the caller's descriptor. */
  lemma ApplyFrame<C>(r: Registry<C>, c: C, op: ChannelOp)
    requires c in r.slots
    ensures var r' := Apply(r, c, op);
      && r'.slots.Keys == r.slots.Keys
      && r'.slots[c].fd == r.slots[c].fd
      && r'.slots[c].events == NewEvents(r.slots[c].events, op)
      && (forall d :: d in r.slots && d != c ==> r'.slots[d] == r.slots[d])
      && (forall fd :: fd != r.slots[c].fd ==> (fd in r'.channels <==> fd in r.channels) && (fd in r.channels ==> r'.channels[fd] == r.channels[fd]))
      && (forall fd :: fd != r.slots[c].fd ==> (fd in r'.kernel <==> fd in r.kernel) && (fd in r.kernel ==> r'.kernel[fd] == r.kernel[fd]))
  {
  }

  /** The index a call leaves. A mask emptied while the channel is added takes it out of
      the interest list, and any call but `remove` on a channel outside the list puts it
      back in, whatever its mask is. */
  lemma IndexAfter<C>(r: Registry<C>, c: C, op: ChannelOp)
    requires c in r.slots
    ensures Apply(r, c, op).slots[c].index ==
            if op == RemoveChannel then KNew
            else if r.slots[c].index == KAdded && NewEvents(r.slots[c].events, op) == NONE_EVENT then KDeleted
            else KAdded
  {
  }

  /** A second `disableAll` undoes the first: the channel is watched again, with an empty mask. */
  lemma DisableAllTwice<C>(r: Registry<C>, c: C)
    requires Coherent(r) && c in r.slots && Watched(r, c)
    ensures var once := Apply(r, c, DisableAll);
      && Coherent(once) && !Watched(once, c)
      && var twice := Apply(once, c, DisableAll);
      && Coherent(twice) && Watched(twice, c) && twice.kernel[twice.slots[c].fd].mask == NONE_EVENT
  {
    var once := Apply(r, c, DisableAll);
    ApplyKeepsCoherence(r, c, DisableAll);
    IndexAfter(r, c, DisableAll);
    ApplyKeepsCoherence(once, c, DisableAll);
    IndexAfter(once, c, DisableAll);
  }

  /** From registers in agreement, an `epoll_ctl` is refused exactly when a channel that is new
      to the poller asks for a descriptor that the kernel watches already. */
  lemma RefusedIff<C>(r: Registry<C>, c: C, op: ChannelOp)
    requires Coherent(r) && c in r.slots
    ensures Apply(r, c, op).faults ==
            if op != RemoveChannel && r.slots[c].index == KNew && r.slots[c].fd in r.kernel then 1 else 0
  {
    var fd := r.slots[c].fd;
    assert Agrees(r, c);
    assert fd in r.kernel ==> Agrees(r, r.kernel[fd].owner);
  }

  /** The three registers stay in agreement, and no `epoll_ctl` fails, exactly when the
      caller's descriptor is not held by another live channel. */
  lemma ApplyKeepsCoherence<C>(r: Registry<C>, c: C, op: ChannelOp)
    requires Coherent(r) && c in r.slots
    ensures Coherent(Apply(r, c, op)) <==> FdFree(r, c)
  {
    if FdFree(r, c) {
      ApplySound(r, c, op);
    } else {
      ApplyClash(r, c, op);
    }
  }

  lemma ApplySound<C>(r: Registry<C>, c: C, op: ChannelOp)
    requires Coherent(r) && c in r.slots && FdFree(r, c)
    ensures Coherent(Apply(r, c, op))
  {
    var r' := Apply(r, c, op);
    ApplyFrame(r, c, op);
    OwnDescriptor(r, c);
    ApplyAgrees(r, c, op);
    forall d | d in r'.slots && d != c
      ensures Agrees(r', d)
    {
      OthersAgree(r, c, op, d);
    }
  }

  lemma OthersAgree<C>(r: Registry<C>, c: C, op: ChannelOp, d: C)
    requires Coherent(r) && c in r.slots && FdFree(r, c) && d in r.slots && d != c
    ensures Agrees(Apply(r, c, op), d)
  {
    ApplyFrame(r, c, op);
    OwnDescriptor(r, c);
    assert Agrees(r, d);
  }

  /** Whatever stands under a free descriptor is the channel's own. */
  lemma OwnDescriptor<C>(r: Registry<C>, c: C)
    requires Coherent(r) && c in r.slots && FdFree(r, c)
    ensures r.slots[c].fd in r.kernel ==> r.kernel[r.slots[c].fd].owner == c
    ensures r.slots[c].fd in r.channels ==> r.channels[r.slots[c].fd] == c
  {
    var fd := r.slots[c].fd;
    assert Agrees(r, c);
    assert fd in r.kernel ==> Agrees(r, r.kernel[fd].owner);
    assert fd in r.channels ==> Agrees(r, r.channels[fd]);
  }

  lemma ApplyAgrees<C>(r: Registry<C>, c: C, op: ChannelOp)
    requires Coherent(r) && c in r.slots && FdFree(r, c)
    ensures Agrees(Apply(r, c, op), c) && Apply(r, c, op).faults == 0
  {
    OwnDescriptor(r, c);
    assert Agrees(r, c);
  }

  /** The other live channel under the same descriptor loses its map entry. */
  lemma ApplyClash<C>(r: Registry<C>, c: C, op: ChannelOp)
    requires Coherent(r) && c in r.slots && !FdFree(r, c)
    ensures !Coherent(Apply(r, c, op))
  {
    var r' := Apply(r, c, op);
    var d := r.channels[r.slots[c].fd];
    ApplyFrame(r, c, op);
    assert Agrees(r, d) && Agrees(r, c);
    assert r'.slots[d] == r.slots[d] && r'.slots[d].index != KNew;
    assert !HasChannel(r', d);
    assert !Agrees(r', d);
  }

  lemma AdoptCoherent<C>(r: Registry<C>, c: C, fd: int)
    requires Coherent(r) && c !in r.slots
    ensures Coherent(Adopt(r, c, fd))
  {
    var r' := Adopt(r, c, fd);
    forall d | d in r'.slots
      ensures Agrees(r', d)
    {
      if d != c {
        assert Agrees(r, d);
      }
    }
  }

  // ----- every sequence of calls --------------------------------------------------------

  datatype Call<C> = Call(channel: C, op: ChannelOp)

  function RunCalls<C>(r: Registry<C>, calls: seq<Call<C>>): Registry<C>
    requires forall k :: 0 <= k < |calls| ==> calls[k].channel in r.slots
    decreases |calls|
  {
    if calls == [] then r
    else RunCalls(Apply(r, calls[0].channel, calls[0].op), calls[1..])
  }

  /** Every call of the sequence finds its descriptor free of other live channels. */
  predicate DistinctFds<C>(r: Registry<C>, calls: seq<Call<C>>)
    requires forall k :: 0 <= k < |calls| ==> calls[k].channel in r.slots
    decreases |calls|
  {
    calls == [] ||
    (FdFree(r, calls[0].channel) && DistinctFds(Apply(r, calls[0].channel, calls[0].op), calls[1..]))
  }

  /** After any sequence of calls with distinct live descriptors, no `epoll_ctl` has failed
      (so the fatal branch was never reached), a channel is added iff the kernel watches its
      descriptor for it with its own mask, and `hasChannel` answers yes iff its index is not New. */
  lemma {:induction false} CallsKeepAgreement<C>(r: Registry<C>, calls: seq<Call<C>>)
    requires Coherent(r)
    requires forall k :: 0 <= k < |calls| ==> calls[k].channel in r.slots
    requires DistinctFds(r, calls)
    ensures var r' := RunCalls(r, calls);
      && r'.faults == 0
      && r'.slots.Keys == r.slots.Keys
      && forall c :: c in r'.slots ==>
           && (r'.slots[c].index == KAdded <==> Watched(r', c))
           && (Watched(r', c) ==> r'.kernel[r'.slots[c].fd].mask == r'.slots[c].events)
           && (HasChannel(r', c) <==> r'.slots[c].index != KNew)
           && (r'.slots[c].index == KDeleted ==> r'.slots[c].events == NONE_EVENT)
    decreases |calls|
  {
    if calls == [] {
      forall c | c in r.slots
        ensures Agrees(r, c)
      {
      }
    } else {
      ApplyKeepsCoherence(r, calls[0].channel, calls[0].op);
      CallsKeepAgreement(Apply(r, calls[0].channel, calls[0].op), calls[1..]);
    }
  }
}

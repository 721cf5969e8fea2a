/** One process's side of the packet stream, as steps: a bounded netlink channel, the receiver
    thread, the heap packets it allocates, and the queue the main thread pops. The daemon and the
    hunter run the same code here. */
module Pipeline {
  import opened Packets

  /** Where the receiver thread stands, with the packet in its hand by id. */
  datatype ReceiverPc =
    | NotStarted
    | Check               // while (running)
    | Recv                // blocked in recv
    | Test(id: nat)       // terminate message?
    | Push(id: nat)
    | Exited              // saw running false
    | Stopped(id: nat)    // left by break; the terminate packet is never freed

  /** Packets are named by the order in which they were allocated. `accepted` and `popped` record
      what the channel took in and what the main thread took out. */
  datatype Pipe = Pipe(
    cap: nat,
    chan: seq<PacketInfo>, accepted: seq<PacketInfo>,
    heap: seq<PacketInfo>, receiver: ReceiverPc,
    queue: seq<nat>, popped: seq<nat>)

  function EmptyPipe(cap: nat): Pipe { Pipe(cap, [], [], [], NotStarted, [], []) }

  /** A non-blocking unicast: a full channel drops the message. */
  function Offer(p: Pipe, msg: PacketInfo): Pipe {
    if |p.chan| < p.cap then p.(chan := p.chan + [msg], accepted := p.accepted + [msg]) else p
  }

  predicate ReceiverDone(p: Pipe) { p.receiver.Exited? || p.receiver.Stopped? }

  predicate CanReceive(p: Pipe) {
    match p.receiver
    case Check => true
    case Recv => p.chan != []
    case Test(id) => id < |p.heap|
    case Push(_) => true
    case _ => false
  }

  /** One step of the receiver thread. */
  function Receive(p: Pipe, running: bool): Pipe
    requires CanReceive(p)
  {
    match p.receiver
    case Check => p.(receiver := if running then Recv else Exited)
    case Recv => p.(chan := p.chan[1..], heap := p.heap + [p.chan[0]], receiver := Test(|p.heap|))
    case Test(id) => p.(receiver := if IsStop(p.heap[id]) then Stopped(id) else Push(id))
    case Push(id) => p.(queue := p.queue + [id], receiver := Check)
  }

  /** The main thread takes the oldest packet. */
  function Pop(p: Pipe): Pipe
    requires p.queue != []
  {
    p.(queue := p.queue[1..], popped := p.popped + [p.queue[0]])
  }

  // ----- the invariant of every run -----

  function Pushed(p: Pipe): nat { |p.popped| + |p.queue| }

  predicate PipeInv(p: Pipe) {
    && |p.chan| <= p.cap
    && p.accepted == p.heap + p.chan
    && (forall i :: 0 <= i < |p.popped| ==> p.popped[i] == i)
    && (forall i :: 0 <= i < |p.queue| ==> p.queue[i] == |p.popped| + i)
    && Pushed(p) <= |p.heap|
    && (forall i :: 0 <= i < Pushed(p) ==> !IsStop(p.heap[i]))
    && HandInv(p)
  }

  predicate HandInv(p: Pipe) {
    match p.receiver
    case Test(id) => id == Pushed(p) && |p.heap| == id + 1
    case Push(id) => id == Pushed(p) && |p.heap| == id + 1 && !IsStop(p.heap[id])
    case Stopped(id) => id == Pushed(p) && |p.heap| == id + 1 && IsStop(p.heap[id])
    case _ => |p.heap| == Pushed(p) && (p.receiver.NotStarted? ==> p.heap == [])
  }

  lemma OfferKeeps(p: Pipe, msg: PacketInfo)
    requires PipeInv(p)
    ensures PipeInv(Offer(p, msg))
  {
    assert p.heap + (p.chan + [msg]) == (p.heap + p.chan) + [msg];
  }

  lemma ReceiveKeeps(p: Pipe, running: bool)
    requires PipeInv(p) && CanReceive(p)
    ensures PipeInv(Receive(p, running))
  {
    if p.receiver.Recv? {
      assert p.heap + p.chan == (p.heap + [p.chan[0]]) + p.chan[1..];
    }
  }

  lemma PopKeeps(p: Pipe)
    requires PipeInv(p) && p.queue != []
    ensures PipeInv(Pop(p))
  {}

  lemma StartKeeps(p: Pipe)
    requires PipeInv(p) && p.receiver.NotStarted?
    ensures PipeInv(p.(receiver := Check))
  {}

  // ----- what the invariant says -----

  function Ids(n: nat): (r: seq<nat>)
    ensures |r| == n && forall i :: 0 <= i < n ==> r[i] == i
  {
    if n == 0 then [] else Ids(n - 1) + [n - 1]
  }

  function InHand(r: ReceiverPc): seq<nat> {
    if r.Test? || r.Push? then [r.id] else []
  }

  function StopPacket(r: ReceiverPc): seq<nat> {
    if r.Stopped? then [r.id] else []
  }

  /** First in, first out under every interleaving: popped, queued, in hand and (once only) the
      consumed terminate packet are all the packets ever allocated, in order; with the unread
      messages behind them they are what the channel accepted. No terminate message is popped,
      queued or about to be pushed. */
  lemma Fifo(p: Pipe)
    requires PipeInv(p)
    ensures p.popped + p.queue + InHand(p.receiver) + StopPacket(p.receiver) == Ids(|p.heap|)
    ensures p.heap + p.chan == p.accepted
    ensures forall id :: id in p.popped + p.queue ==> id < |p.heap| && !IsStop(p.heap[id])
  {
    var all := p.popped + p.queue + InHand(p.receiver) + StopPacket(p.receiver);
    assert |all| == |p.heap|;
    assert forall i :: 0 <= i < |all| ==> all[i] == i;
  }

  /** What reached the queue is a prefix of the messages accepted before the first stop marker. */
  lemma PushedBeforeFirstStop(p: Pipe, k: nat)
    requires PipeInv(p) && k < |p.accepted| && IsStop(p.accepted[k])
    ensures Pushed(p) <= k
    ensures forall i :: 0 <= i < Pushed(p) ==> p.accepted[i] == p.heap[(p.popped + p.queue)[i]]
  {
    assert k < |p.heap| ==> p.accepted[k] == p.heap[k];
  }
}

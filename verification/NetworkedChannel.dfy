/** The two copies of a channel over the real transport: the lossy network refines the first-in first-out queues. */
module NetworkedChannel {
  import opened Primitives
  import opened Messages
  import opened EndStates
  import opened Channels
  import opened ChannelLaws
  import opened Ledgers
  import opened Lockstep
  import T = Transport

  datatype Net = Net(a: Chan, b: Chan, ab: T.Link<Packet>, ba: T.Link<Packet>, aBlock: int, bBlock: int)

  datatype Wire = Take | Transmit | Receive(p: Packet) | AckArrives(p: Packet) | Complete

  datatype NetAct =
    | Local(act: Act)                 // a delivery happens only on the wire
    | OnWire(toB: bool, wire: Wire)   // a step of the transport from A to B, or from B to A

  function Mirrored(n: Net): Net { Net(n.b, n.a, n.ba, n.ab, n.bBlock, n.aBlock) }

  /** Messages queued at the sender that the receiver's channel has not taken. */
  function Pending(l: T.Link<Packet>): seq<Packet> {
    if |l.applied| <= |l.queued| then l.queued[|l.applied|..] else []
  }

  function AsWorld(n: Net): World { World(n.a, n.b, Pending(n.ab), Pending(n.ba), n.aBlock, n.bBlock) }

  ghost function LocalA(n: Net, act: Act): Net {
    match act
    case Send(_, o) =>
      (match Build(n.a, n.aBlock, o)
       case Refused(_) => n
       case Message(m) =>
         var r := Register(n.a, n.aBlock, m);
         if r.1 != Ok then n
         else n.(a := r.0, ab := T.LinkNext(n.ab, T.Enqueue(Packet(m, n.aBlock)))))
    case Deliver(_) => n
    case LearnAt(_, secret) => n.(a := LearnSecret(n.a, secret).0)
    case Tick(_, block) => if block >= n.aBlock then n.(aBlock := block) else n
    case DepositAt(_, own, balance) => n.(a := DepositAtA(AsWorld(n), own, balance).a)
  }

  /** A data packet at B: re-acked when its ack is saved, otherwise handed to the channel, which may refuse it. */
  ghost function WireToB(n: Net, w: Wire): Net {
    match w
    case Take => n.(ab := T.LinkNext(n.ab, T.Take))
    case Transmit => n.(ab := T.LinkNext(n.ab, T.Transmit))
    case AckArrives(p) => n.(ab := T.LinkNext(n.ab, T.AckArrives(p)))
    case Complete => n.(ab := T.LinkNext(n.ab, T.Complete))
    case Receive(p) =>
      if p !in n.ab.packets then n
      else if p in n.ab.saved then n.(ab := T.LinkNext(n.ab, T.Receive(p, false)))
      else
        var r := Register(n.b, n.bBlock, p.m);
        if r.1 != Ok then n
        else n.(b := r.0, ab := T.LinkNext(n.ab, T.Receive(p, true)))
  }

  ghost function NetNext(n: Net, act: NetAct): Net {
    match act
    case Local(act) => if NamesA(act) then LocalA(n, act) else Mirrored(LocalA(Mirrored(n), act))
    case OnWire(toB, w) => if toB then WireToB(n, w) else Mirrored(WireToB(Mirrored(n), w))
  }

  // ---------- Nonces number the queue ----------

  predicate Numbered(l: T.Link<Packet>) {
    forall i :: 0 <= i < |l.queued| ==> l.queued[i].m.nonce == i + 1
  }

  lemma NumberedDistinct(l: T.Link<Packet>)
    requires Numbered(l)
    ensures Distinct(l.queued)
  {}

  ghost predicate DirInv(l: T.Link<Packet>, owner: Chan) {
    T.LinkInv(l) && Numbered(l) && owner.our.proof.nonce == |l.queued|
  }

  ghost predicate NetInv(n: Net) {
    DirInv(n.ab, n.a) && DirInv(n.ba, n.b) && BothSolvent(AsWorld(n))
  }

  lemma AppliedIsPrefix(l: T.Link<Packet>)
    requires T.LinkInv(l) && Numbered(l)
    ensures |l.applied| <= |l.queued| && l.applied == l.queued[..|l.applied|]
  {
    NumberedDistinct(l);
    T.CoveredIsApplied(l);
  }

  lemma OpenAreQueued(l: T.Link<Packet>, p: Packet)
    requires T.LinkInv(l) && p in l.open
    ensures p in l.queued
  {
    assert p in T.Sending(l) + l.waiting;
    assert p in l.queued[T.Done(l)..];
  }

  lemma FreshNonceNotOpen(l: T.Link<Packet>, p: Packet)
    requires T.LinkInv(l) && Numbered(l) && p.m.nonce == |l.queued| + 1
    ensures p !in l.open
  {
    if p in l.open {
      OpenAreQueued(l, p);
    }
  }

  lemma EnqueueExtends(l: T.Link<Packet>, p: Packet)
    requires T.LinkInv(l) && Numbered(l) && p.m.nonce == |l.queued| + 1
    ensures var r := T.LinkNext(l, T.Enqueue(p));
            T.LinkInv(r) && Numbered(r) && |r.queued| == |l.queued| + 1 && Pending(r) == Pending(l) + [p]
  {
    FreshNonceNotOpen(l, p);
    EnqueueNumbers(l, p);
    T.EnqueueKeeps(l, p);
  }

  lemma EnqueueNumbers(l: T.Link<Packet>, p: Packet)
    requires T.LinkInv(l) && Numbered(l) && p.m.nonce == |l.queued| + 1 && p !in l.open
    ensures var r := T.LinkNext(l, T.Enqueue(p));
            Numbered(r) && r.queued == l.queued + [p] && Pending(r) == Pending(l) + [p]
  {
    AppliedIsPrefix(l);
  }

  lemma NewPacketAtDone(l: T.Link<Packet>, p: Packet)
    requires T.LinkInv(l) && Numbered(l) && p in l.packets && p !in l.saved
    ensures |l.applied| == T.Done(l) < |l.queued| && l.queued[T.Done(l)] == p
  {
    T.ReceiveKeeps(l, p, true);
    NumberedDistinct(l);
    T.CoveredIsApplied(l);
    assert l.queued[T.Done(l)] == l.queued[T.Done(l)..][0];
  }

  lemma TakenKeepsQueue(l: T.Link<Packet>, p: Packet)
    requires T.LinkInv(l) && Numbered(l) && p in l.packets && p !in l.saved
    ensures var r := T.LinkNext(l, T.Receive(p, true));
            T.LinkInv(r) && Numbered(r) && r.queued == l.queued && r.applied == l.applied + [p]
  {
    T.ReceiveKeeps(l, p, true);
  }

  /** A packet the receiver has not acked is the oldest one its channel has not taken. */
  lemma NewPacketIsHead(l: T.Link<Packet>, p: Packet)
    requires T.LinkInv(l) && Numbered(l) && p in l.packets && p !in l.saved
    ensures Pending(l) != [] && Pending(l)[0] == p
    ensures var r := T.LinkNext(l, T.Receive(p, true));
            T.LinkInv(r) && Numbered(r) && r.queued == l.queued && Pending(r) == Pending(l)[1..]
  {
    NewPacketAtDone(l, p);
    TakenKeepsQueue(l, p);
  }

  lemma QuietWireStep(l: T.Link<Packet>, step: T.LinkStep<Packet>)
    requires T.LinkInv(l) && Numbered(l) && !step.Enqueue? && (step.Receive? ==> step.m in l.saved || !step.handled)
    ensures var r := T.LinkNext(l, step);
            T.LinkInv(r) && Numbered(r) && r.queued == l.queued && Pending(r) == Pending(l)
  {
    T.LinkNextKeeps(l, step);
  }

  // ---------- Refinement ----------

  lemma LocalRefines(n: Net, act: Act)
    requires NetInv(n) && !act.Deliver?
    ensures AsWorld(LocalA(n, act)) == ActA(AsWorld(n), act)
    ensures DirInv(LocalA(n, act).ab, LocalA(n, act).a) && LocalA(n, act).ba == n.ba && LocalA(n, act).b == n.b
  {
    match act {
      case Send(_, o) =>
        if Build(n.a, n.aBlock, o).Message? {
          var m := Build(n.a, n.aBlock, o).m;
          if Register(n.a, n.aBlock, m).1 == Ok {
            BuiltIsOurs(n.a, n.aBlock, o);
            AcceptanceShape(n.a, n.aBlock, m);
            RegisterShape(n.a, n.aBlock, m);
            EnqueueExtends(n.ab, Packet(m, n.aBlock));
          }
        }
      case LearnAt(_, secret) => LearnKeepsQuiet(n.a, secret);
      case Tick(_, _) =>
      case DepositAt(_, _, _) =>
    }
  }

  lemma WireRefines(n: Net, w: Wire)
    requires NetInv(n)
    ensures AsWorld(WireToB(n, w)) == AsWorld(n) || AsWorld(WireToB(n, w)) == DeliverToB(AsWorld(n))
    ensures DirInv(WireToB(n, w).ab, n.a) && WireToB(n, w).a == n.a && WireToB(n, w).ba == n.ba
    ensures WireToB(n, w).b.our.proof.nonce == n.b.our.proof.nonce
  {
    match w {
      case Take => QuietWireStep(n.ab, T.Take);
      case Transmit => QuietWireStep(n.ab, T.Transmit);
      case AckArrives(p) => QuietWireStep(n.ab, T.AckArrives(p));
      case Complete => QuietWireStep(n.ab, T.Complete);
      case Receive(p) =>
        if p in n.ab.packets {
          if p in n.ab.saved {
            QuietWireStep(n.ab, T.Receive(p, false));
          } else {
            NewPacketIsHead(n.ab, p);
            if Register(n.b, n.bBlock, p.m).1 == Ok {
              assert p.m.sender == n.a.our.address;
              AcceptanceShape(n.b, n.bBlock, p.m);
            }
          }
        }
    }
  }

  lemma NetStepKeeps(n: Net, act: NetAct)
    requires NetInv(n)
    ensures NetInv(NetNext(n, act))
  {
    match act {
      case Local(a) =>
        if a.Deliver? {
        } else if NamesA(a) {
          LocalRefines(n, a);
          ActAKeepsSolvent(AsWorld(n), a);
        } else {
          LocalRefines(Mirrored(n), a);
          ActAKeepsSolvent(AsWorld(Mirrored(n)), a);
        }
      case OnWire(toB, w) =>
        var m := if toB then n else Mirrored(n);
        WireRefines(m, w);
        ActAKeepsSolvent(AsWorld(m), Deliver(true));
    }
  }

  predicate NetStart(n: Net) {
    Start(World(n.a, n.b, [], [], n.aBlock, n.bBlock)) && n.ab == T.EmptyLink() && n.ba == T.EmptyLink()
  }

  ghost function NetReach(n: Net, acts: seq<NetAct>): Net
    decreases |acts|
  {
    if acts == [] then n else NetReach(NetNext(n, acts[0]), acts[1..])
  }

  lemma {:induction false} NetReachKeeps(n: Net, acts: seq<NetAct>)
    requires NetInv(n)
    ensures NetInv(NetReach(n, acts))
    decreases |acts|
  {
    if acts != [] {
      NetStepKeeps(n, acts[0]);
      NetReachKeeps(NetNext(n, acts[0]), acts[1..]);
    }
  }

  /**
   * Over a network that loses, duplicates and reorders: each receiver's channel has taken a prefix of what its peer
   * queued, each message once; the rest of the queue turns its copy into the peer's own nonce, amount and locks; and a
   * new packet that arrives once the clock has caught up is accepted.
   */
  lemma NetworkKeepsCopiesInStep(n0: Net, acts: seq<NetAct>, p: Packet)
    requires NetStart(n0)
    ensures var n := NetReach(n0, acts);
            && |n.ab.applied| <= |n.ab.queued| && n.ab.applied == n.ab.queued[..|n.ab.applied|] && Distinct(n.ab.queued)
            && PostAll(CoreOf(n.b.partner), n.ab.queued[|n.ab.applied|..]) == CoreOf(n.a.our)
            && |n.ba.applied| <= |n.ba.queued| && n.ba.applied == n.ba.queued[..|n.ba.applied|] && Distinct(n.ba.queued)
            && PostAll(CoreOf(n.a.partner), n.ba.queued[|n.ba.applied|..]) == CoreOf(n.b.our)
            && (p in n.ab.packets && p !in n.ab.saved && p.sentAt <= n.bBlock ==> Register(n.b, n.bBlock, p.m).1 == Ok)
            && (p in n.ba.packets && p !in n.ba.saved && p.sentAt <= n.aBlock ==> Register(n.a, n.aBlock, p.m).1 == Ok)
  {
    NetStartInv(n0);
    NetReachKeeps(n0, acts);
    var n := NetReach(n0, acts);
    AppliedIsPrefix(n.ab);
    NumberedDistinct(n.ab);
    AppliedIsPrefix(n.ba);
    NumberedDistinct(n.ba);
    if p in n.ba.packets && p !in n.ba.saved && p.sentAt <= n.aBlock {
      NewPacketIsHead(n.ba, p);
      HeadAccepted(n.b, n.a, Pending(n.ba), n.aBlock);
    }
    if p in n.ab.packets && p !in n.ab.saved && p.sentAt <= n.bBlock {
      NewPacketIsHead(n.ab, p);
      HeadAccepted(n.a, n.b, Pending(n.ab), n.bBlock);
    }
  }

  /** The same money law over the lossy network: what is under way is what the receiver's channel has not taken. */
  lemma NetworkConservesDeposits(n0: Net, acts: seq<NetAct>)
    requires NetStart(n0)
    ensures var n := NetReach(n0, acts);
            && |n.ab.applied| <= |n.ab.queued| && |n.ba.applied| <= |n.ba.queued|
            && var ab := UnderWay(CoreOf(n.b.partner), n.ab.queued[|n.ab.applied|..]);
               var ba := UnderWay(CoreOf(n.a.partner), n.ba.queued[|n.ba.applied|..]);
               && OwnSolvent(n.a) && OwnSolvent(n.b) && ab >= 0 && ba >= 0
               && OwnMoney(n.a) + OwnMoney(n.b) + ab + ba == n.a.our.contractBalance + n.b.our.contractBalance
  {
    NetStartInv(n0);
    NetReachKeeps(n0, acts);
    var n := NetReach(n0, acts);
    AppliedIsPrefix(n.ab);
    AppliedIsPrefix(n.ba);
    InStepConserves(AsWorld(n));
  }

  lemma NetStartInv(n: Net)
    requires NetStart(n)
    ensures NetInv(n)
  {
    T.EmptyLinkInv<Packet>();
    StartSolvent(AsWorld(n));
  }

  // ---------- Nothing gets stuck ----------

  lemma NetReachCons(n: Net, act: NetAct, rest: seq<NetAct>)
    ensures NetReach(n, [act] + rest) == NetReach(NetNext(n, act), rest)
  {
    assert ([act] + rest)[1..] == rest;
  }

  lemma {:induction false} NetReachAppend(n: Net, a: seq<NetAct>, b: seq<NetAct>)
    ensures NetReach(n, a + b) == NetReach(NetReach(n, a), b)
    decreases |a|
  {
    if a == [] {
      assert a + b == b;
    } else {
      assert (a + b)[1..] == a[1..] + b;
      NetReachAppend(NetNext(n, a[0]), a[1..], b);
    }
  }

  /** B's clock catches up with the message being sent. */
  lemma CatchUpNet(n: Net, block: int)
    requires block >= n.bBlock
    ensures NetNext(n, Local(Tick(false, block))) == n.(bBlock := block)
  {
  }

  lemma TransmitNow(n: Net)
    requires n.ab.current.Some?
    ensures NetNext(n, OnWire(true, Transmit)) == n.(ab := n.ab.(packets := n.ab.packets + {n.ab.current.value}))
  {
  }

  /** Everything but B's copy of A and the receiver's part of the link. */
  ghost predicate SenderSame(n: Net, r: Net) {
    && r.a == n.a && r.ba == n.ba && r.b.our == n.b.our
    && r.ab.current == n.ab.current && r.ab.waiting == n.ab.waiting
    && r.ab.queued == n.ab.queued && r.ab.open == n.ab.open
  }

  /** A packet on the network is taken now, unless it was before; either way its ack is on the network. */
  lemma ReceiveNow(n: Net, p: Packet)
    requires p in n.ab.packets
    requires p in n.ab.saved || (Register(n.b, n.bBlock, p.m).1 == Ok && Register(n.b, n.bBlock, p.m).0.our == n.b.our)
    ensures var r := NetNext(n, OnWire(true, Receive(p))); p in r.ab.acks && SenderSame(n, r)
  {
  }

  lemma NewPacketAccepted(n: Net, p: Packet)
    requires NetInv(n) && p in n.ab.packets && p !in n.ab.saved && p.sentAt <= n.bBlock
    ensures Register(n.b, n.bBlock, p.m).1 == Ok && Register(n.b, n.bBlock, p.m).0.our == n.b.our
  {
    NewPacketIsHead(n.ab, p);
    HeadAccepted(n.a, n.b, Pending(n.ab), n.bBlock);
    AcceptanceShape(n.b, n.bBlock, p.m);
    assert p.m.sender == n.b.partner.address;
  }

  lemma CurrentIsOpen(l: T.Link<Packet>)
    requires T.LinkInv(l) && l.current.Some?
    ensures l.current.value in l.open
  {
    assert (T.Sending(l) + l.waiting)[0] == l.current.value;
  }

  /** Its ack arrives and is read. */
  lemma CompleteNow(n: Net)
    requires n.ab.current.Some? && n.ab.current.value in n.ab.acks && n.ab.current.value in n.ab.open
    ensures var p := n.ab.current.value;
            var r := NetNext(NetNext(n, OnWire(true, AckArrives(p))), OnWire(true, Complete));
            && r.ab.current == None && r.ab.waiting == n.ab.waiting && r.ab.queued == n.ab.queued
            && r.ba == n.ba && r.a == n.a && r.b == n.b
  {
  }

  /** Five steps: catch up, transmit, receive, ack, complete. */
  ghost function Carried(n: Net, p: Packet, block: int): Net {
    NetNext(NetNext(Taken(n, p, block), OnWire(true, AckArrives(p))), OnWire(true, Complete))
  }

  ghost function Taken(n: Net, p: Packet, block: int): Net {
    NetNext(NetNext(NetNext(n, Local(Tick(false, block))), OnWire(true, Transmit)), OnWire(true, Receive(p)))
  }

  lemma TakenInv(n: Net, p: Packet, block: int)
    requires NetInv(n)
    ensures NetInv(NetNext(NetNext(n, Local(Tick(false, block))), OnWire(true, Transmit)))
    ensures NetInv(Taken(n, p, block))
  {
    NetStepKeeps(n, Local(Tick(false, block)));
    NetStepKeeps(NetNext(n, Local(Tick(false, block))), OnWire(true, Transmit));
    NetStepKeeps(NetNext(NetNext(n, Local(Tick(false, block))), OnWire(true, Transmit)), OnWire(true, Receive(p)));
  }

  lemma CarriedInv(n: Net, p: Packet, block: int)
    requires NetInv(n)
    ensures NetInv(Carried(n, p, block))
  {
    TakenInv(n, p, block);
    NetStepKeeps(Taken(n, p, block), OnWire(true, AckArrives(p)));
    NetStepKeeps(NetNext(Taken(n, p, block), OnWire(true, AckArrives(p))), OnWire(true, Complete));
  }

  lemma TakenMeans(n: Net, p: Packet, block: int)
    requires NetInv(n) && n.ab.current == Some(p) && n.bBlock <= block && p.sentAt <= block
    ensures var r := Taken(n, p, block); p in r.ab.acks && SenderSame(n, r)
  {
    var n2 := NetNext(NetNext(n, Local(Tick(false, block))), OnWire(true, Transmit));
    CatchUpNet(n, block);
    TransmitNow(n.(bBlock := block));
    TakenInv(n, p, block);
    if p !in n2.ab.saved {
      NewPacketAccepted(n2, p);
    }
    ReceiveNow(n2, p);
  }

  lemma CarriedMeans(n: Net, p: Packet, block: int)
    requires NetInv(n) && n.ab.current == Some(p) && n.bBlock <= block && p.sentAt <= block
    ensures var r := Carried(n, p, block);
            && r.ab.current == None && r.ab.waiting == n.ab.waiting && r.ab.queued == n.ab.queued
            && r.ba == n.ba && r.a == n.a && r.b.our == n.b.our
  {
    TakenMeans(n, p, block);
    CurrentIsOpen(n.ab);
    CompleteNow(Taken(n, p, block));
  }

  lemma CarriedReached(n: Net, p: Packet, block: int) returns (acts: seq<NetAct>)
    ensures NetReach(n, acts) == Carried(n, p, block)
  {
    var n1 := NetNext(n, Local(Tick(false, block)));
    var n2 := NetNext(n1, OnWire(true, Transmit));
    var n3 := NetNext(n2, OnWire(true, Receive(p)));
    var n4 := NetNext(n3, OnWire(true, AckArrives(p)));
    var s5 := [OnWire(true, Complete)] + [];
    var s4 := [OnWire(true, AckArrives(p))] + s5;
    var s3 := [OnWire(true, Receive(p))] + s4;
    var s2 := [OnWire(true, Transmit)] + s3;
    acts := [Local(Tick(false, block))] + s2;
    NetReachCons(n, Local(Tick(false, block)), s2);
    NetReachCons(n1, OnWire(true, Transmit), s3);
    NetReachCons(n2, OnWire(true, Receive(p)), s4);
    NetReachCons(n3, OnWire(true, AckArrives(p)), s5);
    NetReachCons(n4, OnWire(true, Complete), []);
  }

  lemma TakeNow(n: Net)
    requires n.ab.current == None && n.ab.waiting != []
    ensures var r := NetNext(n, OnWire(true, Take));
            && r.ab.current.Some? && r.ab.waiting == n.ab.waiting[1..] && r.ab.queued == n.ab.queued
            && r.ba == n.ba && r.a == n.a && r.b == n.b
  {
  }

  lemma {:induction false} CarryToB(n: Net) returns (acts: seq<NetAct>)
    requires NetInv(n)
    ensures var r := NetReach(n, acts);
            && NetInv(r) && Pending(r.ab) == [] && r.ab.queued == n.ab.queued && r.ba == n.ba && r.a == n.a
            && r.b.our == n.b.our
    decreases |n.ab.waiting|, if n.ab.current.Some? then 1 else 0
  {
    if n.ab.current.Some? {
      var p := n.ab.current.value;
      var block := if p.sentAt > n.bBlock then p.sentAt else n.bBlock;
      var first := CarriedReached(n, p, block);
      CarriedInv(n, p, block);
      CarriedMeans(n, p, block);
      var rest := CarryToB(NetReach(n, first));
      acts := first + rest;
      NetReachAppend(n, first, rest);
    } else if n.ab.waiting != [] {
      NetStepKeeps(n, OnWire(true, Take));
      TakeNow(n);
      var rest := CarryToB(NetNext(n, OnWire(true, Take)));
      acts := [OnWire(true, Take)] + rest;
      NetReachCons(n, OnWire(true, Take), rest);
    } else {
      acts := [];
      NumberedDistinct(n.ab);
      T.CoveredIsApplied(n.ab);
      AppliedIsPrefix(n.ab);
    }
  }

  function MirrorAct(act: NetAct): NetAct {
    match act
    case Local(a) => Local(FlipAct(a))
    case OnWire(toB, w) => OnWire(!toB, w)
  }

  function MirrorActs(acts: seq<NetAct>): (r: seq<NetAct>)
    ensures |r| == |acts|
  {
    seq(|acts|, i requires 0 <= i < |acts| => MirrorAct(acts[i]))
  }

  lemma MirrorNext(n: Net, act: NetAct)
    ensures NetNext(Mirrored(n), MirrorAct(act)) == Mirrored(NetNext(n, act))
  {
    match act {
      case Local(a) => MirrorLocal(Mirrored(n), a);
                       MirrorLocal(n, a);
      case OnWire(_, _) =>
    }
  }

  /** What a node does does not depend on which name it has. */
  lemma MirrorLocal(n: Net, act: Act)
    ensures LocalA(n, FlipAct(act)) == LocalA(n, act) && NamesA(FlipAct(act)) == !NamesA(act)
  {
  }

  lemma {:induction false} MirrorReach(n: Net, acts: seq<NetAct>)
    ensures NetReach(Mirrored(n), MirrorActs(acts)) == Mirrored(NetReach(n, acts))
    decreases |acts|
  {
    if acts != [] {
      assert MirrorActs(acts)[1..] == MirrorActs(acts[1..]);
      MirrorNext(n, acts[0]);
      MirrorReach(NetNext(n, acts[0]), acts[1..]);
    }
  }

  /**
   * From every reachable state of the lossy network everything queued can still be carried over, and then each copy of
   * the other side is that side's own nonce, amount and locks.
   */
  lemma NetworkCanComeToRest(n: Net) returns (acts: seq<NetAct>)
    requires NetInv(n)
    ensures var r := NetReach(n, acts);
            && Pending(r.ab) == [] && Pending(r.ba) == [] && r.a.our == n.a.our && r.b.our == n.b.our
            && CoreOf(r.b.partner) == CoreOf(n.a.our) && CoreOf(r.a.partner) == CoreOf(n.b.our)
  {
    var first := CarryToB(n);
    var n1 := NetReach(n, first);
    MirrorInv(n1);
    var back := CarryToB(Mirrored(n1));
    MirrorReach(Mirrored(n1), back);
    acts := first + MirrorActs(back);
    NetReachAppend(n, first, MirrorActs(back));
    assert Mirrored(Mirrored(n1)) == n1;
    MirrorInv(NetReach(Mirrored(n1), back));
  }

  lemma MirrorInv(n: Net)
    requires NetInv(n)
    ensures NetInv(Mirrored(n))
  {
    assert AsWorld(Mirrored(n)) == Flip(AsWorld(n));
  }
}

/** Two honest copies of one channel joined by first-in first-out queues. */
module Lockstep {
  import opened Primitives
  import opened Merkle
  import opened Messages
  import opened EndStates
  import opened Channels
  import opened ChannelLaws
  import opened Solvency
  import opened Ledgers

  /** A message and the sender's block number when it was made. */
  datatype Packet = Packet(m: Envelope, sentAt: int)

  function PostAll(k: Core, q: seq<Packet>): Core
    decreases |q|
  {
    if q == [] then k else PostAll(Post(k, q[0].m), q[1..])
  }

  /** Each message in turn is in order for a copy of the sender that starts at `k`. */
  predicate InSequence(k: Core, q: seq<Packet>, deposit: int, received: int, settleTimeout: int)
    decreases |q|
  {
    q == []
    || (&& Acceptable(k, q[0].m, deposit, received, settleTimeout, q[0].sentAt)
        && InSequence(Post(k, q[0].m), q[1..], deposit, received, settleTimeout))
  }

  predicate Headers(q: seq<Packet>, c: Chan) {
    forall i :: 0 <= i < |q| ==>
      q[i].m.sender == c.our.address && q[i].m.channelId == c.channelId && q[i].m.openBlock == c.openBlock
  }

  // ---------- Queues ----------

  lemma AcceptableMonotone(k: Core, m: Envelope, d: int, r: int, d': int, r': int, t: int, block: int, block': int)
    requires Acceptable(k, m, d, r, t, block) && d <= d' && r <= r' && block <= block'
    ensures Acceptable(k, m, d', r', t, block')
  {}

  lemma {:induction false} InSequenceMonotone(k: Core, q: seq<Packet>, d: int, r: int, d': int, r': int, t: int)
    requires InSequence(k, q, d, r, t) && d <= d' && r <= r'
    ensures InSequence(k, q, d', r', t)
    decreases |q|
  {
    if q != [] {
      AcceptableMonotone(k, q[0].m, d, r, d', r', t, q[0].sentAt, q[0].sentAt);
      InSequenceMonotone(Post(k, q[0].m), q[1..], d, r, d', r', t);
    }
  }

  lemma {:induction false} InSequenceAppend(k: Core, q: seq<Packet>, p: Packet, d: int, r: int, t: int)
    requires InSequence(k, q, d, r, t) && Acceptable(PostAll(k, q), p.m, d, r, t, p.sentAt)
    ensures InSequence(k, q + [p], d, r, t)
    ensures PostAll(k, q + [p]) == Post(PostAll(k, q), p.m)
    decreases |q|
  {
    if q == [] {
      assert q + [p] == [p];
    } else {
      assert (q + [p])[1..] == q[1..] + [p];
      InSequenceAppend(Post(k, q[0].m), q[1..], p, d, r, t);
    }
  }

  ghost predicate Positive(leaves: seq<Lock>) { forall l :: l in leaves ==> l.amount > 0 }

  lemma PostRaises(k: Core, m: Envelope, d: int, r: int, t: int, block: int)
    requires Acceptable(k, m, d, r, t, block) && Positive(k.leaves)
    ensures Post(k, m).amount >= k.amount && Positive(Post(k, m).leaves)
  {
    match m.body {
      case Direct =>
      case Mediated(_) =>
      case Unlock(secret) => LeafWithIn(k.leaves, ShaSecret(secret));
        WithoutSubset(k.leaves, LeafWith(k.leaves, ShaSecret(secret)).value);
      case RemoveExpired(h) => LeafWithIn(k.leaves, h); WithoutSubset(k.leaves, LeafWith(k.leaves, h).value);
      case DisposeResponse(h) => LeafWithIn(k.leaves, h); WithoutSubset(k.leaves, LeafWith(k.leaves, h).value);
    }
  }

  lemma {:induction false} WithoutSubset(leaves: seq<Lock>, x: Lock)
    ensures forall l :: l in Without(leaves, x) ==> l in leaves
  {
    if leaves != [] {
      WithoutSubset(leaves[1..], x);
    }
  }

  /** A queue never lowers the amount its sender has transferred. */
  lemma {:induction false} PostAllRaises(k: Core, q: seq<Packet>, d: int, r: int, t: int)
    requires InSequence(k, q, d, r, t) && Positive(k.leaves)
    ensures PostAll(k, q).amount >= k.amount
    decreases |q|
  {
    if q != [] {
      PostRaises(k, q[0].m, d, r, t, q[0].sentAt);
      PostAllRaises(Post(k, q[0].m), q[1..], d, r, t);
    }
  }

  // ---------- One direction ----------

  /** `y` has not yet seen the messages `q` of `x`; after them its copy of `x` is what `x` holds itself. */
  ghost predicate Linked(x: Chan, y: Chan, q: seq<Packet>) {
    && x.channelId == y.channelId && x.openBlock == y.openBlock && x.settleTimeout == y.settleTimeout
    && x.our.address == y.partner.address && x.partner.address == y.our.address
    && y.partner.contractBalance >= x.our.contractBalance
    && Headers(q, x)
    && InSequence(CoreOf(y.partner), q, y.partner.contractBalance, y.our.proof.transferAmount, y.settleTimeout)
    && PostAll(CoreOf(y.partner), q) == CoreOf(x.our)
  }

  /** Changes that matter to neither the messages under way nor the agreement. */
  lemma LinkedFrame(x: Chan, y: Chan, q: seq<Packet>, x': Chan, y': Chan)
    requires Linked(x, y, q)
    requires x'.channelId == x.channelId && x'.openBlock == x.openBlock && x'.settleTimeout == x.settleTimeout
    requires y'.channelId == y.channelId && y'.openBlock == y.openBlock && y'.settleTimeout == y.settleTimeout
    requires x'.our.address == x.our.address && x'.partner.address == x.partner.address
    requires y'.our.address == y.our.address && y'.partner.address == y.partner.address
    requires CoreOf(x'.our) == CoreOf(x.our) && CoreOf(y'.partner) == CoreOf(y.partner)
    requires y'.partner.contractBalance >= y.partner.contractBalance
        && y'.partner.contractBalance >= x'.our.contractBalance
    requires y'.our.proof.transferAmount >= y.our.proof.transferAmount
    ensures Linked(x', y', q)
  {
    InSequenceMonotone(CoreOf(y.partner), q, y.partner.contractBalance, y.our.proof.transferAmount,
                 y'.partner.contractBalance, y'.our.proof.transferAmount, y.settleTimeout);
  }

  lemma SendLinks(x: Chan, y: Chan, q: seq<Packet>, back: seq<Packet>, block: int, m: Envelope)
    requires Quiet(x) && Quiet(y) && Linked(x, y, q) && Linked(y, x, back)
    requires Register(x, block, m).1 == Ok && m.sender == x.our.address
    ensures Linked(Register(x, block, m).0, y, q + [Packet(m, block)])
    ensures Linked(y, Register(x, block, m).0, back)
  {
    RegisterMatches(x, block, m);
    AcceptanceShape(x, block, m);
    LeavesArePositive(x.partner);
    PostAllRaises(CoreOf(x.partner), back, x.partner.contractBalance, x.our.proof.transferAmount, x.settleTimeout);
    AcceptableMonotone(CoreOf(x.our), m, x.our.contractBalance, x.partner.proof.transferAmount,
                       y.partner.contractBalance, y.our.proof.transferAmount, x.settleTimeout, block, block);
    InSequenceAppend(CoreOf(y.partner), q, Packet(m, block), y.partner.contractBalance, y.our.proof.transferAmount,
      y.settleTimeout);
    RegisterShape(x, block, m);
    LinkedFrame(y, x, back, y, Register(x, block, m).0);
  }

  /**
   * The oldest message under way is accepted as soon as the receiver's clock has reached the sender's at the time of
   * making it.
   */
  lemma HeadAccepted(x: Chan, y: Chan, q: seq<Packet>, block: int)
    requires Quiet(y) && Linked(x, y, q) && q != [] && q[0].sentAt <= block
    ensures Register(y, block, q[0].m).1 == Ok
  {
    AcceptableMonotone(CoreOf(y.partner), q[0].m, y.partner.contractBalance, y.our.proof.transferAmount,
                       y.partner.contractBalance, y.our.proof.transferAmount, y.settleTimeout, q[0].sentAt, block);
    RegisterMatches(y, block, q[0].m);
  }

  lemma DeliverLinks(x: Chan, y: Chan, q: seq<Packet>, back: seq<Packet>, block: int)
    requires Quiet(x) && Quiet(y) && Linked(x, y, q) && Linked(y, x, back)
    requires q != [] && Register(y, block, q[0].m).1 == Ok
    ensures Linked(x, Register(y, block, q[0].m).0, q[1..])
    ensures Linked(Register(y, block, q[0].m).0, x, back)
  {
    var m := q[0].m;
    assert m.sender == y.partner.address != y.our.address;
    RegisterMatches(y, block, m);
    AcceptanceShape(y, block, m);
    LinkedFrame(y, x, back, Register(y, block, m).0, x);
  }

  // ---------- The pair ----------

  datatype World = World(a: Chan, b: Chan, ab: seq<Packet>, ba: seq<Packet>, aBlock: int, bBlock: int)

  datatype Order =
    | PayDirect(amount: int)
    | PayMediated(lock: Lock)
    | ReleaseLock(h: SecretHash)
    | DropLock(h: SecretHash, mustExpire: bool)

  datatype Act =
    | Send(fromA: bool, order: Order)
    | Deliver(toB: bool)
    | LearnAt(atA: bool, secret: Secret)
    | Tick(atA: bool, block: int)
    | DepositAt(atA: bool, own: bool, balance: int)

  ghost function Build(c: Chan, block: int, o: Order): Draft {
    match o
    case PayDirect(amount) => CreateDirect(c, amount)
    case PayMediated(lock) => CreateMediated(c, lock)
    case ReleaseLock(h) => CreateUnlock(c, h)
    case DropLock(h, mustExpire) => CreateRemoval(c, h, block, mustExpire)
  }

  /** The world seen with the two names exchanged. */
  function Flip(w: World): World { World(w.b, w.a, w.ba, w.ab, w.bBlock, w.aBlock) }

  /** What participant A does; a message that its own channel refuses is not sent. */
  ghost function SendFromA(w: World, o: Order): World {
    match Build(w.a, w.aBlock, o)
    case Refused(_) => w
    case Message(m) =>
      var r := Register(w.a, w.aBlock, m);
      if r.1 != Ok then w else w.(a := r.0, ab := w.ab + [Packet(m, w.aBlock)])
  }

  ghost function DeliverToB(w: World): World {
    if w.ab == [] then w
    else
      var r := Register(w.b, w.bBlock, w.ab[0].m);
      if r.1 != Ok then w else w.(b := r.0, ab := w.ab[1..])
  }

  /** A deposit event; the chain is read so that the receiver's view of a deposit is never behind its owner's. */
  function DepositAtA(w: World, own: bool, balance: int): World {
    if own then
      if balance <= w.b.partner.contractBalance then w.(a := w.a.(our := UpdateDeposit(w.a.our, balance))) else w
    else w.(a := w.a.(partner := UpdateDeposit(w.a.partner, balance)))
  }

  ghost function ActA(w: World, act: Act): World {
    match act
    case Send(_, o) => SendFromA(w, o)
    case Deliver(_) => DeliverToB(w)
    case LearnAt(_, secret) => w.(a := LearnSecret(w.a, secret).0)
    case Tick(_, block) => if block >= w.aBlock then w.(aBlock := block) else w
    case DepositAt(_, own, balance) => DepositAtA(w, own, balance)
  }

  function NamesA(act: Act): bool {
    match act
    case Send(a, _) => a
    case Deliver(b) => b
    case LearnAt(a, _) => a
    case Tick(a, _) => a
    case DepositAt(a, _, _) => a
  }

  ghost function Next(w: World, act: Act): World {
    if NamesA(act) then ActA(w, act) else Flip(ActA(Flip(w), act))
  }

  ghost predicate InStep(w: World) {
    Quiet(w.a) && Quiet(w.b) && Linked(w.a, w.b, w.ab) && Linked(w.b, w.a, w.ba)
  }

  lemma BuiltIsOurs(c: Chan, block: int, o: Order)
    requires Build(c, block, o).Message?
    ensures Build(c, block, o).m.sender == c.our.address && Addressed(c, Build(c, block, o).m)
  {}

  ghost predicate InOrderHere(c: Chan, block: int, m: Envelope) {
    Acceptable(CoreOf(c.our), m, c.our.contractBalance, c.partner.proof.transferAmount, c.settleTimeout, block)
  }

  lemma DirectInOrder(c: Chan, block: int, amount: int)
    requires Quiet(c) && CreateDirect(c, amount).Message?
    ensures InOrderHere(c, block, CreateDirect(c, amount).m) <==> c.our.proof.nonce + 1 < UINT64
  {
    LockedIsLeafSum(c.our);
  }

  lemma MediatedInOrder(c: Chan, block: int, lock: Lock)
    requires Quiet(c) && CreateMediated(c, lock).Message?
    ensures InOrderHere(c, block, CreateMediated(c, lock).m) <==>
              && c.our.proof.nonce + 1 < UINT64
              && !IsKnown(c.our, lock.secretHash) && lock.expiration <= block + c.settleTimeout
  {
    LockedIsLeafSum(c.our);
    LeafIsLock(c.our, lock.secretHash);
  }

  lemma UnlockInOrder(c: Chan, block: int, h: SecretHash)
    requires Quiet(c) && CreateUnlock(c, h).Message?
    ensures InOrderHere(c, block, CreateUnlock(c, h).m) <==> c.our.proof.nonce + 1 < UINT64
  {
    LeafIsLock(c.our, h);
    var m := CreateUnlock(c, h).m;
    assert ShaSecret(m.body.secret) == h;
    assert Post(CoreOf(c.our), m).leaves == Without(c.our.leaves, c.our.known[h].lock);
  }

  lemma RemovalInOrder(c: Chan, block: int, h: SecretHash, mustExpire: bool)
    requires Quiet(c) && CreateRemoval(c, h, block, mustExpire).Message?
    ensures InOrderHere(c, block, CreateRemoval(c, h, block, mustExpire).m) <==> c.our.proof.nonce + 1 < UINT64
  {
    LeafIsLock(c.our, h);
    OffChainRemovable(c.our, h);
    var m := CreateRemoval(c, h, block, mustExpire).m;
    var lock := LockFor(c.our, h).value;
    assert LeafWith(c.our.leaves, h) == Some(lock) && RemovableLock(c.our, h) == Some(lock);
    assert m.locksRoot == MerkleRoot(Without(c.our.leaves, lock));
    assert Post(CoreOf(c.our), m).leaves == Without(c.our.leaves, lock);
  }

  /**
   * Every message a quiet channel builds is accepted by that channel, but for the three things the builders do not look
   * at.
   */
  lemma BuiltAcceptedIff(c: Chan, block: int, o: Order)
    requires Quiet(c) && Build(c, block, o).Message?
    ensures Register(c, block, Build(c, block, o).m).1 == Ok <==>
            && c.our.proof.nonce + 1 < UINT64
            && (o.PayMediated? ==> !IsKnown(c.our, o.lock.secretHash) && o.lock.expiration <= block + c.settleTimeout)
  {
    var m := Build(c, block, o).m;
    BuiltIsOurs(c, block, o);
    RegisterMatches(c, block, m);
    match o {
      case PayDirect(amount) => DirectInOrder(c, block, amount);
      case PayMediated(lock) => MediatedInOrder(c, block, lock);
      case ReleaseLock(h) => UnlockInOrder(c, block, h);
      case DropLock(h, mustExpire) => RemovalInOrder(c, block, h, mustExpire);
    }
  }

  lemma LearnKeepsQuiet(c: Chan, secret: Secret)
    requires Quiet(c)
    ensures Quiet(LearnSecret(c, secret).0)
    ensures CoreOf(LearnSecret(c, secret).0.our) == CoreOf(c.our)
        && CoreOf(LearnSecret(c, secret).0.partner) == CoreOf(c.partner)
  {
    LearnKeeps(c, secret);
  }

  lemma DepositKeepsEnd(e: End, balance: int)
    requires Consistent(e) && OffChainOnly(e) && PositiveLocks(e)
    ensures var f := UpdateDeposit(e, balance); Consistent(f) && OffChainOnly(f) && PositiveLocks(f)
  {
    SameLocks(e, UpdateDeposit(e, balance));
  }

  lemma DepositKeepsQuiet(c: Chan, ours: bool, balance: int)
    requires Quiet(c)
    ensures Quiet(if ours then c.(our := UpdateDeposit(c.our, balance))
        else c.(partner := UpdateDeposit(c.partner, balance)))
  {
    DepositKeepsEnd(if ours then c.our else c.partner, balance);
  }

  lemma SendKeepsStep(w: World, o: Order)
    requires InStep(w)
    ensures InStep(SendFromA(w, o))
  {
    if Build(w.a, w.aBlock, o).Message? {
      var m := Build(w.a, w.aBlock, o).m;
      if Register(w.a, w.aBlock, m).1 == Ok {
        BuiltIsOurs(w.a, w.aBlock, o);
        TransferKeepsQuiet(w.a, w.aBlock, m);
        SendLinks(w.a, w.b, w.ab, w.ba, w.aBlock, m);
      }
    }
  }

  lemma DeliverKeepsStep(w: World)
    requires InStep(w)
    ensures InStep(DeliverToB(w))
  {
    if w.ab != [] && Register(w.b, w.bBlock, w.ab[0].m).1 == Ok {
      TransferKeepsQuiet(w.b, w.bBlock, w.ab[0].m);
      DeliverLinks(w.a, w.b, w.ab, w.ba, w.bBlock);
    }
  }

  lemma DepositKeepsStep(w: World, own: bool, balance: int)
    requires InStep(w)
    ensures InStep(DepositAtA(w, own, balance))
  {
    DepositKeepsQuiet(w.a, own, balance);
    LinkedFrame(w.a, w.b, w.ab, DepositAtA(w, own, balance).a, w.b);
    LinkedFrame(w.b, w.a, w.ba, w.b, DepositAtA(w, own, balance).a);
  }

  lemma LearnKeepsStep(w: World, secret: Secret)
    requires InStep(w)
    ensures InStep(w.(a := LearnSecret(w.a, secret).0))
  {
    LearnKeepsQuiet(w.a, secret);
    LinkedFrame(w.a, w.b, w.ab, LearnSecret(w.a, secret).0, w.b);
    LinkedFrame(w.b, w.a, w.ba, w.b, LearnSecret(w.a, secret).0);
  }

  lemma ActAKeepsStep(w: World, act: Act)
    requires InStep(w)
    ensures InStep(ActA(w, act))
  {
    match act {
      case Send(_, o) => SendKeepsStep(w, o);
      case Deliver(_) => DeliverKeepsStep(w);
      case LearnAt(_, secret) => LearnKeepsStep(w, secret);
      case Tick(_, _) =>
      case DepositAt(_, own, balance) => DepositKeepsStep(w, own, balance);
    }
  }

  lemma NextKeepsStep(w: World, act: Act)
    requires InStep(w)
    ensures InStep(Next(w, act))
  {
    if NamesA(act) {
      ActAKeepsStep(w, act);
    } else {
      ActAKeepsStep(Flip(w), act);
    }
  }

  /** Two fresh copies of one channel, with nothing deposited and nothing sent. */
  predicate Start(w: World) {
    && Fresh(w.a) && Fresh(w.b)
    && w.a.channelId == w.b.channelId && w.a.openBlock == w.b.openBlock && w.a.settleTimeout == w.b.settleTimeout
    && w.a.our.address == w.b.partner.address && w.b.our.address == w.a.partner.address
    && w.ab == [] && w.ba == []
  }

  ghost function Reach(w: World, acts: seq<Act>): World
    decreases |acts|
  {
    if acts == [] then w else Reach(Next(w, acts[0]), acts[1..])
  }

  lemma StartInStep(w: World)
    requires Start(w)
    ensures InStep(w)
  {}

  lemma {:induction false} ReachInStep(w: World, acts: seq<Act>)
    requires InStep(w)
    ensures InStep(Reach(w, acts))
    decreases |acts|
  {
    if acts != [] {
      NextKeepsStep(w, acts[0]);
      ReachInStep(Next(w, acts[0]), acts[1..]);
    }
  }

  /**
    In every reachable state, applying the messages under way to each receiver's copy gives the sender's own nonce,
    amount and locks, and the oldest of them is accepted once the receiver's clock has caught up.
   */
  lemma CopiesStayInStep(w0: World, acts: seq<Act>)
    requires Start(w0)
    ensures var w := Reach(w0, acts);
            && PostAll(CoreOf(w.b.partner), w.ab) == CoreOf(w.a.our)
            && PostAll(CoreOf(w.a.partner), w.ba) == CoreOf(w.b.our)
            && (w.ab != [] && w.ab[0].sentAt <= w.bBlock ==> Register(w.b, w.bBlock, w.ab[0].m).1 == Ok)
            && (w.ba != [] && w.ba[0].sentAt <= w.aBlock ==> Register(w.a, w.aBlock, w.ba[0].m).1 == Ok)
  {
    StartInStep(w0);
    ReachInStep(w0, acts);
    var w := Reach(w0, acts);
    if w.ab != [] && w.ab[0].sentAt <= w.bBlock {
      HeadAccepted(w.a, w.b, w.ab, w.bBlock);
    }
    if w.ba != [] && w.ba[0].sentAt <= w.aBlock {
      HeadAccepted(w.b, w.a, w.ba, w.aBlock);
    }
  }

  // ---------- The money of both nodes ----------

  /** What a node can spend, by its own books, plus what its own locks hold. */
  ghost function OwnMoney(c: Chan): int {
    Distributable(c.our, c.partner) + AmountLocked(c.our)
  }

  /** What the messages of a queue still have to hand over to a receiver whose copy of the sender is at `k`. */
  function UnderWay(k: Core, q: seq<Packet>): int
    decreases |q|
  {
    if q == [] then 0 else q[0].m.transferAmount - k.amount + UnderWay(Post(k, q[0].m), q[1..])
  }

  lemma {:induction false} UnderWayAddsUp(k: Core, q: seq<Packet>)
    ensures UnderWay(k, q) == PostAll(k, q).amount - k.amount
    decreases |q|
  {
    if q != [] {
      UnderWayAddsUp(Post(k, q[0].m), q[1..]);
    }
  }

  lemma LinkedMoney(x: Chan, y: Chan, q: seq<Packet>)
    requires Quiet(y) && Linked(x, y, q)
    ensures x.our.proof.transferAmount - y.partner.proof.transferAmount == UnderWay(CoreOf(y.partner), q) >= 0
  {
    UnderWayAddsUp(CoreOf(y.partner), q);
    LeavesArePositive(y.partner);
    PostAllRaises(CoreOf(y.partner), q, y.partner.contractBalance, y.our.proof.transferAmount, y.settleTimeout);
  }

  lemma LeavesArePositive(e: End)
    requires Consistent(e) && PositiveLocks(e)
    ensures Positive(e.leaves)
  {
    forall l | l in e.leaves ensures l.amount > 0 {
      assert LockFor(e, l.secretHash) == Some(l);
    }
  }

  /** Both nodes' own money is the two deposits less what is under way: nothing is made, and nothing is lost. */
  lemma InStepConserves(w: World)
    requires InStep(w)
    ensures var ab, ba := UnderWay(CoreOf(w.b.partner), w.ab), UnderWay(CoreOf(w.a.partner), w.ba);
            ab >= 0 && ba >= 0
              && OwnMoney(w.a) + OwnMoney(w.b) + ab + ba == w.a.our.contractBalance + w.b.our.contractBalance
  {
    LinkedMoney(w.a, w.b, w.ab);
    LinkedMoney(w.b, w.a, w.ba);
  }

  ghost predicate OwnSolvent(c: Chan) { Distributable(c.our, c.partner) >= 0 }

  lemma SendKeepsOwn(c: Chan, block: int, o: Order)
    requires Quiet(c) && OwnSolvent(c) && Build(c, block, o).Message?
    requires Register(c, block, Build(c, block, o).m).1 == Ok
    ensures OwnSolvent(Register(c, block, Build(c, block, o).m).0)
  {
    BuiltIsOurs(c, block, o);
    AcceptedMovesMoney(c, block, Build(c, block, o).m);
    AcceptanceShape(c, block, Build(c, block, o).m);
    GuardFacts(c, block, Build(c, block, o).m);
  }

  lemma DeliverKeepsOwn(c: Chan, block: int, m: Envelope)
    requires Quiet(c) && OwnSolvent(c) && m.sender != c.our.address && Register(c, block, m).1 == Ok
    ensures OwnSolvent(Register(c, block, m).0)
  {
    AcceptedMovesMoney(c, block, m);
    AcceptanceShape(c, block, m);
    RegisterShape(c, block, m);
  }

  lemma LearnKeepsOwn(c: Chan, secret: Secret)
    requires Quiet(c) && OwnSolvent(c)
    ensures OwnSolvent(LearnSecret(c, secret).0)
  {
    LearnKeepsTotal(c.our, secret);
    LearnKeepsQuiet(c, secret);
  }

  lemma DepositKeepsOwn(w: World, own: bool, balance: int)
    requires OwnSolvent(w.a)
    ensures OwnSolvent(DepositAtA(w, own, balance).a)
  {
    SameMapsSameTotal(w.a.our, DepositAtA(w, own, balance).a.our);
  }

  ghost predicate BothSolvent(w: World) { InStep(w) && OwnSolvent(w.a) && OwnSolvent(w.b) }

  lemma SendKeepsSolvent(w: World, o: Order)
    requires BothSolvent(w)
    ensures OwnSolvent(SendFromA(w, o).a) && SendFromA(w, o).b == w.b
  {
    if Build(w.a, w.aBlock, o).Message? && Register(w.a, w.aBlock, Build(w.a, w.aBlock, o).m).1 == Ok {
      SendKeepsOwn(w.a, w.aBlock, o);
    }
  }

  lemma DeliverKeepsSolvent(w: World)
    requires BothSolvent(w)
    ensures OwnSolvent(DeliverToB(w).b) && DeliverToB(w).a == w.a
  {
    if w.ab != [] && Register(w.b, w.bBlock, w.ab[0].m).1 == Ok {
      assert w.ab[0].m.sender == w.b.partner.address;
      DeliverKeepsOwn(w.b, w.bBlock, w.ab[0].m);
    }
  }

  lemma ActAKeepsSolvent(w: World, act: Act)
    requires BothSolvent(w)
    ensures BothSolvent(ActA(w, act))
  {
    ActAKeepsStep(w, act);
    match act {
      case Send(_, o) => SendKeepsSolvent(w, o);
      case Deliver(_) => DeliverKeepsSolvent(w);
      case LearnAt(_, secret) => LearnKeepsOwn(w.a, secret);
      case Tick(_, _) =>
      case DepositAt(_, own, balance) => DepositKeepsOwn(w, own, balance);
    }
  }

  lemma NextKeepsSolvent(w: World, act: Act)
    requires BothSolvent(w)
    ensures BothSolvent(Next(w, act))
  {
    if NamesA(act) {
      ActAKeepsSolvent(w, act);
    } else {
      ActAKeepsSolvent(Flip(w), act);
    }
  }

  lemma StartSolvent(w: World)
    requires Start(w)
    ensures BothSolvent(w)
  {
    StartInStep(w);
    FreshIsSolvent(w.a);
    FreshIsSolvent(w.b);
  }

  lemma {:induction false} ReachSolvent(w: World, acts: seq<Act>)
    requires BothSolvent(w)
    ensures BothSolvent(Reach(w, acts))
    decreases |acts|
  {
    if acts != [] {
      NextKeepsSolvent(w, acts[0]);
      ReachSolvent(Next(w, acts[0]), acts[1..]);
    }
  }

  /**
   * In every reachable state: by its own books neither node is overdrawn, and what both can spend, what both have
   * locked and what is under way add up to the two deposits. So the two nodes together can never spend more than was
   * deposited.
   */
  lemma NodesConserveDeposits(w0: World, acts: seq<Act>)
    requires Start(w0)
    ensures var w := Reach(w0, acts);
            var ab, ba := UnderWay(CoreOf(w.b.partner), w.ab), UnderWay(CoreOf(w.a.partner), w.ba);
            && OwnSolvent(w.a) && OwnSolvent(w.b) && ab >= 0 && ba >= 0
            && OwnMoney(w.a) + OwnMoney(w.b) + ab + ba == w.a.our.contractBalance + w.b.our.contractBalance
  {
    StartSolvent(w0);
    ReachSolvent(w0, acts);
    InStepConserves(Reach(w0, acts));
  }

  // ---------- Everything under way can arrive ----------

  function FlipAct(act: Act): Act {
    match act
    case Send(a, o) => Send(!a, o)
    case Deliver(b) => Deliver(!b)
    case LearnAt(a, s) => LearnAt(!a, s)
    case Tick(a, block) => Tick(!a, block)
    case DepositAt(a, own, balance) => DepositAt(!a, own, balance)
  }

  function FlipActs(acts: seq<Act>): (r: seq<Act>)
    ensures |r| == |acts|
  {
    seq(|acts|, i requires 0 <= i < |acts| => FlipAct(acts[i]))
  }

  lemma {:induction false} FlipReach(w: World, acts: seq<Act>)
    ensures Reach(Flip(w), FlipActs(acts)) == Flip(Reach(w, acts))
    decreases |acts|
  {
    if acts != [] {
      assert FlipActs(acts)[1..] == FlipActs(acts[1..]);
      assert Next(Flip(w), FlipAct(acts[0])) == Flip(Next(w, acts[0]));
      FlipReach(Next(w, acts[0]), acts[1..]);
    }
  }

  lemma {:induction false} ReachAppend(w: World, a: seq<Act>, b: seq<Act>)
    ensures Reach(w, a + b) == Reach(Reach(w, a), b)
    decreases |a|
  {
    if a == [] {
      assert a + b == b;
    } else {
      assert (a + b)[1..] == a[1..] + b;
      ReachAppend(Next(w, a[0]), a[1..], b);
    }
  }

  lemma ReachCons(w: World, act: Act, rest: seq<Act>)
    ensures Reach(w, [act] + rest) == Reach(Next(w, act), rest)
  {
    assert ([act] + rest)[1..] == rest;
  }

  /** The oldest message arrives at a clock that has caught up. */
  lemma ArriveNow(w: World)
    requires InStep(w) && w.ab != [] && w.ab[0].sentAt <= w.bBlock
    ensures var r := Next(w, Deliver(true));
            InStep(r) && r.ab == w.ab[1..] && r.ba == w.ba && r.a == w.a && r.b.our == w.b.our
  {
    HeadAccepted(w.a, w.b, w.ab, w.bBlock);
    AcceptanceShape(w.b, w.bBlock, w.ab[0].m);
    assert w.ab[0].m.sender == w.b.partner.address;
    NextKeepsStep(w, Deliver(true));
  }

  lemma CatchUp(w: World, block: int)
    requires block >= w.bBlock
    ensures Next(w, Tick(false, block)) == w.(bBlock := block)
    ensures InStep(w) ==> InStep(w.(bBlock := block))
  {
  }

  /** B's clock catches up, and the oldest message arrives. */
  lemma ArriveAtB(w: World) returns (acts: seq<Act>)
    requires InStep(w) && w.ab != []
    ensures var r := Reach(w, acts);
            InStep(r) && r.ab == w.ab[1..] && r.ba == w.ba && r.a == w.a && r.b.our == w.b.our
  {
    var block := if w.ab[0].sentAt > w.bBlock then w.ab[0].sentAt else w.bBlock;
    acts := [Tick(false, block)] + ([Deliver(true)] + []);
    CatchUp(w, block);
    ArriveNow(w.(bBlock := block));
    ReachCons(w, Tick(false, block), [Deliver(true)] + []);
    ReachCons(w.(bBlock := block), Deliver(true), []);
  }

  lemma {:induction false} DrainToB(w: World) returns (acts: seq<Act>)
    requires InStep(w)
    ensures var r := Reach(w, acts); InStep(r) && r.ab == [] && r.ba == w.ba && r.a == w.a && r.b.our == w.b.our
    decreases |w.ab|
  {
    if w.ab == [] {
      acts := [];
    } else {
      var first := ArriveAtB(w);
      var rest := DrainToB(Reach(w, first));
      acts := first + rest;
      ReachAppend(w, first, rest);
    }
  }

  /**
   * From every reachable state all messages under way can still arrive, and then each copy of the other side is that
   * side's own nonce, amount and locks; neither node's own side changes by receiving.
   */
  lemma CanComeToRest(w: World) returns (acts: seq<Act>)
    requires InStep(w)
    ensures var r := Reach(w, acts);
            && r.ab == [] && r.ba == [] && r.a.our == w.a.our && r.b.our == w.b.our
            && CoreOf(r.b.partner) == CoreOf(w.a.our) && CoreOf(r.a.partner) == CoreOf(w.b.our)
  {
    var first := DrainToB(w);
    var w1 := Reach(w, first);
    var back := DrainToB(Flip(w1));
    FlipReach(Flip(w1), back);
    acts := first + FlipActs(back);
    ReachAppend(w, first, FlipActs(back));
    assert Flip(Flip(w1)) == w1;
  }
}

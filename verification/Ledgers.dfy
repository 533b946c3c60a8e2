/**
  The part of a channel side both participants must agree on, and a simple reading of when a message is acceptable.
  On a quiet channel the register code of channel/channel.go accepts exactly those messages.
 */
module Ledgers {
  import opened Primitives
  import opened Merkle
  import opened Messages
  import opened EndStates
  import opened Channels
  import opened ChannelLaws
  import opened Solvency

  datatype Core = Core(nonce: Nonce, amount: int, leaves: seq<Lock>)

  function CoreOf(e: End): Core {
    Core(e.proof.nonce, e.proof.transferAmount, e.leaves)
  }

  function LeafWith(leaves: seq<Lock>, h: SecretHash): Option<Lock> {
    if leaves == [] then None
    else if leaves[0].secretHash == h then Some(leaves[0])
    else LeafWith(leaves[1..], h)
  }

  function WithoutHash(leaves: seq<Lock>, h: SecretHash): seq<Lock> {
    match LeafWith(leaves, h)
    case None => leaves
    case Some(lock) => Without(leaves, lock)
  }

  function Post(k: Core, m: Envelope): Core {
    Core(m.nonce, m.transferAmount,
         match m.body
         case Direct => k.leaves
         case Mediated(lock) => k.leaves + [lock]
         case Unlock(secret) => WithoutHash(k.leaves, ShaSecret(secret))
         case RemoveExpired(h) => WithoutHash(k.leaves, h)
         case DisposeResponse(h) => WithoutHash(k.leaves, h))
  }

  /** The sender can pay `amount` when it deposited `deposit` and its peer has sent it `received`. */
  predicate Affordable(k: Core, amount: int, deposit: int, received: int) {
    0 < amount <= deposit - k.amount + received - SumLeaves(k.leaves)
  }

  /** When a message is in order for a sender at `k`: no map, no order of checks, no error codes. */
  predicate Acceptable(k: Core, m: Envelope, deposit: int, received: int, settleTimeout: int, block: int) {
    && m.nonce == k.nonce + 1
    && m.locksRoot == MerkleRoot(Post(k, m).leaves)
    && match m.body
       case Direct => Affordable(k, m.transferAmount - k.amount, deposit, received)
       case Mediated(lock) =>
         && Affordable(k, lock.amount, deposit, received) && m.transferAmount >= k.amount
         && lock.expiration <= block + settleTimeout && LeafWith(k.leaves, lock.secretHash) == None
       case Unlock(secret) =>
         var lock := LeafWith(k.leaves, ShaSecret(secret));
         lock.Some? && m.transferAmount == k.amount + lock.value.amount
       case RemoveExpired(h) =>
         var lock := LeafWith(k.leaves, h);
         lock.Some? && m.transferAmount == k.amount && lock.value.expiration <= block - FORK_CONFIRM
       case DisposeResponse(h) => LeafWith(k.leaves, h).Some? && m.transferAmount == k.amount
  }

  predicate Addressed(c: Chan, m: Envelope) {
    m.channelId == c.channelId && m.openBlock == c.openBlock
      && (m.sender == c.our.address || m.sender == c.partner.address)
  }

  /** Nothing of this side is on chain: neither its proof nor any of its secrets. */
  ghost predicate OffChainOnly(e: End) {
    !OnChain(e) && forall h :: h in e.known ==> !e.known[h].onChain
  }

  ghost predicate Quiet(c: Chan) {
    && ConsistentChan(c) && OffChainOnly(c.our) && OffChainOnly(c.partner)
    && PositiveLocks(c.our) && PositiveLocks(c.partner)
    && c.state == Opened && c.closedBlock == 0
  }

  // ---------- The tree as an index by hash ----------

  lemma {:induction false} LeafWithIn(leaves: seq<Lock>, h: SecretHash)
    ensures LeafWith(leaves, h).Some? ==>
        LeafWith(leaves, h).value in leaves && LeafWith(leaves, h).value.secretHash == h
    ensures LeafWith(leaves, h).None? ==> forall l :: l in leaves ==> l.secretHash != h
  {
    if leaves != [] {
      LeafWithIn(leaves[1..], h);
    }
  }

  lemma LeafIsLock(e: End, h: SecretHash)
    requires Consistent(e)
    ensures LeafWith(e.leaves, h) == LockFor(e, h)
    ensures LockFor(e, h).Some? ==>
        LockFor(e, h).value in e.leaves && WithoutHash(e.leaves, h) == Without(e.leaves, LockFor(e, h).value)
  {
    LeafWithIn(e.leaves, h);
  }

  lemma OffChainRemovable(e: End, h: SecretHash)
    requires OffChainOnly(e)
    ensures RemovableLock(e, h) == LockFor(e, h)
  {}

  // ---------- The register code against the simple reading ----------

  /** The checks spread over the channel and its sending side, gathered. */
  ghost predicate Passes(c: Chan, block: int, m: Envelope) {
    var e := Sender(c, m);
    && m.nonce == e.proof.nonce + 1 && m.transferAmount >= e.proof.transferAmount
    && Guard(c, m.sender == c.our.address, block, m) == Ok
    && EndRegister(e, block, m).1 == Ok
  }

  lemma RegisterOkIff(c: Chan, block: int, m: Envelope)
    requires c.state == Opened && c.our.address != c.partner.address
    ensures Register(c, block, m).1 == Ok <==> Addressed(c, m) && Passes(c, block, m)
    ensures Register(c, block, m).1 == Ok ==>
            Register(c, block, m).0 == PutFrom(c, m.sender == c.our.address, EndRegister(Sender(c, m), block, m).0)
  {}

  /** The sending side's own checks, read off the tree. */
  predicate EndAcceptable(k: Core, m: Envelope, block: int) {
    && m.locksRoot == MerkleRoot(Post(k, m).leaves)
    && match m.body
       case Direct => true
       case Mediated(lock) => LeafWith(k.leaves, lock.secretHash) == None && m.transferAmount >= k.amount
       case Unlock(secret) =>
         var lock := LeafWith(k.leaves, ShaSecret(secret));
         lock.Some? && m.transferAmount == k.amount + lock.value.amount
       case RemoveExpired(h) =>
         var lock := LeafWith(k.leaves, h);
         lock.Some? && lock.value.expiration <= block - FORK_CONFIRM
       case DisposeResponse(h) => LeafWith(k.leaves, h).Some?
  }

  lemma EndMatches(e: End, block: int, m: Envelope)
    requires Consistent(e) && OffChainOnly(e)
    ensures EndRegister(e, block, m).1 == Ok <==> EndAcceptable(CoreOf(e), m, block)
    ensures EndRegister(e, block, m).1 == Ok ==> CoreOf(EndRegister(e, block, m).0) == Post(CoreOf(e), m)
  {
    match m.body {
      case Direct =>
      case Mediated(lock) => LeafIsLock(e, lock.secretHash);
      case Unlock(secret) => LeafIsLock(e, ShaSecret(secret));
      case RemoveExpired(h) => RemovalMatches(e, block, m, h, true);
      case DisposeResponse(h) => RemovalMatches(e, block, m, h, false);
    }
  }

  lemma RemovalMatches(e: End, block: int, m: Envelope, h: SecretHash, mustExpire: bool)
    requires Consistent(e) && OffChainOnly(e)
    ensures Remove(e, block, m, h, mustExpire).1 == Ok <==>
            var lock := LeafWith(e.leaves, h);
            lock.Some? && (mustExpire ==> lock.value.expiration <= block - FORK_CONFIRM)
            && m.locksRoot == MerkleRoot(WithoutHash(e.leaves, h))
    ensures Remove(e, block, m, h, mustExpire).1 == Ok ==>
            CoreOf(Remove(e, block, m, h, mustExpire).0) == Core(m.nonce, m.transferAmount, WithoutHash(e.leaves, h))
  {
    LeafIsLock(e, h);
    OffChainRemovable(e, h);
  }

  lemma GuardMatches(c: Chan, block: int, m: Envelope)
    requires Quiet(c) && Addressed(c, m)
    ensures Guard(c, m.sender == c.our.address, block, m) == Ok <==>
            var k, deposit, received := CoreOf(Sender(c, m)), Sender(c, m).contractBalance,
              Receiver(c, m).proof.transferAmount;
            match m.body
            case Direct => Affordable(k, m.transferAmount - k.amount, deposit, received)
            case Mediated(lock) => Affordable(k, lock.amount, deposit, received)
              && lock.expiration <= block + c.settleTimeout
            case Unlock(_) => true
            case RemoveExpired(_) => m.transferAmount == k.amount
            case DisposeResponse(_) => m.transferAmount == k.amount
  {
    LockedIsLeafSum(Sender(c, m));
  }

  lemma UnlockRaises(e: End, m: Envelope)
    requires Consistent(e) && PositiveLocks(e) && m.body.Unlock? && LeafWith(e.leaves, ShaSecret(m.body.secret)).Some?
    ensures LeafWith(e.leaves, ShaSecret(m.body.secret)).value.amount > 0
  {
    LeafIsLock(e, ShaSecret(m.body.secret));
  }

  /**
   * On a quiet channel the code accepts a message exactly when it is acceptable, and posts exactly what the message
   * says.
   */
  lemma RegisterMatches(c: Chan, block: int, m: Envelope)
    requires Quiet(c)
    ensures Register(c, block, m).1 == Ok <==>
            Addressed(c, m)
            && Acceptable(CoreOf(Sender(c, m)), m, Sender(c, m).contractBalance, Receiver(c, m).proof.transferAmount,
                c.settleTimeout, block)
    ensures Register(c, block, m).1 == Ok ==>
            Register(c, block, m).0 == PutFrom(c, m.sender == c.our.address, EndRegister(Sender(c, m), block, m).0)
            && CoreOf(EndRegister(Sender(c, m), block, m).0) == Post(CoreOf(Sender(c, m)), m)
  {
    RegisterOkIff(c, block, m);
    if Addressed(c, m) {
      var e := Sender(c, m);
      GuardMatches(c, block, m);
      EndMatches(e, block, m);
      if m.body.Unlock? && LeafWith(e.leaves, ShaSecret(m.body.secret)).Some? {
        UnlockRaises(e, m);
      }
    }
  }

  lemma EndStaysOffChain(e: End, block: int, m: Envelope)
    requires OffChainOnly(e)
    ensures OffChainOnly(EndRegister(e, block, m).0)
  {}

  /** A quiet channel stays quiet under every message. */
  lemma TransferKeepsQuiet(c: Chan, block: int, m: Envelope)
    requires Quiet(c)
    ensures Quiet(Register(c, block, m).0)
  {
    RegisterShape(c, block, m);
    TransferConsistentIff(c, block, m);
    if Reaches(c, block, m) {
      EndStaysOffChain(Sender(c, m), block, m);
      if Register(c, block, m).1 == Ok {
        AcceptedPositive(c, block, m);
      } else {
        RejectionIsAtomicIff(c, block, m);
      }
    }
  }
}

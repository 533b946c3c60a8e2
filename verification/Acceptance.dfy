/** Which messages are accepted, and what they record, on any sound channel: read off the maps and the leaves. */
module Acceptance {
  import opened Primitives
  import opened Merkle
  import opened Messages
  import opened EndStates
  import opened Channels
  import opened ChannelLaws
  import opened Solvency

  // ---------- Which messages are accepted ----------

  /** One of the two maps records the lock under its hash. */
  predicate Recorded(e: End, lock: Lock) {
    || (lock.secretHash in e.pending && e.pending[lock.secretHash].lock == lock)
    || (lock.secretHash in e.known && e.known[lock.secretHash].lock == lock)
  }

  /** The secret of the lock is registered on chain. */
  predicate SecretIsOnChain(e: End, h: SecretHash) { h in e.known && e.known[h].onChain }

  /** The lock is recorded and in the tree, and the message commits to the tree without it. */
  predicate TakesOut(e: End, m: Envelope, lock: Lock) {
    Recorded(e, lock) && lock in e.leaves && m.locksRoot == MerkleRoot(Without(e.leaves, lock))
  }

  predicate Unlocks(e: End, m: Envelope, h: SecretHash, lock: Lock) {
    lock.secretHash == h && TakesOut(e, m, lock) && m.transferAmount == e.proof.transferAmount + lock.amount
  }

  predicate Removes(e: End, m: Envelope, h: SecretHash, lock: Lock) {
    lock.secretHash == h && TakesOut(e, m, lock) && !SecretIsOnChain(e, h)
  }

  /** What the sending side itself asks of a message. */
  ghost predicate EndTakes(e: End, block: int, m: Envelope) {
    && e.proof.contractTransferAmount == 0 && e.proof.contractLocksRoot == Empty
    && match m.body
       case Direct => m.locksRoot == MerkleRoot(e.leaves)
       case Mediated(lock) =>
         && m.locksRoot == MerkleRoot(e.leaves + [lock])
         && lock.secretHash !in e.pending && lock.secretHash !in e.known && m.transferAmount >= e.proof.transferAmount
       case Unlock(secret) => exists lock :: Unlocks(e, m, ShaSecret(secret), lock)
       case RemoveExpired(h) => exists lock :: Removes(e, m, h, lock) && lock.expiration + FORK_CONFIRM <= block
       case DisposeResponse(h) => exists lock :: Removes(e, m, h, lock)
  }

  lemma UnlockTakenIff(e: End, m: Envelope, secret: Secret)
    requires Sound(e)
    ensures RegisterUnlock(e, m, secret).1 == Ok <==>
              !OnChain(e) && exists lock :: Unlocks(e, m, ShaSecret(secret), lock)
  {
    var h := ShaSecret(secret);
    if RegisterUnlock(e, m, secret).1 == Ok {
      assert Unlocks(e, m, h, LockFor(e, h).value);
    }
    if lock :| Unlocks(e, m, h, lock) {
      assert LockFor(e, h) == Some(lock);
    }
  }

  lemma RemovalTakenIff(e: End, block: int, m: Envelope, h: SecretHash, mustExpire: bool)
    requires Sound(e)
    ensures Remove(e, block, m, h, mustExpire).1 == Ok <==>
              && !OnChain(e)
              && exists lock :: Removes(e, m, h, lock) && (mustExpire ==> lock.expiration + FORK_CONFIRM <= block)
  {
    if Remove(e, block, m, h, mustExpire).1 == Ok {
      assert Removes(e, m, h, RemovableLock(e, h).value);
    }
    if lock :| Removes(e, m, h, lock) && (mustExpire ==> lock.expiration + FORK_CONFIRM <= block) {
      assert RemovableLock(e, h) == Some(lock);
    }
  }

  lemma EndTakesIff(e: End, block: int, m: Envelope)
    requires Sound(e)
    ensures EndRegister(e, block, m).1 == Ok <==> EndTakes(e, block, m)
  {
    match m.body {
      case Direct =>
      case Mediated(_) =>
      case Unlock(secret) => UnlockTakenIff(e, m, secret);
      case RemoveExpired(h) => RemovalTakenIff(e, block, m, h, true);
      case DisposeResponse(h) => RemovalTakenIff(e, block, m, h, false);
    }
  }

  /** The message is for this opening of the channel, from one of its sides, and next in turn. */
  predicate InTurn(c: Chan, m: Envelope) {
    && m.channelId == c.channelId && m.openBlock == c.openBlock
    && (m.sender == c.our.address || m.sender == c.partner.address)
    && m.nonce == Sender(c, m).proof.nonce + 1
    && m.transferAmount >= Sender(c, m).proof.transferAmount
  }

  /** What the channel asks of amounts and of the expiration. */
  ghost predicate Payable(c: Chan, block: int, m: Envelope) {
    var paid, free := m.transferAmount - Sender(c, m).proof.transferAmount, Distributable(Sender(c, m), Receiver(c, m));
    match m.body
    case Direct => 0 < paid <= free
    case Mediated(lock) =>
      && 0 < lock.amount <= free
      && lock.expiration <= (if c.closedBlock != 0 then c.closedBlock else block) + c.settleTimeout
    case Unlock(_) => true
    case RemoveExpired(_) => paid == 0
    case DisposeResponse(_) => paid == 0
  }

  lemma ReachesIff(c: Chan, block: int, m: Envelope)
    requires c.our.address != c.partner.address
    ensures Reaches(c, block, m) <==> c.state != Closed && InTurn(c, m) && Payable(c, block, m)
  {
  }

  /**
   * On any sound channel, quiet or not: a message is accepted exactly when the channel is not closed, the message is in
   * turn and payable, and its sender, with nothing of its proof on chain, can take it. An unlock is taken for every
   * recorded leaf, whether or not its secret is on chain; a removal only while the secret is not.
   */
  lemma AcceptedIff(c: Chan, block: int, m: Envelope)
    requires SoundChan(c)
    ensures Register(c, block, m).1 == Ok <==>
              c.state != Closed && InTurn(c, m) && Payable(c, block, m) && EndTakes(Sender(c, m), block, m)
  {
    ReachesIff(c, block, m);
    RegisterShape(c, block, m);
    if Reaches(c, block, m) {
      EndTakesIff(Sender(c, m), block, m);
    }
  }

  // ---------- What an accepted message records ----------

  /** The entry of a hash in the two maps. */
  datatype Entry = Absent | Waiting(pending: PendingLock) | Open(known: KnownLock)

  function EntryOf(e: End, h: SecretHash): Entry {
    if h in e.pending then Waiting(e.pending[h]) else if h in e.known then Open(e.known[h]) else Absent
  }

  function LeavesWithout(e: End, h: SecretHash): seq<Lock> {
    match EntryOf(e, h)
    case Waiting(p) => Without(e.leaves, p.lock)
    case Open(k) => Without(e.leaves, k.lock)
    case Absent => e.leaves
  }

  /** Exactly the entry of the message's own lock changes, exactly its leaf, and the proof becomes the message's. */
  ghost predicate Writes(e: End, m: Envelope, f: End) {
    && f.address == e.address && f.contractBalance == e.contractBalance
    && f.proof == BalanceProof(m.nonce, m.transferAmount, m.locksRoot, 0, m.nonce, Empty)
    && (forall g :: EntryOf(f, g) ==
          if m.body.Mediated? && g == m.body.lock.secretHash then Waiting(PendingLock(m.body.lock, LeafOf(m.body.lock)))
          else if Released(m.body) == Some(g) then Absent
          else EntryOf(e, g))
    && f.leaves == match m.body
                   case Direct => e.leaves
                   case Mediated(lock) => e.leaves + [lock]
                   case Unlock(secret) => LeavesWithout(e, ShaSecret(secret))
                   case RemoveExpired(h) => LeavesWithout(e, h)
                   case DisposeResponse(h) => LeavesWithout(e, h)
  }

  lemma RemovalRecords(e: End, block: int, m: Envelope, h: SecretHash, mustExpire: bool)
    requires Sound(e) && Released(m.body) == Some(h) && Remove(e, block, m, h, mustExpire).1 == Ok
    ensures LockFor(e, h).Some? && Writes(e, m, Remove(e, block, m, h, mustExpire).0)
  {
    RemoveShape(e, block, m, h, mustExpire);
  }

  lemma UnlockRecords(e: End, m: Envelope, secret: Secret)
    requires Sound(e) && m.body == Unlock(secret) && RegisterUnlock(e, m, secret).1 == Ok
    ensures LockFor(e, ShaSecret(secret)).Some? && Writes(e, m, RegisterUnlock(e, m, secret).0)
  {
    assert LockFor(e, ShaSecret(secret)).value.secretHash == ShaSecret(secret);
  }

  lemma EndRecords(e: End, block: int, m: Envelope)
    requires Sound(e) && EndRegister(e, block, m).1 == Ok
    ensures Released(m.body).Some? ==> LockFor(e, Released(m.body).value).Some?
    ensures Writes(e, m, EndRegister(e, block, m).0)
  {
    match m.body {
      case Direct =>
      case Mediated(_) =>
      case Unlock(secret) => UnlockRecords(e, m, secret);
      case RemoveExpired(h) => RemovalRecords(e, block, m, h, true);
      case DisposeResponse(h) => RemovalRecords(e, block, m, h, false);
    }
  }

  /** An accepted message changes exactly its sender, and there exactly what it says. */
  lemma AcceptedRecords(c: Chan, block: int, m: Envelope)
    requires SoundChan(c) && Register(c, block, m).1 == Ok
    ensures var d := Register(c, block, m).0;
            d == PutFrom(c, m.sender == c.our.address, Sender(d, m)) && Writes(Sender(c, m), m, Sender(d, m))
  {
    AcceptanceShape(c, block, m);
    RegisterShape(c, block, m);
    EndRecords(Sender(c, m), block, m);
  }

  // ---------- What a secret does ----------

  /** Learning a secret opens a waiting lock; it does not touch one already open, and no other. */
  lemma LearnRecords(e: End, secret: Secret, g: SecretHash)
    requires e.pending.Keys !! e.known.Keys
    ensures var f := RegisterSecret(e, secret).0;
            && f == e.(pending := f.pending, known := f.known)
            && EntryOf(f, g) ==
                 (if g == ShaSecret(secret) && EntryOf(e, g).Waiting?
                  then Open(KnownLock(EntryOf(e, g).pending.lock, EntryOf(e, g).pending.lockHash, secret, false))
                  else EntryOf(e, g))
            && (RegisterSecret(e, secret).1 == Ok <==> EntryOf(e, ShaSecret(secret)) != Absent)
  {
  }

  /** A registration by the expiration marks the lock, waiting or open; a late one changes nothing. */
  lemma RevealRecords(e: End, secret: Secret, block: int, g: SecretHash)
    requires e.pending.Keys !! e.known.Keys
    ensures var f := RegisterRevealed(e, secret, block).0;
            var lock := LockFor(e, ShaSecret(secret));
            && f == e.(pending := f.pending, known := f.known)
            && EntryOf(f, g) ==
                 (if g == ShaSecret(secret) && lock.Some? && block <= lock.value.expiration
                  then Open(KnownLock(lock.value, LeafOf(lock.value), secret, true))
                  else EntryOf(e, g))
            && (RegisterRevealed(e, secret, block).1 == Ok <==> lock.Some? && block <= lock.value.expiration)
  {
  }

  /** Either secret goes to our side when it knows the hash, otherwise to the partner's; the other side is untouched. */
  lemma SecretGoesTo(c: Chan, secret: Secret, block: int)
    ensures var h := ShaSecret(secret);
            var ours, theirs := EntryOf(c.our, h) != Absent, EntryOf(c.partner, h) != Absent;
            && LearnSecret(c, secret).0 ==
                 (if ours then c.(our := RegisterSecret(c.our, secret).0)
                  else if theirs then c.(partner := RegisterSecret(c.partner, secret).0) else c)
            && SecretOnChain(c, secret, block).0 ==
                 (if ours then c.(our := RegisterRevealed(c.our, secret, block).0)
                  else if theirs then c.(partner := RegisterRevealed(c.partner, secret, block).0) else c)
            && (LearnSecret(c, secret).1 == Ok <==> ours || theirs)
  {
  }
}

/** What each builder of channel/channel.go builds, when it refuses, and what registering the result does. */
module Builders {
  import opened Primitives
  import opened Merkle
  import opened Messages
  import opened EndStates
  import opened Channels
  import opened ChannelLaws
  import opened Solvency
  import opened Acceptance
  import opened Ledgers
  import opened Lockstep

  /** The message is ours, for this opening, with the next nonce, and pays `paid`. */
  predicate Ours(c: Chan, m: Envelope, paid: int) {
    && m.sender == c.our.address && m.channelId == c.channelId && m.openBlock == c.openBlock
    && m.nonce == (c.our.proof.nonce + 1) % UINT64 && m.transferAmount == c.our.proof.transferAmount + paid
  }

  /** The builder gives a message exactly when it may, and that message has this body and pays this much. */
  predicate Builds(r: Draft, may: bool, c: Chan, body: Body, paid: int) {
    (r.Message? <==> may) && (r.Message? ==> Ours(c, r.m, paid) && r.m.body == body)
  }

  /** The root that a message of ours must commit to. */
  predicate CommitsTo(r: Draft, leaves: seq<Lock>) { r.Message? ==> r.m.locksRoot == MerkleRoot(leaves) }

  lemma DirectBuilt(c: Chan, amount: int)
    ensures Builds(CreateDirect(c, amount), c.state == Opened && 0 < amount <= Distributable(c.our, c.partner),
                   c, Direct, amount)
    ensures CommitsTo(CreateDirect(c, amount), c.our.leaves)
  {
  }

  lemma MediatedBuilt(c: Chan, lock: Lock)
    ensures Builds(CreateMediated(c, lock), c.state == Opened && 0 < lock.amount <= Distributable(c.our, c.partner),
                   c, Mediated(lock), 0)
    ensures EntryOf(c.our, lock.secretHash) == Absent ==> CommitsTo(CreateMediated(c, lock), c.our.leaves + [lock])
  {
  }

  /**
   * An unlock is built for a lock of ours whose secret we know, as long as it is in the tree and the channel not
   * closed.
   */
  lemma UnlockBuilt(c: Chan, h: SecretHash)
    requires h in c.our.known
    ensures var k := c.our.known[h];
            && Builds(CreateUnlock(c, h), c.state != Closed
                && k.lock in c.our.leaves, c, Unlock(k.secret), k.lock.amount)
            && CommitsTo(CreateUnlock(c, h), Without(c.our.leaves, k.lock))
  {
  }

  lemma UnlockNotBuilt(c: Chan, h: SecretHash)
    requires h !in c.our.known
    ensures CreateUnlock(c, h).Refused?
  {
  }

  /**
   * A removal is built for a lock of ours not registered on chain; an expiry removal also needs the lock to have run
   * out.
   */
  lemma RemovalBuilt(c: Chan, h: SecretHash, block: int, mustExpire: bool)
    requires LockFor(c.our, h).Some?
    ensures var lock := LockFor(c.our, h).value;
            && Builds(CreateRemoval(c, h, block, mustExpire),
                      && c.state != Closed && !(h !in c.our.pending && SecretIsOnChain(c.our, h))
                      && (mustExpire ==> lock.expiration + FORK_CONFIRM <= block) && lock in c.our.leaves,
                      c, if mustExpire then RemoveExpired(h) else DisposeResponse(h), 0)
            && CommitsTo(CreateRemoval(c, h, block, mustExpire), Without(c.our.leaves, lock))
  {
  }

  lemma RemovalNotBuilt(c: Chan, h: SecretHash, block: int, mustExpire: bool)
    requires LockFor(c.our, h).None?
    ensures CreateRemoval(c, h, block, mustExpire).Refused?
  {
  }

  // ---------- From the order to the books ----------

  /** Only our side changed, and its free, locked and the partner's free amount by these differences. */
  ghost predicate Moves(c: Chan, d: Chan, ourFree: int, ourLocked: int, partnerFree: int) {
    && d == c.(our := d.our)
    && Distributable(d.our, d.partner) == Distributable(c.our, c.partner) + ourFree
    && AmountLocked(d.our) == AmountLocked(c.our) + ourLocked
    && Distributable(d.partner, d.our) == Distributable(c.partner, c.our) + partnerFree
    && AmountLocked(d.partner) == AmountLocked(c.partner)
  }

  /** Exactly this entry of ours changed. */
  ghost predicate OnlyEntry(c: Chan, d: Chan, h: SecretHash, entry: Entry) {
    EntryOf(d.our, h) == entry && forall g :: g != h ==> EntryOf(d.our, g) == EntryOf(c.our, g)
  }

  lemma OwnMoves(c: Chan, block: int, m: Envelope)
    requires SoundChan(c) && Register(c, block, m).1 == Ok && m.sender == c.our.address
    ensures var d, paid := Register(c, block, m).0, m.transferAmount - c.our.proof.transferAmount;
            Moves(c, d, -paid - LockedBy(c.our, m.body), LockedBy(c.our, m.body), paid)
    ensures Writes(c.our, m, Register(c, block, m).0.our)
  {
    AcceptedMovesMoney(c, block, m);
    AcceptanceShape(c, block, m);
    AcceptedRecords(c, block, m);
  }

  /**
   * The order to pay `amount`: on a quiet channel with a nonce left it is built exactly when the amount can be paid,
   * and registering it moves exactly that amount from our free money to the partner's, and no lock.
   */
  lemma PayDirectMeans(c: Chan, block: int, amount: int)
    requires Quiet(c) && c.our.proof.nonce + 1 < UINT64
    ensures CreateDirect(c, amount).Message? <==> 0 < amount <= Distributable(c.our, c.partner)
    ensures CreateDirect(c, amount).Message? ==>
              var r := Register(c, block, CreateDirect(c, amount).m);
              r.1 == Ok && Moves(c, r.0, -amount, 0, amount)
              && r.0.our.pending == c.our.pending && r.0.our.known == c.our.known
  {
    DirectBuilt(c, amount);
    if CreateDirect(c, amount).Message? {
      var m := CreateDirect(c, amount).m;
      BuiltAcceptedIff(c, block, PayDirect(amount));
      OwnMoves(c, block, m);
      SameEntries(c.our, Register(c, block, m).0.our);
    }
  }

  lemma SameEntries(e: End, f: End)
    requires e.pending.Keys !! e.known.Keys && forall g :: EntryOf(f, g) == EntryOf(e, g)
    requires f.pending.Keys !! f.known.Keys
    ensures f.pending == e.pending && f.known == e.known
  {
    forall g ensures (g in f.pending <==> g in e.pending) && (g in f.known <==> g in e.known) {
      assert EntryOf(f, g) == EntryOf(e, g);
    }
    forall g | g in f.pending ensures f.pending[g] == e.pending[g] {
      assert EntryOf(f, g) == EntryOf(e, g);
    }
    forall g | g in f.known ensures f.known[g] == e.known[g] {
      assert EntryOf(f, g) == EntryOf(e, g);
    }
  }

  /**
   * The order to lock: built exactly when the lock's amount can be paid; registering it, for a new hash and in time,
   * moves exactly that amount from our free to our locked money and records exactly that lock as waiting.
   */
  lemma PayMediatedMeans(c: Chan, block: int, lock: Lock)
    requires Quiet(c) && c.our.proof.nonce + 1 < UINT64
    ensures CreateMediated(c, lock).Message? <==> 0 < lock.amount <= Distributable(c.our, c.partner)
    ensures CreateMediated(c, lock).Message? ==>
              var r := Register(c, block, CreateMediated(c, lock).m);
              && (r.1 == Ok <==>
                  EntryOf(c.our, lock.secretHash) == Absent && lock.expiration <= block + c.settleTimeout)
              && (r.1 == Ok ==>
                    Moves(c, r.0, -lock.amount, lock.amount, 0)
                    && OnlyEntry(c, r.0, lock.secretHash, Waiting(PendingLock(lock, LeafOf(lock)))))
  {
    MediatedBuilt(c, lock);
    if CreateMediated(c, lock).Message? {
      BuiltAcceptedIff(c, block, PayMediated(lock));
      if Register(c, block, CreateMediated(c, lock).m).1 == Ok {
        OwnMoves(c, block, CreateMediated(c, lock).m);
      }
    }
  }

  lemma QuietLeaf(c: Chan, h: SecretHash)
    requires Quiet(c) && LockFor(c.our, h).Some?
    ensures LockFor(c.our, h).value in c.our.leaves && LockFor(c.our, h).value.secretHash == h
    ensures h in c.our.known ==> ShaSecret(c.our.known[h].secret) == h && LockFor(c.our, h).value == c.our.known[h].lock
    ensures !SecretIsOnChain(c.our, h)
  {
  }

  /**
   * The order to release: built exactly for a lock of ours whose secret we know; registering it gives the partner
   * exactly that lock's amount out of our locked money, and takes exactly that lock off the books.
   */
  lemma ReleaseMeans(c: Chan, block: int, h: SecretHash)
    requires Quiet(c) && c.our.proof.nonce + 1 < UINT64
    ensures CreateUnlock(c, h).Message? <==> h in c.our.known
    ensures h in c.our.known ==>
              var k, r := c.our.known[h], Register(c, block, CreateUnlock(c, h).m);
              CreateUnlock(c, h).m.body == Unlock(k.secret) && r.1 == Ok
              && Moves(c, r.0, 0, -k.lock.amount, k.lock.amount) && OnlyEntry(c, r.0, h, Absent)
  {
    if h in c.our.known {
      QuietLeaf(c, h);
      UnlockBuilt(c, h);
      BuiltAcceptedIff(c, block, ReleaseLock(h));
      OwnMoves(c, block, CreateUnlock(c, h).m);
    }
  }

  /**
   * The order to drop: built exactly for a lock of ours, expired where that is asked for; registering it gives exactly
   * that lock's amount back to our free money, and takes exactly that lock off the books.
   */
  lemma DropMeans(c: Chan, block: int, h: SecretHash, mustExpire: bool)
    requires Quiet(c) && c.our.proof.nonce + 1 < UINT64
    ensures CreateRemoval(c, h, block, mustExpire).Message? <==>
              LockFor(c.our, h).Some? && (mustExpire ==> LockFor(c.our, h).value.expiration + FORK_CONFIRM <= block)
    ensures CreateRemoval(c, h, block, mustExpire).Message? ==>
              var lock, r := LockFor(c.our, h).value, Register(c, block, CreateRemoval(c, h, block, mustExpire).m);
              CreateRemoval(c, h, block, mustExpire).m.body
                == (if mustExpire then RemoveExpired(h) else DisposeResponse(h))
              && r.1 == Ok && Moves(c, r.0, lock.amount, -lock.amount, 0) && OnlyEntry(c, r.0, h, Absent)
  {
    if LockFor(c.our, h).Some? {
      QuietLeaf(c, h);
      RemovalBuilt(c, h, block, mustExpire);
      if CreateRemoval(c, h, block, mustExpire).Message? {
        BuiltAcceptedIff(c, block, DropLock(h, mustExpire));
        OwnMoves(c, block, CreateRemoval(c, h, block, mustExpire).m);
      }
    } else {
      RemovalNotBuilt(c, h, block, mustExpire);
    }
  }

  /**
   * From every reachable state of two nodes, a payment that A can afford can be made and can arrive: afterwards nothing
   * is under way, A has transferred exactly that much more, and B's copy of A says the same.
   */
  lemma PaymentArrives(w: World, amount: int) returns (acts: seq<Act>)
    requires InStep(w) && w.a.our.proof.nonce + 1 < UINT64 && 0 < amount <= Distributable(w.a.our, w.a.partner)
    ensures var r := Reach(w, acts);
            && r.ab == [] && r.ba == []
            && r.a.our.proof.transferAmount == w.a.our.proof.transferAmount + amount
            && CoreOf(r.b.partner) == CoreOf(r.a.our) && CoreOf(r.a.partner) == CoreOf(r.b.our) == CoreOf(w.b.our)
            && r.a.our.leaves == w.a.our.leaves
  {
    PayDirectMeans(w.a, w.aBlock, amount);
    DirectBuilt(w.a, amount);
    var send := Send(true, PayDirect(amount));
    SentMeans(w, PayDirect(amount));
    NextKeepsStep(w, send);
    AcceptanceShape(w.a, w.aBlock, CreateDirect(w.a, amount).m);
    AcceptedRecords(w.a, w.aBlock, CreateDirect(w.a, amount).m);
    var rest := CanComeToRest(Next(w, send));
    acts := [send] + rest;
    ReachCons(w, send, rest);
  }

  /**
   * An order that is built and accepted at home puts exactly that message at the end of the queue; any other does
   * nothing.
   */
  lemma SentMeans(w: World, o: Order)
    ensures var d := Build(w.a, w.aBlock, o);
            Next(w, Send(true, o)) ==
              if d.Message? && Register(w.a, w.aBlock, d.m).1 == Ok
              then w.(a := Register(w.a, w.aBlock, d.m).0, ab := w.ab + [Packet(d.m, w.aBlock)])
              else w
  {
  }
}

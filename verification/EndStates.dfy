/** One side of a channel: channel/ChannelEndState.go and transfer/state.go. */
module EndStates {
  import opened Primitives
  import opened Merkle
  import opened Messages

  datatype PendingLock = PendingLock(lock: Lock, lockHash: Digest)

  datatype KnownLock = KnownLock(lock: Lock, lockHash: Digest, secret: Secret, onChain: bool)

  datatype BalanceProof = BalanceProof(
    nonce: Nonce, transferAmount: int, locksRoot: Digest,
    contractTransferAmount: int, contractNonce: Nonce, contractLocksRoot: Digest)

  const EMPTY_PROOF := BalanceProof(0, 0, Empty, 0, 0, Empty)

  /** Everything one EndState object holds, as a value. */
  datatype End = End(
    address: Address, contractBalance: int,
    pending: map<SecretHash, PendingLock>, known: map<SecretHash, KnownLock>,
    leaves: seq<Lock>, proof: BalanceProof)

  // ---------- Reading ----------

  predicate IsKnown(e: End, h: SecretHash) {
    h in e.pending || h in e.known
  }

  function LockFor(e: End, h: SecretHash): Option<Lock> {
    if h in e.pending then Some(e.pending[h].lock)
    else if h in e.known then Some(e.known[h].lock)
    else None
  }

  /** GetUnkownSecretLockByHashlock: a lock whose secret is on chain cannot be removed. */
  function RemovableLock(e: End, h: SecretHash): Option<Lock> {
    if h in e.pending then Some(e.pending[h].lock)
    else if h in e.known && !e.known[h].onChain then Some(e.known[h].lock)
    else None
  }

  predicate OnChain(e: End) {
    e.proof.contractTransferAmount != 0 || e.proof.contractLocksRoot != Empty
  }

  ghost function Total(m: map<SecretHash, Lock>): int
    decreases |m|
  {
    if m == map[] then 0
    else
      var h :| h in m;
      m[h].amount + Total(m - {h})
  }

  function PendingLocks(e: End): map<SecretHash, Lock> {
    map h | h in e.pending :: e.pending[h].lock
  }

  function KnownLocks(e: End): map<SecretHash, Lock> {
    map h | h in e.known :: e.known[h].lock
  }

  ghost function AmountLocked(e: End): int {
    Total(PendingLocks(e)) + Total(KnownLocks(e))
  }

  function Balance(e: End, counterpart: End): int {
    e.contractBalance - e.proof.transferAmount + counterpart.proof.transferAmount
  }

  ghost function Distributable(e: End, counterpart: End): int {
    Balance(e, counterpart) - AmountLocked(e)
  }

  // ---------- Changing ----------

  function NewEnd(address: Address, balance: int): End {
    End(address, balance, map[], map[], [], EMPTY_PROOF)
  }

  function ProofFrom(m: Envelope): BalanceProof {
    BalanceProof(m.nonce, m.transferAmount, m.locksRoot, 0, m.nonce, Empty)
  }

  function RegisterDirect(e: End, m: Envelope): (End, Outcome) {
    if OnChain(e) then (e, Err(AlreadyOnChain))
    else if m.locksRoot != MerkleRoot(e.leaves) then (e, Err(InvalidLocksRoot))
    else (e.(proof := ProofFrom(m)), Ok)
  }

  function RegisterMediated(e: End, m: Envelope, lock: Lock): (End, Outcome) {
    if OnChain(e) then (e, Err(AlreadyOnChain))
    else if IsKnown(e, lock.secretHash) then (e, Err(DuplicateLock))
    else if m.transferAmount < e.proof.transferAmount then (e, Err(AmountDecrease))
    else if m.locksRoot != MerkleRoot(e.leaves + [lock]) then (e, Err(InvalidLocksRoot))
    else (e.(pending := e.pending[lock.secretHash := PendingLock(lock, LeafOf(lock))],
             leaves := e.leaves + [lock],
             proof := ProofFrom(m)), Ok)
  }

  function DropLock(e: End, h: SecretHash): End {
    e.(pending := e.pending - {h}, known := e.known - {h})
  }

  function RegisterUnlock(e: End, m: Envelope, secret: Secret): (End, Outcome) {
    var h := ShaSecret(secret);
    if OnChain(e) then (e, Err(AlreadyOnChain))
    else match LockFor(e, h)
      case None => (e, Err(SecretHashNotFound))
      case Some(lock) =>
        if lock !in e.leaves then (e, Err(NoSuchLock))
        else if m.locksRoot != MerkleRoot(Without(e.leaves, lock)) then (e, Err(InvalidLocksRoot))
        else if m.transferAmount != e.proof.transferAmount + lock.amount then (e, Err(AmountMismatch))
        else (DropLock(e, lock.secretHash).(leaves := Without(e.leaves, lock), proof := ProofFrom(m)), Ok)
  }

  /** TryRemoveHashLock: the leaves that remain, or the reason why the lock stays. */
  function TryRemove(e: End, h: SecretHash, block: int, mustExpire: bool): (seq<Lock>, Outcome) {
    match RemovableLock(e, h)
    case None => (e.leaves, Err(NoSuchLock))
    case Some(lock) =>
      if mustExpire && lock.expiration > block - FORK_CONFIRM then (e.leaves, Err(NotExpired))
      else if lock !in e.leaves then (e.leaves, Err(NoSuchLock))
      else (Without(e.leaves, lock), Ok)
  }

  function RegisterRemoveLock(e: End, m: Envelope, h: SecretHash): (End, Outcome) {
    if OnChain(e) then (e, Err(AlreadyOnChain))
    else (DropLock(e, h).(proof := ProofFrom(m)), Ok)
  }

  /**
   * The part of Channel.registerRemoveLock that works on the sender: the shortened tree is stored before the last
   * check.
   */
  function Remove(e: End, block: int, m: Envelope, h: SecretHash, mustExpire: bool): (End, Outcome) {
    var tried := TryRemove(e, h, block, mustExpire);
    if tried.1 != Ok then (e, tried.1)
    else if m.locksRoot != MerkleRoot(tried.0) then (e, Err(InvalidLocksRoot))
    else RegisterRemoveLock(e.(leaves := tried.0), m, h)
  }

  /** What an envelope does to the side that sent it, once the channel's own checks have passed. */
  function EndRegister(e: End, block: int, m: Envelope): (End, Outcome) {
    match m.body
    case Direct => RegisterDirect(e, m)
    case Mediated(lock) => RegisterMediated(e, m, lock)
    case Unlock(secret) => RegisterUnlock(e, m, secret)
    case RemoveExpired(h) => Remove(e, block, m, h, true)
    case DisposeResponse(h) => Remove(e, block, m, h, false)
  }

  function RegisterSecret(e: End, secret: Secret): (End, Outcome) {
    var h := ShaSecret(secret);
    if !IsKnown(e, h) then (e, Err(NoSuchLock))
    else if h in e.pending then
      (e.(pending := e.pending - {h},
          known := e.known[h := KnownLock(e.pending[h].lock, e.pending[h].lockHash, secret, false)]), Ok)
    else (e, Ok)
  }

  /** A secret seen on chain at `block`; the hash is always the secret's own. */
  function RegisterRevealed(e: End, secret: Secret, block: int): (End, Outcome) {
    var h := ShaSecret(secret);
    match LockFor(e, h)
    case None => (e, Err(NoSuchLock))
    case Some(lock) =>
      if block > lock.expiration then (e, Err(NoSuchLock))
      else (e.(pending := e.pending - {h}, known := e.known[h := KnownLock(lock, LeafOf(lock), secret, true)]), Ok)
  }

  function SetContract(e: End, amount: int, root: Digest): End {
    e.(proof := e.proof.(contractTransferAmount := amount, contractLocksRoot := root))
  }

  function SetContractAmount(e: End, amount: int): End {
    e.(proof := e.proof.(contractTransferAmount := amount))
  }

  // ---------- Invariants ----------

  /** Kept by every operation, also by the removal that fails half-way. */
  ghost predicate Sound(e: End) {
    && e.pending.Keys !! e.known.Keys
    && (forall h :: h in e.pending ==>
        e.pending[h].lock.secretHash == h && e.pending[h].lockHash == LeafOf(e.pending[h].lock))
    && (forall h :: h in e.known ==>
          e.known[h].lock.secretHash == h && e.known[h].lockHash == LeafOf(e.known[h].lock)
            && ShaSecret(e.known[h].secret) == h)
    && Distinct(e.leaves)
    && (forall l :: l in e.leaves ==> LockFor(e, l.secretHash) == Some(l))
  }

  /** The maps and the tree agree, and the stored proof commits to the tree. */
  ghost predicate Consistent(e: End) {
    && Sound(e)
    && (forall h :: h in e.pending ==> e.pending[h].lock in e.leaves)
    && (forall h :: h in e.known ==> e.known[h].lock in e.leaves)
    && e.proof.locksRoot == MerkleRoot(e.leaves)
  }

  function SumLeaves(leaves: seq<Lock>): int {
    if leaves == [] then 0 else leaves[0].amount + SumLeaves(leaves[1..])
  }

  // ---------- Sums ----------

  lemma {:induction false} TotalRemove(m: map<SecretHash, Lock>, h: SecretHash)
    requires h in m
    ensures Total(m) == m[h].amount + Total(m - {h})
    decreases |m|
  {
    var k :| k in m && Total(m) == m[k].amount + Total(m - {k});
    if k != h {
      TotalRemove(m - {k}, h);
      TotalRemove(m - {h}, k);
      assert m - {k} - {h} == m - {h} - {k};
    }
  }

  lemma UnionMinus(p: map<SecretHash, Lock>, q: map<SecretHash, Lock>, h: SecretHash)
    requires p.Keys !! q.Keys && h in p
    ensures (p + q) - {h} == (p - {h}) + q
    ensures (p + q)[h] == p[h] && (p - {h}).Keys !! q.Keys
  {}

  lemma {:induction false} TotalUnion(p: map<SecretHash, Lock>, q: map<SecretHash, Lock>)
    requires p.Keys !! q.Keys
    ensures Total(p + q) == Total(p) + Total(q)
    decreases |p|
  {
    if p == map[] {
      assert p + q == q;
    } else {
      var h :| h in p;
      UnionMinus(p, q, h);
      TotalUnion(p - {h}, q);
      TotalRemove(p, h);
      TotalRemove(p + q, h);
    }
  }

  lemma {:induction false} TotalOfLeaves(leaves: seq<Lock>, m: map<SecretHash, Lock>)
    requires Distinct(leaves)
    requires forall l :: l in leaves ==> l.secretHash in m && m[l.secretHash] == l
    requires forall h :: h in m ==> m[h].secretHash == h && m[h] in leaves
    ensures Total(m) == SumLeaves(leaves)
    decreases |leaves|
  {
    if leaves != [] {
      var first := leaves[0];
      var rest := leaves[1..];
      TotalRemove(m, first.secretHash);
      TotalOfLeaves(rest, m - {first.secretHash});
    } else {
      assert m == map[];
    }
  }

  /** The locked amount summed over the two live maps is the one summed over the tree's leaves. */
  lemma LockedIsLeafSum(e: End)
    requires Consistent(e)
    ensures AmountLocked(e) == SumLeaves(e.leaves)
  {
    var p, k := PendingLocks(e), KnownLocks(e);
    TotalUnion(p, k);
    forall l | l in e.leaves ensures l.secretHash in p + k && (p + k)[l.secretHash] == l {
      assert LockFor(e, l.secretHash) == Some(l);
    }
    TotalOfLeaves(e.leaves, p + k);
  }

  lemma {:induction false} SumAppend(leaves: seq<Lock>, x: Lock)
    ensures SumLeaves(leaves + [x]) == SumLeaves(leaves) + x.amount
    decreases |leaves|
  {
    if leaves == [] {
      assert leaves + [x] == [x];
    } else {
      assert (leaves + [x])[1..] == leaves[1..] + [x];
      SumAppend(leaves[1..], x);
    }
  }

  lemma {:induction false} WithoutFacts(leaves: seq<Lock>, x: Lock)
    requires Distinct(leaves) && x in leaves
    ensures Distinct(Without(leaves, x))
    ensures forall y :: y in Without(leaves, x) <==> y in leaves && y != x
    ensures SumLeaves(Without(leaves, x)) == SumLeaves(leaves) - x.amount
    ensures |Without(leaves, x)| == |leaves| - 1
    decreases |leaves|
  {
    if leaves[0] != x {
      WithoutFacts(leaves[1..], x);
      assert forall y :: y in Without(leaves, x) <==> y == leaves[0] || y in Without(leaves[1..], x);
      assert leaves[0] !in leaves[1..];
    } else {
      forall y ensures y in leaves[1..] <==> y in leaves && y != x {}
    }
  }

  // ---------- What each operation keeps ----------

  lemma DirectKeeps(e: End, m: Envelope)
    ensures Sound(e) ==> Sound(RegisterDirect(e, m).0)
    ensures Consistent(e) ==> Consistent(RegisterDirect(e, m).0)
  {}

  lemma MediatedSound(e: End, m: Envelope, lock: Lock)
    requires Sound(e)
    ensures Sound(RegisterMediated(e, m, lock).0)
  {
    if RegisterMediated(e, m, lock).1 == Ok {
      assert lock !in e.leaves;
      var f := RegisterMediated(e, m, lock).0;
      forall l | l in f.leaves ensures LockFor(f, l.secretHash) == Some(l) {
        assert l in e.leaves || l == lock;
      }
    }
  }

  lemma MediatedKeeps(e: End, m: Envelope, lock: Lock)
    ensures Sound(e) ==> Sound(RegisterMediated(e, m, lock).0)
    ensures Consistent(e) ==> Consistent(RegisterMediated(e, m, lock).0)
  {
    if Sound(e) {
      MediatedSound(e, m, lock);
    }
  }

  lemma DropSound(e: End, lock: Lock, p: BalanceProof)
    requires Sound(e) && lock in e.leaves
    ensures Sound(DropLock(e, lock.secretHash).(leaves := Without(e.leaves, lock), proof := p))
  {
    WithoutFacts(e.leaves, lock);
    var d := DropLock(e, lock.secretHash).(leaves := Without(e.leaves, lock), proof := p);
    forall l | l in d.leaves ensures LockFor(d, l.secretHash) == Some(l) {
      assert l in e.leaves && l != lock;
    }
  }

  lemma DropConsistent(e: End, lock: Lock, p: BalanceProof)
    requires Consistent(e) && lock in e.leaves
    requires p.locksRoot == MerkleRoot(Without(e.leaves, lock))
    ensures Consistent(DropLock(e, lock.secretHash).(leaves := Without(e.leaves, lock), proof := p))
  {
    WithoutFacts(e.leaves, lock);
    DropSound(e, lock, p);
  }

  lemma UnlockKeeps(e: End, m: Envelope, secret: Secret)
    ensures Sound(e) ==> Sound(RegisterUnlock(e, m, secret).0)
    ensures Consistent(e) ==> Consistent(RegisterUnlock(e, m, secret).0)
  {
    if Sound(e) && RegisterUnlock(e, m, secret).1 == Ok {
      var lock := LockFor(e, ShaSecret(secret)).value;
      DropSound(e, lock, ProofFrom(m));
      if Consistent(e) {
        DropConsistent(e, lock, ProofFrom(m));
      }
    }
  }

  predicate IsRemoval(b: Body) { b.RemoveExpired? || b.DisposeResponse? }

  /** A removal that passes every check of its sender but the last one. */
  predicate HalfDone(e: End, block: int, m: Envelope) {
    && IsRemoval(m.body)
    && var tried := TryRemove(e, m.body.secretHash, block, m.body.RemoveExpired?);
       tried.1 == Ok && m.locksRoot == MerkleRoot(tried.0) && OnChain(e)
  }

  lemma RemoveShape(e: End, block: int, m: Envelope, h: SecretHash, mustExpire: bool)
    requires TryRemove(e, h, block, mustExpire).1 == Ok
        && m.locksRoot == MerkleRoot(TryRemove(e, h, block, mustExpire).0)
    ensures var lock := RemovableLock(e, h).value;
            && lock in e.leaves && LockFor(e, h) == Some(lock) && m.locksRoot == MerkleRoot(Without(e.leaves, lock))
            && Remove(e, block, m, h, mustExpire).0
               == if OnChain(e) then e.(leaves := Without(e.leaves, lock))
                  else DropLock(e, h).(leaves := Without(e.leaves, lock), proof := ProofFrom(m))
  {}

  lemma ShortTree(e: End, lock: Lock)
    requires Sound(e) && lock in e.leaves
    ensures Sound(e.(leaves := Without(e.leaves, lock)))
    ensures !Consistent(e.(leaves := Without(e.leaves, lock)))
  {
    WithoutFacts(e.leaves, lock);
    var f := e.(leaves := Without(e.leaves, lock));
    var h := lock.secretHash;
    assert LockFor(e, h) == Some(lock);
    if h in e.pending {
      assert f.pending[h].lock !in f.leaves;
    } else {
      assert f.known[h].lock !in f.leaves;
    }
    forall l | l in f.leaves ensures LockFor(f, l.secretHash) == Some(l) {
      assert l in e.leaves;
    }
  }

  lemma RemoveKeeps(e: End, block: int, m: Envelope, h: SecretHash, mustExpire: bool)
    requires Sound(e)
    requires TryRemove(e, h, block, mustExpire).1 == Ok
        && m.locksRoot == MerkleRoot(TryRemove(e, h, block, mustExpire).0)
    ensures Sound(Remove(e, block, m, h, mustExpire).0)
    ensures Consistent(e) ==> (Consistent(Remove(e, block, m, h, mustExpire).0) <==> !OnChain(e))
  {
    var lock := RemovableLock(e, h).value;
    RemoveShape(e, block, m, h, mustExpire);
    assert lock.secretHash == h;
    if OnChain(e) {
      ShortTree(e, lock);
    } else {
      DropSound(e, lock, ProofFrom(m));
      if Consistent(e) {
        DropConsistent(e, lock, ProofFrom(m));
      }
    }
  }

  lemma EndRegisterSound(e: End, block: int, m: Envelope)
    requires Sound(e)
    ensures Sound(EndRegister(e, block, m).0)
  {
    match m.body {
      case Direct => DirectKeeps(e, m);
      case Mediated(lock) => MediatedKeeps(e, m, lock);
      case Unlock(secret) => UnlockKeeps(e, m, secret);
      case RemoveExpired(h) => EndRemovalIff(e, block, m);
      case DisposeResponse(h) => EndRemovalIff(e, block, m);
    }
  }

  lemma EndRemovalIff(e: End, block: int, m: Envelope)
    requires Sound(e) && IsRemoval(m.body)
    ensures Sound(EndRegister(e, block, m).0)
    ensures Consistent(e) ==> (Consistent(EndRegister(e, block, m).0) <==> !HalfDone(e, block, m))
  {
    var h, must := m.body.secretHash, m.body.RemoveExpired?;
    var tried := TryRemove(e, h, block, must);
    if tried.1 == Ok && m.locksRoot == MerkleRoot(tried.0) {
      RemoveKeeps(e, block, m, h, must);
    } else {
      assert EndRegister(e, block, m).0 == e;
    }
  }

  /** Maps, tree and stored root stay in agreement exactly when the message is not a half-done removal. */
  lemma EndRegisterConsistentIff(e: End, block: int, m: Envelope)
    requires Consistent(e)
    ensures Consistent(EndRegister(e, block, m).0) <==> !HalfDone(e, block, m)
  {
    match m.body {
      case Direct => DirectKeeps(e, m);
      case Mediated(lock) => MediatedKeeps(e, m, lock);
      case Unlock(secret) => UnlockKeeps(e, m, secret);
      case RemoveExpired(h) => EndRemovalIff(e, block, m);
      case DisposeResponse(h) => EndRemovalIff(e, block, m);
    }
  }

  /** A refusal leaves the sender as it was, except exactly the half-done removal. */
  lemma EndRefusalIff(e: End, block: int, m: Envelope)
    requires Sound(e) && EndRegister(e, block, m).1 != Ok
    ensures EndRegister(e, block, m).0 == e <==> !HalfDone(e, block, m)
  {
    if HalfDone(e, block, m) {
      RemoveShape(e, block, m, m.body.secretHash, m.body.RemoveExpired?);
      WithoutFacts(e.leaves, RemovableLock(e, m.body.secretHash).value);
    }
  }

  /** What an acceptance writes into the sender. */
  lemma EndAcceptance(e: End, block: int, m: Envelope)
    requires EndRegister(e, block, m).1 == Ok
    ensures var f := EndRegister(e, block, m).0;
            !OnChain(e) && f.proof == ProofFrom(m) && f.address == e.address && f.contractBalance == e.contractBalance
  {}

  lemma SecretKeeps(e: End, secret: Secret)
    ensures Sound(e) ==> Sound(RegisterSecret(e, secret).0)
    ensures Consistent(e) ==> Consistent(RegisterSecret(e, secret).0)
  {}

  lemma RevealedKeeps(e: End, secret: Secret, block: int)
    ensures Sound(e) ==> Sound(RegisterRevealed(e, secret, block).0)
    ensures Consistent(e) ==> Consistent(RegisterRevealed(e, secret, block).0)
  {}
}

/** The EndState object, changed in place: channel/ChannelEndState.go. */
module EndObjects {
  import opened Primitives
  import opened Merkle
  import opened Messages
  import opened EndStates

  method SumLocks(locks: map<SecretHash, Lock>) returns (sum: int)
    ensures sum == Total(locks)
  {
    sum := 0;
    var rest := locks;
    while rest != map[]
      invariant sum + Total(rest) == Total(locks)
      decreases |rest|
    {
      var h :| h in rest;
      TotalRemove(rest, h);
      sum := sum + rest[h].amount;
      rest := rest - {h};
    }
  }

  lemma KnownIsLock(e: End, h: SecretHash)
    requires Sound(e) && h in e.known
    ensures LockFor(e, e.known[h].lock.secretHash) == Some(e.known[h].lock)
  {
  }

  class EndState {
    const address: Address
    var contractBalance: int
    var lock2PendingLocks: map<SecretHash, PendingLock>
    var lock2UnclaimedLocks: map<SecretHash, KnownLock>
    var tree: Tree
    var balanceProofState: BalanceProof

    function View(): End
      reads this
    {
      End(address, contractBalance, lock2PendingLocks, lock2UnclaimedLocks, tree.leaves, balanceProofState)
    }

    ghost predicate Valid()
      reads this
    {
      Built(tree) && Sound(View())
    }

    constructor (address: Address, balance: int)
      ensures Valid() && View() == NewEnd(address, balance)
    {
      this.address := address;
      contractBalance := balance;
      lock2PendingLocks, lock2UnclaimedLocks := map[], map[];
      tree := Tree([[]], []);
      balanceProofState := EMPTY_PROOF;
    }

    /** NewChannelEndState around a saved proof and tree; the maps are filled in afterwards. */
    constructor Restored(address: Address, balance: int, proof: BalanceProof, tree: Tree)
      ensures View() == NewEnd(address, balance).(proof := proof, leaves := tree.leaves) && this.tree == tree
    {
      this.address := address;
      contractBalance := balance;
      lock2PendingLocks, lock2UnclaimedLocks := map[], map[];
      this.tree := tree;
      balanceProofState := proof;
    }

    /** What a withdraw does to one side. */
    method Reset(balance: int)
      modifies this
      ensures Valid() && View() == NewEnd(address, balance)
    {
      contractBalance := balance;
      lock2PendingLocks, lock2UnclaimedLocks := map[], map[];
      tree := NewMerkleTree([]);
      balanceProofState := EMPTY_PROOF;
    }

    // ---------- Reading ----------

    method GetAmountLocked() returns (sum: int)
      ensures sum == AmountLocked(View())
    {
      var pending := SumLocks(PendingLocks(View()));
      var known := SumLocks(KnownLocks(View()));
      sum := pending + known;
    }

    method GetDistributable(counterpart: EndState) returns (amount: int)
      ensures amount == Distributable(View(), counterpart.View())
    {
      var locked := GetAmountLocked();
      amount := Balance(View(), counterpart.View()) - locked;
    }

    /** computeMerkleRootWithout. */
    method ComputeWithout(lock: Lock) returns (r: Tree, root: Digest, outcome: Outcome)
      requires Valid() && LockFor(View(), lock.secretHash) == Some(lock)
      ensures outcome == if lock in tree.leaves then Ok else Err(NoSuchLock)
      ensures outcome == Ok ==> Built(r) && r.leaves == Without(tree.leaves, lock) && root == MerkleRoot(r.leaves)
      ensures outcome != Ok ==> r == tree
    {
      r, root, outcome := tree, Empty, Ok;
      var leaves, found := RemoveHash(tree.leaves, lock);
      if !found {
        outcome := Err(NoSuchLock);
        return;
      }
      WithoutFacts(tree.leaves, lock);
      r := NewMerkleTree(leaves);
      root := RootOfTree(r);
    }

    method RootWithoutKnown(h: SecretHash) returns (root: Digest, outcome: Outcome)
      requires Valid() && h in lock2UnclaimedLocks
      ensures outcome == if lock2UnclaimedLocks[h].lock in tree.leaves then Ok else Err(NoSuchLock)
      ensures outcome == Ok ==> root == MerkleRoot(Without(tree.leaves, lock2UnclaimedLocks[h].lock))
    {
      KnownIsLock(View(), h);
      var _, newRoot, computed := ComputeWithout(lock2UnclaimedLocks[h].lock);
      return newRoot, computed;
    }

    method TryRemoveHashLock(h: SecretHash, block: int, mustExpire: bool)
      returns (r: Tree, root: Digest, outcome: Outcome)
      requires Valid()
      ensures (r.leaves, outcome) == TryRemove(View(), h, block, mustExpire) && Built(r)
      ensures outcome == Ok ==> root == MerkleRoot(r.leaves)
    {
      r, root := tree, Empty;
      var found := RemovableLock(View(), h);
      if found.None? {
        outcome := Err(NoSuchLock);
        return;
      }
      if mustExpire && found.value.expiration > block - FORK_CONFIRM {
        outcome := Err(NotExpired);
        return;
      }
      r, root, outcome := ComputeWithout(found.value);
    }

    // ---------- Envelope messages ----------

    method RegisterDirectTransfer(m: Envelope) returns (outcome: Outcome)
      requires Valid()
      modifies this
      ensures Valid() && (View(), outcome) == RegisterDirect(old(View()), m)
    {
      if OnChain(View()) {
        return Err(AlreadyOnChain);
      }
      var root := RootOfTree(tree);
      if m.locksRoot != root {
        return Err(InvalidLocksRoot);
      }
      DirectKeeps(View(), m);
      balanceProofState := ProofFrom(m);
      assert View() == RegisterDirect(old(View()), m).0;
      return Ok;
    }

    method RegisterMediatedMessage(m: Envelope, lock: Lock) returns (outcome: Outcome)
      requires Valid()
      modifies this
      ensures Valid() && (View(), outcome) == RegisterMediated(old(View()), m, lock)
    {
      if OnChain(View()) {
        return Err(AlreadyOnChain);
      }
      if IsKnown(View(), lock.secretHash) {
        return Err(DuplicateLock);
      }
      if m.transferAmount < balanceProofState.transferAmount {
        return Err(AmountDecrease);
      }
      var newTree := ComputeMerkleRootWith(tree, lock);
      var root := RootOfTree(newTree);
      if m.locksRoot != root {
        return Err(InvalidLocksRoot);
      }
      MediatedKeeps(View(), m, lock);
      lock2PendingLocks := lock2PendingLocks[lock.secretHash := PendingLock(lock, LeafOf(lock))];
      balanceProofState := ProofFrom(m);
      tree := newTree;
      return Ok;
    }

    method RegisterSecretMessage(m: Envelope, secret: Secret) returns (outcome: Outcome)
      requires Valid()
      modifies this
      ensures Valid() && (View(), outcome) == RegisterUnlock(old(View()), m, secret)
    {
      if OnChain(View()) {
        return Err(AlreadyOnChain);
      }
      var found := LockFor(View(), ShaSecret(secret));
      if found.None? {
        return Err(SecretHashNotFound);
      }
      var lock := found.value;
      var newTree, root, computed := ComputeWithout(lock);
      if computed != Ok {
        return computed;
      }
      if m.locksRoot != root {
        return Err(InvalidLocksRoot);
      }
      if m.transferAmount != balanceProofState.transferAmount + lock.amount {
        return Err(AmountMismatch);
      }
      Claim(lock, newTree, ProofFrom(m));
      return Ok;
    }

    method Claim(lock: Lock, newTree: Tree, proof: BalanceProof)
      requires Valid() && lock in tree.leaves && Built(newTree) && newTree.leaves == Without(tree.leaves, lock)
      modifies this
      ensures Valid()
      ensures View()
          == DropLock(old(View()), lock.secretHash).(leaves := Without(old(tree.leaves), lock), proof := proof)
    {
      DropSound(View(), lock, proof);
      lock2PendingLocks := lock2PendingLocks - {lock.secretHash};
      lock2UnclaimedLocks := lock2UnclaimedLocks - {lock.secretHash};
      tree := newTree;
      balanceProofState := proof;
    }

    /** The maps and the proof only: the caller has already replaced the tree. */
    method RegisterRemoveLock(m: Envelope, h: SecretHash) returns (outcome: Outcome)
      modifies this`lock2PendingLocks, this`lock2UnclaimedLocks, this`balanceProofState
      ensures (View(), outcome) == EndStates.RegisterRemoveLock(old(View()), m, h)
    {
      if OnChain(View()) {
        return Err(AlreadyOnChain);
      }
      balanceProofState := ProofFrom(m);
      lock2PendingLocks := lock2PendingLocks - {h};
      lock2UnclaimedLocks := lock2UnclaimedLocks - {h};
      return Ok;
    }

    // ---------- Secrets and contract values ----------

    method RegisterSecret(secret: Secret) returns (outcome: Outcome)
      requires Valid()
      modifies this`lock2PendingLocks, this`lock2UnclaimedLocks
      ensures Valid() && (View(), outcome) == EndStates.RegisterSecret(old(View()), secret)
    {
      var h := ShaSecret(secret);
      if !IsKnown(View(), h) {
        return Err(NoSuchLock);
      }
      SecretKeeps(View(), secret);
      if h in lock2PendingLocks {
        var p := lock2PendingLocks[h];
        lock2PendingLocks := lock2PendingLocks - {h};
        lock2UnclaimedLocks := lock2UnclaimedLocks[h := KnownLock(p.lock, p.lockHash, secret, false)];
      }
      return Ok;
    }

    method RegisterRevealedSecretHash(secret: Secret, block: int) returns (outcome: Outcome)
      requires Valid()
      modifies this`lock2PendingLocks, this`lock2UnclaimedLocks
      ensures Valid() && (View(), outcome) == RegisterRevealed(old(View()), secret, block)
    {
      var h := ShaSecret(secret);
      var found := LockFor(View(), h);
      if found.None? || block > found.value.expiration {
        return Err(NoSuchLock);
      }
      RevealedKeeps(View(), secret, block);
      lock2PendingLocks := lock2PendingLocks - {h};
      lock2UnclaimedLocks := lock2UnclaimedLocks[h := KnownLock(found.value, LeafOf(found.value), secret, true)];
      return Ok;
    }

    method SetContractTransferAmount(amount: int)
      modifies this`balanceProofState
      ensures View() == SetContractAmount(old(View()), amount)
    {
      balanceProofState := balanceProofState.(contractTransferAmount := amount);
    }

    method SetContractLocksroot(root: Digest)
      modifies this`balanceProofState
      ensures View() == SetContract(old(View()), old(balanceProofState.contractTransferAmount), root)
    {
      balanceProofState := balanceProofState.(contractLocksRoot := root);
    }

    method UpdateContractBalance(balance: int) returns (outcome: Outcome)
      modifies this`contractBalance
      ensures outcome == Ok <==> balance >= old(contractBalance)
      ensures contractBalance == if outcome == Ok then balance else old(contractBalance)
    {
      if balance < contractBalance {
        return Err(BalanceDecrease);
      }
      contractBalance := balance;
      return Ok;
    }

    /**
     * GetCanUnlockOnChainLocks: a proof for every lock whose secret is on chain; each verifies against the tree's root.
     */
    method CanUnlockOnChain() returns (proofs: seq<(Lock, seq<Digest>)>)
      requires Valid()
      ensures forall p :: p in proofs ==>
                && p.0.secretHash in lock2UnclaimedLocks && lock2UnclaimedLocks[p.0.secretHash].lock == p.0
                && lock2UnclaimedLocks[p.0.secretHash].onChain
                && (p.0 in tree.leaves ==> CheckProof(p.1, MerkleRoot(tree.leaves), LeafOf(p.0)))
      ensures forall h :: h in lock2UnclaimedLocks && lock2UnclaimedLocks[h].onChain ==>
                exists p :: p in proofs && p.0 == lock2UnclaimedLocks[h].lock
    {
      proofs := [];
      var rest := lock2UnclaimedLocks.Keys;
      while rest != {}
        invariant rest <= lock2UnclaimedLocks.Keys
        invariant forall p :: p in proofs ==>
                    && p.0.secretHash in lock2UnclaimedLocks && lock2UnclaimedLocks[p.0.secretHash].lock == p.0
                    && lock2UnclaimedLocks[p.0.secretHash].onChain
                    && (p.0 in tree.leaves ==> CheckProof(p.1, MerkleRoot(tree.leaves), LeafOf(p.0)))
        invariant forall h :: h in lock2UnclaimedLocks && h !in rest && lock2UnclaimedLocks[h].onChain ==>
                    exists p :: p in proofs && p.0 == lock2UnclaimedLocks[h].lock
        decreases |rest|
      {
        var h :| h in rest;
        var v := lock2UnclaimedLocks[h];
        rest := rest - {h};
        if !v.onChain {
          continue;
        }
        var proof := MakeProof(tree, LeafOf(v.lock));
        ghost var before := proofs;
        proofs := proofs + [(v.lock, proof)];
        assert proofs[|before|] == (v.lock, proof);
        assert forall p :: p in before ==> p in proofs;
        if v.lock in tree.leaves {
          var i :| 0 <= i < |tree.leaves| && tree.leaves[i] == v.lock;
          assert Hashes(tree.leaves)[i] == LeafOf(v.lock);
        }
      }
    }
  }
}

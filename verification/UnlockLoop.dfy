/** Claiming locks on chain one after the other: ExternalState.Unlock of channel/ChannelExternalState.go. */
module UnlockLoop {
  import opened Primitives
  import opened Merkle

  /** A lock with its Merkle proof. */
  datatype UnlockProof = UnlockProof(lock: Lock, proof: seq<Digest>)

  /**
   * One transaction: what was passed, what the contract held, what the database had as disposed, and whether it went
   * through.
   */
  datatype Call = Call(claim: UnlockProof, passed: int, held: int, disposed: set<SecretHash>, ok: bool)

  /**
   * `amount` is the loop's variable, `contract` the contract's own amount; `unlocked` and `disposed` are the
   * database's.
   */
  datatype Progress = Progress(amount: int, contract: int, unlocked: set<SecretHash>, disposed: set<SecretHash>,
    calls: seq<Call>)

  /** Whether the n-th transaction since the node started goes through. */
  type Luck = nat -> bool

  function Skips(p: Progress, h: SecretHash): bool {
    h in p.unlocked || h in p.disposed
  }

  function Attempt(p: Progress, u: UnlockProof, luck: Luck): Progress {
    var call := Call(u, p.amount, p.contract, p.disposed, luck(|p.calls|));
    if call.ok then
      p.(amount := p.amount + u.lock.amount, contract := p.contract + u.lock.amount,
         unlocked := p.unlocked + {u.lock.secretHash}, calls := p.calls + [call])
    else p.(calls := p.calls + [call])
  }

  function OneProof(p: Progress, u: UnlockProof, luck: Luck): Progress {
    if Skips(p, u.lock.secretHash) then p else Attempt(p, u, luck)
  }

  function AllProofs(p: Progress, us: seq<UnlockProof>, luck: Luck): Progress
    decreases |us|
  {
    if us == [] then p else OneProof(AllProofs(p, us[..|us| - 1], luck), us[|us| - 1], luck)
  }

  class ExternalState {
    const luck: Luck
    var unlocked: set<SecretHash>
    var disposed: set<SecretHash>
    /** The contract beyond the proxy. */
    var contract: int
    var calls: seq<Call>

    function View(amount: int): Progress
      reads this
    {
      Progress(amount, contract, unlocked, disposed, calls)
    }

    constructor (luck: Luck, contract: int)
      ensures this.luck == luck && View(contract) == Progress(contract, contract, {}, {}, [])
    {
      this.luck, this.contract := luck, contract;
      unlocked, disposed, calls := {}, {}, [];
    }

    method CallUnlock(u: UnlockProof, passed: int) returns (ok: bool)
      modifies this`contract, this`calls
      ensures ok == luck(|old(calls)|) && calls == old(calls) + [Call(u, passed, old(contract), disposed, ok)]
      ensures contract == if ok then old(contract) + u.lock.amount else old(contract)
    {
      ok := luck(|calls|);
      calls := calls + [Call(u, passed, contract, disposed, ok)];
      if ok {
        contract := contract + u.lock.amount;
      }
    }

    method Unlock(proofs: seq<UnlockProof>, start: int) returns (failed: bool, amount: int)
      modifies this`unlocked, this`contract, this`calls
      ensures View(amount) == AllProofs(old(View(start)), proofs, luck)
      ensures failed <==> exists i :: |old(calls)| <= i < |calls| && !calls[i].ok
    {
      amount, failed := start, false;
      for i := 0 to |proofs|
        invariant View(amount) == AllProofs(old(View(start)), proofs[..i], luck)
        invariant |old(calls)| <= |calls|
        invariant failed <==> exists k :: |old(calls)| <= k < |calls| && !calls[k].ok
      {
        assert proofs[..i + 1][..i] == proofs[..i];
        var u := proofs[i];
        if u.lock.secretHash in unlocked {
          continue;
        }
        if u.lock.secretHash in disposed {
          continue;
        }
        ghost var earlier := calls;
        var ok := CallUnlock(u, amount);
        assert calls[..|earlier|] == earlier && calls[|earlier|].ok == ok;
        if !ok {
          failed := true;
        } else {
          unlocked := unlocked + {u.lock.secretHash};
          amount := amount + u.lock.amount;
        }
      }
      assert proofs[..|proofs|] == proofs;
    }
  }

  // ---------- What the loop guarantees ----------

  function Gained(calls: seq<Call>): int
    decreases |calls|
  {
    if calls == [] then 0
    else
      var last := calls[|calls| - 1];
      Gained(calls[..|calls| - 1]) + (if last.ok then last.claim.lock.amount else 0)
  }

  /**
   * No call claims a lock that was disposed by then, what is disposed stays so, and a hash that went through is on
   * record and never claimed again.
   */
  ghost predicate Tidy(p: Progress) {
    && (forall i :: 0 <= i < |p.calls| ==>
          p.calls[i].claim.lock.secretHash !in p.calls[i].disposed && p.calls[i].disposed <= p.disposed)
    && (forall i, j :: 0 <= i < j < |p.calls| ==> p.calls[i].disposed <= p.calls[j].disposed)
    && (forall i :: 0 <= i < |p.calls| && p.calls[i].ok ==> p.calls[i].claim.lock.secretHash in p.unlocked)
    && (forall i, j :: 0 <= i < j < |p.calls| && p.calls[i].ok ==>
          p.calls[j].claim.lock.secretHash != p.calls[i].claim.lock.secretHash)
  }

  lemma OneProofTidy(p: Progress, u: UnlockProof, luck: Luck)
    requires Tidy(p)
    ensures Tidy(OneProof(p, u, luck))
  {
  }

  lemma {:induction false} AllProofsTidy(p: Progress, us: seq<UnlockProof>, luck: Luck)
    requires Tidy(p)
    ensures Tidy(AllProofs(p, us, luck))
    decreases |us|
  {
    if us != [] {
      AllProofsTidy(p, us[..|us| - 1], luck);
      OneProofTidy(AllProofs(p, us[..|us| - 1], luck), us[|us| - 1], luck);
    }
  }

  /** The calls from position `from` on are all off by the same amount. */
  ghost predicate OffBy(p: Progress, from: nat, off: int) {
    && from <= |p.calls| && p.amount == p.contract + off
    && (forall i :: from <= i < |p.calls| ==> p.calls[i].passed == p.calls[i].held + off)
  }

  lemma OneProofOffBy(p: Progress, u: UnlockProof, luck: Luck, from: nat, off: int)
    requires OffBy(p, from, off)
    ensures var q := OneProof(p, u, luck);
            OffBy(q, from, off) && q.contract - p.contract == Gained(q.calls[from..]) - Gained(p.calls[from..])
  {
    var q := OneProof(p, u, luck);
    if !Skips(p, u.lock.secretHash) {
      var tail := q.calls[from..];
      assert tail[..|tail| - 1] == p.calls[from..];
    }
  }

  lemma {:induction false} LoopOffBy(p: Progress, us: seq<UnlockProof>, luck: Luck)
    ensures var q := AllProofs(p, us, luck);
            OffBy(q, |p.calls|, p.amount - p.contract) && q.contract == p.contract + Gained(q.calls[|p.calls|..])
    decreases |us|
  {
    if us == [] {
      assert p.calls[|p.calls|..] == [];
    } else {
      var before := us[..|us| - 1];
      LoopOffBy(p, before, luck);
      OneProofOffBy(AllProofs(p, before, luck), us[|us| - 1], luck, |p.calls|, p.amount - p.contract);
    }
  }

  /**
   * The final amount is the start plus the locks that went through; and every call passes the contract's current amount
   * exactly when the loop started from it, or made no call.
   */
  lemma LoopIsCurrentIff(p: Progress, us: seq<UnlockProof>, luck: Luck)
    ensures var q := AllProofs(p, us, luck);
            && |p.calls| <= |q.calls|
            && q.amount == p.amount + Gained(q.calls[|p.calls|..])
            && q.contract == p.contract + Gained(q.calls[|p.calls|..])
            && ((forall i :: |p.calls| <= i < |q.calls| ==> q.calls[i].passed == q.calls[i].held)
                <==> p.amount == p.contract || |q.calls| == |p.calls|)
  {
    LoopOffBy(p, us, luck);
    var q := AllProofs(p, us, luck);
    if |q.calls| > |p.calls| {
      assert q.calls[|p.calls|].passed == q.calls[|p.calls|].held + (p.amount - p.contract);
    }
  }

  /** A call of Unlock with the amount the channel knew then, or a lock announced as disposed in between. */
  datatype Deed = Claim(proofs: seq<UnlockProof>, start: int) | Dispose(hash: SecretHash)

  function Do(p: Progress, d: Deed, luck: Luck): Progress {
    match d
    case Claim(proofs, start) => AllProofs(p.(amount := start), proofs, luck)
    case Dispose(h) => p.(disposed := p.disposed + {h})
  }

  function Repeated(p: Progress, ds: seq<Deed>, luck: Luck): Progress
    decreases |ds|
  {
    if ds == [] then p else Do(Repeated(p, ds[..|ds| - 1], luck), ds[|ds| - 1], luck)
  }

  lemma {:induction false} RepeatedTidy(p: Progress, ds: seq<Deed>, luck: Luck)
    requires Tidy(p)
    ensures Tidy(Repeated(p, ds, luck)) && p.disposed <= Repeated(p, ds, luck).disposed
    ensures |p.calls| <= |Repeated(p, ds, luck).calls|
    ensures forall i :: |p.calls| <= i < |Repeated(p, ds, luck).calls| ==>
        p.disposed <= Repeated(p, ds, luck).calls[i].disposed
    decreases |ds|
  {
    if ds != [] {
      var q := Repeated(p, ds[..|ds| - 1], luck);
      RepeatedTidy(p, ds[..|ds| - 1], luck);
      match ds[|ds| - 1] {
        case Claim(proofs, start) =>
          AllProofsTidy(q.(amount := start), proofs, luck);
          AllProofsExtend(q.(amount := start), proofs, luck);
        case Dispose(_) =>
      }
    }
  }

  lemma {:induction false} AllProofsExtend(p: Progress, us: seq<UnlockProof>, luck: Luck)
    ensures var q := AllProofs(p, us, luck);
            && q.disposed == p.disposed && |p.calls| <= |q.calls| && q.calls[..|p.calls|] == p.calls
            && forall i :: |p.calls| <= i < |q.calls| ==> q.calls[i].disposed == p.disposed
    decreases |us|
  {
    if us != [] {
      AllProofsExtend(p, us[..|us| - 1], luck);
    }
  }

  /**
   * Over any number of calls, whatever proofs and amounts they are given and whatever is disposed in between: no lock
   * is claimed that was disposed by then, and none goes through twice.
   */
  lemma NeverTwice(ds: seq<Deed>, luck: Luck, contract: int)
    ensures Tidy(Repeated(Progress(contract, contract, {}, {}, []), ds, luck))
  {
    RepeatedTidy(Progress(contract, contract, {}, {}, []), ds, luck);
  }

  /** Once a lock is disposed, no later call claims it. */
  lemma NeverAfterDispose(p: Progress, h: SecretHash, ds: seq<Deed>, luck: Luck)
    requires Tidy(p)
    ensures var q := Repeated(Do(p, Dispose(h), luck), ds, luck);
            forall i :: |p.calls| <= i < |q.calls| ==> q.calls[i].claim.lock.secretHash != h
  {
    RepeatedTidy(Do(p, Dispose(h), luck), ds, luck);
  }

  // ---------- Which calls are made ----------

  /** The hashes that went through in these calls. */
  predicate WentThrough(calls: seq<Call>, h: SecretHash) {
    exists i :: 0 <= i < |calls| && calls[i].ok && calls[i].claim.lock.secretHash == h
  }

  /** The record grows by exactly the hashes that went through. */
  lemma {:induction false} RecordIff(p: Progress, us: seq<UnlockProof>, luck: Luck, h: SecretHash)
    ensures var q := AllProofs(p, us, luck);
            && |p.calls| <= |q.calls|
            && (h in q.unlocked <==> h in p.unlocked || WentThrough(q.calls[|p.calls|..], h))
    decreases |us|
  {
    if us == [] {
      assert p.calls[|p.calls|..] == [];
    } else {
      var b := AllProofs(p, us[..|us| - 1], luck);
      var q := AllProofs(p, us, luck);
      RecordIff(p, us[..|us| - 1], luck, h);
      if q.calls != b.calls {
        var earlier, later := b.calls[|p.calls|..], q.calls[|p.calls|..];
        assert later == earlier + [q.calls[|b.calls|]];
        if WentThrough(earlier, h) {
          var i :| 0 <= i < |earlier| && earlier[i].ok && earlier[i].claim.lock.secretHash == h;
          assert later[i] == earlier[i];
        }
        assert later[|earlier|] == q.calls[|b.calls|];
      }
    }
  }

  /**
   * At its turn every proof gets a call, whatever came of the calls before it, exactly when its hash is not disposed,
   * was not on record at the start and has not gone through since.
   */
  lemma EveryTurnIff(p: Progress, us: seq<UnlockProof>, luck: Luck, i: nat)
    requires i < |us|
    ensures var before, after := AllProofs(p, us[..i], luck), AllProofs(p, us[..i + 1], luck);
            var h := us[i].lock.secretHash;
            && |p.calls| <= |before.calls|
            && (if h !in p.disposed && h !in p.unlocked && !WentThrough(before.calls[|p.calls|..], h)
                then |after.calls| == |before.calls| + 1 && after.calls[|before.calls|].claim == us[i]
                               && after.calls[..|before.calls|] == before.calls
                else after == before)
  {
    assert us[..i + 1][..i] == us[..i];
    AllProofsExtend(p, us[..i], luck);
    RecordIff(p, us[..i], luck, us[i].lock.secretHash);
  }

  /** The proofs whose hash is neither on record nor disposed, in the order of the list. */
  function Due(us: seq<UnlockProof>, p: Progress): seq<UnlockProof>
    decreases |us|
  {
    if us == [] then []
    else
      var u := us[|us| - 1];
      Due(us[..|us| - 1], p)
      + (if u.lock.secretHash in p.unlocked || u.lock.secretHash in p.disposed then [] else [u])
  }

  function Claims(calls: seq<Call>): (r: seq<UnlockProof>)
    ensures |r| == |calls|
  {
    seq(|calls|, i requires 0 <= i < |calls| => calls[i].claim)
  }

  lemma ClaimsAppend(calls: seq<Call>, last: Call)
    ensures Claims(calls + [last]) == Claims(calls) + [last.claim]
  {
  }

  ghost predicate DistinctHashes(us: seq<UnlockProof>) {
    forall i, j :: 0 <= i < j < |us| ==> us[i].lock.secretHash != us[j].lock.secretHash
  }

  /** For distinct hashes the calls claim exactly the proofs that are due, in order, failures or not. */
  lemma {:induction false} ClaimsAreDue(p: Progress, us: seq<UnlockProof>, luck: Luck)
    requires DistinctHashes(us)
    ensures var q := AllProofs(p, us, luck);
            |p.calls| <= |q.calls| && Claims(q.calls[|p.calls|..]) == Due(us, p)
    ensures forall h :: h in AllProofs(p, us, luck).unlocked && h !in p.unlocked ==>
              exists k :: 0 <= k < |us| && us[k].lock.secretHash == h
    decreases |us|
  {
    if us == [] {
      assert p.calls[|p.calls|..] == [];
    } else {
      var n := |us| - 1;
      var b, q := AllProofs(p, us[..n], luck), AllProofs(p, us, luck);
      ClaimsAreDue(p, us[..n], luck);
      AllProofsExtend(p, us[..n], luck);
      assert forall k :: 0 <= k < n ==> us[..n][k].lock.secretHash != us[n].lock.secretHash;
      RecordIff(p, us[..n], luck, us[n].lock.secretHash);
      if q.calls != b.calls {
        assert q.calls[|p.calls|..] == b.calls[|p.calls|..] + [q.calls[|b.calls|]];
        ClaimsAppend(b.calls[|p.calls|..], q.calls[|b.calls|]);
      }
    }
  }

  function Worth(us: seq<UnlockProof>): int
    decreases |us|
  {
    if us == [] then 0 else Worth(us[..|us| - 1]) + us[|us| - 1].lock.amount
  }

  lemma {:induction false} GainedIsWorth(calls: seq<Call>)
    requires forall i :: 0 <= i < |calls| ==> calls[i].ok
    ensures Gained(calls) == Worth(Claims(calls))
    decreases |calls|
  {
    if calls != [] {
      assert Claims(calls)[..|calls| - 1] == Claims(calls[..|calls| - 1]);
      GainedIsWorth(calls[..|calls| - 1]);
    }
  }

  /** When all of them succeed, the contract has gained exactly what was due. */
  lemma AllGained(p: Progress, us: seq<UnlockProof>, luck: Luck)
    requires DistinctHashes(us) && p.amount == p.contract
    requires forall i :: |p.calls| <= i < |AllProofs(p, us, luck).calls| ==> AllProofs(p, us, luck).calls[i].ok
    ensures var q := AllProofs(p, us, luck); q.amount == q.contract == p.contract + Worth(Due(us, p))
  {
    ClaimsAreDue(p, us, luck);
    LoopIsCurrentIff(p, us, luck);
    GainedIsWorth(AllProofs(p, us, luck).calls[|p.calls|..]);
  }
}

/** What every step of a channel keeps, over whole runs. */
module ChannelLaws {
  import opened Primitives
  import opened Merkle
  import opened Messages
  import opened EndStates
  import opened Channels

  ghost predicate SoundChan(c: Chan) {
    Sound(c.our) && Sound(c.partner) && c.our.address != c.partner.address
  }

  ghost predicate ConsistentChan(c: Chan) {
    Consistent(c.our) && Consistent(c.partner) && c.our.address != c.partner.address
  }

  // ---------- The shape of an acceptance and of a rejection ----------

  /** The message reaches the sending side's own checks. */
  ghost predicate Reaches(c: Chan, block: int, m: Envelope) {
    c.state != Closed && PreCheck(c, m).Pass? && Guard(c, PreCheck(c, m).ours, block, m) == Ok
  }

  function Sender(c: Chan, m: Envelope): End {
    FromEnd(c, m.sender == c.our.address)
  }

  /** A removal that passes every check but the last: its sender already has a proof on chain. */
  ghost predicate HalfRemoval(c: Chan, block: int, m: Envelope) {
    Reaches(c, block, m) && HalfDone(Sender(c, m), block, m)
  }

  lemma RegisterShape(c: Chan, block: int, m: Envelope)
    ensures !Reaches(c, block, m) ==> Register(c, block, m).0 == c && Register(c, block, m).1 != Ok
    ensures Reaches(c, block, m) ==>
              && PreCheck(c, m).ours == (m.sender == c.our.address)
              && m.sender == Sender(c, m).address
              && m.openBlock == c.openBlock
              && m.nonce == Sender(c, m).proof.nonce + 1
              && m.transferAmount >= Sender(c, m).proof.transferAmount
              && Register(c, block, m).1 == EndRegister(Sender(c, m), block, m).1
              && Register(c, block, m).0 == PutFrom(c, m.sender == c.our.address, EndRegister(Sender(c, m), block, m).0)
  {}

  /** A rejected message leaves the channel as it was, except exactly the half-done removal, which loses a leaf. */
  lemma RejectionIsAtomicIff(c: Chan, block: int, m: Envelope)
    requires SoundChan(c)
    requires Register(c, block, m).1 != Ok
    ensures Register(c, block, m).0 == c <==> !HalfRemoval(c, block, m)
  {
    RegisterShape(c, block, m);
    if Reaches(c, block, m) {
      EndRefusalIff(Sender(c, m), block, m);
    }
  }

  lemma AcceptanceShape(c: Chan, block: int, m: Envelope)
    requires Register(c, block, m).1 == Ok
    ensures Reaches(c, block, m)
    ensures var e := Sender(Register(c, block, m).0, m);
            && !OnChain(Sender(c, m))
            && Register(c, block, m).0 == PutFrom(c, m.sender == c.our.address, e)
            && e.address == Sender(c, m).address && e.contractBalance == Sender(c, m).contractBalance
            && e.proof == ProofFrom(m)
  {
    RegisterShape(c, block, m);
    EndAcceptance(Sender(c, m), block, m);
  }

  lemma TransferSound(c: Chan, block: int, m: Envelope)
    requires SoundChan(c)
    ensures SoundChan(Register(c, block, m).0)
  {
    RegisterShape(c, block, m);
    EndRegisterSound(Sender(c, m), block, m);
    EndAddress(Sender(c, m), block, m);
  }

  lemma EndAddress(e: End, block: int, m: Envelope)
    ensures EndRegister(e, block, m).0.address == e.address
  {}

  /** The maps, the tree and the stored root stay in agreement exactly when the message is not a half-done removal. */
  lemma TransferConsistentIff(c: Chan, block: int, m: Envelope)
    requires ConsistentChan(c)
    ensures ConsistentChan(Register(c, block, m).0) <==> !HalfRemoval(c, block, m)
  {
    RegisterShape(c, block, m);
    EndRegisterConsistentIff(Sender(c, m), block, m);
    EndAddress(Sender(c, m), block, m);
  }

  // ---------- Every other step ----------

  predicate SameLedger(e: End, f: End) {
    && e.address == f.address && e.pending == f.pending && e.known == f.known && e.leaves == f.leaves
    && e.proof.locksRoot == f.proof.locksRoot && e.proof.nonce == f.proof.nonce
    && e.proof.transferAmount == f.proof.transferAmount
  }

  lemma SameLocks(e: End, f: End)
    requires SameLedger(e, f)
    ensures Sound(e) ==> Sound(f)
    ensures Consistent(e) ==> Consistent(f)
  {}

  predicate SameTerms(c: Chan, d: Chan) {
    && SameLedger(c.our, d.our) && SameLedger(c.partner, d.partner) && d.openBlock == c.openBlock
    && d.settleTimeout == c.settleTimeout && d.punishBlocks == c.punishBlocks
  }

  lemma ContractEventKeepsTerms(c: Chan, ev: ChainEvent)
    requires ev.ClosedSeen? || ev.ProofUpdated? || ev.UnlockedSeen?
    requires OnChainEvent(c, ev).Some?
    ensures SameTerms(c, OnChainEvent(c, ev).value)
  {}

  /** Every event but a withdraw or a secret leaves the locks and the signed part of both proofs alone. */
  lemma PlainEventKeepsTerms(c: Chan, ev: ChainEvent)
    requires !ev.SecretRevealed? && !ev.WithdrawSeen? && OnChainEvent(c, ev).Some?
    ensures SameTerms(c, OnChainEvent(c, ev).value)
  {
    if ev.ClosedSeen? || ev.ProofUpdated? || ev.UnlockedSeen? {
      ContractEventKeepsTerms(c, ev);
    }
  }

  lemma EventKeeps(c: Chan, ev: ChainEvent)
    requires OnChainEvent(c, ev).Some?
    ensures SoundChan(c) ==> SoundChan(OnChainEvent(c, ev).value)
    ensures ConsistentChan(c) ==> ConsistentChan(OnChainEvent(c, ev).value)
  {
    if ev.SecretRevealed? {
      RevealedKeeps(c.our, ev.secret, ev.block);
      RevealedKeeps(c.partner, ev.secret, ev.block);
    } else if !ev.WithdrawSeen? {
      var d := OnChainEvent(c, ev).value;
      PlainEventKeepsTerms(c, ev);
      SameLocks(c.our, d.our);
      SameLocks(c.partner, d.partner);
    }
  }

  lemma LearnKeeps(c: Chan, secret: Secret)
    ensures SoundChan(c) ==> SoundChan(LearnSecret(c, secret).0)
    ensures ConsistentChan(c) ==> ConsistentChan(LearnSecret(c, secret).0)
  {
    SecretKeeps(c.our, secret);
    SecretKeeps(c.partner, secret);
  }

  lemma RequestKeepsEnds(c: Chan, r: Request)
    requires OnRequest(c, r).Some?
    ensures OnRequest(c, r).value == c.(state := OnRequest(c, r).value.state)
  {}

  lemma StepKeeps(c: Chan, s: Step)
    requires Apply(c, s).Some?
    ensures SoundChan(c) ==> SoundChan(Apply(c, s).value)
    ensures ConsistentChan(c) && NotHalf(c, s) ==> ConsistentChan(Apply(c, s).value)
  {
    match s {
      case Transfer(block, m) =>
        if SoundChan(c) { TransferSound(c, block, m); }
        if ConsistentChan(c) { TransferConsistentIff(c, block, m); }
      case Learn(secret) => LearnKeeps(c, secret);
      case Event(ev) => EventKeeps(c, ev);
      case Ask(r) => RequestKeepsEnds(c, r);
    }
  }

  ghost predicate NotHalf(c: Chan, s: Step) {
    s.Transfer? ==> !HalfRemoval(c, s.block, s.m)
  }

  lemma RunStep(cs: seq<Chan>, ss: seq<Step>, i: nat)
    requires IsRun(cs, ss) && i < |ss|
    ensures Apply(cs[i], ss[i]) == Some(cs[i + 1])
  {}

  /** In every run, whatever the messages and events: disjoint maps, and every leaf a recorded lock. */
  lemma {:induction false} RunSound(cs: seq<Chan>, ss: seq<Step>, i: nat)
    requires IsRun(cs, ss) && i < |cs|
    ensures SoundChan(cs[i])
  {
    if i > 0 {
      RunSound(cs, ss, i - 1);
      RunStep(cs, ss, i - 1);
      StepKeeps(cs[i - 1], ss[i - 1]);
    }
  }

  /** Up to the first half-done removal, maps, tree and stored root agree on both sides of every run. */
  lemma {:induction false} RunConsistent(cs: seq<Chan>, ss: seq<Step>, i: nat)
    requires IsRun(cs, ss) && i < |cs|
    requires forall k :: 0 <= k < i ==> NotHalf(cs[k], ss[k])
    ensures ConsistentChan(cs[i])
  {
    if i > 0 {
      RunConsistent(cs, ss, i - 1);
      RunStep(cs, ss, i - 1);
      StepKeeps(cs[i - 1], ss[i - 1]);
    }
  }
}

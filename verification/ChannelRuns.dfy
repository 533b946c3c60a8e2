/** Safety over whole runs of one channel: replay, the on-chain record, expirations, registered secrets. */
module ChannelRuns {
  import opened Primitives
  import opened Merkle
  import opened Messages
  import opened EndStates
  import opened Channels
  import opened ChannelLaws
  import opened Solvency

  // ---------- The half-done removal ----------

  /** The partner's answer that drops lock `h` although the partner's proof is already on chain. */
  function LateDispose(c: Chan, h: SecretHash): Envelope
    requires h in c.partner.pending && c.partner.proof.nonce + 1 < UINT64
  {
    Envelope(c.partner.address, c.channelId, c.openBlock, c.partner.proof.nonce + 1, c.partner.proof.transferAmount,
             MerkleRoot(Without(c.partner.leaves, c.partner.pending[h].lock)), DisposeResponse(h))
  }

  /** While a settlement is being sent, that answer is refused and still breaks the agreement of tree and maps. */
  lemma LateDisposeBreaksTree(c: Chan, block: int, h: SecretHash)
    requires ConsistentChan(c) && c.state == Settling && OnChain(c.partner)
    requires h in c.partner.pending && c.partner.proof.nonce + 1 < UINT64
    ensures Register(c, block, LateDispose(c, h)).1 == Err(AlreadyOnChain)
    ensures Register(c, block, LateDispose(c, h)).0 != c && !ConsistentChan(Register(c, block, LateDispose(c, h)).0)
  {
    var m := LateDispose(c, h);
    assert PreCheck(c, m) == Pass(false);
    assert Reaches(c, block, m);
    assert HalfDone(c.partner, block, m);
    RegisterShape(c, block, m);
    TransferConsistentIff(c, block, m);
  }

  // ---------- No replay ----------

  function Side(c: Chan, who: Address): End { FromEnd(c, who == c.our.address) }

  predicate Before(block1: int, nonce1: int, block2: int, nonce2: int) {
    block1 < block2 || (block1 == block2 && nonce1 < nonce2)
  }

  predicate NotAfter(c: Chan, d: Chan, who: Address) {
    && d.our.address == c.our.address && d.partner.address == c.partner.address
    && (Before(c.openBlock, Side(c, who).proof.nonce, d.openBlock, Side(d, who).proof.nonce)
        || (c.openBlock == d.openBlock && Side(c, who).proof.nonce == Side(d, who).proof.nonce))
  }

  lemma StepMovesOn(c: Chan, s: Step, who: Address)
    requires SoundChan(c) && Apply(c, s).Some?
    ensures NotAfter(c, Apply(c, s).value, who)
    ensures Accepted(c, s) ==>
              && s.m.openBlock == Apply(c, s).value.openBlock
              && s.m.nonce == Side(Apply(c, s).value, s.m.sender).proof.nonce
              && Before(c.openBlock, Side(c, s.m.sender).proof.nonce, s.m.openBlock, s.m.nonce)
  {
    match s {
      case Transfer(block, m) =>
        if Register(c, block, m).1 == Ok {
          AcceptanceShape(c, block, m);
          RegisterShape(c, block, m);
        } else {
          RegisterShape(c, block, m);
          EndAddress(Sender(c, m), block, m);
          EndRefusalKeepsProof(Sender(c, m), block, m);
        }
      case Learn(secret) => SecretKeepsLedger(c, s);
      case Event(ev) =>
        if ev.SecretRevealed? {
          SecretKeepsLedger(c, s);
        } else if !ev.WithdrawSeen? {
          PlainEventKeepsTerms(c, ev);
        }
      case Ask(r) => RequestKeepsEnds(c, r);
    }
  }

  lemma EndRefusalKeepsProof(e: End, block: int, m: Envelope)
    ensures EndRegister(e, block, m).1 != Ok ==> EndRegister(e, block, m).0.proof == e.proof
  {}

  lemma {:induction false} RunMovesOn(cs: seq<Chan>, ss: seq<Step>, i: nat, j: nat, who: Address)
    requires IsRun(cs, ss) && i <= j < |cs|
    ensures NotAfter(cs[i], cs[j], who)
    decreases j
  {
    if i < j {
      RunMovesOn(cs, ss, i, j - 1, who);
      RunSound(cs, ss, j - 1);
      RunStep(cs, ss, j - 1);
      StepMovesOn(cs[j - 1], ss[j - 1], who);
    }
  }

  /**
   * Over a channel's whole life, withdraw resets included, acceptances of one sender strictly increase (open block,
   * nonce).
   */
  lemma AcceptancesIncrease(cs: seq<Chan>, ss: seq<Step>, i: nat, j: nat)
    requires IsRun(cs, ss) && i < j < |ss|
    requires Accepted(cs[i], ss[i]) && Accepted(cs[j], ss[j]) && ss[i].m.sender == ss[j].m.sender
    ensures Before(ss[i].m.openBlock, ss[i].m.nonce, ss[j].m.openBlock, ss[j].m.nonce)
  {
    var who := ss[i].m.sender;
    RunSound(cs, ss, i);
    RunStep(cs, ss, i);
    StepMovesOn(cs[i], ss[i], who);
    RunMovesOn(cs, ss, i + 1, j, who);
    RunSound(cs, ss, j);
    RunStep(cs, ss, j);
    StepMovesOn(cs[j], ss[j], who);
  }

  /** No envelope is ever accepted twice. */
  lemma NoReplay(cs: seq<Chan>, ss: seq<Step>, i: nat, j: nat)
    requires IsRun(cs, ss) && i < j < |ss|
    requires Accepted(cs[i], ss[i]) && Accepted(cs[j], ss[j])
    ensures ss[i].m != ss[j].m
  {
    if ss[i].m.sender == ss[j].m.sender {
      AcceptancesIncrease(cs, ss, i, j);
    }
  }

  // ---------- The on-chain record ----------

  /** What the contract is known to hold, told from the chain events alone. */
  datatype Ledger = Ledger(openBlock: int, closed: bool, ourAmount: int, ourRoot: Digest, partnerAmount: int,
    partnerRoot: Digest)

  function SetOurs(l: Ledger, amount: int, root: Digest): Ledger { l.(ourAmount := amount, ourRoot := root) }

  function SetPartners(l: Ledger, amount: int, root: Digest): Ledger {
    l.(partnerAmount := amount, partnerRoot := root)
  }

  function TellEvent(l: Ledger, ev: ChainEvent, our: Address, partner: Address): Ledger {
    match ev
    case ClosedSeen(closer, amount, root, block) =>
      if closer == our then SetPartners(l.(closed := true), amount, root) else SetOurs(l.(closed := true), amount, root)
    case ProofUpdated(who, amount, root, block) =>
      if block < l.openBlock then l else if who == partner then SetPartners(l, amount, root)
        else SetOurs(l, amount, root)
    case UnlockedSeen(payer, amount, block) =>
      if block < l.openBlock then l
      else if payer == our then SetOurs(l, amount, l.ourRoot)
      else if payer == partner then SetPartners(l, amount, l.partnerRoot)
      else l
    case PunishedSeen(who, block) =>
      if block < l.openBlock then l else if who == our then SetOurs(l, 0, Empty) else SetPartners(l, 0, Empty)
    case WithdrawSeen(_, _, _, _, block) =>
      if block <= l.openBlock then l else Ledger(block, false, 0, Empty, 0, Empty)
    case _ => l
  }

  function TellEvents(l: Ledger, ss: seq<Step>, our: Address, partner: Address): Ledger {
    if ss == [] then l
    else
      var before := TellEvents(l, ss[..|ss| - 1], our, partner);
      var last := ss[|ss| - 1];
      if last.Event? then TellEvent(before, last.ev, our, partner) else before
  }

  predicate Records(c: Chan, l: Ledger) {
    && c.openBlock == l.openBlock
    && (c.state == Closed ==> l.closed)
    && c.our.proof.contractTransferAmount == l.ourAmount && c.our.proof.contractLocksRoot == l.ourRoot
    && c.partner.proof.contractTransferAmount == l.partnerAmount && c.partner.proof.contractLocksRoot == l.partnerRoot
  }

  /** No message, secret or local request touches either side's on-chain amount or root, in any channel state. */
  lemma OffChainKeepsRecord(c: Chan, s: Step, l: Ledger)
    requires SoundChan(c) && Records(c, l) && !s.Event? && Apply(c, s).Some?
    ensures Records(Apply(c, s).value, l)
  {
    match s {
      case Transfer(block, m) =>
        RegisterShape(c, block, m);
        if Register(c, block, m).1 == Ok {
          AcceptanceShape(c, block, m);
        } else if Reaches(c, block, m) {
          EndRefusalKeepsProof(Sender(c, m), block, m);
        }
      case Learn(secret) => SecretKeepsLedger(c, s);
      case Ask(r) => RequestKeepsEnds(c, r);
    }
  }

  lemma ContractEventPostsRecord(c: Chan, ev: ChainEvent, l: Ledger)
    requires ev.ClosedSeen? || ev.ProofUpdated? || ev.UnlockedSeen?
    requires SoundChan(c) && Records(c, l) && OnChainEvent(c, ev).Some?
    requires ev.ClosedSeen? ==> !l.closed
    ensures Records(OnChainEvent(c, ev).value, TellEvent(l, ev, c.our.address, c.partner.address))
  {}

  lemma EventPostsRecord(c: Chan, ev: ChainEvent, l: Ledger)
    requires SoundChan(c) && Records(c, l) && OnChainEvent(c, ev).Some?
    requires ev.ClosedSeen? ==> !l.closed
    ensures Records(OnChainEvent(c, ev).value, TellEvent(l, ev, c.our.address, c.partner.address))
  {
    if ev.SecretRevealed? {
      SecretKeepsLedger(c, Event(ev));
    } else if ev.ClosedSeen? || ev.ProofUpdated? || ev.UnlockedSeen? {
      ContractEventPostsRecord(c, ev, l);
    }
  }

  /** Between two resets the chain closes a channel once, and the pump delivers that event once. */
  predicate ClosesOnce(ss: seq<Step>, l: Ledger, our: Address, partner: Address) {
    forall i :: 0 <= i < |ss| && ss[i].Event? && ss[i].ev.ClosedSeen? ==> !TellEvents(l, ss[..i], our, partner).closed
  }

  function StartLedger(c: Chan): Ledger { Ledger(c.openBlock, false, 0, Empty, 0, Empty) }

  /** At every point of a run the stored record is exactly what the chain events so far said. */
  lemma {:induction false} RecordIsChainHistory(cs: seq<Chan>, ss: seq<Step>, i: nat)
    requires IsRun(cs, ss) && i < |cs|
    requires ClosesOnce(ss, StartLedger(cs[0]), cs[0].our.address, cs[0].partner.address)
    ensures Records(cs[i], TellEvents(StartLedger(cs[0]), ss[..i], cs[0].our.address, cs[0].partner.address))
  {
    if i > 0 {
      var our, partner, start := cs[0].our.address, cs[0].partner.address, StartLedger(cs[0]);
      RecordIsChainHistory(cs, ss, i - 1);
      RunSound(cs, ss, i - 1);
      RunStep(cs, ss, i - 1);
      RunMovesOn(cs, ss, 0, i - 1, our);
      assert ss[..i][..i - 1] == ss[..i - 1];
      var l := TellEvents(start, ss[..i - 1], our, partner);
      if ss[i - 1].Event? {
        EventPostsRecord(cs[i - 1], ss[i - 1].ev, l);
      } else {
        OffChainKeepsRecord(cs[i - 1], ss[i - 1], l);
      }
    }
  }

  /** The four values Settle hands to the contract. */
  datatype Submission = Submission(myAmount: int, partnerAmount: int, myRoot: Digest, partnerRoot: Digest)

  function SettleSubmission(c: Chan): Submission {
    Submission(c.our.proof.contractTransferAmount, c.partner.proof.contractTransferAmount,
               c.our.proof.contractLocksRoot, c.partner.proof.contractLocksRoot)
  }

  /** Settle submits exactly the values last given by the closed, proof-updated, unlocked and punished events. */
  lemma SettleSubmitsChainHistory(cs: seq<Chan>, ss: seq<Step>, i: nat)
    requires IsRun(cs, ss) && i < |cs|
    requires ClosesOnce(ss, StartLedger(cs[0]), cs[0].our.address, cs[0].partner.address)
    ensures var l := TellEvents(StartLedger(cs[0]), ss[..i], cs[0].our.address, cs[0].partner.address);
            SettleSubmission(cs[i]) == Submission(l.ourAmount, l.partnerAmount, l.ourRoot, l.partnerRoot)
  {
    RecordIsChainHistory(cs, ss, i);
  }

  // ---------- The deposits ----------

  /** What the two participants have in the contract, told from the chain events alone. */
  datatype Funds = Funds(openBlock: int, our: int, partner: int)

  function Raised(was: int, balance: int): int { if balance < was then was else balance }

  function Fund(f: Funds, ev: ChainEvent, our: Address, partner: Address): Funds {
    match ev
    case DepositSeen(who, balance, block) =>
      if block < f.openBlock then f
      else if who == our then f.(our := Raised(f.our, balance))
      else if who == partner then f.(partner := Raised(f.partner, balance))
      else f
    case PunishedSeen(who, block) =>
      if block < f.openBlock then f
      else if who == our then Funds(f.openBlock, f.our + f.partner, 0)
      else Funds(f.openBlock, 0, f.our + f.partner)
    case WithdrawSeen(p1, _, balance1, balance2, block) =>
      if block <= f.openBlock then f
      else if p1 == our then Funds(block, balance1, balance2)
      else Funds(block, balance2, balance1)
    case _ => f
  }

  function FundAll(f: Funds, ss: seq<Step>, our: Address, partner: Address): Funds
    decreases |ss|
  {
    if ss == [] then f
    else
      var before := FundAll(f, ss[..|ss| - 1], our, partner);
      var last := ss[|ss| - 1];
      if last.Event? then Fund(before, last.ev, our, partner) else before
  }

  predicate Funded(c: Chan, f: Funds) {
    c.openBlock == f.openBlock && c.our.contractBalance == f.our && c.partner.contractBalance == f.partner
  }

  lemma StepFunds(c: Chan, s: Step, f: Funds)
    requires SoundChan(c) && Funded(c, f) && Apply(c, s).Some?
    ensures Funded(Apply(c, s).value, if s.Event? then Fund(f, s.ev, c.our.address, c.partner.address) else f)
  {
    match s {
      case Transfer(block, m) =>
        RegisterShape(c, block, m);
        EndBalanceKept(Sender(c, m), block, m);
      case Learn(_) => SecretKeepsLedger(c, s);
      case Event(ev) => EventFunds(c, ev, f);
      case Ask(r) => RequestKeepsEnds(c, r);
    }
  }

  lemma EndBalanceKept(e: End, block: int, m: Envelope)
    ensures EndRegister(e, block, m).0.contractBalance == e.contractBalance
  {}

  lemma EventFunds(c: Chan, ev: ChainEvent, f: Funds)
    requires SoundChan(c) && Funded(c, f) && OnChainEvent(c, ev).Some?
    ensures Funded(OnChainEvent(c, ev).value, Fund(f, ev, c.our.address, c.partner.address))
  {
    if ev.SecretRevealed? {
      SecretKeepsLedger(c, Event(ev));
    } else if ev.ClosedSeen? || ev.ProofUpdated? || ev.UnlockedSeen? {
      ContractEventKeepsTerms(c, ev);
      ContractEventKeepsDeposits(c, ev);
    }
  }

  /**
   * At every point of a run each side's deposit is exactly what the deposit, punish and withdraw events so far said.
   */
  lemma {:induction false} DepositsAreChainHistory(cs: seq<Chan>, ss: seq<Step>, i: nat)
    requires IsRun(cs, ss) && i < |cs|
    ensures Funded(cs[i], FundAll(Funds(cs[0].openBlock, 0, 0), ss[..i], cs[0].our.address, cs[0].partner.address))
  {
    if i > 0 {
      var our, partner, start := cs[0].our.address, cs[0].partner.address, Funds(cs[0].openBlock, 0, 0);
      DepositsAreChainHistory(cs, ss, i - 1);
      RunSound(cs, ss, i - 1);
      RunStep(cs, ss, i - 1);
      RunMovesOn(cs, ss, 0, i - 1, our);
      assert ss[..i][..i - 1] == ss[..i - 1];
      StepFunds(cs[i - 1], ss[i - 1], FundAll(start, ss[..i - 1], our, partner));
    }
  }

  /** A reopening forgets everything but the participants and what they keep in the contract. */
  lemma ReopeningMeans(c: Chan, p1: Address, p2: Address, balance1: nat, balance2: nat, block: int)
    requires SoundChan(c) && block > c.openBlock
    ensures var r := OnChainEvent(c, WithdrawSeen(p1, p2, balance1, balance2, block));
            && (r.Some? <==> {p1, p2} == {c.our.address, c.partner.address} && p1 != p2)
            && (r.Some? ==>
                  && Channels.Fresh(r.value.(our := NewEnd(c.our.address, 0), partner := NewEnd(c.partner.address, 0)))
                  && r.value.our == NewEnd(c.our.address, if p1 == c.our.address then balance1 else balance2)
                  && r.value.partner == NewEnd(c.partner.address, if p1 == c.our.address then balance2 else balance1)
                  && r.value == c.(our := r.value.our, partner := r.value.partner, openBlock := block,
                                   state := Opened, closedBlock := 0, settledBlock := 0))
  {
    if {p1, p2} == {c.our.address, c.partner.address} {
      assert p1 in {c.our.address, c.partner.address} && p2 in {c.our.address, c.partner.address};
      assert c.our.address in {p1, p2} && c.partner.address in {p1, p2};
    }
  }

  /** A punishment gives everything to the beneficiary, with a contract nonce no later proof can beat. */
  lemma PunishmentMeans(c: Chan, who: Address, block: int)
    requires SoundChan(c) && block >= c.openBlock && (who == c.our.address || who == c.partner.address)
    ensures var d := OnChainEvent(c, PunishedSeen(who, block));
            var won, lost := Side(d.value, who), FromEnd(d.value, who != c.our.address);
            && d.Some?
            && won.contractBalance == c.our.contractBalance + c.partner.contractBalance && lost.contractBalance == 0
            && won.proof
                == Side(c, who).proof.(contractTransferAmount := 0, contractLocksRoot := Empty,
                  contractNonce := UINT64 - 1)
            && lost.proof == FromEnd(c, who != c.our.address).proof
            && SameTerms(c, d.value)
  {
  }
}

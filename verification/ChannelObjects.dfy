/** The Channel object, changed in place by messages, secrets and chain events: channel/channel.go, eventhandler.go. */
module ChannelObjects {
  import opened Primitives
  import opened Merkle
  import opened Messages
  import opened EndStates
  import opened EndObjects
  import opened Channels
  import opened ChannelLaws
  import opened ChannelRuns
  import opened Cooperation

  class Channel {
    const ourState: EndState
    const partnerState: EndState
    const channelId: nat
    const tokenAddress: Address
    const revealTimeout: nat
    const settleTimeout: nat
    const punishBlocks: nat
    var openBlockNumber: int
    var state: State
    /** Fields of the external state. */
    var closedBlock: int
    var settledBlock: int

    function View(): Chan
      reads this, ourState, partnerState
    {
      Chan(ourState.View(), partnerState.View(), channelId, openBlockNumber, tokenAddress,
           revealTimeout, settleTimeout, punishBlocks, state, closedBlock, settledBlock)
    }

    ghost predicate Valid()
      reads this, ourState, partnerState
    {
      ourState != partnerState && ourState.address != partnerState.address && ourState.Valid() && partnerState.Valid()
    }

    constructor (our: Address, partner: Address, id: nat, open: int, token: Address, revealAfter: nat, settleAfter: nat,
      punish: nat)
      requires our != partner
      ensures Valid() && Channels.Fresh(View())
      ensures View().our.address == our && View().partner.address == partner
    {
      ourState := new EndState(our, 0);
      partnerState := new EndState(partner, 0);
      channelId, openBlockNumber, tokenAddress := id, open, token;
      revealTimeout, settleTimeout, punishBlocks := revealAfter, settleAfter, punish;
      state, closedBlock, settledBlock := Opened, 0, 0;
    }

    /** NewChannel around two sides. */
    constructor Joined(our: EndState, partner: EndState, id: nat, open: int, token: Address, revealAfter: nat,
      settleAfter: nat, punish: nat)
      ensures ourState == our && partnerState == partner
      ensures View()
          == Chan(our.View(), partner.View(), id, open, token, revealAfter, settleAfter, punish, Opened, 0, 0)
    {
      ourState, partnerState := our, partner;
      channelId, openBlockNumber, tokenAddress := id, open, token;
      revealTimeout, settleTimeout, punishBlocks := revealAfter, settleAfter, punish;
      state, closedBlock, settledBlock := Opened, 0, 0;
    }

    // ---------- Envelope messages ----------

    method PreCheckReceivedTransfer(m: Envelope) returns (check: Check)
      ensures check == PreCheck(View(), m)
    {
      if m.channelId != channelId || m.openBlock != openBlockNumber {
        return Fail(IdentifierMismatch);
      }
      var from := partnerState;
      if m.sender == ourState.address {
        from := ourState;
      } else if m.sender != partnerState.address {
        return Fail(NotParticipant);
      }
      if m.nonce < 1 || m.nonce != (from.balanceProofState.nonce + 1) % UINT64 {
        return Fail(InvalidNonce);
      }
      if m.transferAmount < from.balanceProofState.transferAmount {
        return Fail(AmountDecrease);
      }
      return Pass(m.sender == ourState.address);
    }

    method SideStates(ours: bool) returns (from: EndState, to: EndState)
      ensures from == (if ours then ourState else partnerState) && to == (if ours then partnerState else ourState)
    {
      if ours {
        return ourState, partnerState;
      }
      return partnerState, ourState;
    }

    method RegisterUnlock(m: Envelope, block: int) returns (outcome: Outcome)
      requires Valid() && m.body.Unlock?
      modifies ourState, partnerState
      ensures Valid() && (View(), outcome) == Register(old(View()), block, m)
    {
      if state == Closed {
        return Err(AfterClosed);
      }
      var check := PreCheckReceivedTransfer(m);
      if check.Fail? {
        return Err(check.error);
      }
      var from, _ := SideStates(check.ours);
      outcome := from.RegisterSecretMessage(m, m.body.secret);
    }

    method RegisterDirectTransfer(m: Envelope, block: int) returns (outcome: Outcome)
      requires Valid() && m.body.Direct?
      modifies ourState, partnerState
      ensures Valid() && (View(), outcome) == Register(old(View()), block, m)
    {
      if state == Closed {
        return Err(AfterClosed);
      }
      var check := PreCheckReceivedTransfer(m);
      if check.Fail? {
        return Err(check.error);
      }
      var from, to := SideStates(check.ours);
      var amount := m.transferAmount - from.balanceProofState.transferAmount;
      if amount <= 0 {
        return Err(AmountMismatch);
      }
      var available := from.GetDistributable(to);
      if amount > available {
        return Err(AmountMismatch);
      }
      outcome := from.RegisterDirectTransfer(m);
    }

    method RegisterMediatedTransfer(m: Envelope, block: int) returns (outcome: Outcome)
      requires Valid() && m.body.Mediated?
      modifies ourState, partnerState
      ensures Valid() && (View(), outcome) == Register(old(View()), block, m)
    {
      if state == Closed {
        return Err(AfterClosed);
      }
      var check := PreCheckReceivedTransfer(m);
      if check.Fail? {
        return Err(check.error);
      }
      var from, to := SideStates(check.ours);
      if m.body.lock.amount <= 0 {
        return Err(AmountMismatch);
      }
      var available := from.GetDistributable(to);
      if m.body.lock.amount > available {
        return Err(InsufficientBalance);
      }
      if m.body.lock.expiration > SettleExpiration(View(), block) {
        return Err(ExpirationTooLarge);
      }
      outcome := from.RegisterMediatedMessage(m, m.body.lock);
    }

    /** Stores the shortened tree before the last check that can fail. */
    method RegisterRemoveLock(m: Envelope, block: int, h: SecretHash, mustExpire: bool) returns (outcome: Outcome)
      requires Valid() && m.body == if mustExpire then RemoveExpired(h) else DisposeResponse(h)
      modifies ourState, partnerState
      ensures Valid() && (View(), outcome) == Register(old(View()), block, m)
    {
      if state == Closed {
        return Err(AfterClosed);
      }
      var check := PreCheckReceivedTransfer(m);
      if check.Fail? {
        return Err(check.error);
      }
      var from, _ := SideStates(check.ours);
      if m.transferAmount != from.balanceProofState.transferAmount {
        return Err(AmountMismatch);
      }
      var newTree, root, tried := from.TryRemoveHashLock(h, block, mustExpire);
      if tried != Ok {
        return tried;
      }
      if root != m.locksRoot {
        return Err(InvalidLocksRoot);
      }
      RemoveKeeps(from.View(), block, m, h, mustExpire);
      from.tree := newTree;
      outcome := from.RegisterRemoveLock(m, h);
    }

    method RegisterTransfer(block: int, m: Envelope) returns (outcome: Outcome)
      requires Valid()
      modifies ourState, partnerState
      ensures Valid() && (View(), outcome) == Register(old(View()), block, m)
    {
      match m.body {
        case Mediated(_) => outcome := RegisterMediatedTransfer(m, block);
        case Direct => outcome := RegisterDirectTransfer(m, block);
        case Unlock(_) => outcome := RegisterUnlock(m, block);
        case DisposeResponse(h) => outcome := RegisterRemoveLock(m, block, h, false);
        case RemoveExpired(h) => outcome := RegisterRemoveLock(m, block, h, true);
      }
    }

    // ---------- Building messages ----------

    method CreateDirectTransfer(amount: int) returns (r: Draft)
      requires Valid()
      ensures r == CreateDirect(View(), amount)
    {
      if state != Opened {
        return Refused(WrongState);
      }
      var available := ourState.GetDistributable(partnerState);
      if amount <= 0 || amount > available {
        return Refused(InsufficientBalance);
      }
      var root := RootOfTree(ourState.tree);
      return Message(MakeEnvelope(View(), ourState.balanceProofState.transferAmount + amount, root, Direct));
    }

    method CreateMediatedTransfer(lock: Lock) returns (r: Draft)
      requires Valid()
      ensures r == CreateMediated(View(), lock)
    {
      if state != Opened {
        return Refused(WrongState);
      }
      var available := ourState.GetDistributable(partnerState);
      if lock.amount <= 0 || lock.amount > available {
        return Refused(InsufficientBalance);
      }
      var root;
      if IsKnown(ourState.View(), lock.secretHash) {
        root := RootOfTree(ourState.tree);
      } else {
        var newTree := ComputeMerkleRootWith(ourState.tree, lock);
        root := RootOfTree(newTree);
      }
      return Message(MakeEnvelope(View(), ourState.balanceProofState.transferAmount, root, Mediated(lock)));
    }

    method CreateUnlockMessage(h: SecretHash) returns (r: Draft)
      requires ourState.Valid()
      ensures r == CreateUnlock(View(), h)
    {
      if state == Closed {
        return Refused(AfterClosed);
      }
      if h !in ourState.lock2UnclaimedLocks {
        return Refused(SecretHashNotFound);
      }
      var known := ourState.lock2UnclaimedLocks[h];
      var root, outcome := ourState.RootWithoutKnown(h);
      if outcome != Ok {
        return Refused(outcome.error);
      }
      r := UnlockWith(View(), known, root);
    }

    /** CreateRemoveExpiredHashLockTransfer and CreateAnnounceDisposedResponse. */
    method CreateRemovalMessage(h: SecretHash, block: int, mustExpire: bool) returns (r: Draft)
      requires Valid()
      ensures r == CreateRemoval(View(), h, block, mustExpire)
    {
      if state == Closed {
        return Refused(AfterClosed);
      }
      var _, root, outcome := ourState.TryRemoveHashLock(h, block, mustExpire);
      if outcome != Ok {
        return Refused(outcome.error);
      }
      return Message(MakeEnvelope(View(), ourState.balanceProofState.transferAmount, root,
                                  if mustExpire then RemoveExpired(h) else DisposeResponse(h)));
    }

    // ---------- Secrets ----------

    method RegisterSecret(secret: Secret) returns (outcome: Outcome)
      requires Valid()
      modifies ourState, partnerState
      ensures Valid() && (View(), outcome) == LearnSecret(old(View()), secret)
    {
      var h := ShaSecret(secret);
      if IsKnown(ourState.View(), h) {
        outcome := ourState.RegisterSecret(secret);
      } else if IsKnown(partnerState.View(), h) {
        outcome := partnerState.RegisterSecret(secret);
      } else {
        outcome := Err(SecretHashNotFound);
      }
    }

    method RegisterRevealedSecretHash(secret: Secret, block: int) returns (outcome: Outcome)
      requires Valid()
      modifies ourState, partnerState
      ensures Valid() && (View(), outcome) == SecretOnChain(old(View()), secret, block)
    {
      var h := ShaSecret(secret);
      if IsKnown(ourState.View(), h) {
        outcome := ourState.RegisterRevealedSecretHash(secret, block);
      } else if IsKnown(partnerState.View(), h) {
        outcome := partnerState.RegisterRevealedSecretHash(secret, block);
      } else {
        outcome := Err(SecretHashNotFound);
      }
    }

    // ---------- Chain events ----------

    method SetContractValues(ours: bool, amount: int, root: Digest)
      requires Valid()
      modifies ourState, partnerState
      ensures Valid() && View() == PutFrom(old(View()), ours, SetContract(FromEnd(old(View()), ours), amount, root))
    {
      var end, _ := SideStates(ours);
      end.SetContractTransferAmount(amount);
      end.SetContractLocksroot(root);
      assert Sound(end.View()) by { SameLocks(old(end.View()), end.View()); }
    }

    /** handleClosed of the event handler, with the channel's own HandleClosed. */
    method OnClosed(closer: Address, amount: int, root: Digest, block: int)
      requires Valid()
      modifies this, ourState, partnerState
      ensures Valid() && Some(View()) == OnChainEvent(old(View()), ClosedSeen(closer, amount, root, block))
    {
      if state == Closed {
        return;
      }
      state := Closed;
      if closedBlock == 0 {
        closedBlock := block;
      }
      if block + settleTimeout + punishBlocks >= settledBlock {
        settledBlock := block + settleTimeout + punishBlocks;
      }
      SetContractValues(closer != ourState.address, amount, root);
    }

    method OnProofUpdated(participant: Address, amount: int, root: Digest, block: int)
      requires Valid()
      modifies ourState, partnerState
      ensures Valid() && Some(View()) == OnChainEvent(old(View()), ProofUpdated(participant, amount, root, block))
    {
      if block >= openBlockNumber {
        SetContractValues(participant != partnerState.address, amount, root);
      }
    }

    method OnUnlocked(payer: Address, amount: int, block: int) returns (panicked: bool)
      requires Valid()
      modifies ourState, partnerState
      ensures Valid()
          && (if panicked then None else Some(View())) == OnChainEvent(old(View()), UnlockedSeen(payer, amount, block))
    {
      if block < openBlockNumber || (payer != ourState.address && payer != partnerState.address) {
        return false;
      }
      if state == Opened {
        return true;
      }
      var end, _ := SideStates(payer == ourState.address);
      end.SetContractTransferAmount(amount);
      assert Sound(end.View()) by { SameLocks(old(end.View()), end.View()); }
      return false;
    }

    method OnDeposit(participant: Address, balance: int, block: int)
      requires Valid()
      modifies ourState, partnerState
      ensures Valid() && Some(View()) == OnChainEvent(old(View()), DepositSeen(participant, balance, block))
    {
      if block < openBlockNumber || (participant != ourState.address && participant != partnerState.address) {
        return;
      }
      var end, _ := SideStates(participant == ourState.address);
      var _ := end.UpdateContractBalance(balance);
      assert Sound(end.View()) by { SameLocks(old(end.View()), end.View()); }
    }

    method Punish(winner: EndState, cheater: EndState)
      requires Valid() && {winner, cheater} == {ourState, partnerState}
      modifies ourState, partnerState
      ensures Valid() && winner.View() == Benefit(old(winner.View()), old(cheater.contractBalance))
      ensures cheater.View() == old(cheater.View()).(contractBalance := 0)
    {
      winner.SetContractTransferAmount(0);
      winner.SetContractLocksroot(Empty);
      winner.balanceProofState := winner.balanceProofState.(contractNonce := UINT64 - 1);
      winner.contractBalance := winner.contractBalance + cheater.contractBalance;
      cheater.contractBalance := 0;
      assert Sound(winner.View()) by { SameLocks(old(winner.View()), winner.View()); }
      assert Sound(cheater.View()) by { SameLocks(old(cheater.View()), cheater.View()); }
    }

    method OnPunished(beneficiary: Address, block: int) returns (panicked: bool)
      requires Valid()
      modifies ourState, partnerState
      ensures Valid()
          && (if panicked then None else Some(View())) == OnChainEvent(old(View()), PunishedSeen(beneficiary, block))
    {
      if block < openBlockNumber {
        return false;
      }
      if beneficiary == ourState.address {
        Punish(ourState, partnerState);
      } else if beneficiary == partnerState.address {
        Punish(partnerState, ourState);
      } else {
        return true;
      }
      return false;
    }

    /** handleWithdraw of the event handler, with HandleWithdrawed. */
    method OnWithdraw(p1: Address, p2: Address, balance1: nat, balance2: nat, block: int) returns (panicked: bool)
      requires Valid()
      modifies this, ourState, partnerState
      ensures Valid()
      ensures (if panicked then None else Some(View()))
          == OnChainEvent(old(View()), WithdrawSeen(p1, p2, balance1, balance2, block))
    {
      if block <= openBlockNumber {
        return false;
      }
      var first, second := partnerState, ourState;
      if ourState.address == p1 && partnerState.address == p2 {
        first, second := ourState, partnerState;
      } else if !(ourState.address == p2 && partnerState.address == p1) {
        return true;
      }
      openBlockNumber, state, closedBlock, settledBlock := block, Opened, 0, 0;
      first.Reset(balance1);
      second.Reset(balance2);
      return false;
    }

    method OnSettled(block: int)
      requires Valid()
      modifies this`state, this`settledBlock
      ensures Valid() && Some(View()) == OnChainEvent(old(View()), SettledSeen(block))
    {
      if block >= openBlockNumber {
        ghost var before := View();
        state := Settled;
        if block >= settledBlock {
          settledBlock := block;
        }
        assert View() == SetSettled(before.(state := Settled), block);
      }
    }

    /** ChannelStateTransition: one entry point for every chain event. */
    method StateTransition(ev: ChainEvent) returns (panicked: bool)
      requires Valid()
      modifies this, ourState, partnerState
      ensures Valid() && (if panicked then None else Some(View())) == OnChainEvent(old(View()), ev)
    {
      panicked := false;
      match ev {
        case SecretRevealed(secret, block) => var _ := RegisterRevealedSecretHash(secret, block);
        case DepositSeen(participant, balance, block) => OnDeposit(participant, balance, block);
        case ClosedSeen(closer, amount, root, block) => OnClosed(closer, amount, root, block);
        case ProofUpdated(participant, amount, root, block) => OnProofUpdated(participant, amount, root, block);
        case UnlockedSeen(payer, amount, block) => panicked := OnUnlocked(payer, amount, block);
        case PunishedSeen(beneficiary, block) => panicked := OnPunished(beneficiary, block);
        case WithdrawSeen(p1, p2, b1, b2, block) => panicked := OnWithdraw(p1, p2, b1, b2, block);
        case SettledSeen(block) => OnSettled(block);
      }
    }

    // ---------- Local and cooperative requests ----------

    method PrepareForWithdraw() returns (outcome: Outcome)
      modifies this`state
      ensures Some(View()) == OnRequest(old(View()), PrepareWithdraw)
      ensures outcome == Ok <==> old(state) == Opened
    {
      if state != Opened {
        return Err(WrongState);
      }
      state := State.PrepareForWithdraw;
      return Ok;
    }

    method PrepareForCooperativeSettle() returns (outcome: Outcome)
      modifies this`state
      ensures Some(View()) == OnRequest(old(View()), PrepareSettle)
      ensures outcome == Ok <==> old(state) == Opened
    {
      if state != Opened {
        return Err(WrongState);
      }
      state := State.PrepareForCooperativeSettle;
      return Ok;
    }

    method CancelWithdrawOrCooperativeSettle() returns (outcome: Outcome)
      modifies this`state
      ensures Some(View()) == OnRequest(old(View()), CancelPrepare)
      ensures outcome == Ok ==> state == Opened
      ensures outcome != Ok ==> state == old(state)
    {
      if closedBlock != 0 || state !in {State.PrepareForCooperativeSettle, State.PrepareForWithdraw} {
        return Err(WrongState);
      }
      state := Opened;
      return Ok;
    }

    /** `accepts` stands for the contract proxy. */
    method Settle(block: int, accepts: bool) returns (sent: Option<Submission>)
      modifies this`state
      ensures Some(View()) == OnRequest(old(View()), Channels.Settle(block, accepts))
      ensures sent == if old(state) == Closed && settledBlock <= block then Some(SettleSubmission(old(View())))
          else None
    {
      if state != Closed {
        return None;
      }
      var my, partner := ourState.balanceProofState, partnerState.balanceProofState;
      if settledBlock > block {
        return None;
      }
      sent := Some(Submission(my.contractTransferAmount, partner.contractTransferAmount, my.contractLocksRoot,
        partner.contractLocksRoot));
      if accepts {
        state := Settling;
      }
    }

    method RegisterCooperativeSettleRequest(sender: Address, d: SettleData) returns (outcome: Outcome)
      modifies this`state
      ensures (View(), outcome) == RegisterSettleRequest(old(View()), sender, d)
    {
      outcome := CheckSettleData(View(), sender, d);
      if outcome != Ok {
        return;
      }
      if partnerState.lock2UnclaimedLocks != map[] || partnerState.lock2PendingLocks != map[]
        || ourState.lock2UnclaimedLocks != map[] {
        return Err(HasLocks);
      }
      state := PartnerCooperativeSettling;
    }

    /** messageSettleRequest: the request of the partner is registered and answered; a panic would end the node. */
    method AnswerSettleRequest(d: SettleData) returns (reply: Option<SettleData>, panicked: bool)
      requires Valid() && d.p1 == partnerState.address
      modifies this`state
      ensures !panicked
      ensures reply.Some? <==> old(state) == Opened && RegisterSettleRequest(old(View()), d.p1, d).1 == Ok
      ensures reply.Some? ==>
          reply.value == d && d.balance1 + d.balance2 == Deposits(View()) && state == PartnerCooperativeSettling
      ensures reply.None? ==> View() == old(View())
    {
      reply, panicked := None, false;
      if state != Opened {
        return;
      }
      ghost var before := View();
      var outcome := RegisterCooperativeSettleRequest(partnerState.address, d);
      if outcome == Ok {
        UnpackedSettleRequest(before, d);
        reply := SettleResponse(View(), d);
        panicked := reply.None?;
      }
    }
  }

  /** NewChannel around two sides; null where the source refuses the timeouts. */
  method NewChannel(our: EndState, partner: EndState, id: nat, open: int, token: Address, revealAfter: nat,
      settleAfter: nat, punish: nat)
    returns (c: Channel?)
    ensures c == null <==> settleAfter <= revealAfter || revealAfter < 3
    ensures c != null ==> fresh(c) && c.ourState == our && c.partnerState == partner
    ensures c != null ==>
        c.View() == Chan(our.View(), partner.View(), id, open, token, revealAfter, settleAfter, punish, Opened, 0, 0)
  {
    if settleAfter <= revealAfter || revealAfter < 3 {
      return null;
    }
    c := new Channel.Joined(our, partner, id, open, token, revealAfter, settleAfter, punish);
  }
}

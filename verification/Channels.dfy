/**
 * The two-sided channel as a value, and what every message, chain event and request does to it: channel/channel.go,
 * eventhandler.go.
 */
module Channels {
  import opened Primitives
  import opened Merkle
  import opened Messages
  import opened EndStates

  datatype State =
    | Invalid | Opened | Closed | Settled | Closing | Settling | Withdrawing | CooperativeSettling
    | PrepareForCooperativeSettle | PrepareForWithdraw | Failed | PartnerCooperativeSettling | PartnerWithdrawing

  datatype Chan = Chan(
    our: End, partner: End, channelId: nat, openBlock: int, token: Address,
    revealTimeout: nat, settleTimeout: nat, punishBlocks: nat,
    state: State, closedBlock: int, settledBlock: int)

  function FromEnd(c: Chan, ours: bool): End { if ours then c.our else c.partner }

  function ToEnd(c: Chan, ours: bool): End { if ours then c.partner else c.our }

  function PutFrom(c: Chan, ours: bool, e: End): Chan {
    if ours then c.(our := e) else c.(partner := e)
  }

  // ---------- Envelope messages ----------

  datatype Check = Pass(ours: bool) | Fail(error: Error)

  function PreCheck(c: Chan, m: Envelope): Check {
    if m.channelId != c.channelId || m.openBlock != c.openBlock then Fail(IdentifierMismatch)
    else if m.sender != c.our.address && m.sender != c.partner.address then Fail(NotParticipant)
    else
      var ours := m.sender == c.our.address;
      var from := FromEnd(c, ours);
      if m.nonce < 1 || m.nonce != (from.proof.nonce + 1) % UINT64 then Fail(InvalidNonce)
      else if m.transferAmount < from.proof.transferAmount then Fail(AmountDecrease)
      else Pass(ours)
  }

  function SettleExpiration(c: Chan, block: int): int {
    if c.closedBlock != 0 then c.closedBlock + c.settleTimeout else block + c.settleTimeout
  }

  /** The checks each register method makes before it hands the message to the sending side. */
  ghost function Guard(c: Chan, ours: bool, block: int, m: Envelope): Outcome {
    var from, to := FromEnd(c, ours), ToEnd(c, ours);
    match m.body
    case Direct =>
      var amount := m.transferAmount - from.proof.transferAmount;
      if amount <= 0 || amount > Distributable(from, to) then Err(AmountMismatch) else Ok
    case Mediated(lock) =>
      if lock.amount <= 0 then Err(AmountMismatch)
      else if lock.amount > Distributable(from, to) then Err(InsufficientBalance)
      else if lock.expiration > SettleExpiration(c, block) then Err(ExpirationTooLarge)
      else Ok
    case Unlock(_) => Ok
    case RemoveExpired(_) => if m.transferAmount != from.proof.transferAmount then Err(AmountMismatch) else Ok
    case DisposeResponse(_) => if m.transferAmount != from.proof.transferAmount then Err(AmountMismatch) else Ok
  }

  /** RegisterTransfer: the same code for a message of ours and for one just received. */
  ghost function Register(c: Chan, block: int, m: Envelope): (Chan, Outcome) {
    if c.state == Closed then (c, Err(AfterClosed))
    else
      var check := PreCheck(c, m);
      if check.Fail? then (c, Err(check.error))
      else
        var guard := Guard(c, check.ours, block, m);
        if guard != Ok then (c, guard)
        else
          var r := EndRegister(FromEnd(c, check.ours), block, m);
          (PutFrom(c, check.ours, r.0), r.1)
  }

  // ---------- Building messages ----------

  datatype Draft = Message(m: Envelope) | Refused(error: Error)

  /** GetNextNonce, an unsigned 64-bit sum. */
  function NextNonce(c: Chan): Nonce {
    if c.our.proof.nonce != 0 then (c.our.proof.nonce + 1) % UINT64 else 1
  }

  function MakeEnvelope(c: Chan, amount: int, root: Digest, body: Body): Envelope {
    Envelope(c.our.address, c.channelId, c.openBlock, NextNonce(c), amount, root, body)
  }

  ghost function CreateDirect(c: Chan, amount: int): Draft {
    if c.state != Opened then Refused(WrongState)
    else if amount <= 0 || amount > Distributable(c.our, c.partner) then Refused(InsufficientBalance)
    else Message(MakeEnvelope(c, c.our.proof.transferAmount + amount, MerkleRoot(c.our.leaves), Direct))
  }

  /** computeMerkleRootWith leaves the root as it is when the hash is already known. */
  ghost function CreateMediated(c: Chan, lock: Lock): Draft {
    if c.state != Opened then Refused(WrongState)
    else if lock.amount <= 0 || lock.amount > Distributable(c.our, c.partner) then Refused(InsufficientBalance)
    else
      var root := if IsKnown(c.our, lock.secretHash) then MerkleRoot(c.our.leaves)
        else MerkleRoot(c.our.leaves + [lock]);
      Message(MakeEnvelope(c, c.our.proof.transferAmount, root, Mediated(lock)))
  }

  function UnlockWith(c: Chan, k: KnownLock, root: Digest): Draft {
    Message(MakeEnvelope(c, c.our.proof.transferAmount + k.lock.amount, root, Unlock(k.secret)))
  }

  function CreateUnlock(c: Chan, h: SecretHash): Draft {
    if c.state == Closed then Refused(AfterClosed)
    else if h !in c.our.known then Refused(SecretHashNotFound)
    else
      var lock := c.our.known[h].lock;
      if lock !in c.our.leaves then Refused(NoSuchLock)
      else UnlockWith(c, c.our.known[h], MerkleRoot(Without(c.our.leaves, lock)))
  }

  function CreateRemoval(c: Chan, h: SecretHash, block: int, mustExpire: bool): Draft {
    if c.state == Closed then Refused(AfterClosed)
    else
      var tried := TryRemove(c.our, h, block, mustExpire);
      if tried.1 != Ok then Refused(tried.1.error)
      else Message(MakeEnvelope(c, c.our.proof.transferAmount, MerkleRoot(tried.0),
                                if mustExpire then RemoveExpired(h) else DisposeResponse(h)))
  }

  // ---------- Secrets ----------

  /** RegisterSecret: our side first; the partner's only when ours does not know the hash. */
  function LearnSecret(c: Chan, secret: Secret): (Chan, Outcome) {
    var h := ShaSecret(secret);
    if IsKnown(c.our, h) then
      var r := RegisterSecret(c.our, secret);
      (c.(our := r.0), r.1)
    else if IsKnown(c.partner, h) then
      var r := RegisterSecret(c.partner, secret);
      (c.(partner := r.0), r.1)
    else (c, Err(SecretHashNotFound))
  }

  function SecretOnChain(c: Chan, secret: Secret, block: int): (Chan, Outcome) {
    var h := ShaSecret(secret);
    if IsKnown(c.our, h) then
      var r := RegisterRevealed(c.our, secret, block);
      (c.(our := r.0), r.1)
    else if IsKnown(c.partner, h) then
      var r := RegisterRevealed(c.partner, secret, block);
      (c.(partner := r.0), r.1)
    else (c, Err(SecretHashNotFound))
  }

  // ---------- Chain events ----------

  datatype ChainEvent =
    | SecretRevealed(secret: Secret, block: int)
    | DepositSeen(participant: Address, balance: int, block: int)
    | ClosedSeen(closer: Address, amount: int, root: Digest, block: int)
    | ProofUpdated(participant: Address, amount: int, root: Digest, block: int)
    | UnlockedSeen(payer: Address, amount: int, block: int)
    | PunishedSeen(beneficiary: Address, block: int)
    | WithdrawSeen(p1: Address, p2: Address, balance1: nat, balance2: nat, block: int)
    | SettledSeen(block: int)

  function SetSettled(c: Chan, block: int): Chan {
    if block < c.settledBlock then c else c.(settledBlock := block)
  }

  function SetClosed(c: Chan, block: int): Chan {
    if c.closedBlock != 0 then c else c.(closedBlock := block)
  }

  function HandleClosed(c: Chan, closer: Address, amount: int, root: Digest): Chan {
    if closer != c.our.address then c.(our := SetContract(c.our, amount, root))
    else c.(partner := SetContract(c.partner, amount, root))
  }

  function HandleProofUpdated(c: Chan, participant: Address, amount: int, root: Digest): Chan {
    if participant == c.partner.address then c.(partner := SetContract(c.partner, amount, root))
    else c.(our := SetContract(c.our, amount, root))
  }

  function Benefit(e: End, gained: int): End {
    var f := SetContract(e, 0, Empty);
    f.(contractBalance := e.contractBalance + gained, proof := f.proof.(contractNonce := UINT64 - 1))
  }

  function HandlePunished(c: Chan, beneficiary: Address): Option<Chan> {
    if beneficiary == c.our.address then
      Some(c.(our := Benefit(c.our, c.partner.contractBalance), partner := c.partner.(contractBalance := 0)))
    else if beneficiary == c.partner.address then
      Some(c.(partner := Benefit(c.partner, c.our.contractBalance), our := c.our.(contractBalance := 0)))
    else None
  }

  /** HandleWithdrawed: both sides start again from empty proofs. */
  function HandleWithdrawn(c: Chan, block: int, p1: Address, p2: Address, b1: int, b2: int): Option<Chan> {
    var reset := c.(openBlock := block, state := Opened, closedBlock := 0, settledBlock := 0);
    if c.our.address == p1 && c.partner.address == p2 then
      Some(reset.(our := NewEnd(p1, b1), partner := NewEnd(p2, b2)))
    else if c.our.address == p2 && c.partner.address == p1 then
      Some(reset.(our := NewEnd(p2, b2), partner := NewEnd(p1, b1)))
    else None
  }

  function UpdateDeposit(e: End, balance: int): End {
    if balance < e.contractBalance then e else e.(contractBalance := balance)
  }

  /** The handler of each event with the transition it triggers; None where the source panics. */
  function OnChainEvent(c: Chan, ev: ChainEvent): Option<Chan> {
    match ev
    case SecretRevealed(secret, block) => Some(SecretOnChain(c, secret, block).0)
    case DepositSeen(participant, balance, block) =>
      if block < c.openBlock then Some(c)
      else if participant == c.our.address then Some(c.(our := UpdateDeposit(c.our, balance)))
      else if participant == c.partner.address then Some(c.(partner := UpdateDeposit(c.partner, balance)))
      else Some(c)
    case ClosedSeen(closer, amount, root, block) =>
      if c.state == Closed then Some(c)
      else
        var d := SetSettled(SetClosed(c.(state := Closed), block), block + c.settleTimeout + c.punishBlocks);
        Some(HandleClosed(d, closer, amount, root))
    case ProofUpdated(participant, amount, root, block) =>
      if block < c.openBlock then Some(c) else Some(HandleProofUpdated(c, participant, amount, root))
    case UnlockedSeen(payer, amount, block) =>
      if block < c.openBlock || (payer != c.our.address && payer != c.partner.address) then Some(c)
      else if c.state == Opened then None
      else if payer == c.our.address then Some(c.(our := SetContractAmount(c.our, amount)))
      else Some(c.(partner := SetContractAmount(c.partner, amount)))
    case PunishedSeen(beneficiary, block) =>
      if block < c.openBlock then Some(c) else HandlePunished(c, beneficiary)
    case WithdrawSeen(p1, p2, b1, b2, block) =>
      if block <= c.openBlock then Some(c) else HandleWithdrawn(c, block, p1, p2, b1, b2)
    case SettledSeen(block) =>
      if block < c.openBlock then Some(c) else Some(SetSettled(c.(state := Settled), block))
  }

  // ---------- Cooperative requests and local requests ----------

  datatype SettleData = SettleData(channelId: nat, openBlock: int, p1: Address, balance1: int, p2: Address,
    balance2: int)

  datatype WithdrawData = WithdrawData(channelId: nat, openBlock: int, p1: Address, p2: Address, balance1: int,
    withdraw: int)

  /** preCheckSettleDataInMessage for a request from `sender`. */
  function CheckSettleData(c: Chan, sender: Address, d: SettleData): Outcome {
    if c.channelId != d.channelId || c.openBlock != d.openBlock then Err(IdentifierMismatch)
    else if sender != c.our.address && sender != c.partner.address then Err(InvalidSender)
    else
      var ours := sender == c.our.address;
      var s1, s2 := FromEnd(c, ours), ToEnd(c, ours);
      if (s1.address != d.p1 && s1.address != d.p2) || (s2.address != d.p1 && s2.address != d.p2) || d.p1 == d.p2 then
        Err(NotParticipant)
      else if s1.address == d.p1 then
        if Balance(s1, s2) != d.balance1 || Balance(s2, s1) != d.balance2 then Err(BalanceNotMatch) else Ok
      else
        if Balance(s2, s1) != d.balance1 || Balance(s1, s2) != d.balance2 then Err(BalanceNotMatch) else Ok
  }

  function RegisterSettleRequest(c: Chan, sender: Address, d: SettleData): (Chan, Outcome) {
    var checked := CheckSettleData(c, sender, d);
    if checked != Ok then (c, checked)
    else if c.partner.known != map[] || c.partner.pending != map[] || c.our.known != map[] then (c, Err(HasLocks))
    else (c.(state := PartnerCooperativeSettling), Ok)
  }

  function RegisterWithdrawRequest(c: Chan, sender: Address, d: WithdrawData): (Chan, Outcome) {
    if c.channelId != d.channelId || c.openBlock != d.openBlock then (c, Err(IdentifierMismatch))
    else if sender != c.partner.address then (c, Err(InvalidSender))
    else if Balance(c.partner, c.our) != d.balance1 then (c, Err(BalanceNotMatch))
    else if c.partner.known != map[] || c.partner.pending != map[] || c.our.known != map[] then (c, Err(HasLocks))
    else (c.(state := PartnerWithdrawing), Ok)
  }

  datatype Request =
    | PrepareWithdraw | PrepareSettle | CancelPrepare
    | Close(submitted: bool) | Settle(block: int, submitted: bool)
    | StartWithdraw(amount: int) | StartCooperativeSettle
    | WithdrawRequested(sender: Address, withdraw: WithdrawData)
    | SettleRequested(sender: Address, settle: SettleData)

  /** CreateWithdrawRequest and CreateCooperativeSettleRequest test our pending map twice and never our known map. */
  predicate RequestHasLocks(c: Chan) {
    c.our.pending != map[] || c.partner.pending != map[] || c.partner.known != map[]
  }

  /** `submitted` says whether the contract proxy took the transaction; None where the source panics. */
  function OnRequest(c: Chan, r: Request): Option<Chan> {
    match r
    case PrepareWithdraw => Some(if c.state == Opened then c.(state := PrepareForWithdraw) else c)
    case PrepareSettle => Some(if c.state == Opened then c.(state := PrepareForCooperativeSettle) else c)
    case CancelPrepare =>
      Some(if c.closedBlock == 0 && c.state in {PrepareForCooperativeSettle, PrepareForWithdraw}
           then c.(state := Opened) else c)
    case Close(submitted) =>
      Some(if c.state in {Closed, Settled} || c.closedBlock != 0 || !submitted then c else c.(state := Closing))
    case Settle(block, submitted) =>
      Some(if c.state != Closed || c.settledBlock > block || !submitted then c else c.(state := Settling))
    case StartWithdraw(amount) =>
      if c.state !in {Opened, PrepareForWithdraw} then Some(c)
      else if amount > Balance(c.our, c.partner) then None
      else if RequestHasLocks(c) then Some(c)
      else Some(c.(state := Withdrawing))
    case StartCooperativeSettle => Some(if RequestHasLocks(c) then c else c.(state := CooperativeSettling))
    case WithdrawRequested(sender, d) => Some(if c.state == Opened then RegisterWithdrawRequest(c, sender, d).0 else c)
    case SettleRequested(sender, d) => Some(if c.state == Opened then RegisterSettleRequest(c, sender, d).0 else c)
  }

  // ---------- Steps ----------

  datatype Step =
    | Transfer(block: int, m: Envelope)
    | Learn(secret: Secret)
    | Event(ev: ChainEvent)
    | Ask(request: Request)

  ghost function Apply(c: Chan, s: Step): Option<Chan> {
    match s
    case Transfer(block, m) => Some(Register(c, block, m).0)
    case Learn(secret) => Some(LearnSecret(c, secret).0)
    case Event(ev) => OnChainEvent(c, ev)
    case Ask(r) => OnRequest(c, r)
  }

  ghost predicate Accepted(c: Chan, s: Step) {
    s.Transfer? && Register(c, s.block, s.m).1 == Ok
  }

  /** A channel as newChannelFromEvent builds it. */
  predicate Fresh(c: Chan) {
    && c.our.address != c.partner.address
    && c.our == NewEnd(c.our.address, 0)
    && c.partner == NewEnd(c.partner.address, 0)
    && c.state == Opened && c.closedBlock == 0 && c.settledBlock == 0
  }

  /** cs[i+1] is what step i makes of cs[i]; no step panicked. */
  ghost predicate IsRun(cs: seq<Chan>, ss: seq<Step>) {
    && |cs| == |ss| + 1
    && Fresh(cs[0])
    && forall i {:trigger ss[i]} :: 0 <= i < |ss| ==> Apply(cs[i], ss[i]) == Some(cs[i + 1])
  }
}

/** Cooperative settle and withdraw: requests, responses and the handshake between two copies of a channel. */
module Cooperation {
  import opened Primitives
  import opened Merkle
  import opened Messages
  import opened EndStates
  import opened Channels
  import opened ChannelLaws
  import opened Ledgers
  import opened Lockstep

  function SettleRequestOf(c: Chan): SettleData {
    SettleData(c.channelId, c.openBlock, c.our.address, Balance(c.our, c.partner), c.partner.address,
      Balance(c.partner, c.our))
  }

  function WithdrawRequestOf(c: Chan, amount: int): WithdrawData {
    WithdrawData(c.channelId, c.openBlock, c.our.address, c.partner.address, Balance(c.our, c.partner), amount)
  }

  /** CreateCooperativeSettleResponse; None where the source panics. */
  function SettleResponse(c: Chan, req: SettleData): Option<SettleData> {
    var d := SettleData(c.channelId, c.openBlock, c.partner.address, Balance(c.partner, c.our), c.our.address,
      Balance(c.our, c.partner));
    if c.partner.pending != map[] || c.partner.known != map[] then None
    else if req.balance1 != d.balance1 || req.balance2 != d.balance2 then None
    else Some(d)
  }

  /** CreateWithdrawResponse; None where the source panics. */
  function WithdrawResponse(c: Chan, req: WithdrawData): Option<WithdrawData> {
    var d := WithdrawData(c.channelId, c.openBlock, c.partner.address, c.our.address, Balance(c.partner, c.our),
      req.withdraw);
    if c.partner.pending != map[] || c.partner.known != map[] then None
    else if req.balance1 != d.balance1 then None
    else Some(d)
  }

  function CheckSettleResponse(c: Chan, sender: Address, d: SettleData): Outcome {
    var checked := CheckSettleData(c, sender, d);
    if checked != Ok then checked
    else if c.state != CooperativeSettling then Err(WrongState)
    else Ok
  }

  function CheckWithdrawResponse(c: Chan, sender: Address, d: WithdrawData): Outcome {
    if c.channelId != d.channelId || c.openBlock != d.openBlock then Err(IdentifierMismatch)
    else if sender != c.partner.address then Err(InvalidSender)
    else if Balance(c.our, c.partner) != d.balance1 then Err(BalanceNotMatch)
    else if c.partner.known != map[] || c.partner.pending != map[] || c.our.known != map[]
      || c.our.pending != map[] then Err(HasLocks)
    else if c.state != Withdrawing then Err(WrongState)
    else Ok
  }

  function Deposits(c: Chan): int { c.our.contractBalance + c.partner.contractBalance }

  // ---------- One node ----------

  /**
   * A registered settle request splits exactly the total deposits. Building the response panics exactly when the
   * request does not name its sender first and the two balances differ.
   */
  lemma RegisteredSettleRequest(c: Chan, d: SettleData)
    requires SoundChan(c) && RegisterSettleRequest(c, c.partner.address, d).1 == Ok
    ensures d.balance1 + d.balance2 == Deposits(c)
    ensures SettleResponse(RegisterSettleRequest(c, c.partner.address, d).0, d) == None <==>
            d.p1 != c.partner.address && Balance(c.our, c.partner) != Balance(c.partner, c.our)
  {
  }

  /** A request that unpacks names its sender first; then the response gives back the request's own data. */
  lemma UnpackedSettleRequest(c: Chan, d: SettleData)
    requires SoundChan(c) && RegisterSettleRequest(c, d.p1, d).1 == Ok && d.p1 == c.partner.address
    ensures SettleResponse(RegisterSettleRequest(c, d.p1, d).0, d) == Some(d)
    ensures d.balance1 + d.balance2 == Deposits(c)
  {
    RegisteredSettleRequest(c, d);
  }

  /**
   * A registered withdraw request always gets its response, with the requested amount and the balance both sides know.
   */
  lemma RegisteredWithdrawRequest(c: Chan, d: WithdrawData)
    requires RegisterWithdrawRequest(c, c.partner.address, d).1 == Ok
    ensures WithdrawResponse(RegisterWithdrawRequest(c, c.partner.address, d).0, d)
         == Some(WithdrawData(d.channelId, d.openBlock, c.partner.address, c.our.address, d.balance1, d.withdraw))
    ensures d.balance1 == Deposits(c) - Balance(c.our, c.partner)
  {
  }

  /** Settle data is in order, whoever sent it, exactly when it names the two sides, each with its own balance. */
  lemma SettleDataIff(c: Chan, sender: Address, d: SettleData)
    requires c.our.address != c.partner.address
    ensures CheckSettleData(c, sender, d) == Ok <==>
              && d.channelId == c.channelId && d.openBlock == c.openBlock
              && (sender == c.our.address || sender == c.partner.address)
              && (d == SettleRequestOf(c)
                  || d == SettleData(c.channelId, c.openBlock, c.partner.address, Balance(c.partner, c.our),
                                     c.our.address, Balance(c.our, c.partner)))
  {
  }

  /**
   * A request is registered exactly then, and when no lock but one of ours still waiting is left; a response only when
   * asked for.
   */
  lemma SettleRegisteredIff(c: Chan, sender: Address, d: SettleData)
    ensures RegisterSettleRequest(c, sender, d).1 == Ok <==>
              CheckSettleData(c, sender, d) == Ok
              && c.partner.known == map[] && c.partner.pending == map[] && c.our.known == map[]
    ensures RegisterSettleRequest(c, sender, d).0 ==
              if RegisterSettleRequest(c, sender, d).1 == Ok then c.(state := PartnerCooperativeSettling) else c
    ensures CheckSettleResponse(c, sender, d) == Ok <==>
        CheckSettleData(c, sender, d) == Ok && c.state == CooperativeSettling
  {
  }

  lemma WithdrawRegisteredIff(c: Chan, sender: Address, d: WithdrawData)
    ensures RegisterWithdrawRequest(c, sender, d).1 == Ok <==>
              && d.channelId == c.channelId && d.openBlock == c.openBlock && sender == c.partner.address
              && d.balance1 == Balance(c.partner, c.our)
              && c.partner.known == map[] && c.partner.pending == map[] && c.our.known == map[]
    ensures RegisterWithdrawRequest(c, sender, d).0 ==
              if RegisterWithdrawRequest(c, sender, d).1 == Ok then c.(state := PartnerWithdrawing) else c
    ensures CheckWithdrawResponse(c, sender, d) == Ok <==>
              && d.channelId == c.channelId && d.openBlock == c.openBlock && sender == c.partner.address
              && d.balance1 == Balance(c.our, c.partner) && c.state == Withdrawing
              && c.partner.known == map[] && c.partner.pending == map[] && c.our.known == map[]
                  && c.our.pending == map[]
  {
  }

  // ---------- Two nodes ----------

  /** Nothing is under way and both nodes have seen the same deposits. */
  ghost predicate AtRest(w: World) {
    && InStep(w) && w.ab == [] && w.ba == []
    && w.a.our.contractBalance == w.b.partner.contractBalance && w.b.our.contractBalance == w.a.partner.contractBalance
  }

  lemma NoLocksIffNoLeaves(e: End)
    requires Consistent(e)
    ensures e.leaves == [] <==> e.pending == map[] && e.known == map[]
  {
    if e.leaves != [] {
      assert e.leaves[0] in e.leaves;
      assert LockFor(e, e.leaves[0].secretHash).Some?;
    }
  }

  /** Copies at rest agree on both balances, and on which sides hold locks. */
  lemma RestAgrees(w: World)
    requires AtRest(w)
    ensures Balance(w.a.our, w.a.partner) == Balance(w.b.partner, w.b.our)
    ensures Balance(w.a.partner, w.a.our) == Balance(w.b.our, w.b.partner)
    ensures w.a.our.pending == map[] && w.a.our.known == map[] <==>
        w.b.partner.pending == map[] && w.b.partner.known == map[]
    ensures w.a.partner.pending == map[] && w.a.partner.known == map[] <==>
        w.b.our.pending == map[] && w.b.our.known == map[]
  {
    assert CoreOf(w.b.partner) == CoreOf(w.a.our) && CoreOf(w.a.partner) == CoreOf(w.b.our);
    NoLocksIffNoLeaves(w.a.our);
    NoLocksIffNoLeaves(w.a.partner);
    NoLocksIffNoLeaves(w.b.our);
    NoLocksIffNoLeaves(w.b.partner);
  }

  /**
   * From copies at rest, a settle request that A's own builder lets through is registered by B exactly when A holds no
   * lock of its own with a known secret, the one map the builder forgets. Then B answers without panic, A takes the
   * answer, and the agreed split is the total deposits.
   */
  lemma SettleHandshakeIff(w: World)
    requires AtRest(w) && !RequestHasLocks(w.a)
    ensures var d := SettleRequestOf(w.a);
            var registered := RegisterSettleRequest(w.b, w.a.our.address, d);
            && (registered.1 == Ok <==> w.a.our.known == map[])
            && (registered.1 != Ok ==> registered.0 == w.b)
            && (registered.1 == Ok ==>
                  && registered.0 == w.b.(state := PartnerCooperativeSettling)
                  && SettleResponse(registered.0, d) == Some(d)
                  && CheckSettleResponse(w.a.(state := CooperativeSettling), w.b.our.address, d) == Ok
                  && d.balance1 + d.balance2 == Deposits(w.a) == Deposits(w.b))
  {
    RestAgrees(w);
  }

  /** The same for a withdraw. */
  lemma WithdrawHandshakeIff(w: World, amount: int)
    requires AtRest(w) && !RequestHasLocks(w.a)
    ensures var d := WithdrawRequestOf(w.a, amount);
            var registered := RegisterWithdrawRequest(w.b, w.a.our.address, d);
            && (registered.1 == Ok <==> w.a.our.known == map[])
            && (registered.1 != Ok ==> registered.0 == w.b)
            && (registered.1 == Ok ==>
                  && registered.0 == w.b.(state := PartnerWithdrawing)
                  && WithdrawResponse(registered.0, d) == Some(d)
                  && CheckWithdrawResponse(w.a.(state := Withdrawing), w.b.our.address, d) == Ok)
  {
    RestAgrees(w);
  }
}

/** When a channel is open, closed or settled, and what that allows: told from the steps of a run. */
module ClosedChannels {
  import opened Primitives
  import opened Merkle
  import opened Messages
  import opened EndStates
  import opened Channels
  import opened ChannelLaws
  import opened ChannelRuns

  predicate IsClose(s: Step) { s.Event? && s.ev.ClosedSeen? }

  /** A withdraw event of a later block: the channel starts again. */
  predicate Reopens(c: Chan, s: Step) { s.Event? && s.ev.WithdrawSeen? && s.ev.block > c.openBlock }

  /** A settle event of this opening. */
  predicate Settles(c: Chan, s: Step) { s.Event? && s.ev.SettledSeen? && s.ev.block >= c.openBlock }

  /** The user orders the settlement, late enough, and the contract takes it. */
  predicate OrdersSettle(c: Chan, s: Step) {
    s.Ask? && s.request.Settle? && s.request.submitted && s.request.block >= c.settledBlock
  }

  /** The user orders a cooperative settlement and the locks the builder looks at are gone. */
  predicate OrdersCooperation(c: Chan, s: Step) {
    s.Ask? && s.request.StartCooperativeSettle? && !RequestHasLocks(c)
  }

  predicate LeavesClosed(c: Chan, s: Step) {
    Reopens(c, s) || Settles(c, s) || OrdersSettle(c, s) || OrdersCooperation(c, s)
  }

  lemma EventClosedIff(c: Chan, ev: ChainEvent)
    requires OnChainEvent(c, ev).Some?
    ensures OnChainEvent(c, ev).value.state == Closed <==>
              ev.ClosedSeen? || (c.state == Closed && !LeavesClosed(c, Event(ev)))
  {
    if ev.SecretRevealed? {
      assert OnChainEvent(c, ev).value.state == c.state;
    }
  }

  lemma RequestClosedIff(c: Chan, r: Request)
    requires OnRequest(c, r).Some?
    ensures OnRequest(c, r).value.state == Closed <==> c.state == Closed && !LeavesClosed(c, Ask(r))
  {
  }

  /**
   * A step leads to the closed state exactly when it is a close event, or finds the channel closed and does not leave
   * it.
   */
  lemma StepClosedIff(c: Chan, s: Step)
    requires Apply(c, s).Some?
    ensures Apply(c, s).value.state == Closed <==> IsClose(s) || (c.state == Closed && !LeavesClosed(c, s))
  {
    match s {
      case Transfer(block, m) => RegisterShape(c, block, m);
      case Learn(_) =>
      case Event(ev) => EventClosedIff(c, ev);
      case Ask(r) => RequestClosedIff(c, r);
    }
  }

  /** There was a close event, and nothing since has left the closed state. */
  ghost predicate ClosedSince(cs: seq<Chan>, ss: seq<Step>, j: nat)
    requires |cs| == |ss| + 1 && j <= |ss|
  {
    exists i :: 0 <= i < j && IsClose(ss[i]) && forall k {:trigger ss[k]} :: i < k < j ==> !LeavesClosed(cs[k], ss[k])
  }

  lemma ClosedSinceSplits(cs: seq<Chan>, ss: seq<Step>, j: nat)
    requires |cs| == |ss| + 1 && 0 < j <= |ss|
    ensures ClosedSince(cs, ss, j) <==>
              IsClose(ss[j - 1]) || (ClosedSince(cs, ss, j - 1) && !LeavesClosed(cs[j - 1], ss[j - 1]))
  {
    if ClosedSince(cs, ss, j) {
      var i :| 0 <= i < j && IsClose(ss[i]) && forall k {:trigger ss[k]} :: i < k < j ==> !LeavesClosed(cs[k], ss[k]);
      if i < j - 1 {
        assert !LeavesClosed(cs[j - 1], ss[j - 1]);
        assert ClosedSince(cs, ss, j - 1);
      }
    }
    if ClosedSince(cs, ss, j - 1) && !LeavesClosed(cs[j - 1], ss[j - 1]) {
      var i :| 0 <= i < j - 1 && IsClose(ss[i])
            && forall k {:trigger ss[k]} :: i < k < j - 1 ==> !LeavesClosed(cs[k], ss[k]);
      assert forall k {:trigger ss[k]} :: i < k < j ==> !LeavesClosed(cs[k], ss[k]);
    }
  }

  /**
   * At every point of every run the channel is closed exactly when a close event was seen and nothing has left that
   * state.
   */
  lemma {:induction false} RunClosedIff(cs: seq<Chan>, ss: seq<Step>, j: nat)
    requires IsRun(cs, ss) && j < |cs|
    ensures cs[j].state == Closed <==> ClosedSince(cs, ss, j)
    decreases j
  {
    if j > 0 {
      RunClosedIff(cs, ss, j - 1);
      RunStep(cs, ss, j - 1);
      StepClosedIff(cs[j - 1], ss[j - 1]);
      ClosedSinceSplits(cs, ss, j);
    }
  }

  // ---------- What a closed channel allows ----------

  /** The first close or settle event of this opening is still to come. */
  ghost predicate Untouched(cs: seq<Chan>, ss: seq<Step>, i: nat)
    requires |cs| == |ss| + 1 && i <= |ss|
  {
    forall k {:trigger ss[k]} :: 0 <= k < i && (IsClose(ss[k]) || Settles(cs[k], ss[k])) ==>
      ReopenedBetween(cs, ss, k, i)
  }

  ghost predicate ReopenedBetween(cs: seq<Chan>, ss: seq<Step>, k: nat, i: nat)
    requires |cs| == |ss| + 1 && i <= |ss|
  {
    exists r :: k < r < i && Reopens(cs[r], ss[r])
  }

  /** A step writes the closing and settling blocks only on a close, settle or reopening event. */
  lemma StepTimes(c: Chan, s: Step)
    requires Apply(c, s).Some?
    ensures var d := Apply(c, s).value;
            && d.settleTimeout == c.settleTimeout && d.punishBlocks == c.punishBlocks
            && (Reopens(c, s) ==> d.closedBlock == 0 && d.settledBlock == 0 && d.openBlock == s.ev.block)
            && (!Reopens(c, s) ==> d.openBlock == c.openBlock)
            && (!Reopens(c, s) && !IsClose(s) && !Settles(c, s) ==>
                  d.closedBlock == c.closedBlock && d.settledBlock == c.settledBlock)
            && (IsClose(s) && c.closedBlock == 0 && c.settledBlock == 0 && c.state != Closed && s.ev.block >= 0 ==>
                  d.closedBlock == s.ev.block && d.settledBlock == s.ev.block + c.settleTimeout + c.punishBlocks)
            && (IsClose(s) && c.state == Closed ==> d == c)
  {
    match s {
      case Transfer(block, m) => RegisterShape(c, block, m);
      case Learn(_) =>
      case Event(_) =>
      case Ask(r) => RequestKeepsEnds(c, r);
    }
  }

  lemma UntouchedSplits(cs: seq<Chan>, ss: seq<Step>, i: nat)
    requires |cs| == |ss| + 1 && 0 < i <= |ss| && Untouched(cs, ss, i)
    ensures Reopens(cs[i - 1], ss[i - 1])
         || (Untouched(cs, ss, i - 1) && !IsClose(ss[i - 1]) && !Settles(cs[i - 1], ss[i - 1]))
  {
    if !Reopens(cs[i - 1], ss[i - 1]) {
      forall k | 0 <= k < i && (IsClose(ss[k]) || Settles(cs[k], ss[k]))
        ensures k < i - 1 && ReopenedBetween(cs, ss, k, i - 1) {
        assert ReopenedBetween(cs, ss, k, i);
        var r :| k < r < i && Reopens(cs[r], ss[r]);
        assert r < i - 1;
      }
    }
  }

  lemma {:induction false} UntouchedTimes(cs: seq<Chan>, ss: seq<Step>, i: nat)
    requires IsRun(cs, ss) && i <= |ss| && Untouched(cs, ss, i)
    ensures cs[i].closedBlock == 0 && cs[i].settledBlock == 0
    decreases i
  {
    if i > 0 {
      RunStep(cs, ss, i - 1);
      StepTimes(cs[i - 1], ss[i - 1]);
      UntouchedSplits(cs, ss, i);
      if !Reopens(cs[i - 1], ss[i - 1]) {
        UntouchedTimes(cs, ss, i - 1);
      }
    }
  }

  lemma {:induction false} RunKeepsTimeouts(cs: seq<Chan>, ss: seq<Step>, i: nat)
    requires IsRun(cs, ss) && i < |cs|
    ensures cs[i].settleTimeout == cs[0].settleTimeout && cs[i].punishBlocks == cs[0].punishBlocks
    decreases i
  {
    if i > 0 {
      RunKeepsTimeouts(cs, ss, i - 1);
      RunStep(cs, ss, i - 1);
      StepTimes(cs[i - 1], ss[i - 1]);
    }
  }

  /** The first block in which Settle submits, for a channel closed in `block`. */
  function Due(c: Chan, block: int): int { block + c.settleTimeout + c.punishBlocks }

  ghost predicate Undisturbed(cs: seq<Chan>, ss: seq<Step>, i: nat, j: nat)
    requires |cs| == |ss| + 1 && j <= |ss|
  {
    forall k {:trigger ss[k]} :: i < k < j ==> !LeavesClosed(cs[k], ss[k])
  }

  lemma {:induction false} ClosedTimes(cs: seq<Chan>, ss: seq<Step>, i: nat, j: nat)
    requires IsRun(cs, ss) && i < j < |cs| && IsClose(ss[i]) && ss[i].ev.block >= 0
    requires Untouched(cs, ss, i) && cs[i].state != Closed && Undisturbed(cs, ss, i, j)
    ensures cs[j].state == Closed && cs[j].closedBlock == ss[i].ev.block
    ensures cs[j].settledBlock == Due(cs[0], ss[i].ev.block)
    decreases j
  {
    RunStep(cs, ss, j - 1);
    StepTimes(cs[j - 1], ss[j - 1]);
    StepClosedIff(cs[j - 1], ss[j - 1]);
    if j - 1 == i {
      UntouchedTimes(cs, ss, i);
      RunKeepsTimeouts(cs, ss, i);
    } else {
      ClosedTimes(cs, ss, i, j - 1);
      assert !LeavesClosed(cs[j - 1], ss[j - 1]);
    }
  }

  /**
   * From the first close event of an opening on, until a settle order, a cooperative order, a settle event or a
   * reopening: the channel is closed, every message is refused and changes nothing, and Settle submits exactly from the
   * closing block plus the settle timeout and the punish period on.
   */
  lemma ClosedMeans(cs: seq<Chan>, ss: seq<Step>, i: nat, j: nat, block: int, m: Envelope)
    requires IsRun(cs, ss) && i < j < |cs| && IsClose(ss[i]) && ss[i].ev.block >= 0
    requires Untouched(cs, ss, i) && Undisturbed(cs, ss, i, j)
    ensures cs[j].state == Closed && cs[j].closedBlock == ss[i].ev.block
    ensures Register(cs[j], block, m) == (cs[j], Err(AfterClosed))
    ensures OnRequest(cs[j], Settle(block, true)).value.state ==
              if block >= Due(cs[0], ss[i].ev.block) then Settling else Closed
  {
    NotClosedYet(cs, ss, i);
    ClosedTimes(cs, ss, i, j);
  }

  /** Before the first close event of an opening the channel is not closed. */
  lemma NotClosedYet(cs: seq<Chan>, ss: seq<Step>, i: nat)
    requires IsRun(cs, ss) && i < |ss| && Untouched(cs, ss, i)
    ensures cs[i].state != Closed
  {
    RunClosedIff(cs, ss, i);
  }

  /** Nor is any message built. */
  lemma ClosedBuildsNothing(c: Chan, amount: int, lock: Lock, h: SecretHash, block: int, mustExpire: bool)
    requires c.state == Closed
    ensures CreateDirect(c, amount).Refused? && CreateMediated(c, lock).Refused?
    ensures CreateUnlock(c, h).Refused? && CreateRemoval(c, h, block, mustExpire).Refused?
  {
  }

  /**
   * A cooperative order is not stopped by the closed state: on every closed channel without the locks the builder looks
   * at it takes the state away, messages are looked at again, and Settle no longer submits, however late.
   */
  lemma CooperationForgetsClose(c: Chan, block: int)
    requires c.state == Closed && !RequestHasLocks(c)
    ensures var d := OnRequest(c, StartCooperativeSettle).value;
            && d == c.(state := CooperativeSettling)
            && OnRequest(d, Settle(block, true)) == Some(d)
            && forall m :: Register(d, block, m).1 != Err(AfterClosed)
  {
  }

  // ---------- Payments ----------

  /** The channel offers payments: it was opened or reopened, or a preparation was cancelled, and nothing came since. */
  predicate StopsPayments(c: Chan, s: Step) {
    || IsClose(s) || Settles(c, s) || OrdersCooperation(c, s)
    || (s.Ask? &&
        match s.request
        case PrepareWithdraw => true
        case PrepareSettle => true
        case Close(submitted) => submitted && c.closedBlock == 0
        case StartWithdraw(amount) => amount <= Balance(c.our, c.partner) && !RequestHasLocks(c)
        case WithdrawRequested(sender, d) => RegisterWithdrawRequest(c, sender, d).1 == Ok
        case SettleRequested(sender, d) => RegisterSettleRequest(c, sender, d).1 == Ok
        case _ => false)
  }

  predicate ResumesPayments(c: Chan, s: Step) {
    || Reopens(c, s)
    || (s.Ask? && s.request.CancelPrepare? && c.closedBlock == 0
        && c.state in {PrepareForCooperativeSettle, PrepareForWithdraw})
  }

  lemma EventOpenIff(c: Chan, ev: ChainEvent)
    requires OnChainEvent(c, ev).Some?
    ensures OnChainEvent(c, ev).value.state == Opened <==>
              ResumesPayments(c, Event(ev)) || (c.state == Opened && !StopsPayments(c, Event(ev)))
  {
    if ev.SecretRevealed? {
      assert OnChainEvent(c, ev).value.state == c.state;
    }
  }

  lemma RequestOpenIff(c: Chan, r: Request)
    requires OnRequest(c, r).Some?
    ensures OnRequest(c, r).value.state == Opened <==>
              ResumesPayments(c, Ask(r)) || (c.state == Opened && !StopsPayments(c, Ask(r)))
  {
  }

  /** A step leaves the channel open for payments exactly when it opens it, or finds it so and does not stop it. */
  lemma StepOpenIff(c: Chan, s: Step)
    requires Apply(c, s).Some?
    ensures Apply(c, s).value.state == Opened <==>
              ResumesPayments(c, s) || (c.state == Opened && !StopsPayments(c, s))
  {
    match s {
      case Transfer(block, m) => RegisterShape(c, block, m);
      case Learn(_) =>
      case Event(ev) => EventOpenIff(c, ev);
      case Ask(r) => RequestOpenIff(c, r);
    }
  }

  /** Payments were offered from the start or from some step on, and nothing has stopped them since. */
  ghost predicate OpenSince(cs: seq<Chan>, ss: seq<Step>, j: nat)
    requires |cs| == |ss| + 1 && j <= |ss|
  {
    exists i :: 0 <= i <= j && OffersFrom(cs, ss, i) && RunsOpen(cs, ss, i, j)
  }

  ghost predicate OffersFrom(cs: seq<Chan>, ss: seq<Step>, i: nat)
    requires |cs| == |ss| + 1 && i <= |ss|
  {
    i == 0 || ResumesPayments(cs[i - 1], ss[i - 1])
  }

  ghost predicate RunsOpen(cs: seq<Chan>, ss: seq<Step>, i: nat, j: nat)
    requires |cs| == |ss| + 1 && j <= |ss|
  {
    forall k {:trigger ss[k]} :: i <= k < j ==> !StopsPayments(cs[k], ss[k])
  }

  lemma OpenSinceSplits(cs: seq<Chan>, ss: seq<Step>, j: nat)
    requires |cs| == |ss| + 1 && 0 < j <= |ss|
    ensures OpenSince(cs, ss, j) <==>
              ResumesPayments(cs[j - 1], ss[j - 1])
              || (OpenSince(cs, ss, j - 1) && !StopsPayments(cs[j - 1], ss[j - 1]))
  {
    if OpenSince(cs, ss, j) {
      var i :| 0 <= i <= j && OffersFrom(cs, ss, i) && RunsOpen(cs, ss, i, j);
      if i < j {
        assert RunsOpen(cs, ss, i, j - 1) && !StopsPayments(cs[j - 1], ss[j - 1]);
      }
    }
    if ResumesPayments(cs[j - 1], ss[j - 1]) {
      assert OffersFrom(cs, ss, j) && RunsOpen(cs, ss, j, j);
    }
    if OpenSince(cs, ss, j - 1) && !StopsPayments(cs[j - 1], ss[j - 1]) {
      var i :| 0 <= i <= j - 1 && OffersFrom(cs, ss, i) && RunsOpen(cs, ss, i, j - 1);
      assert RunsOpen(cs, ss, i, j);
    }
  }

  /** At every point of every run the channel offers payments exactly when that is so. */
  lemma {:induction false} RunOpenIff(cs: seq<Chan>, ss: seq<Step>, j: nat)
    requires IsRun(cs, ss) && j < |cs|
    ensures cs[j].state == Opened <==> OpenSince(cs, ss, j)
    decreases j
  {
    if j == 0 {
      assert OffersFrom(cs, ss, 0) && RunsOpen(cs, ss, 0, 0);
    } else {
      RunOpenIff(cs, ss, j - 1);
      RunStep(cs, ss, j - 1);
      StepOpenIff(cs[j - 1], ss[j - 1]);
      OpenSinceSplits(cs, ss, j);
    }
  }

  /** Payments are built exactly then, for amounts in range. */
  lemma PaymentsNeedOpen(c: Chan, amount: int, lock: Lock)
    ensures CreateDirect(c, amount).Message? <==> c.state == Opened && 0 < amount <= Distributable(c.our, c.partner)
    ensures CreateMediated(c, lock).Message? <==>
        c.state == Opened && 0 < lock.amount <= Distributable(c.our, c.partner)
  {
  }

  // ---------- The state diagram ----------

  /** The state a step leads to, if it leads to one; all others leave the state alone. */
  function Enters(c: Chan, s: Step): Option<State> {
    if IsClose(s) then Some(Closed)
    else if Settles(c, s) then Some(Settled)
    else if Reopens(c, s) then Some(Opened)
    else if !s.Ask? then None
    else
      match s.request
      case PrepareWithdraw => if c.state == Opened then Some(PrepareForWithdraw) else None
      case PrepareSettle => if c.state == Opened then Some(PrepareForCooperativeSettle) else None
      case CancelPrepare => if ResumesPayments(c, s) then Some(Opened) else None
      case Close(submitted) =>
        if submitted && c.closedBlock == 0 && c.state != Closed && c.state != Settled then Some(Closing) else None
      case Settle(_, _) => if c.state == Closed && OrdersSettle(c, s) then Some(Settling) else None
      case StartWithdraw(amount) =>
        if (c.state == Opened || c.state == PrepareForWithdraw) && !RequestHasLocks(c) then Some(Withdrawing) else None
      case StartCooperativeSettle => if RequestHasLocks(c) then None else Some(CooperativeSettling)
      case WithdrawRequested(sender, d) =>
        if c.state == Opened && RegisterWithdrawRequest(c, sender, d).1 == Ok then Some(PartnerWithdrawing) else None
      case SettleRequested(sender, d) =>
        if c.state == Opened && RegisterSettleRequest(c, sender, d).1 == Ok then Some(PartnerCooperativeSettling)
          else None
  }

  lemma EventDiagram(c: Chan, ev: ChainEvent)
    requires OnChainEvent(c, ev).Some?
    ensures OnChainEvent(c, ev).value.state == if Enters(c, Event(ev)).Some? then Enters(c, Event(ev)).value
        else c.state
  {
    if ev.SecretRevealed? {
      assert OnChainEvent(c, ev).value.state == c.state;
    }
  }

  lemma RequestDiagram(c: Chan, r: Request)
    requires OnRequest(c, r).Some?
    ensures OnRequest(c, r).value == c.(state := if Enters(c, Ask(r)).Some? then Enters(c, Ask(r)).value else c.state)
  {
  }

  /** Every step follows the diagram; messages and secrets never change the state, requests change nothing else. */
  lemma StateDiagram(c: Chan, s: Step)
    requires Apply(c, s).Some?
    ensures Apply(c, s).value.state == if Enters(c, s).Some? then Enters(c, s).value else c.state
    ensures s.Ask? ==> Apply(c, s).value == c.(state := Apply(c, s).value.state)
  {
    match s {
      case Transfer(block, m) => RegisterShape(c, block, m);
      case Learn(_) =>
      case Event(ev) => EventDiagram(c, ev);
      case Ask(r) => RequestDiagram(c, r);
    }
  }
}

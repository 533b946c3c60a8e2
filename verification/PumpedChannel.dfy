/** A channel driven by the polling loop: what the order of ticks and events means for its locks. */
module PumpedChannel {
  import opened Primitives
  import opened Merkle
  import opened Messages
  import opened EndStates
  import opened Channels
  import opened ChannelLaws
  import opened ChannelRuns
  import opened ClosedChannels
  import opened Timelocks
  import opened Ledgers
  import opened Lockstep
  import EventPump
  import PumpDelivery
  import PumpClock

  /** The channel event that the node makes of a revealed-secret log. */
  predicate IsReveal(s: Step, secret: Secret, block: int) {
    s == Event(SecretRevealed(secret, block))
  }

  /**
   * Step k is taken after the node has consumed the first pos[k] outputs of the loop: a message is judged by the clock
   * of that moment, and whatever log was consumed before has been handled before.
   */
  ghost predicate Driven(ss: seq<Step>, pos: seq<nat>, sent: seq<EventPump.Output>, notice: EventPump.Change,
      secret: Secret) {
    && |pos| == |ss|
    && (forall k :: 0 <= k < |ss| ==> pos[k] <= |sent|)
    && (forall k :: 0 <= k < |ss| && ss[k].Transfer? ==> PumpClock.ClockAt(sent, pos[k]) == Some(ss[k].block))
    && (forall k :: 0 <= k < |ss| && EventPump.Sent(notice) in sent[..pos[k]] ==>
        Revealed(ss, k + 1, secret, notice.log.block))
  }

  ghost predicate Revealed(ss: seq<Step>, k: nat, secret: Secret, block: int)
    requires k <= |ss|
  {
    exists i :: 0 <= i < k && IsReveal(ss[i], secret, block)
  }

  /** The lock is in the channel at every moment from a to k. */
  ghost predicate Held(cs: seq<Chan>, a: nat, k: nat, ours: bool, lock: Lock)
    requires k < |cs|
  {
    forall t {:trigger cs[t]} :: a <= t <= k ==> LockFor(FromEnd(cs[t], ours), lock.secretHash) == Some(lock)
  }

  lemma {:induction false} ClockWithin(sent: seq<EventPump.Output>, j: nat, bound: int)
    requires j <= |sent| && PumpClock.TicksWithin(sent[..j], bound) && PumpClock.ClockAt(sent, j).Some?
    ensures PumpClock.ClockAt(sent, j).value <= bound
    decreases j
  {
    assert sent[..j][j - 1] == sent[j - 1];
    if !sent[j - 1].Tick? {
      assert forall i :: 0 <= i < j - 1 ==> sent[..j - 1][i] == sent[..j][i];
      ClockWithin(sent, j - 1, bound);
    }
  }

  /** How many blocks before the expiration a secret must be registered for the node to see it in time. */
  function Lead(confirm: bool, step: nat): nat { if confirm then step else 0 }

  /** With fork confirmation on, the head must advance by steps that lose no log. */
  ghost predicate Paced(start: int, rounds: seq<EventPump.Round>, confirm: bool, step: nat) {
    confirm ==> step <= FORK_CONFIRM + 1 && PumpDelivery.Steps(start, rounds, step)
  }

  lemma ClockBeforeNotice(chain: seq<EventPump.Log>, start: int, rounds: seq<EventPump.Round>, confirm: bool, step: nat,
                          notice: EventPump.Change, j: nat, limit: int)
    requires PumpDelivery.WellFormed(chain) && PumpDelivery.Honest(chain, start, rounds)
    requires notice.log in chain && PumpDelivery.Unrivalled(chain, notice.log)
    requires notice.log.name == EventPump.SecretRevealed && notice == EventPump.Change(notice.log, false)
    requires Paced(start, rounds, confirm, step) && EventPump.Window(start) <= notice.log.block
    requires notice.log.block + Lead(confirm, step) <= limit && start < limit + FORK_CONFIRM
    requires j <= |PumpDelivery.Run(start, rounds, confirm).sent|
    requires EventPump.Sent(notice) !in PumpDelivery.Run(start, rounds, confirm).sent[..j]
    requires PumpClock.ClockAt(PumpDelivery.Run(start, rounds, confirm).sent, j).Some?
    ensures PumpClock.ClockAt(PumpDelivery.Run(start, rounds, confirm).sent, j).value < limit + FORK_CONFIRM
  {
    var sent := PumpDelivery.Run(start, rounds, confirm).sent;
    if confirm {
      PumpClock.ConfirmedTicks(chain, start, rounds, step, notice, j);
      ClockWithin(sent, j, PumpClock.Later(start, notice.log.block + FORK_CONFIRM - 1 + step));
    } else {
      PumpClock.NoTickBeyondUndelivered(chain, start, rounds, confirm, notice, j);
      ClockWithin(sent, j, PumpClock.Later(start, notice.log.block));
    }
  }

  /** The event marks the lock as registered on the partner's side exactly when our side does not know the hash. */
  lemma RevealRegistersIff(c: Chan, secret: Secret, block: int, ours: bool, lock: Lock)
    requires SoundChan(c) && lock.secretHash == ShaSecret(secret) && block <= lock.expiration
    requires LockFor(FromEnd(c, ours), lock.secretHash) == Some(lock)
        && !Registered(FromEnd(c, ours), lock.secretHash, lock)
    ensures Registered(FromEnd(OnChainEvent(c, SecretRevealed(secret, block)).value, ours), lock.secretHash, lock)
       <==> ours || !IsKnown(c.our, lock.secretHash)
  {
  }

  lemma EarlyRemovalRefused(c: Chan, block: int, m: Envelope, lock: Lock)
    requires m.body == RemoveExpired(lock.secretHash) && LockFor(Sender(c, m), lock.secretHash) == Some(lock)
    requires block < lock.expiration + FORK_CONFIRM
    ensures Register(c, block, m).1 != Ok
  {
    RegisterShape(c, block, m);
  }

  /** A registered lock that is still there is still registered. */
  lemma {:induction false} HeldStaysRegistered(cs: seq<Chan>, ss: seq<Step>, i: nat, k: nat, ours: bool, lock: Lock)
    requires IsRun(cs, ss) && i <= k < |cs| && Held(cs, i, k, ours, lock)
    requires Registered(FromEnd(cs[i], ours), lock.secretHash, lock)
    ensures Registered(FromEnd(cs[k], ours), lock.secretHash, lock)
    decreases k
  {
    if i < k {
      HeldStaysRegistered(cs, ss, i, k - 1, ours, lock);
      RunSound(cs, ss, k - 1);
      RunStep(cs, ss, k - 1);
      assert LockFor(FromEnd(cs[k], ours), lock.secretHash) == Some(lock);
      StillThere(cs[k - 1], ss[k - 1], ours, lock);
    }
  }

  lemma StillThere(c: Chan, s: Step, ours: bool, lock: Lock)
    requires SoundChan(c) && Apply(c, s).Some? && Registered(FromEnd(c, ours), lock.secretHash, lock)
    requires LockFor(FromEnd(Apply(c, s).value, ours), lock.secretHash) == Some(lock)
    ensures Registered(FromEnd(Apply(c, s).value, ours), lock.secretHash, lock)
  {
    RegisteredLockStays(c, s, ours, lock.secretHash, lock);
    if Accepted(c, s) {
      AcceptanceShape(c, s.block, s.m);
      RegisterShape(c, s.block, s.m);
    }
  }

  /**
   * If a lock that is in the channel has its secret registered on chain by its expiration (with fork confirmation on,
   * one step of the head earlier), in a block the loop's first window reaches, no expiry removal of it ever succeeds
   * while the lock is there.
   */
  lemma InTimeRevealPreventsRemoval(
    chain: seq<EventPump.Log>, start: int, rounds: seq<EventPump.Round>, confirm: bool, step: nat,
      notice: EventPump.Change,
    cs: seq<Chan>, ss: seq<Step>, pos: seq<nat>, a: nat, k: nat, ours: bool, lock: Lock, secret: Secret)
    requires PumpDelivery.WellFormed(chain) && PumpDelivery.Honest(chain, start, rounds)
    requires notice.log in chain && PumpDelivery.Unrivalled(chain, notice.log)
    requires notice.log.name == EventPump.SecretRevealed && notice == EventPump.Change(notice.log, false)
    requires Paced(start, rounds, confirm, step)
    requires EventPump.Window(start) <= notice.log.block && notice.log.block + Lead(confirm, step) <= lock.expiration
    requires start < lock.expiration + FORK_CONFIRM
    requires IsRun(cs, ss) && Driven(ss, pos, PumpDelivery.Run(start, rounds, confirm).sent, notice, secret)
    requires ShaSecret(secret) == lock.secretHash
    requires a <= k < |ss| && Held(cs, a, k, ours, lock) && !Revealed(ss, a, secret, notice.log.block)
    requires ours || forall t {:trigger cs[t]} :: a <= t <= k ==> !IsKnown(cs[t].our, lock.secretHash)
    requires ss[k].Transfer? && ss[k].m.body == RemoveExpired(lock.secretHash)
    requires ss[k].m.sender == FromEnd(cs[k], ours).address
    ensures !Accepted(cs[k], ss[k])
  {
    if EventPump.Sent(notice) in PumpDelivery.Run(start, rounds, confirm).sent[..pos[k]] {
      LateRemovalRefused(cs, ss, a, k, ours, lock, secret, notice.log.block);
    } else {
      ClockBeforeNotice(chain, start, rounds, confirm, step, notice, pos[k], lock.expiration);
      RunSound(cs, ss, k);
      assert LockFor(FromEnd(cs[k], ours), lock.secretHash) == Some(lock);
      EarlyRemovalRefused(cs[k], ss[k].block, ss[k].m, lock);
    }
  }

  /** One round, from just before the log counts as confirmed. */
  lemma OvertakingRound(log: EventPump.Log, start: int, step: nat) returns (rounds: seq<EventPump.Round>)
    requires log.name == EventPump.SecretRevealed && start == log.block + FORK_CONFIRM - 1 && 1 <= step
    ensures PumpDelivery.Honest([log], start, rounds) && PumpDelivery.Steps(start, rounds, step)
    ensures PumpDelivery.Head(start, rounds) == start + step && !PumpDelivery.HadOpportunity(log, start, rounds, true)
  {
    var r := EventPump.Round(start + step, Some(PumpDelivery.Fetch([log], EventPump.Window(start), start + step)));
    rounds := [r];
    PumpDelivery.OneRoundHead([log], start, r);
    PumpDelivery.OneRoundOpportunity(log, start, r, true);
  }

  /** The rounds are honest and paced, the node's clock has reached `clock`, and it has not heard of the log. */
  ghost predicate Overtakes(log: EventPump.Log, start: int, rounds: seq<EventPump.Round>, step: nat, clock: int) {
    var p := PumpDelivery.Run(start, rounds, true);
    && PumpDelivery.Honest([log], start, rounds) && Paced(start, rounds, true, step)
    && PumpDelivery.Deliveries(p, EventPump.Change(log, false)) == 0
    && PumpClock.ClockAt(p.sent, |p.sent|) == Some(clock)
  }

  lemma OvertakenClock(log: EventPump.Log, start: int, rounds: seq<EventPump.Round>, step: nat, clock: int)
    requires log.name == EventPump.SecretRevealed && log.block >= 1 && start >= 0 && step <= FORK_CONFIRM + 1
    requires PumpDelivery.Honest([log], start, rounds) && PumpDelivery.Steps(start, rounds, step)
    requires !PumpDelivery.HadOpportunity(log, start, rounds, true) && PumpDelivery.Head(start, rounds) == clock
    ensures Overtakes(log, start, rounds, step, clock)
  {
    PumpClock.RunOnTime([log], start, rounds, true);
    PumpDelivery.AloneDeliveredIff([log], start, rounds, true, EventPump.Change(log, false));
  }

  /** The clock a node may reach before it hears of a registration in `block`, when the head advances by `step`. */
  function OvertakingClock(block: int, step: nat): int { block + FORK_CONFIRM - 1 + step }

  /**
   * With fork confirmation on, the node's clock can pass a registration by the confirmation time and one step of the
   * head.
   */
  lemma NoticeIsOvertaken(log: EventPump.Log, start: int, step: nat) returns (rounds: seq<EventPump.Round>)
    requires log.name == EventPump.SecretRevealed && log.block >= 1 && start == log.block + FORK_CONFIRM - 1
    requires 1 <= step <= FORK_CONFIRM + 1
    ensures Overtakes(log, start, rounds, step, OvertakingClock(log.block, step))
    ensures EventPump.Window(start) <= log.block
  {
    rounds := OvertakingRound(log, start, step);
    OvertakenClock(log, start, rounds, step, OvertakingClock(log.block, step));
  }

  /** The expiry removal that the owner builds at this clock is accepted. */
  ghost predicate RemovalSucceeds(c: Chan, h: SecretHash, clock: int) {
    var d := CreateRemoval(c, h, clock, true);
    d.Message? && Register(c, clock, d.m).1 == Ok
  }

  /**
   * At that clock the owner's removal is accepted exactly when the registration came less than one step before the
   * expiration: the lead asked for above cannot be shortened.
   */
  lemma OvertakenRemovalIff(c: Chan, h: SecretHash, block: int, step: nat)
    requires Quiet(c) && c.our.proof.nonce + 1 < UINT64 && LockFor(c.our, h).Some?
    ensures RemovalSucceeds(c, h, OvertakingClock(block, step)) <==> LockFor(c.our, h).value.expiration < block + step
  {
    var clock := OvertakingClock(block, step);
    LeafIsLock(c.our, h);
    OffChainRemovable(c.our, h);
    if CreateRemoval(c, h, clock, true).Message? {
      BuiltAcceptedIff(c, clock, DropLock(h, true));
    }
  }

  lemma LateRemovalRefused(cs: seq<Chan>, ss: seq<Step>, a: nat, k: nat, ours: bool, lock: Lock, secret: Secret,
      block: int)
    requires IsRun(cs, ss) && a <= k < |ss| && Held(cs, a, k, ours, lock)
    requires ShaSecret(secret) == lock.secretHash && block <= lock.expiration
    requires Revealed(ss, k + 1, secret, block) && !Revealed(ss, a, secret, block)
    requires ours || forall t {:trigger cs[t]} :: a <= t <= k ==> !IsKnown(cs[t].our, lock.secretHash)
    requires ss[k].Transfer? && ss[k].m.body == RemoveExpired(lock.secretHash)
    requires ss[k].m.sender == FromEnd(cs[k], ours).address
    ensures !Accepted(cs[k], ss[k])
  {
    var i :| 0 <= i < k + 1 && IsReveal(ss[i], secret, block);
    assert a <= i < k;
    RegisteredAfter(cs, ss, i, k, ours, lock, secret, block);
    RunSound(cs, ss, k);
    RegisteredLockNotRemoved(cs[k], ss[k].block, ss[k].m, lock);
  }

  lemma RegisteredAfter(cs: seq<Chan>, ss: seq<Step>, i: nat, k: nat, ours: bool, lock: Lock, secret: Secret,
      block: int)
    requires IsRun(cs, ss) && i < k < |cs| && Held(cs, i, k, ours, lock)
    requires IsReveal(ss[i], secret, block) && ShaSecret(secret) == lock.secretHash && block <= lock.expiration
    requires ours || !IsKnown(cs[i].our, lock.secretHash)
    ensures Registered(FromEnd(cs[k], ours), lock.secretHash, lock)
  {
    RunSound(cs, ss, i);
    RunStep(cs, ss, i);
    assert LockFor(FromEnd(cs[i], ours), lock.secretHash) == Some(lock);
    assert LockFor(FromEnd(cs[i + 1], ours), lock.secretHash) == Some(lock);
    if Registered(FromEnd(cs[i], ours), lock.secretHash, lock) {
      StillThere(cs[i], ss[i], ours, lock);
    } else {
      RevealRegistersIff(cs[i], secret, block, ours, lock);
    }
    HeldStaysRegistered(cs, ss, i + 1, k, ours, lock);
  }

  // ---------- The close event of a driven run ----------

  /** Every close event is handled when it is consumed, after everything judged by an earlier clock. */
  ghost predicate ClosesDriven(ss: seq<Step>, pos: seq<nat>, sent: seq<EventPump.Output>) {
    && |pos| == |ss|
    && (forall k :: 0 <= k < |ss| ==> pos[k] <= |sent|)
    && (forall k :: 0 <= k < |ss| && ss[k].Transfer? ==> PumpClock.ClockAt(sent, pos[k]) == Some(ss[k].block))
    && (forall k :: 0 <= k < |ss| && IsClose(ss[k]) ==>
          pos[k] >= 1 && IsCloseOutput(sent[pos[k] - 1], ss[k].ev.block) && forall i :: 0 <= i < k ==> pos[i] < pos[k])
  }

  predicate IsCloseOutput(o: EventPump.Output, block: int) {
    o.Sent? && o.change.log.name == EventPump.Closed && o.change.log.block == block
  }

  ghost predicate AllUnrivalled(chain: seq<EventPump.Log>) {
    forall l :: l in chain ==> PumpDelivery.Unrivalled(chain, l)
  }

  lemma NotBefore(sent: seq<EventPump.Output>, j: nat)
    requires j < |sent| && multiset(sent)[sent[j]] == 1
    ensures sent[j] !in sent[..j]
  {
    assert sent == sent[..j] + [sent[j]] + sent[j + 1..];
    assert multiset(sent)[sent[j]] == multiset(sent[..j])[sent[j]] + 1 + multiset(sent[j + 1..])[sent[j]];
  }

  /** What has been sent at a position was not sent before it, and lies in a window of the loop. */
  lemma SentOnce(chain: seq<EventPump.Log>, start: int, rounds: seq<EventPump.Round>, confirm: bool, j: nat,
      c: EventPump.Change)
    requires PumpDelivery.WellFormed(chain) && PumpDelivery.Honest(chain, start, rounds)
    requires j < |PumpDelivery.Run(start, rounds, confirm).sent|
    requires PumpDelivery.Run(start, rounds, confirm).sent[j] == EventPump.Sent(c)
    ensures c.log in chain && c in EventPump.ChangesOf(c.log)
    ensures EventPump.Sent(c) !in PumpDelivery.Run(start, rounds, confirm).sent[..j]
    ensures EventPump.Window(start) <= c.log.block && c.log.block >= 1
  {
    var sent := PumpDelivery.Run(start, rounds, confirm).sent;
    assert EventPump.Sent(c) in multiset(sent);
    PumpDelivery.DeliveredComesFrom(chain, start, rounds, confirm, c);
    NotBefore(sent, j);
  }

  /** In a driven run messages before a close are judged at most one window past it. */
  lemma DrivenInOrder(chain: seq<EventPump.Log>, start: int, rounds: seq<EventPump.Round>, confirm: bool, ss: seq<Step>,
      pos: seq<nat>)
    requires PumpDelivery.WellFormed(chain) && PumpDelivery.Honest(chain, start, rounds) && AllUnrivalled(chain)
    requires ClosesDriven(ss, pos, PumpDelivery.Run(start, rounds, confirm).sent)
    ensures InOrder(ss, 2 * FORK_CONFIRM)
  {
    forall j | 0 <= j < |ss| && IsClose(ss[j])
      ensures 0 < ss[j].ev.block
      ensures forall i :: 0 <= i < j && ss[i].Transfer? ==> ss[i].block <= ss[j].ev.block + 2 * FORK_CONFIRM
    {
      var c := PumpDelivery.Run(start, rounds, confirm).sent[pos[j] - 1].change;
      SentOnce(chain, start, rounds, confirm, pos[j] - 1, c);
      forall i | 0 <= i < j && ss[i].Transfer? ensures ss[i].block <= ss[j].ev.block + 2 * FORK_CONFIRM {
        ClockBeforeClose(chain, start, rounds, confirm, c, pos[i], pos[j] - 1);
      }
    }
  }

  lemma ClockBeforeClose(chain: seq<EventPump.Log>, start: int, rounds: seq<EventPump.Round>, confirm: bool,
                         c: EventPump.Change, i: nat, j: nat)
    requires PumpDelivery.WellFormed(chain) && PumpDelivery.Honest(chain, start, rounds) && AllUnrivalled(chain)
    requires c.log in chain && c in EventPump.ChangesOf(c.log) && c.log.name == EventPump.Closed
    requires EventPump.Window(start) <= c.log.block
    requires i <= j <= |PumpDelivery.Run(start, rounds, confirm).sent|
    requires EventPump.Sent(c) !in PumpDelivery.Run(start, rounds, confirm).sent[..j]
    requires PumpClock.ClockAt(PumpDelivery.Run(start, rounds, confirm).sent, i).Some?
    ensures PumpClock.ClockAt(PumpDelivery.Run(start, rounds, confirm).sent, i).value <= c.log.block + 2 * FORK_CONFIRM
  {
    var sent := PumpDelivery.Run(start, rounds, confirm).sent;
    assert sent[..i] == sent[..j][..i];
    PumpClock.NoTickBeyondUndelivered(chain, start, rounds, confirm, c, i);
    ClockWithin(sent, i, PumpClock.Later(start, c.log.block));
  }

  /** So in a driven run every lock has expired when Settle is allowed, if the punish period covers one window. */
  lemma DrivenLocksExpireBeforeSettle(
    chain: seq<EventPump.Log>, start: int, rounds: seq<EventPump.Round>, confirm: bool,
    cs: seq<Chan>, ss: seq<Step>, pos: seq<nat>, i: nat, block: int)
    requires PumpDelivery.WellFormed(chain) && PumpDelivery.Honest(chain, start, rounds) && AllUnrivalled(chain)
    requires IsRun(cs, ss) && ClosesDriven(ss, pos, PumpDelivery.Run(start, rounds, confirm).sent) && i < |cs|
    requires cs[i].state == Closed && cs[i].settledBlock <= block && cs[i].punishBlocks >= 2 * FORK_CONFIRM
    ensures ExpireBy(cs[i].our, block) && ExpireBy(cs[i].partner, block)
  {
    DrivenInOrder(chain, start, rounds, confirm, ss, pos);
    LocksExpireBeforeSettle(cs, ss, i, block, 2 * FORK_CONFIRM);
  }
}

/** Expirations against the settlement period, and locks whose secret is registered on chain. */
module Timelocks {
  import opened Primitives
  import opened Merkle
  import opened Messages
  import opened EndStates
  import opened Channels
  import opened ChannelLaws
  import opened Solvency
  import opened ChannelRuns
  import opened ClosedChannels

  // ---------- Locks and the settlement period ----------

  /** Every recorded lock of the side expires by `limit`. */
  ghost predicate ExpireBy(e: End, limit: int) {
    && (forall h :: h in e.pending ==> e.pending[h].lock.expiration <= limit)
    && (forall h :: h in e.known ==> e.known[h].lock.expiration <= limit)
  }

  /** The latest expiration of a lock when messages are judged up to block `hi`, and up to `slack` past the close. */
  function Limit(c: Chan, hi: int, slack: nat): int {
    if c.closedBlock != 0 then c.closedBlock + c.settleTimeout + slack else hi + c.settleTimeout
  }

  /** `hi` bounds every block number at which a message was handled so far. */
  ghost predicate Timely(c: Chan, hi: int, slack: nat) {
    && ExpireBy(c.our, Limit(c, hi, slack)) && ExpireBy(c.partner, Limit(c, hi, slack))
    && (c.state == Closed ==> c.closedBlock != 0)
    && (c.closedBlock != 0 ==> c.settledBlock >= c.closedBlock + c.settleTimeout + c.punishBlocks)
  }

  lemma EndExpiry(e: End, block: int, m: Envelope, limit: int)
    requires ExpireBy(e, limit) && (m.body.Mediated? ==> m.body.lock.expiration <= limit)
    ensures ExpireBy(EndRegister(e, block, m).0, limit)
  {}

  lemma TransferTimely(c: Chan, block: int, m: Envelope, hi: int, slack: nat)
    requires Timely(c, hi, slack) && block <= hi
    ensures Timely(Register(c, block, m).0, hi, slack)
  {
    RegisterShape(c, block, m);
    if Reaches(c, block, m) {
      GuardFacts(c, block, m);
      EndExpiry(Sender(c, m), block, m, Limit(c, hi, slack));
    }
  }

  lemma SecretTimely(c: Chan, s: Step, hi: int, slack: nat)
    requires s.Learn? || (s.Event? && s.ev.SecretRevealed?)
    requires Timely(c, hi, slack)
    ensures Timely(Apply(c, s).value, hi, slack)
  {}

  lemma EventTimely(c: Chan, ev: ChainEvent, hi: int, slack: nat)
    requires Timely(c, hi, slack) && OnChainEvent(c, ev).Some? && !ev.SecretRevealed?
    requires ev.ClosedSeen? ==> 0 < ev.block && hi <= ev.block + slack
    ensures Timely(OnChainEvent(c, ev).value, hi, slack)
  {
    if !ev.WithdrawSeen? {
      PlainEventKeepsTerms(c, ev);
    }
  }

  /** Messages handled before a close event were judged by a clock at most `slack` blocks past the close. */
  predicate InOrder(ss: seq<Step>, slack: nat) {
    && (forall i, j :: 0 <= i < j < |ss| && ss[i].Transfer? && IsClose(ss[j]) ==> ss[i].block <= ss[j].ev.block + slack)
    && (forall j :: 0 <= j < |ss| && IsClose(ss[j]) ==> 0 < ss[j].ev.block)
  }

  predicate UpTo(ss: seq<Step>, i: nat, hi: int)
    requires i <= |ss|
  {
    forall k :: 0 <= k < i && ss[k].Transfer? ==> ss[k].block <= hi
  }

  lemma EventIsTimely(c: Chan, ev: ChainEvent, hi: int, slack: nat)
    requires Timely(c, hi, slack) && OnChainEvent(c, ev).Some? && !ev.ClosedSeen?
    ensures Timely(OnChainEvent(c, ev).value, hi, slack)
  {
    if ev.SecretRevealed? {
      SecretTimely(c, Event(ev), hi, slack);
    } else {
      EventTimely(c, ev, hi, slack);
    }
  }

  lemma {:induction false} RunTimely(cs: seq<Chan>, ss: seq<Step>, i: nat, hi: int, slack: nat)
    requires IsRun(cs, ss) && i < |cs| && InOrder(ss, slack) && UpTo(ss, i, hi)
    ensures Timely(cs[i], hi, slack)
    decreases i
  {
    if i > 0 {
      RunStep(cs, ss, i - 1);
      var s := ss[i - 1];
      if IsClose(s) {
        RunTimely(cs, ss, i - 1, s.ev.block + slack, slack);
        EventTimely(cs[i - 1], s.ev, s.ev.block + slack, slack);
        RunTimely(cs, ss, i - 1, hi, slack);
        CloseForgets(cs[i - 1], s.ev, hi, slack);
      } else {
        RunTimely(cs, ss, i - 1, hi, slack);
        match s {
          case Transfer(block, m) => TransferTimely(cs[i - 1], block, m, hi, slack);
          case Learn(_) => SecretTimely(cs[i - 1], s, hi, slack);
          case Event(ev) => EventIsTimely(cs[i - 1], ev, hi, slack);
          case Ask(r) => RequestTimely(cs[i - 1], r, hi, slack);
        }
      }
    }
  }

  /** Once closed, the limit no longer depends on the clock. */
  lemma CloseForgets(c: Chan, ev: ChainEvent, hi: int, slack: nat)
    requires ev.ClosedSeen? && 0 < ev.block && Timely(c, hi, slack)
    requires Timely(OnChainEvent(c, ev).value, ev.block + slack, slack)
    ensures Timely(OnChainEvent(c, ev).value, hi, slack)
  {}

  lemma RequestTimely(c: Chan, r: Request, hi: int, slack: nat)
    requires Timely(c, hi, slack) && OnRequest(c, r).Some?
    ensures Timely(OnRequest(c, r).value, hi, slack)
  {
    RequestKeepsEnds(c, r);
  }

  /** At the first block Settle is allowed every lock has expired, with the punish period less the slack to spare. */
  lemma LocksExpireBeforeSettle(cs: seq<Chan>, ss: seq<Step>, i: nat, block: int, slack: nat)
    requires IsRun(cs, ss) && i < |cs| && InOrder(ss, slack)
    requires cs[i].state == Closed && cs[i].settledBlock <= block
    ensures ExpireBy(cs[i].our, block - cs[i].punishBlocks + slack)
    ensures ExpireBy(cs[i].partner, block - cs[i].punishBlocks + slack)
  {
    var hi := MaxBlock(ss[..i]);
    assert UpTo(ss, i, hi) by {
      forall k | 0 <= k < i && ss[k].Transfer? ensures ss[k].block <= hi {
        assert ss[..i][k] == ss[k];
        MaxBlockBounds(ss[..i], k);
      }
    }
    RunTimely(cs, ss, i, hi, slack);
  }

  function MaxBlock(ss: seq<Step>): int {
    if ss == [] then 0
    else
      var rest := MaxBlock(ss[1..]);
      if ss[0].Transfer? && ss[0].block > rest then ss[0].block else rest
  }

  lemma {:induction false} MaxBlockBounds(ss: seq<Step>, k: nat)
    requires k < |ss| && ss[k].Transfer?
    ensures ss[k].block <= MaxBlock(ss)
  {
    if k > 0 {
      MaxBlockBounds(ss[1..], k - 1);
    }
  }

  // ---------- Secrets registered on chain ----------

  ghost predicate Registered(e: End, h: SecretHash, lock: Lock) {
    h in e.known && e.known[h].onChain && e.known[h].lock == lock
  }

  /** The message is the owner's unlock of this very lock, worth exactly its amount. */
  predicate UnlocksFor(e: End, m: Envelope, h: SecretHash, lock: Lock) {
    m.body.Unlock? && ShaSecret(m.body.secret) == h && m.transferAmount == e.proof.transferAmount + lock.amount
  }

  lemma EndKeepsRegistered(e: End, block: int, m: Envelope, h: SecretHash, lock: Lock)
    requires Sound(e) && Registered(e, h, lock)
    ensures Registered(EndRegister(e, block, m).0, h, lock)
        || (EndRegister(e, block, m).1 == Ok && UnlocksFor(e, m, h, lock))
    ensures IsRemoval(m.body) && m.body.secretHash == h ==> EndRegister(e, block, m).1 != Ok
  {
    match m.body {
      case Direct =>
      case Mediated(_) =>
      case Unlock(secret) =>
      case RemoveExpired(g) => if g == h { assert RemovableLock(e, h) == None; }
      case DisposeResponse(g) => if g == h { assert RemovableLock(e, h) == None; }
    }
  }

  predicate Resets(c: Chan, s: Step) {
    s.Event? && s.ev.WithdrawSeen? && s.ev.block > c.openBlock
  }

  /** A registered lock leaves only by an unlock worth exactly its amount or by a withdraw reset. */
  lemma RegisteredLockStays(c: Chan, s: Step, ours: bool, h: SecretHash, lock: Lock)
    requires SoundChan(c) && Apply(c, s).Some? && Registered(FromEnd(c, ours), h, lock)
    ensures Registered(FromEnd(Apply(c, s).value, ours), h, lock)
         || (Accepted(c, s) && s.m.sender == FromEnd(c, ours).address && UnlocksFor(FromEnd(c, ours), s.m, h, lock))
         || Resets(c, s)
  {
    match s {
      case Transfer(block, m) =>
        RegisterShape(c, block, m);
        if Reaches(c, block, m) && ours == (m.sender == c.our.address) {
          EndKeepsRegistered(Sender(c, m), block, m, h, lock);
        }
      case Learn(_) =>
      case Event(ev) =>
        if !ev.SecretRevealed? && !ev.WithdrawSeen? {
          PlainEventKeepsTerms(c, ev);
        }
      case Ask(r) => RequestKeepsEnds(c, r);
    }
  }

  /** While it is registered, no removal of the lock is accepted, expired or not. */
  lemma RegisteredLockNotRemoved(c: Chan, block: int, m: Envelope, lock: Lock)
    requires SoundChan(c) && IsRemoval(m.body) && Registered(Sender(c, m), m.body.secretHash, lock)
    ensures Register(c, block, m).1 != Ok
  {
    RegisterShape(c, block, m);
    EndKeepsRegistered(Sender(c, m), block, m, m.body.secretHash, lock);
  }

  /**
   * From the registration on, until its own unlock or a reset, the lock is there and every removal of it is refused.
   */
  lemma {:induction false} RunKeepsRegistered(cs: seq<Chan>, ss: seq<Step>, i: nat, j: nat, ours: bool, h: SecretHash,
      lock: Lock)
    requires IsRun(cs, ss) && i <= j < |cs|
    requires Registered(FromEnd(cs[i], ours), h, lock)
    requires forall k {:trigger ss[k]} :: i <= k < j ==>
               !Resets(cs[k], ss[k])
               && !(Accepted(cs[k], ss[k]) && ss[k].m.sender == FromEnd(cs[k], ours).address
                   && UnlocksFor(FromEnd(cs[k], ours), ss[k].m, h, lock))
    ensures Registered(FromEnd(cs[j], ours), h, lock)
    decreases j
  {
    if i < j {
      RunKeepsRegistered(cs, ss, i, j - 1, ours, h, lock);
      RunSound(cs, ss, j - 1);
      RunStep(cs, ss, j - 1);
      RegisteredLockStays(cs[j - 1], ss[j - 1], ours, h, lock);
    }
  }
}

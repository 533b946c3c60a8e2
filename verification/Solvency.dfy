/** Money: what an accepted message moves, and when no side is ever overdrawn. */
module Solvency {
  import opened Primitives
  import opened Merkle
  import opened Messages
  import opened EndStates
  import opened Channels
  import opened ChannelLaws

  ghost predicate PositiveLocks(e: End) {
    && (forall h :: h in e.pending ==> e.pending[h].lock.amount > 0)
    && (forall h :: h in e.known ==> e.known[h].lock.amount > 0)
  }

  ghost predicate PositiveChan(c: Chan) {
    PositiveLocks(c.our) && PositiveLocks(c.partner)
  }

  ghost predicate Solvent(c: Chan) {
    Distributable(c.our, c.partner) >= 0 && Distributable(c.partner, c.our) >= 0
  }

  function Receiver(c: Chan, m: Envelope): End {
    ToEnd(c, m.sender == c.our.address)
  }

  // ---------- The locked amount of one side ----------

  lemma SameMapsSameTotal(e: End, f: End)
    requires f.pending == e.pending && f.known == e.known
    ensures AmountLocked(f) == AmountLocked(e)
  {
    assert PendingLocks(f) == PendingLocks(e) && KnownLocks(f) == KnownLocks(e);
  }

  lemma DropTotal(e: End, h: SecretHash)
    requires e.pending.Keys !! e.known.Keys && LockFor(e, h).Some?
    ensures AmountLocked(DropLock(e, h)) == AmountLocked(e) - LockFor(e, h).value.amount
  {
    var p, k := PendingLocks(e), KnownLocks(e);
    assert PendingLocks(DropLock(e, h)) == p - {h} && KnownLocks(DropLock(e, h)) == k - {h};
    if h in e.pending {
      TotalRemove(p, h);
      assert k - {h} == k;
    } else {
      TotalRemove(k, h);
      assert p - {h} == p;
    }
  }

  lemma AddTotal(e: End, lock: Lock)
    requires !IsKnown(e, lock.secretHash)
    ensures AmountLocked(e.(pending := e.pending[lock.secretHash := PendingLock(lock, LeafOf(lock))]))
         == AmountLocked(e) + lock.amount
  {
    var f := e.(pending := e.pending[lock.secretHash := PendingLock(lock, LeafOf(lock))]);
    TotalRemove(PendingLocks(f), lock.secretHash);
    assert PendingLocks(f) - {lock.secretHash} == PendingLocks(e) && KnownLocks(f) == KnownLocks(e);
  }

  lemma MoveTotal(p: map<SecretHash, Lock>, k: map<SecretHash, Lock>, h: SecretHash)
    requires h in p && h !in k
    ensures Total(p - {h}) + Total(k[h := p[h]]) == Total(p) + Total(k)
  {
    TotalRemove(p, h);
    TotalRemove(k[h := p[h]], h);
    assert k[h := p[h]] - {h} == k;
  }

  /** Marking a lock as known, for the first time or again, keeps the total. */
  lemma KnowTotal(e: End, h: SecretHash, k: KnownLock)
    requires e.pending.Keys !! e.known.Keys && LockFor(e, h) == Some(k.lock)
    ensures AmountLocked(e.(pending := e.pending - {h}, known := e.known[h := k])) == AmountLocked(e)
  {
    var f := e.(pending := e.pending - {h}, known := e.known[h := k]);
    if h in e.pending {
      MoveTotal(PendingLocks(e), KnownLocks(e), h);
      assert PendingLocks(f) == PendingLocks(e) - {h};
      assert KnownLocks(f) == KnownLocks(e)[h := k.lock];
    } else {
      assert PendingLocks(f) == PendingLocks(e) && KnownLocks(f) == KnownLocks(e);
    }
  }

  // ---------- One accepted message ----------

  /** The hash of the lock that a message takes out. */
  function Released(b: Body): Option<SecretHash> {
    match b
    case Unlock(secret) => Some(ShaSecret(secret))
    case RemoveExpired(h) => Some(h)
    case DisposeResponse(h) => Some(h)
    case _ => None
  }

  function LockAmount(e: End, h: SecretHash): int {
    if LockFor(e, h).Some? then LockFor(e, h).value.amount else 0
  }

  /** By how much the message changes the locked amount of its sender. */
  function LockedBy(e: End, b: Body): int {
    if b.Mediated? then b.lock.amount
    else if Released(b).Some? then -LockAmount(e, Released(b).value)
    else 0
  }

  lemma RemovedTotal(e: End, block: int, m: Envelope, h: SecretHash, mustExpire: bool)
    requires Sound(e) && Remove(e, block, m, h, mustExpire).1 == Ok
    ensures var f := Remove(e, block, m, h, mustExpire).0;
            LockFor(e, h).Some? && AmountLocked(f) == AmountLocked(e) - LockAmount(e, h)
            && (PositiveLocks(e) ==> PositiveLocks(f))
  {
    RemoveShape(e, block, m, h, mustExpire);
    DropTotal(e, h);
    SameMapsSameTotal(DropLock(e, h), Remove(e, block, m, h, mustExpire).0);
  }

  lemma UnlockedTotal(e: End, m: Envelope, secret: Secret)
    requires Sound(e) && RegisterUnlock(e, m, secret).1 == Ok
    ensures var f := RegisterUnlock(e, m, secret).0;
            && LockFor(e, ShaSecret(secret)).Some?
            && m.transferAmount == e.proof.transferAmount + LockAmount(e, ShaSecret(secret))
            && AmountLocked(f) == AmountLocked(e) - LockAmount(e, ShaSecret(secret))
            && (PositiveLocks(e) ==> PositiveLocks(f))
  {
    var h := ShaSecret(secret);
    assert LockFor(e, h).value.secretHash == h;
    DropTotal(e, h);
    SameMapsSameTotal(DropLock(e, h), RegisterUnlock(e, m, secret).0);
  }

  lemma AddedTotal(e: End, m: Envelope, lock: Lock)
    requires RegisterMediated(e, m, lock).1 == Ok
    ensures var f := RegisterMediated(e, m, lock).0;
            && AmountLocked(f) == AmountLocked(e) + lock.amount
            && (PositiveLocks(e) && lock.amount > 0 ==> PositiveLocks(f))
  {
    AddTotal(e, lock);
    SameMapsSameTotal(e.(pending := e.pending[lock.secretHash := PendingLock(lock, LeafOf(lock))]),
                      RegisterMediated(e, m, lock).0);
  }

  lemma AcceptedTotal(e: End, block: int, m: Envelope)
    requires Sound(e) && EndRegister(e, block, m).1 == Ok
    ensures AmountLocked(EndRegister(e, block, m).0) == AmountLocked(e) + LockedBy(e, m.body)
    ensures Released(m.body).Some? ==> LockFor(e, Released(m.body).value).Some?
    ensures m.body.Unlock? ==> m.transferAmount - e.proof.transferAmount == LockAmount(e, ShaSecret(m.body.secret))
    ensures PositiveLocks(e) && (m.body.Mediated? ==> m.body.lock.amount > 0) ==>
              PositiveLocks(EndRegister(e, block, m).0)
  {
    match m.body {
      case Direct => SameMapsSameTotal(e, EndRegister(e, block, m).0);
      case Mediated(lock) => AddedTotal(e, m, lock);
      case Unlock(secret) => UnlockedTotal(e, m, secret);
      case RemoveExpired(h) => RemovedTotal(e, block, m, h, true);
      case DisposeResponse(h) => RemovedTotal(e, block, m, h, false);
    }
  }

  lemma GuardFacts(c: Chan, block: int, m: Envelope)
    requires Reaches(c, block, m)
    ensures m.body.Direct? ==>
              0 < m.transferAmount - Sender(c, m).proof.transferAmount <= Distributable(Sender(c, m), Receiver(c, m))
    ensures m.body.Mediated? ==> 0 < m.body.lock.amount <= Distributable(Sender(c, m), Receiver(c, m))
    ensures m.body.Mediated? ==> m.body.lock.expiration <= SettleExpiration(c, block)
    ensures IsRemoval(m.body) ==> m.transferAmount == Sender(c, m).proof.transferAmount
  {
    RegisterShape(c, block, m);
  }

  /**
   * Where the money goes. A direct transfer moves its amount from one side to the other; a mediated one locks its lock
   * (and moves any raise); an unlock moves exactly the lock from the sender's locked amount to the receiver; a removal
   * gives exactly the lock back to the sender.
   */
  lemma AcceptedMovesMoney(c: Chan, block: int, m: Envelope)
    requires SoundChan(c) && Register(c, block, m).1 == Ok
    ensures var d := Register(c, block, m).0;
            var (from, to), (from', to') := (Sender(c, m), Receiver(c, m)), (Sender(d, m), Receiver(d, m));
            var paid, locked := m.transferAmount - from.proof.transferAmount, LockedBy(from, m.body);
            && Distributable(from', to') == Distributable(from, to) - paid - locked
            && Distributable(to', from') == Distributable(to, from) + paid
            && AmountLocked(from') == AmountLocked(from) + locked && AmountLocked(to') == AmountLocked(to)
            && (m.body.Direct? ==> paid > 0 && locked == 0)
            && (m.body.Mediated? ==> paid >= 0 && locked == m.body.lock.amount > 0)
            && (m.body.Unlock? ==> paid == -locked)
            && (IsRemoval(m.body) ==> paid == 0)
            && (Released(m.body).Some? ==>
                  LockFor(from, Released(m.body).value).Some?
                  && locked == -LockFor(from, Released(m.body).value).value.amount)
  {
    AcceptanceShape(c, block, m);
    RegisterShape(c, block, m);
    GuardFacts(c, block, m);
    AcceptedTotal(Sender(c, m), block, m);
  }

  /** A mediated transfer can pay for its lock and for what it raises the transferred amount by. */
  ghost predicate Affords(c: Chan, m: Envelope) {
    m.body.Mediated? ==>
      m.transferAmount - Sender(c, m).proof.transferAmount + m.body.lock.amount
      <= Distributable(Sender(c, m), Receiver(c, m))
  }

  /** After any accepted message the receiver is solvent, and the sender is solvent exactly under the stated bound. */
  lemma AcceptedSolventIff(c: Chan, block: int, m: Envelope)
    requires SoundChan(c) && PositiveChan(c) && Solvent(c) && Register(c, block, m).1 == Ok
    ensures PositiveChan(Register(c, block, m).0)
    ensures Solvent(Register(c, block, m).0) <==> Affords(c, m)
  {
    AcceptedMovesMoney(c, block, m);
    AcceptanceShape(c, block, m);
    RegisterShape(c, block, m);
    AcceptedTotal(Sender(c, m), block, m);
    GuardFacts(c, block, m);
    if Released(m.body).Some? {
      LockIsPositive(Sender(c, m), Released(m.body).value);
    }
  }

  lemma LockIsPositive(e: End, h: SecretHash)
    requires PositiveLocks(e) && LockFor(e, h).Some?
    ensures LockFor(e, h).value.amount > 0
  {
  }

  /**
   * The first message on a channel where we deposited `lock.amount`: lock all of it and also raise the amount by
   * `extra`.
   */
  function FirstMessage(c: Chan, lock: Lock, extra: int): Envelope {
    Envelope(c.our.address, c.channelId, c.openBlock, 1, extra, MerkleRoot(c.our.leaves + [lock]), Mediated(lock))
  }

  /**
    The code does not enforce the documented rule that a mediated transfer keeps the transferred amount: on every newly
    opened channel it accepts a mediated transfer after which its sender is overdrawn.
   */
  lemma MediatedMayOverdraw(c: Chan, block: int, lock: Lock, extra: int)
    requires c.our.address != c.partner.address && c.state == Opened
    requires lock.amount > 0 && lock.expiration <= SettleExpiration(c, block) && extra > 0
    requires c.our == NewEnd(c.our.address, lock.amount) && c.partner == NewEnd(c.partner.address, 0)
    ensures ConsistentChan(c) && Solvent(c)
    ensures Register(c, block, FirstMessage(c, lock, extra)).1 == Ok
    ensures !Solvent(Register(c, block, FirstMessage(c, lock, extra)).0)
  {
    var m := FirstMessage(c, lock, extra);
    NewEndTotals(c.our.address, lock.amount);
    NewEndTotals(c.partner.address, 0);
    assert Reaches(c, block, m);
    RegisterShape(c, block, m);
    assert EndRegister(c.our, block, m).1 == Ok;
    AcceptedSolventIff(c, block, m);
  }

  lemma NewEndTotals(a: Address, balance: int)
    ensures AmountLocked(NewEnd(a, balance)) == 0 && Consistent(NewEnd(a, balance))
  {
    assert PendingLocks(NewEnd(a, balance)) == map[] && KnownLocks(NewEnd(a, balance)) == map[];
  }

  // ---------- Every other step ----------

  lemma SecretKeepsLedger(c: Chan, s: Step)
    requires s.Learn? || (s.Event? && s.ev.SecretRevealed?)
    ensures var d := Apply(c, s).value;
            && d.our.leaves == c.our.leaves && d.partner.leaves == c.partner.leaves
            && d.our.proof == c.our.proof && d.partner.proof == c.partner.proof
            && d.our.contractBalance == c.our.contractBalance && d.partner.contractBalance == c.partner.contractBalance
  {}

  lemma LearnKeepsTotal(e: End, secret: Secret)
    requires Sound(e)
    ensures AmountLocked(RegisterSecret(e, secret).0) == AmountLocked(e)
    ensures PositiveLocks(e) ==> PositiveLocks(RegisterSecret(e, secret).0)
  {
    var h := ShaSecret(secret);
    if h in e.pending {
      KnowTotal(e, h, KnownLock(e.pending[h].lock, e.pending[h].lockHash, secret, false));
    }
  }

  lemma RevealKeepsTotal(e: End, secret: Secret, block: int)
    requires Sound(e)
    ensures AmountLocked(RegisterRevealed(e, secret, block).0) == AmountLocked(e)
    ensures PositiveLocks(e) ==> PositiveLocks(RegisterRevealed(e, secret, block).0)
  {
    var lock := LockFor(e, ShaSecret(secret));
    if lock.Some? {
      KnowTotal(e, ShaSecret(secret), KnownLock(lock.value, LeafOf(lock.value), secret, true));
    }
  }

  lemma ContractEventKeepsDeposits(c: Chan, ev: ChainEvent)
    requires !ev.WithdrawSeen? && !ev.PunishedSeen? && OnChainEvent(c, ev).Some?
    ensures var d := OnChainEvent(c, ev).value;
            && d.our.contractBalance >= c.our.contractBalance && d.partner.contractBalance >= c.partner.contractBalance
            && (!ev.DepositSeen? ==>
                  d.our.contractBalance == c.our.contractBalance
                    && d.partner.contractBalance == c.partner.contractBalance)
  {}

  /**
   * A step that lowers no deposit and changes neither transferred amounts nor locked totals keeps a channel solvent.
   */
  lemma SameMoney(c: Chan, d: Chan)
    requires AmountLocked(d.our) == AmountLocked(c.our) && AmountLocked(d.partner) == AmountLocked(c.partner)
    requires d.our.proof.transferAmount == c.our.proof.transferAmount
    requires d.partner.proof.transferAmount == c.partner.proof.transferAmount
    requires d.our.contractBalance >= c.our.contractBalance && d.partner.contractBalance >= c.partner.contractBalance
    ensures Solvent(c) ==> Solvent(d)
  {}

  lemma SecretKeepsSolvent(c: Chan, s: Step)
    requires s.Learn? || (s.Event? && s.ev.SecretRevealed?)
    requires SoundChan(c) && PositiveChan(c)
    ensures PositiveChan(Apply(c, s).value) && (Solvent(c) ==> Solvent(Apply(c, s).value))
  {
    if s.Learn? {
      LearnKeepsTotal(c.our, s.secret);
      LearnKeepsTotal(c.partner, s.secret);
    } else {
      RevealKeepsTotal(c.our, s.ev.secret, s.ev.block);
      RevealKeepsTotal(c.partner, s.ev.secret, s.ev.block);
    }
    SecretKeepsLedger(c, s);
    SameMoney(c, Apply(c, s).value);
  }

  lemma WithdrawSolvent(c: Chan, ev: ChainEvent)
    requires ev.WithdrawSeen? && OnChainEvent(c, ev).Some? && PositiveChan(c)
    ensures PositiveChan(OnChainEvent(c, ev).value) && (Solvent(c) ==> Solvent(OnChainEvent(c, ev).value))
  {
    NewEndTotals(ev.p1, ev.balance1);
    NewEndTotals(ev.p2, ev.balance2);
  }

  lemma EventSolvent(c: Chan, ev: ChainEvent)
    requires SoundChan(c) && PositiveChan(c) && OnChainEvent(c, ev).Some? && !ev.PunishedSeen?
    ensures PositiveChan(OnChainEvent(c, ev).value) && (Solvent(c) ==> Solvent(OnChainEvent(c, ev).value))
  {
    var d := OnChainEvent(c, ev).value;
    if ev.WithdrawSeen? {
      WithdrawSolvent(c, ev);
    } else if ev.SecretRevealed? {
      SecretKeepsSolvent(c, Event(ev));
    } else {
      PlainEventKeepsTerms(c, ev);
      ContractEventKeepsDeposits(c, ev);
      SameMapsSameTotal(c.our, d.our);
      SameMapsSameTotal(c.partner, d.partner);
      SameMoney(c, d);
    }
  }

  lemma RefusedSolvent(c: Chan, block: int, m: Envelope)
    requires SoundChan(c) && PositiveChan(c) && Register(c, block, m).1 != Ok
    ensures var d := Register(c, block, m).0; PositiveChan(d) && (Solvent(c) ==> Solvent(d))
  {
    RegisterShape(c, block, m);
    if Reaches(c, block, m) {
      var e := Sender(c, m);
      RefusalKeepsMaps(e, block, m);
      SameMapsSameTotal(e, EndRegister(e, block, m).0);
      SameMoney(c, Register(c, block, m).0);
    }
  }

  /** Even the removal that fails half-way leaves maps, proof and deposit alone. */
  lemma RefusalKeepsMaps(e: End, block: int, m: Envelope)
    requires EndRegister(e, block, m).1 != Ok
    ensures var f := EndRegister(e, block, m).0;
            f.pending == e.pending && f.known == e.known && f.proof == e.proof && f.contractBalance == e.contractBalance
  {}

  /** The step is not a mediated transfer that its sender cannot pay for. */
  ghost predicate StepAffords(c: Chan, s: Step) {
    Accepted(c, s) ==> Affords(c, s.m)
  }

  predicate Punishes(s: Step) { s.Event? && s.ev.PunishedSeen? }

  lemma StepSolventIff(c: Chan, s: Step)
    requires SoundChan(c) && PositiveChan(c) && Apply(c, s).Some? && !Punishes(s)
    ensures PositiveChan(Apply(c, s).value)
    ensures Solvent(c) ==> (Solvent(Apply(c, s).value) <==> StepAffords(c, s))
  {
    match s {
      case Transfer(block, m) =>
        if Register(c, block, m).1 == Ok {
          AcceptedPositive(c, block, m);
          if Solvent(c) {
            AcceptedSolventIff(c, block, m);
          }
        } else {
          RefusedSolvent(c, block, m);
        }
      case Learn(secret) => SecretKeepsSolvent(c, s);
      case Event(ev) => EventSolvent(c, ev);
      case Ask(r) => RequestKeepsEnds(c, r);
    }
  }

  lemma AcceptedPositive(c: Chan, block: int, m: Envelope)
    requires SoundChan(c) && PositiveChan(c) && Register(c, block, m).1 == Ok
    ensures PositiveChan(Register(c, block, m).0)
  {
    AcceptanceShape(c, block, m);
    RegisterShape(c, block, m);
    GuardFacts(c, block, m);
    AcceptedTotal(Sender(c, m), block, m);
  }

  lemma {:induction false} RunPositive(cs: seq<Chan>, ss: seq<Step>, i: nat)
    requires IsRun(cs, ss) && i < |cs|
    requires forall k {:trigger ss[k]} :: 0 <= k < i ==> !Punishes(ss[k])
    ensures SoundChan(cs[i]) && PositiveChan(cs[i])
  {
    RunSound(cs, ss, i);
    if i > 0 {
      RunPositive(cs, ss, i - 1);
      RunStep(cs, ss, i - 1);
      StepSolventIff(cs[i - 1], ss[i - 1]);
    }
  }

  ghost predicate SolventUpTo(cs: seq<Chan>, i: nat)
    requires i < |cs|
  {
    forall k {:trigger cs[k]} :: 0 <= k <= i ==> Solvent(cs[k])
  }

  ghost predicate AffordsUpTo(cs: seq<Chan>, ss: seq<Step>, i: nat)
    requires i <= |ss| && |cs| == |ss| + 1
  {
    forall k {:trigger cs[k]} :: 0 <= k < i ==> StepAffords(cs[k], ss[k])
  }

  lemma UpToSplits(cs: seq<Chan>, ss: seq<Step>, i: nat)
    requires 0 < i <= |ss| && |cs| == |ss| + 1
    ensures SolventUpTo(cs, i) <==> SolventUpTo(cs, i - 1) && Solvent(cs[i])
    ensures AffordsUpTo(cs, ss, i) <==> AffordsUpTo(cs, ss, i - 1) && StepAffords(cs[i - 1], ss[i - 1])
  {}

  lemma FreshIsSolvent(c: Chan)
    requires Channels.Fresh(c)
    ensures Solvent(c)
  {
    NewEndTotals(c.our.address, 0);
    NewEndTotals(c.partner.address, 0);
  }

  lemma RunStepSolventIff(cs: seq<Chan>, ss: seq<Step>, i: nat)
    requires IsRun(cs, ss) && i < |ss|
    requires forall k {:trigger ss[k]} :: 0 <= k <= i ==> !Punishes(ss[k])
    ensures Solvent(cs[i]) ==> (Solvent(cs[i + 1]) <==> StepAffords(cs[i], ss[i]))
  {
    RunPositive(cs, ss, i);
    RunStep(cs, ss, i);
    StepSolventIff(cs[i], ss[i]);
  }

  /**
   * In every run without a punishment, half-done removals and all: neither side is ever overdrawn up to a point exactly
   * when every mediated transfer accepted before it could be paid for. One that keeps the transferred amount always
   * can.
   */
  lemma {:induction false} RunSolventIff(cs: seq<Chan>, ss: seq<Step>, i: nat)
    requires IsRun(cs, ss) && i < |cs|
    requires forall k {:trigger ss[k]} :: 0 <= k < i ==> !Punishes(ss[k])
    ensures SolventUpTo(cs, i) <==> AffordsUpTo(cs, ss, i)
  {
    if i == 0 {
      FreshIsSolvent(cs[0]);
    } else {
      RunSolventIff(cs, ss, i - 1);
      RunStepSolventIff(cs, ss, i - 1);
      UpToSplits(cs, ss, i);
    }
  }

  /** The documented rule: a mediated transfer does not move the transferred amount. */
  ghost predicate AmountKept(c: Chan, s: Step) {
    Accepted(c, s) && s.m.body.Mediated? ==> s.m.transferAmount == Sender(c, s.m).proof.transferAmount
  }

  lemma KeptAmountAffords(c: Chan, s: Step)
    requires AmountKept(c, s)
    ensures StepAffords(c, s)
  {
    if Accepted(c, s) {
      AcceptanceShape(c, s.block, s.m);
      GuardFacts(c, s.block, s.m);
    }
  }

  /** Where the documented rule is followed, neither side is ever overdrawn. */
  lemma RunSolvent(cs: seq<Chan>, ss: seq<Step>, i: nat)
    requires IsRun(cs, ss) && i < |cs|
    requires forall k {:trigger ss[k]} :: 0 <= k < i ==> !Punishes(ss[k])
    requires forall k {:trigger cs[k]} :: 0 <= k < i ==> AmountKept(cs[k], ss[k])
    ensures Solvent(cs[i])
  {
    assert AffordsUpTo(cs, ss, i) by {
      forall k | 0 <= k < i ensures StepAffords(cs[k], ss[k]) {
        assert AmountKept(cs[k], ss[k]);
        KeptAmountAffords(cs[k], ss[k]);
      }
    }
    RunSolventIff(cs, ss, i);
  }
}

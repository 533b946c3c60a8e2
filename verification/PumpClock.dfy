/** The block clock a node sees while the polling loop delivers changes to it. */
module PumpClock {
  import opened Primitives
  import opened EventPump
  import opened PumpDelivery

  /** Every delivered change comes while the last tick is its own block. */
  ghost predicate OnTime(sent: seq<Output>) {
    forall j :: 0 <= j < |sent| && sent[j].Sent? ==> ClockAt(sent, j) == Some(sent[j].change.log.block)
  }

  function ClockAt(sent: seq<Output>, j: nat): Option<int>
    requires j <= |sent|
  {
    if j == 0 then None else if sent[j - 1].Tick? then Some(sent[j - 1].block) else ClockAt(sent, j - 1)
  }

  /** No tick before position j is above `bound`. */
  ghost predicate TicksWithin(sent: seq<Output>, bound: int) {
    forall i :: 0 <= i < |sent| && sent[i].Tick? ==> sent[i].block <= bound
  }

  lemma {:induction false} ClockExtends(a: seq<Output>, b: seq<Output>, j: nat)
    requires j <= |a|
    ensures ClockAt(a + b, j) == ClockAt(a, j)
    decreases j
  {
    if j > 0 {
      ClockExtends(a, b, j - 1);
    }
  }

  lemma {:induction false} ClockShifts(a: seq<Output>, b: seq<Output>, j: nat)
    requires j <= |b| && ClockAt(b, j).Some?
    ensures ClockAt(a + b, |a| + j) == ClockAt(b, j)
    decreases j
  {
    if j > 0 && !b[j - 1].Tick? {
      ClockShifts(a, b, j - 1);
    }
  }

  lemma OnTimeAppend(a: seq<Output>, b: seq<Output>)
    requires OnTime(a) && OnTime(b)
    ensures OnTime(a + b)
  {
    var s := a + b;
    forall j | 0 <= j < |s| && s[j].Sent? ensures ClockAt(s, j) == Some(s[j].change.log.block) {
      if j < |a| {
        ClockExtends(a, b, j);
      } else {
        ClockShifts(a, b, j - |a|);
      }
    }
  }

  lemma {:induction false} InterleaveOnTime(s: seq<Change>)
    requires forall i :: 0 <= i < |s| ==> s[i].log.block != 0
    ensures OnTime(Interleave(s))
    ensures s != [] ==> ClockAt(Interleave(s), |Interleave(s)|) == Some(LastBlock(s))
    decreases |s|
  {
    if s != [] {
      var before, c := s[..|s| - 1], s[|s| - 1];
      InterleaveOnTime(before);
      var a := Interleave(before);
      var b := if c.log.block != LastBlock(before) then [Tick(c.log.block), Sent(c)] else [Sent(c)];
      var t := a + b;
      ClockExtends(a, b, |a|);
      forall j | 0 <= j < |t| && t[j].Sent? ensures ClockAt(t, j) == Some(t[j].change.log.block) {
        if j < |a| {
          ClockExtends(a, b, j);
        }
      }
    }
  }

  lemma RoundOnTime(s: seq<Change>, head: int, first: bool)
    requires forall i :: 0 <= i < |s| ==> s[i].log.block != 0
    ensures OnTime(RoundOutput(s, head, first))
    ensures head != 0 ==> ClockAt(RoundOutput(s, head, first), |RoundOutput(s, head, first)|) == Some(head)
  {
    InterleaveOnTime(s);
    var a, b := Interleave(s), Completion(first, head);
    var t := if LastBlock(s) != head then [Tick(head)] else [];
    OnTimeAppend(a, b);
    OnTimeAppend(a + b, t);
    if LastBlock(s) == head && head != 0 {
      ClockExtends(a, b, |a|);
      assert a + b + t == a + b;
    }
  }

  /** The changes of one advancing round, in the order they are sent. */
  function Batch(chain: seq<Log>, p: Pump, head: int, confirm: bool): seq<Change> {
    SortByBlock(Select(Fetch(chain, Window(p.last), head), p.done, p.last, confirm).changes)
  }

  /** What a round sends comes from logs of the query. */
  lemma {:induction false} SelectedFrom(logs: seq<Log>, done: map<EventId, int>, last: int, confirm: bool, c: Change)
    requires c in Select(logs, done, last, confirm).changes
    ensures c.log in logs
    decreases |logs|
  {
    if c.log !in logs {
      SelectInvents(logs, c, done, last, confirm);
    }
  }

  lemma BatchBlocks(chain: seq<Log>, p: Pump, head: int, confirm: bool)
    requires AfterGenesis(chain)
    ensures Sorted(Batch(chain, p, head, confirm))
    ensures forall c :: c in Batch(chain, p, head, confirm) ==> 1 <= c.log.block <= head
  {
    var logs := Fetch(chain, Window(p.last), head);
    var changes := Select(logs, p.done, p.last, confirm).changes;
    SortIsStable(changes, 0);
    forall c | c in SortByBlock(changes) ensures 1 <= c.log.block <= head {
      assert c in multiset(SortByBlock(changes));
      assert c in multiset(changes);
      SelectedFrom(logs, p.done, p.last, confirm, c);
      FetchMembers(chain, Window(p.last), head, c.log);
    }
  }

  lemma RoundSplit(chain: seq<Log>, start: int, rounds: seq<Round>, confirm: bool)
    requires rounds != [] && Honest(chain, start, rounds)
    ensures var n := |rounds| - 1;
            var p := Run(start, rounds[..n], confirm);
            var q := Run(start, rounds, confirm);
            && p.last == Head(start, rounds[..n])
            && (Advances(p, rounds[n]) ==>
                  && q.sent == p.sent + RoundOutput(Batch(chain, p, rounds[n].head, confirm), rounds[n].head, p.first)
                  && q.last == rounds[n].head == Head(start, rounds))
            && (!Advances(p, rounds[n]) ==> q == Idle(p, rounds[n]) && q.last == p.last == Head(start, rounds))
  {
    RunHead(start, rounds[..|rounds| - 1], confirm);
  }

  lemma IdleClock(p: Pump, r: Round)
    requires OnTime(p.sent) && ClockAt(p.sent, |p.sent|) == Some(p.last)
    ensures var q := Idle(p, r); OnTime(q.sent) && ClockAt(q.sent, |q.sent|) == Some(q.last)
  {
    var q := Idle(p, r);
    var extra := q.sent[|p.sent|..];
    assert q.sent == p.sent + extra;
    OnTimeAppend(p.sent, extra);
    ClockExtends(p.sent, extra, |p.sent|);
  }

  lemma AdvanceClock(chain: seq<Log>, p: Pump, head: int, confirm: bool)
    requires AfterGenesis(chain) && OnTime(p.sent) && head > 0
    ensures var sent := p.sent + RoundOutput(Batch(chain, p, head, confirm), head, p.first);
            OnTime(sent) && ClockAt(sent, |sent|) == Some(head)
  {
    BatchBlocks(chain, p, head, confirm);
    var out := RoundOutput(Batch(chain, p, head, confirm), head, p.first);
    RoundOnTime(Batch(chain, p, head, confirm), head, p.first);
    OnTimeAppend(p.sent, out);
    ClockShifts(p.sent, out, |out|);
  }

  /**
   * Every change reaches the node while its clock shows the change's own block, and after every round the clock shows
   * the head.
   */
  lemma {:induction false} RunOnTime(chain: seq<Log>, start: int, rounds: seq<Round>, confirm: bool)
    requires AfterGenesis(chain) && Honest(chain, start, rounds) && start >= 0
    ensures var p := Run(start, rounds, confirm);
        OnTime(p.sent) && ClockAt(p.sent, |p.sent|) == Some(Head(start, rounds))
    decreases |rounds|
  {
    if rounds != [] {
      var n := |rounds| - 1;
      var p := Run(start, rounds[..n], confirm);
      RunOnTime(chain, start, rounds[..n], confirm);
      RoundSplit(chain, start, rounds, confirm);
      RunHead(start, rounds[..n], confirm);
      if Advances(p, rounds[n]) {
        AdvanceClock(chain, p, rounds[n].head, confirm);
      } else {
        IdleClock(p, rounds[n]);
      }
    }
  }

  // ---------- The clock before a delivery ----------

  function Later(a: int, b: int): int { if a < b then b else a }

  lemma {:induction false} InterleaveTicks(s: seq<Change>, bound: int)
    requires forall i :: 0 <= i < |s| ==> s[i].log.block <= bound
    ensures TicksWithin(Interleave(s), bound)
    decreases |s|
  {
    if s != [] {
      InterleaveTicks(s[..|s| - 1], bound);
    }
  }

  lemma InPrefix(s: seq<Output>, k: nat, j: nat)
    requires k < j <= |s|
    ensures s[k] in s[..j]
  {
    assert s[..j][k] == s[k];
  }

  /** A prefix that misses an element ends before any occurrence of it. */
  lemma PrefixMissing(a: seq<Output>, rest: seq<Output>, o: Output, j: nat)
    requires j <= |a + rest| && o in a && o !in (a + rest)[..j]
    ensures j <= |a| && (a + rest)[..j] == a[..j]
  {
    var k :| 0 <= k < |a| && a[k] == o;
    if k < j {
      InPrefix(a + rest, k, j);
    }
  }

  lemma SentInInterleave(s: seq<Change>, c: Change)
    requires c in s
    ensures Sent(c) in Interleave(s)
  {
    InterleaveSends(s, c);
    assert c in multiset(s);
    assert Sent(c) in multiset(Interleave(s));
  }

  lemma {:induction false} InterleaveTicksBefore(s: seq<Change>, c: Change, j: nat)
    requires Sorted(s) && c in s && j <= |Interleave(s)| && Sent(c) !in Interleave(s)[..j]
    ensures TicksWithin(Interleave(s)[..j], c.log.block)
    decreases |s|
  {
    var before := s[..|s| - 1];
    if c in before {
      SentInInterleave(before, c);
      PrefixMissing(Interleave(before), Interleave(s)[|Interleave(before)|..], Sent(c), j);
      assert Interleave(s) == Interleave(before) + Interleave(s)[|Interleave(before)|..];
      InterleaveTicksBefore(before, c, j);
    } else {
      InterleaveTicks(s, c.log.block);
    }
  }

  lemma RoundTicks(s: seq<Change>, head: int, first: bool)
    requires forall i :: 0 <= i < |s| ==> s[i].log.block <= head
    ensures TicksWithin(RoundOutput(s, head, first), head)
  {
    InterleaveTicks(s, head);
  }

  lemma RoundTicksBefore(s: seq<Change>, head: int, first: bool, c: Change, j: nat)
    requires Sorted(s) && c in s && j <= |RoundOutput(s, head, first)| && Sent(c) !in RoundOutput(s, head, first)[..j]
    ensures TicksWithin(RoundOutput(s, head, first)[..j], c.log.block)
  {
    var a, o := Interleave(s), RoundOutput(s, head, first);
    SentInInterleave(s, c);
    assert o == a + o[|a|..];
    PrefixMissing(a, o[|a|..], Sent(c), j);
    InterleaveTicksBefore(s, c, j);
  }

  lemma TicksAppend(a: seq<Output>, b: seq<Output>, bound: int)
    requires TicksWithin(a, bound) && TicksWithin(b, bound)
    ensures TicksWithin(a + b, bound)
  {
  }

  lemma {:induction false} RunTicks(chain: seq<Log>, start: int, rounds: seq<Round>, confirm: bool)
    requires AfterGenesis(chain) && Honest(chain, start, rounds)
    ensures TicksWithin(Run(start, rounds, confirm).sent, Head(start, rounds))
    decreases |rounds|
  {
    if rounds != [] {
      var n := |rounds| - 1;
      var p := Run(start, rounds[..n], confirm);
      RunTicks(chain, start, rounds[..n], confirm);
      RoundSplit(chain, start, rounds, confirm);
      if Advances(p, rounds[n]) {
        var head := rounds[n].head;
        var batch := Batch(chain, p, head, confirm);
        BatchBlocks(chain, p, head, confirm);
        RoundTicks(batch, head, p.first);
        TicksAppend(p.sent, RoundOutput(batch, head, p.first), head);
      }
    }
  }

  /** Within one round: ticks before the change do not pass its block, and without it they do not pass the head. */
  lemma NewTicksWithin(chain: seq<Log>, p: Pump, head: int, confirm: bool, c: Change, j: nat, bound: int)
    requires AfterGenesis(chain)
    requires var out := RoundOutput(Batch(chain, p, head, confirm), head, p.first);
             j <= |out| && Sent(c) !in out[..j] && (Sent(c) in out || head <= bound)
    requires c.log.block <= bound
    ensures TicksWithin(RoundOutput(Batch(chain, p, head, confirm), head, p.first)[..j], bound)
  {
    var batch := Batch(chain, p, head, confirm);
    BatchBlocks(chain, p, head, confirm);
    if c in batch {
      RoundTicksBefore(batch, head, p.first, c, j);
    } else {
      InterleaveSends(batch, c);
      assert Sent(c) !in Interleave(batch) by {
        assert multiset(Interleave(batch))[Sent(c)] == 0;
      }
      RoundTicks(batch, head, p.first);
      TicksPrefix(RoundOutput(batch, head, p.first), j, head);
    }
  }

  lemma TicksPrefix(s: seq<Output>, j: nat, bound: int)
    requires j <= |s| && TicksWithin(s, bound)
    ensures TicksWithin(s[..j], bound)
  {
  }

  /** As long as the change has not been sent, the head is within the bound. */
  ghost predicate HeadWithin(start: int, rounds: seq<Round>, confirm: bool, c: Change, bound: int) {
    forall m {:trigger rounds[..m]} :: 0 <= m <= |rounds| && Sent(c) !in Run(start, rounds[..m], confirm).sent ==>
                Head(start, rounds[..m]) <= bound
  }

  lemma HeadWithinPrefix(start: int, rounds: seq<Round>, confirm: bool, c: Change, bound: int)
    requires rounds != [] && HeadWithin(start, rounds, confirm, c, bound)
    ensures HeadWithin(start, rounds[..|rounds| - 1], confirm, c, bound)
    ensures Sent(c) !in Run(start, rounds, confirm).sent ==> Head(start, rounds) <= bound
    ensures Sent(c) !in Run(start, rounds[..|rounds| - 1], confirm).sent ==>
        Head(start, rounds[..|rounds| - 1]) <= bound
  {
    var n := |rounds| - 1;
    assert rounds[..|rounds|] == rounds;
    forall m | 0 <= m <= n && Sent(c) !in Run(start, rounds[..n][..m], confirm).sent
      ensures Head(start, rounds[..n][..m]) <= bound
    {
      assert rounds[..n][..m] == rounds[..m];
    }
  }

  lemma {:induction false} TicksUntilSent(chain: seq<Log>, start: int, rounds: seq<Round>, confirm: bool, c: Change,
      j: nat, bound: int)
    requires AfterGenesis(chain) && Honest(chain, start, rounds)
    requires start <= bound && c.log.block <= bound && HeadWithin(start, rounds, confirm, c, bound)
    requires j <= |Run(start, rounds, confirm).sent| && Sent(c) !in Run(start, rounds, confirm).sent[..j]
    ensures TicksWithin(Run(start, rounds, confirm).sent[..j], bound)
    decreases |rounds|
  {
    if rounds != [] {
      var n := |rounds| - 1;
      var p, q := Run(start, rounds[..n], confirm), Run(start, rounds, confirm);
      RoundSplit(chain, start, rounds, confirm);
      HeadWithinPrefix(start, rounds, confirm, c, bound);
      if j <= |p.sent| {
        assert q.sent[..j] == p.sent[..j];
        TicksUntilSent(chain, start, rounds[..n], confirm, c, j, bound);
      } else {
        assert p.sent == q.sent[..j][..|p.sent|];
        RunTicks(chain, start, rounds[..n], confirm);
        if Advances(p, rounds[n]) {
          AdvanceTicksWithin(chain, p, rounds[n].head, confirm, c, j, bound);
        } else {
          IdleTicksWithin(p, rounds[n], j, bound);
        }
      }
    }
  }

  lemma IdleTicksWithin(p: Pump, r: Round, j: nat, bound: int)
    requires TicksWithin(p.sent, bound) && p.last <= bound && j <= |Idle(p, r).sent|
    ensures TicksWithin(Idle(p, r).sent[..j], bound)
  {
  }

  lemma AdvanceTicksWithin(chain: seq<Log>, p: Pump, head: int, confirm: bool, c: Change, j: nat, bound: int)
    requires AfterGenesis(chain) && c.log.block <= bound && TicksWithin(p.sent, bound) && Sent(c) !in p.sent
    requires var sent := p.sent + RoundOutput(Batch(chain, p, head, confirm), head, p.first);
             |p.sent| <= j <= |sent| && Sent(c) !in sent[..j] && (Sent(c) in sent || head <= bound)
    ensures TicksWithin((p.sent + RoundOutput(Batch(chain, p, head, confirm), head, p.first))[..j], bound)
  {
    var out := RoundOutput(Batch(chain, p, head, confirm), head, p.first);
    var k := j - |p.sent|;
    assert (p.sent + out)[..j] == p.sent + out[..k];
    NewTicksWithin(chain, p, head, confirm, c, k, bound);
    TicksAppend(p.sent, out[..k], bound);
  }

  lemma {:induction false} HonestPrefix(chain: seq<Log>, start: int, rounds: seq<Round>, m: nat)
    requires Honest(chain, start, rounds) && m <= |rounds|
    ensures Honest(chain, start, rounds[..m])
    decreases |rounds|
  {
    if m < |rounds| {
      HonestPrefix(chain, start, rounds[..|rounds| - 1], m);
      assert rounds[..|rounds| - 1][..m] == rounds[..m];
    } else {
      assert rounds[..m] == rounds;
    }
  }

  /**
   * As long as a prompt log has not reached the node, the node's clock has not passed the log's block (nor the block
   * the loop started from): a node never sees a block in which a secret was registered before it sees the registration.
   */
  lemma NoTickBeyondUndelivered(chain: seq<Log>, start: int, rounds: seq<Round>, confirm: bool, c: Change, j: nat)
    requires WellFormed(chain) && Honest(chain, start, rounds) && c.log in chain && c in ChangesOf(c.log)
    requires Unrivalled(chain, c.log) && !(confirm && Deferrable(c.log)) && Window(start) <= c.log.block
    requires j <= |Run(start, rounds, confirm).sent| && Sent(c) !in Run(start, rounds, confirm).sent[..j]
    ensures TicksWithin(Run(start, rounds, confirm).sent[..j], Later(start, c.log.block))
  {
    var bound := Later(start, c.log.block);
    forall m {:trigger rounds[..m]} | 0 <= m <= |rounds| && Sent(c) !in Run(start, rounds[..m], confirm).sent
      ensures Head(start, rounds[..m]) <= bound
    {
      HonestPrefix(chain, start, rounds, m);
      RunHead(start, rounds[..m], confirm);
      if Head(start, rounds[..m]) > start {
        PromptDelivery(chain, start, rounds[..m], confirm, c);
      }
    }
    TicksUntilSent(chain, start, rounds, confirm, c, j, bound);
  }

  lemma StepsPrefix(start: int, rounds: seq<Round>, step: int, m: nat)
    requires Steps(start, rounds, step) && m <= |rounds| && step <= FORK_CONFIRM + 1
    ensures Steps(start, rounds[..m], step) && Steps(start, rounds[..m], FORK_CONFIRM + 1)
  {
    forall i | 0 <= i < m ensures Head(start, rounds[..m][..i + 1]) - Head(start, rounds[..m][..i]) <= step {
      assert rounds[..m][..i + 1] == rounds[..i + 1] && rounds[..m][..i] == rounds[..i];
    }
  }

  /** A held-back log may be passed by the confirmation time and one step of the head, but by no more. */
  lemma ConfirmedTicks(chain: seq<Log>, start: int, rounds: seq<Round>, step: int, c: Change, j: nat)
    requires WellFormed(chain) && Honest(chain, start, rounds) && c.log in chain && c in ChangesOf(c.log)
    requires Unrivalled(chain, c.log) && Deferrable(c.log) && Window(start) <= c.log.block
    requires 0 <= step <= FORK_CONFIRM + 1 && Steps(start, rounds, step)
    requires j <= |Run(start, rounds, true).sent| && Sent(c) !in Run(start, rounds, true).sent[..j]
    ensures TicksWithin(Run(start, rounds, true).sent[..j], Later(start, c.log.block + FORK_CONFIRM - 1 + step))
  {
    var bound := Later(start, c.log.block + FORK_CONFIRM - 1 + step);
    forall m {:trigger rounds[..m]} | 0 <= m <= |rounds| && Sent(c) !in Run(start, rounds[..m], true).sent
      ensures Head(start, rounds[..m]) <= bound
    {
      HonestPrefix(chain, start, rounds, m);
      StepsPrefix(start, rounds, step, m);
      ConfirmedDelivery(chain, start, rounds[..m], c);
      LastStartBounds(start, rounds[..m], step);
    }
    TicksUntilSent(chain, start, rounds, true, c, j, bound);
  }
}

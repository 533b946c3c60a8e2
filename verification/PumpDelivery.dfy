/** What the polling loop delivers over whole runs, for a chain without reorganisations. */
module PumpDelivery {
  import opened Primitives
  import opened EventPump

  /** `index` is the position of a log in its block; the genesis block has no logs. */
  ghost predicate AfterGenesis(chain: seq<Log>) {
    forall i :: 0 <= i < |chain| ==> chain[i].block >= 1
  }

  /** A transaction, known by the first bytes of its hash, is in one block. */
  ghost predicate OneBlockEach(chain: seq<Log>) {
    forall i, j :: 0 <= i < |chain| && 0 <= j < |chain| && TxPrefix(chain[i]) == TxPrefix(chain[j]) ==>
                     chain[i].block == chain[j].block
  }

  /** The final chain. Nothing is assumed of event identifiers: two logs may share one. */
  ghost predicate WellFormed(chain: seq<Log>) { AfterGenesis(chain) && OneBlockEach(chain) }

  /** What a log query over a block range answers. */
  function Fetch(chain: seq<Log>, first: int, last: int): seq<Log>
    decreases |chain|
  {
    if chain == [] then []
    else
      var l := chain[|chain| - 1];
      Fetch(chain[..|chain| - 1], first, last) + (if first <= l.block <= last then [l] else [])
  }

  /** The loop's block number after the rounds, whatever the logs were. */
  function Head(start: int, rounds: seq<Round>): int
    decreases |rounds|
  {
    if rounds == [] then start
    else
      var before := Head(start, rounds[..|rounds| - 1]);
      var r := rounds[|rounds| - 1];
      if before < r.head && r.reply.Some? then r.head else before
  }

  function Run(start: int, rounds: seq<Round>, confirm: bool): Pump
    decreases |rounds|
  {
    if rounds == [] then StartAt(start)
    else OneRound(Run(start, rounds[..|rounds| - 1], confirm), rounds[|rounds| - 1], confirm)
  }

  predicate HonestRound(chain: seq<Log>, before: int, r: Round) {
    before < r.head && r.reply.Some? ==> r.reply.value == Fetch(chain, Window(before), r.head)
  }

  /** Every query that is answered is answered from the chain; queries may fail and heads may repeat or go back. */
  ghost predicate Honest(chain: seq<Log>, start: int, rounds: seq<Round>)
    decreases |rounds|
  {
    rounds != [] ==>
      && Honest(chain, start, rounds[..|rounds| - 1])
      && HonestRound(chain, Head(start, rounds[..|rounds| - 1]), rounds[|rounds| - 1])
  }

  function Deliveries(p: Pump, c: Change): nat { multiset(p.sent)[Sent(c)] }

  // ---------- Logs that share an identifier ----------

  /** The first log with the identifier that is not held back, in the order of the chain. */
  function FirstFree(logs: seq<Log>, id: EventId, last: int, confirm: bool): Option<Log>
    decreases |logs|
  {
    if logs == [] then None
    else
      var l := logs[|logs| - 1];
      var before := FirstFree(logs[..|logs| - 1], id, last, confirm);
      if before.Some? then before
      else if EventIdOf(l) == id && !Deferred(l, last, confirm) then Some(l)
      else None
  }

  /** The round asks for the log's block. */
  predicate InRange(l: Log, before: int, r: Round) {
    before < r.head && r.reply.Some? && Window(before) <= l.block <= r.head
  }

  /** Which of the logs that share the identifier of `l` round i would deliver if none had been before. */
  function Chance(chain: seq<Log>, l: Log, start: int, rounds: seq<Round>, i: nat, confirm: bool): Option<Log>
    requires i < |rounds|
  {
    var before := Head(start, rounds[..i]);
    if InRange(l, before, rounds[i]) then FirstFree(chain, EventIdOf(l), before, confirm) else None
  }

  ghost predicate Gone(chain: seq<Log>, l: Log, start: int, rounds: seq<Round>, confirm: bool) {
    exists i :: 0 <= i < |rounds| && Chance(chain, l, start, rounds, i, confirm).Some?
  }

  /** The first round with a chance gives it to this log. */
  ghost predicate Wins(chain: seq<Log>, l: Log, start: int, rounds: seq<Round>, confirm: bool) {
    exists i :: 0 <= i < |rounds| && Chance(chain, l, start, rounds, i, confirm) == Some(l)
             && forall j :: 0 <= j < i ==> Chance(chain, l, start, rounds, j, confirm) == None
  }

  /** A round from block `before` in which the log is in the window and not held back. */
  predicate Opportunity(l: Log, before: int, r: Round, confirm: bool) {
    InRange(l, before, r) && !Deferred(l, before, confirm)
  }

  ghost predicate HadOpportunity(l: Log, start: int, rounds: seq<Round>, confirm: bool) {
    exists i {:trigger rounds[i]} :: 0 <= i < |rounds| && Opportunity(l, Head(start, rounds[..i]), rounds[i], confirm)
  }

  /** No other log of the chain has the identifier. */
  ghost predicate Unrivalled(chain: seq<Log>, l: Log) {
    forall x :: x in chain && EventIdOf(x) == EventIdOf(l) ==> x == l
  }

  /**
   * The logs of a transaction lie within 256 consecutive positions of its block, as they do when it has at most 256
   * logs.
   */
  ghost predicate SmallTransactions(chain: seq<Log>) {
    forall i, j :: 0 <= i < j < |chain| && TxPrefix(chain[i]) == TxPrefix(chain[j]) ==>
                     0 < chain[j].index - chain[i].index < 256 || 0 < chain[i].index - chain[j].index < 256
  }

  lemma DifferentLowByte(a: nat, b: nat)
    requires 0 < b - a < 256
    ensures a % 256 != b % 256
  {
  }

  lemma SmallTransactionsUnrivalled(chain: seq<Log>, l: Log)
    requires SmallTransactions(chain) && l in chain
    ensures Unrivalled(chain, l)
  {
    var j :| 0 <= j < |chain| && chain[j] == l;
    forall x | x in chain && EventIdOf(x) == EventIdOf(l) ensures x == l {
      var i :| 0 <= i < |chain| && chain[i] == x;
      if i != j {
        assert TxPrefix(chain[i]) == TxPrefix(chain[j]);
        DifferentLowByte(if x.index < l.index then x.index else l.index, if x.index < l.index then l.index
          else x.index);
      }
    }
  }

  // ---------- One batch ----------

  lemma {:induction false} FetchMembers(chain: seq<Log>, first: int, last: int, l: Log)
    ensures l in Fetch(chain, first, last) <==> l in chain && first <= l.block <= last
    decreases |chain|
  {
    if chain != [] {
      var front := chain[..|chain| - 1];
      FetchMembers(front, first, last, l);
      assert chain == front + [chain[|chain| - 1]];
    }
  }

  /** Every log with the identifier is in the block. */
  ghost predicate InBlock(logs: seq<Log>, id: EventId, block: int) {
    forall i :: 0 <= i < |logs| && EventIdOf(logs[i]) == id ==> logs[i].block == block
  }

  lemma {:induction false} FetchFree(chain: seq<Log>, first: int, to: int, id: EventId, block: int, last: int,
      confirm: bool)
    requires InBlock(chain, id, block)
    ensures InBlock(Fetch(chain, first, to), id, block)
    ensures FirstFree(Fetch(chain, first, to), id, last, confirm)
         == if first <= block <= to then FirstFree(chain, id, last, confirm) else None
    decreases |chain|
  {
    if chain != [] {
      var front, l := chain[..|chain| - 1], chain[|chain| - 1];
      FetchFree(front, first, to, id, block, last, confirm);
      var f := Fetch(front, first, to);
      assert (f + [l])[..|f|] == f;
      if first <= l.block <= to {
        FreeAppend(f, l, id, last, confirm);
      } else {
        assert Fetch(chain, first, to) == f;
      }
    }
  }

  lemma FreeAppend(f: seq<Log>, l: Log, id: EventId, last: int, confirm: bool)
    ensures FirstFree(f + [l], id, last, confirm)
         == if FirstFree(f, id, last, confirm).Some? then FirstFree(f, id, last, confirm)
            else if EventIdOf(l) == id && !Deferred(l, last, confirm) then Some(l) else None
  {
    assert (f + [l])[..|f|] == f;
  }

  lemma ChangesOfOther(l: Log, c: Change)
    requires c in ChangesOf(c.log)
    ensures multiset(ChangesOf(l))[c] == if l == c.log then 1 else 0
  {
  }

  predicate Remembered(done: map<EventId, int>, id: EventId, block: int) {
    id in done ==> done[id] == block
  }

  /**
   * A batch gives a change exactly when its log is the first free one of its identifier, and none was handled before.
   */
  lemma {:induction false} SelectDelivers(logs: seq<Log>, c: Change, done: map<EventId, int>, last: int, confirm: bool)
    requires c in ChangesOf(c.log) && InBlock(logs, EventIdOf(c.log), c.log.block)
    requires Remembered(done, EventIdOf(c.log), c.log.block)
    ensures var s := Select(logs, done, last, confirm);
            var id, free := EventIdOf(c.log), FirstFree(logs, EventIdOf(c.log), last, confirm);
            && multiset(s.changes)[c] == (if id !in done && free == Some(c.log) then 1 else 0)
            && Remembered(s.done, id, c.log.block)
            && (id in s.done <==> id in done || free.Some?)
    decreases |logs|
  {
    if logs != [] {
      var front, l := logs[..|logs| - 1], logs[|logs| - 1];
      SelectDelivers(front, c, done, last, confirm);
      ChangesOfOther(l, c);
    }
  }

  lemma {:induction false} SelectInvents(logs: seq<Log>, c: Change, done: map<EventId, int>, last: int, confirm: bool)
    requires c.log !in logs
    ensures c !in Select(logs, done, last, confirm).changes
    decreases |logs|
  {
    if logs != [] {
      SelectInvents(logs[..|logs| - 1], c, done, last, confirm);
    }
  }

  lemma {:induction false} InterleaveSends(s: seq<Change>, c: Change)
    ensures multiset(Interleave(s))[Sent(c)] == multiset(s)[c]
    decreases |s|
  {
    if s != [] {
      InterleaveSends(s[..|s| - 1], c);
      assert s == s[..|s| - 1] + [s[|s| - 1]];
    }
  }

  lemma RoundSends(changes: seq<Change>, head: int, first: bool, c: Change)
    ensures multiset(RoundOutput(SortByBlock(changes), head, first))[Sent(c)] == multiset(changes)[c]
  {
    SortIsStable(changes, 0);
    InterleaveSends(SortByBlock(changes), c);
  }

  // ---------- Whole runs ----------

  lemma {:induction false} RunHead(start: int, rounds: seq<Round>, confirm: bool)
    ensures Run(start, rounds, confirm).last == Head(start, rounds) >= start
    decreases |rounds|
  {
    if rounds != [] {
      RunHead(start, rounds[..|rounds| - 1], confirm);
    }
  }

  /**
   * What is remembered about an identifier suffices to suppress it for as long as its block can be fetched again.
   * `gone` says whether one of its logs had a chance, `won` whether that was the change's own log.
   */
  ghost predicate Remembers(p: Pump, c: Change, gone: bool, won: bool) {
    var id := EventIdOf(c.log);
    && Remembered(p.done, id, c.log.block)
    && (id in p.done ==> gone)
    && (gone && c.log.block >= Window(p.last) ==> id in p.done)
    && (won ==> gone)
    && Deliveries(p, c) == if won then 1 else 0
  }

  lemma AdvanceDelivers(chain: seq<Log>, p: Pump, head: int, confirm: bool, c: Change, gone: bool, won: bool)
    requires AfterGenesis(chain) && InBlock(chain, EventIdOf(c.log), c.log.block) && c in ChangesOf(c.log)
    requires p.last < head && Remembers(p, c, gone, won) && c.log.block >= 1
    ensures var chance := if Window(p.last) <= c.log.block <= head
        then FirstFree(chain, EventIdOf(c.log), p.last, confirm) else None;
            Remembers(Advance(p, head, Fetch(chain, Window(p.last), head), confirm), c,
                      gone || chance.Some?, won || (!gone && chance == Some(c.log)))
  {
    var logs := Fetch(chain, Window(p.last), head);
    FetchFree(chain, Window(p.last), head, EventIdOf(c.log), c.log.block, p.last, confirm);
    SelectDelivers(logs, c, p.done, p.last, confirm);
    RoundSends(Select(logs, p.done, p.last, confirm).changes, head, p.first, c);
  }

  lemma ChancePrefix(chain: seq<Log>, l: Log, start: int, rounds: seq<Round>, n: nat, i: nat, confirm: bool)
    requires i < n <= |rounds|
    ensures Chance(chain, l, start, rounds[..n], i, confirm) == Chance(chain, l, start, rounds, i, confirm)
  {
    assert rounds[..n][..i] == rounds[..i];
  }

  lemma GoneSplits(chain: seq<Log>, l: Log, start: int, rounds: seq<Round>, confirm: bool)
    requires rounds != []
    ensures var n := |rounds| - 1;
            Gone(chain, l, start, rounds, confirm) <==>
              Gone(chain, l, start, rounds[..n], confirm) || Chance(chain, l, start, rounds, n, confirm).Some?
  {
    var n := |rounds| - 1;
    forall i | 0 <= i < n
      ensures Chance(chain, l, start, rounds[..n], i, confirm) == Chance(chain, l, start, rounds, i, confirm)
    {
      ChancePrefix(chain, l, start, rounds, n, i, confirm);
    }
  }

  lemma WinsSplits(chain: seq<Log>, l: Log, start: int, rounds: seq<Round>, confirm: bool)
    requires rounds != []
    ensures var n := |rounds| - 1;
            Wins(chain, l, start, rounds, confirm) <==>
              Wins(chain, l, start, rounds[..n], confirm)
              || (!Gone(chain, l, start, rounds[..n], confirm)
                  && Chance(chain, l, start, rounds, n, confirm) == Some(l))
  {
    var n := |rounds| - 1;
    forall i | 0 <= i < n
      ensures Chance(chain, l, start, rounds[..n], i, confirm) == Chance(chain, l, start, rounds, i, confirm)
    {
      ChancePrefix(chain, l, start, rounds, n, i, confirm);
    }
    if Wins(chain, l, start, rounds, confirm) {
      var i :| 0 <= i < |rounds| && Chance(chain, l, start, rounds, i, confirm) == Some(l)
            && forall j :: 0 <= j < i ==> Chance(chain, l, start, rounds, j, confirm) == None;
      assert i < n ==> Chance(chain, l, start, rounds[..n], i, confirm) == Some(l);
    }
    if Wins(chain, l, start, rounds[..n], confirm) {
      var i :| 0 <= i < n && Chance(chain, l, start, rounds[..n], i, confirm) == Some(l)
            && forall j :: 0 <= j < i ==> Chance(chain, l, start, rounds[..n], j, confirm) == None;
      assert Chance(chain, l, start, rounds, i, confirm) == Some(l);
    }
  }

  lemma ChanceSplits(chain: seq<Log>, l: Log, start: int, rounds: seq<Round>, confirm: bool)
    requires rounds != []
    ensures var n := |rounds| - 1;
            var chance := Chance(chain, l, start, rounds, n, confirm);
            && (Gone(chain, l, start, rounds, confirm) <==> Gone(chain, l, start, rounds[..n], confirm) || chance.Some?)
            && (Wins(chain, l, start, rounds, confirm) <==>
                  Wins(chain, l, start, rounds[..n], confirm)
                  || (!Gone(chain, l, start, rounds[..n], confirm) && chance == Some(l)))
  {
    GoneSplits(chain, l, start, rounds, confirm);
    WinsSplits(chain, l, start, rounds, confirm);
  }

  lemma LogsInBlock(chain: seq<Log>, l: Log)
    requires WellFormed(chain) && l in chain
    ensures InBlock(chain, EventIdOf(l), l.block) && l.block >= 1
  {
  }

  lemma {:induction false} RunRemembers(chain: seq<Log>, start: int, rounds: seq<Round>, confirm: bool, c: Change)
    requires WellFormed(chain) && Honest(chain, start, rounds) && c.log in chain && c in ChangesOf(c.log)
    ensures Remembers(Run(start, rounds, confirm), c,
                      Gone(chain, c.log, start, rounds, confirm), Wins(chain, c.log, start, rounds, confirm))
    decreases |rounds|
  {
    if rounds != [] {
      var n := |rounds| - 1;
      var p := Run(start, rounds[..n], confirm);
      RunRemembers(chain, start, rounds[..n], confirm, c);
      RunHead(start, rounds[..n], confirm);
      ChanceSplits(chain, c.log, start, rounds, confirm);
      LogsInBlock(chain, c.log);
      if Advances(p, rounds[n]) {
        AdvanceDelivers(chain, p, rounds[n].head, confirm, c,
                        Gone(chain, c.log, start, rounds[..n], confirm),
                          Wins(chain, c.log, start, rounds[..n], confirm));
      }
    }
  }

  /**
   * Overlapping windows never deliver a change twice. It is delivered exactly when, in the first round that asks for
   * its block and does not hold back all logs with its identifier, its log is the first of them that is not held back.
   */
  lemma DeliveredOnceIff(chain: seq<Log>, start: int, rounds: seq<Round>, confirm: bool, c: Change)
    requires WellFormed(chain) && Honest(chain, start, rounds) && c.log in chain && c in ChangesOf(c.log)
    ensures Deliveries(Run(start, rounds, confirm), c) == if Wins(chain, c.log, start, rounds, confirm) then 1 else 0
  {
    RunRemembers(chain, start, rounds, confirm, c);
  }

  lemma WinsInRange(chain: seq<Log>, l: Log, start: int, rounds: seq<Round>, confirm: bool)
    requires Wins(chain, l, start, rounds, confirm)
    ensures Window(start) <= l.block
  {
    var i :| 0 <= i < |rounds| && Chance(chain, l, start, rounds, i, confirm) == Some(l);
    RunHead(start, rounds[..i], confirm);
  }

  lemma {:induction false} SelectOwnChanges(logs: seq<Log>, c: Change, done: map<EventId, int>, last: int,
      confirm: bool)
    requires c !in ChangesOf(c.log)
    ensures c !in Select(logs, done, last, confirm).changes
    decreases |logs|
  {
    if logs != [] {
      SelectOwnChanges(logs[..|logs| - 1], c, done, last, confirm);
    }
  }

  /** Only the changes of a log are ever delivered for it. */
  lemma {:induction false} OnlyOwnChanges(start: int, rounds: seq<Round>, confirm: bool, c: Change)
    ensures Deliveries(Run(start, rounds, confirm), c) > 0 ==> c in ChangesOf(c.log)
    decreases |rounds|
  {
    if c !in ChangesOf(c.log) && rounds != [] {
      var n := |rounds| - 1;
      var p := Run(start, rounds[..n], confirm);
      OnlyOwnChanges(start, rounds[..n], confirm, c);
      if Advances(p, rounds[n]) {
        var logs := rounds[n].reply.value;
        SelectOwnChanges(logs, c, p.done, p.last, confirm);
        RoundSends(Select(logs, p.done, p.last, confirm).changes, rounds[n].head, p.first, c);
      }
    }
  }

  /** Whatever was delivered is a change of a log of the chain, delivered once, from the first window on. */
  lemma DeliveredComesFrom(chain: seq<Log>, start: int, rounds: seq<Round>, confirm: bool, c: Change)
    requires WellFormed(chain) && Honest(chain, start, rounds) && Deliveries(Run(start, rounds, confirm), c) > 0
    ensures c.log in chain && c in ChangesOf(c.log) && Deliveries(Run(start, rounds, confirm), c) == 1
    ensures Window(start) <= c.log.block && c.log.block >= 1
  {
    if c.log !in chain {
      NothingInvented(chain, start, rounds, confirm, c);
    }
    OnlyOwnChanges(start, rounds, confirm, c);
    DeliveredOnceIff(chain, start, rounds, confirm, c);
    WinsInRange(chain, c.log, start, rounds, confirm);
    LogsInBlock(chain, c.log);
  }

  // ---------- Runs of one round ----------

  lemma OneRoundHead(chain: seq<Log>, start: int, r: Round)
    requires HonestRound(chain, start, r)
    ensures Honest(chain, start, [r])
    ensures Head(start, [r]) == if start < r.head && r.reply.Some? then r.head else start
    ensures start < r.head ==> Steps(start, [r], r.head - start)
  {
    assert [r][..0] == [] && [r][..1] == [r];
    assert Honest(chain, start, []);
  }

  lemma OneRoundOpportunity(l: Log, start: int, r: Round, confirm: bool)
    ensures HadOpportunity(l, start, [r], confirm) <==> Opportunity(l, start, r, confirm)
  {
    assert [r][..0] == [];
    OpportunitySplits(l, start, [r], confirm);
  }

  // ---------- Logs with an identifier of their own ----------

  lemma {:induction false} FreeFacts(chain: seq<Log>, id: EventId, last: int, confirm: bool)
    ensures match FirstFree(chain, id, last, confirm)
            case Some(x) => x in chain && EventIdOf(x) == id && !Deferred(x, last, confirm)
            case None => forall x :: x in chain && EventIdOf(x) == id ==> Deferred(x, last, confirm)
    decreases |chain|
  {
    if chain != [] {
      FreeFacts(chain[..|chain| - 1], id, last, confirm);
      assert chain == chain[..|chain| - 1] + [chain[|chain| - 1]];
    }
  }

  lemma OpportunitySplits(l: Log, start: int, rounds: seq<Round>, confirm: bool)
    requires rounds != []
    ensures var n := |rounds| - 1;
            HadOpportunity(l, start, rounds, confirm) <==>
              HadOpportunity(l, start, rounds[..n], confirm)
              || Opportunity(l, Head(start, rounds[..n]), rounds[n], confirm)
  {
    var n := |rounds| - 1;
    forall i | 0 <= i < n ensures rounds[..n][..i] == rounds[..i] && rounds[..n][i] == rounds[i] { }
  }

  /** Without a rival, every round with an opportunity is a chance, and the first one is the log's own. */
  lemma {:induction false} UnrivalledWins(chain: seq<Log>, l: Log, start: int, rounds: seq<Round>, confirm: bool)
    requires l in chain && Unrivalled(chain, l)
    ensures Wins(chain, l, start, rounds, confirm) <==> HadOpportunity(l, start, rounds, confirm)
    ensures Gone(chain, l, start, rounds, confirm) <==> HadOpportunity(l, start, rounds, confirm)
    decreases |rounds|
  {
    if rounds != [] {
      var n := |rounds| - 1;
      UnrivalledWins(chain, l, start, rounds[..n], confirm);
      ChanceSplits(chain, l, start, rounds, confirm);
      OpportunitySplits(l, start, rounds, confirm);
      FreeFacts(chain, EventIdOf(l), Head(start, rounds[..n]), confirm);
    }
  }

  lemma AloneDeliveredIff(chain: seq<Log>, start: int, rounds: seq<Round>, confirm: bool, c: Change)
    requires WellFormed(chain) && Honest(chain, start, rounds) && c.log in chain && c in ChangesOf(c.log)
    requires Unrivalled(chain, c.log)
    ensures Deliveries(Run(start, rounds, confirm), c) == if HadOpportunity(c.log, start, rounds, confirm) then 1 else 0
  {
    DeliveredOnceIff(chain, start, rounds, confirm, c);
    UnrivalledWins(chain, c.log, start, rounds, confirm);
  }

  // ---------- Logs that are never delivered ----------

  lemma {:induction false} FreePrefix(a: seq<Log>, b: seq<Log>, id: EventId, last: int, confirm: bool)
    requires FirstFree(a, id, last, confirm).Some?
    ensures FirstFree(a + b, id, last, confirm) == FirstFree(a, id, last, confirm)
    decreases |b|
  {
    if b == [] {
      assert a + b == a;
    } else {
      assert (a + b)[..|a + b| - 1] == a + b[..|b| - 1];
      FreePrefix(a, b[..|b| - 1], id, last, confirm);
    }
  }

  /**
   * A log behind another one of its block with the same identifier is lost, if it is held back whenever that one is.
   */
  lemma ShadowedIsLost(before: seq<Log>, first: Log, after: seq<Log>, start: int, rounds: seq<Round>, confirm: bool,
      c: Change)
    requires WellFormed(before + [first] + after) && Honest(before + [first] + after, start, rounds)
    requires c.log in after && c.log !in before + [first] && c in ChangesOf(c.log)
    requires EventIdOf(first) == EventIdOf(c.log) && (Deferrable(first) ==> Deferrable(c.log))
    ensures Deliveries(Run(start, rounds, confirm), c) == 0
  {
    var chain, shadow := before + [first] + after, before + [first];
    LogsInBlock(chain, c.log);
    assert shadow[|before|] == first && chain[|before|] == first;
    forall i | 0 <= i < |rounds| ensures Chance(chain, c.log, start, rounds, i, confirm) != Some(c.log) {
      var last := Head(start, rounds[..i]);
      FreeFacts(chain, EventIdOf(c.log), last, confirm);
      if !Deferred(c.log, last, confirm) {
        FreeFacts(shadow, EventIdOf(c.log), last, confirm);
        assert first in shadow && first.block == c.log.block;
        FreePrefix(shadow, after, EventIdOf(c.log), last, confirm);
      }
    }
    DeliveredOnceIff(chain, start, rounds, confirm, c);
  }

  /** Two logs of one transaction 256 positions apart: the second never reaches the node, whatever the rounds. */
  lemma TwinIsLost(l: Log, content: nat, start: int, rounds: seq<Round>, confirm: bool)
    requires l.name != Unknown && l.block >= 1
    requires Honest([l, l.(index := l.index + 256, content := content)], start, rounds)
    ensures Deliveries(Run(start, rounds, confirm), Change(l.(index := l.index + 256, content := content), false)) == 0
  {
    var twin := l.(index := l.index + 256, content := content);
    assert [] + [l] + [twin] == [l, twin];
    ShadowedIsLost([], l, [twin], start, rounds, confirm, Change(twin, false));
  }

  /** Nothing is delivered that is not a log of the chain. */
  lemma {:induction false} NothingInvented(chain: seq<Log>, start: int, rounds: seq<Round>, confirm: bool, c: Change)
    requires Honest(chain, start, rounds) && c.log !in chain
    ensures Deliveries(Run(start, rounds, confirm), c) == 0
    decreases |rounds|
  {
    if rounds != [] {
      var n := |rounds| - 1;
      var p := Run(start, rounds[..n], confirm);
      NothingInvented(chain, start, rounds[..n], confirm, c);
      RunHead(start, rounds[..n], confirm);
      if Advances(p, rounds[n]) {
        var logs := rounds[n].reply.value;
        FetchMembers(chain, Window(p.last), rounds[n].head, c.log);
        SelectInvents(logs, c, p.done, p.last, confirm);
        RoundSends(Select(logs, p.done, p.last, confirm).changes, rounds[n].head, p.first, c);
      }
    }
  }

  /**
   * For a log that is not held back: some round could deliver it exactly when it lies between the first window and the
   * last head.
   */
  lemma {:induction false} PromptOpportunity(l: Log, start: int, rounds: seq<Round>, confirm: bool)
    requires !(confirm && Deferrable(l)) && l.block >= 1
    ensures HadOpportunity(l, start, rounds, confirm) ==> Window(start) <= l.block <= Head(start, rounds)
    ensures Head(start, rounds) > start && Window(start) <= l.block <= Head(start, rounds) ==>
              HadOpportunity(l, start, rounds, confirm)
    decreases |rounds|
  {
    if rounds != [] {
      var n := |rounds| - 1;
      PromptOpportunity(l, start, rounds[..n], confirm);
      OpportunitySplits(l, start, rounds, confirm);
      RunHead(start, rounds[..n], confirm);
    }
  }

  /** With fork confirmation off, or for events it does not hold back, nothing from the starting window on is lost. */
  lemma PromptDelivery(chain: seq<Log>, start: int, rounds: seq<Round>, confirm: bool, c: Change)
    requires WellFormed(chain) && Honest(chain, start, rounds) && c.log in chain && c in ChangesOf(c.log)
    requires Unrivalled(chain, c.log) && !(confirm && Deferrable(c.log)) && Head(start, rounds) > start
    ensures Deliveries(Run(start, rounds, confirm), c) ==
            if Window(start) <= c.log.block <= Head(start, rounds) then 1 else 0
  {
    AloneDeliveredIff(chain, start, rounds, confirm, c);
    PromptOpportunity(c.log, start, rounds, confirm);
  }

  /** The block the last advancing round started from. */
  function LastStart(start: int, rounds: seq<Round>): Option<int>
    decreases |rounds|
  {
    if rounds == [] then None
    else
      var n := |rounds| - 1;
      var before := Head(start, rounds[..n]);
      if before < rounds[n].head && rounds[n].reply.Some? then Some(before) else LastStart(start, rounds[..n])
  }

  predicate AtLeast(o: Option<int>, bound: int) { o.Some? && o.value >= bound }

  /** No advancing round jumps by more than `step` blocks. */
  ghost predicate Steps(start: int, rounds: seq<Round>, step: int) {
    forall i {:trigger rounds[i]} :: 0 <= i < |rounds| ==>
      Head(start, rounds[..i + 1]) - Head(start, rounds[..i]) <= step
  }

  lemma StepsSplit(start: int, rounds: seq<Round>, step: int)
    requires rounds != [] && Steps(start, rounds, step)
    ensures Steps(start, rounds[..|rounds| - 1], step)
    ensures Head(start, rounds) - Head(start, rounds[..|rounds| - 1]) <= step
  {
    var n := |rounds| - 1;
    assert rounds[..n + 1] == rounds;
    forall i | 0 <= i < n
      ensures Head(start, rounds[..n][..i + 1]) - Head(start, rounds[..n][..i]) <= step
    {
      assert rounds[..n][..i + 1] == rounds[..i + 1] && rounds[..n][..i] == rounds[..i];
    }
  }

  /** A held-back log is delivered when a round starts between FORK_CONFIRM and twice FORK_CONFIRM blocks after it. */
  lemma HeldBackOpportunity(l: Log, before: int, r: Round)
    requires Deferrable(l) && l.block >= 1
    ensures Opportunity(l, before, r, true) <==>
            before < r.head && r.reply.Some? && l.block + FORK_CONFIRM <= before <= l.block + 2 * FORK_CONFIRM
  {
  }

  lemma {:induction false} LastStartBounds(start: int, rounds: seq<Round>, step: int)
    requires Steps(start, rounds, step)
    ensures match LastStart(start, rounds)
            case None => Head(start, rounds) == start
            case Some(b) => start <= b < Head(start, rounds) <= b + step
    decreases |rounds|
  {
    if rounds != [] {
      var n := |rounds| - 1;
      StepsSplit(start, rounds, step);
      LastStartBounds(start, rounds[..n], step);
      RunHead(start, rounds[..n], true);
    }
  }

  lemma {:induction false} ConfirmedOpportunity(l: Log, start: int, rounds: seq<Round>)
    requires Deferrable(l) && l.block >= 1 && Steps(start, rounds, FORK_CONFIRM + 1)
    ensures HadOpportunity(l, start, rounds, true) <==>
              Window(start) <= l.block && AtLeast(LastStart(start, rounds), l.block + FORK_CONFIRM)
    decreases |rounds|
  {
    if rounds != [] {
      var n := |rounds| - 1;
      StepsSplit(start, rounds, FORK_CONFIRM + 1);
      ConfirmedOpportunity(l, start, rounds[..n]);
      OpportunitySplits(l, start, rounds, true);
      HeldBackOpportunity(l, Head(start, rounds[..n]), rounds[n]);
      LastStartBounds(start, rounds[..n], FORK_CONFIRM + 1);
    }
  }

  /**
   * With fork confirmation on and the head advancing at most FORK_CONFIRM + 1 blocks a round, a held-back log from the
   * starting window on is delivered exactly once, as soon as a round has started FORK_CONFIRM blocks after it.
   */
  lemma ConfirmedDelivery(chain: seq<Log>, start: int, rounds: seq<Round>, c: Change)
    requires WellFormed(chain) && Honest(chain, start, rounds) && c.log in chain && c in ChangesOf(c.log)
    requires Unrivalled(chain, c.log) && Deferrable(c.log) && Steps(start, rounds, FORK_CONFIRM + 1)
    ensures Deliveries(Run(start, rounds, true), c) ==
            if Window(start) <= c.log.block && AtLeast(LastStart(start, rounds), c.log.block + FORK_CONFIRM) then 1
              else 0
  {
    AloneDeliveredIff(chain, start, rounds, true, c);
    ConfirmedOpportunity(c.log, start, rounds);
  }

  /** The bound is tight: one jump over the whole delivery window loses the log for good, whatever follows. */
  lemma {:induction false} JumpLosesLog(chain: seq<Log>, start: int, rounds: seq<Round>, c: Change)
    requires WellFormed(chain) && Honest(chain, start, rounds) && c.log in chain && c in ChangesOf(c.log)
    requires Deferrable(c.log) && c.log.block + FORK_CONFIRM - 1 == start
    requires |rounds| >= 1 && rounds[0].head - start >= FORK_CONFIRM + 2 && rounds[0].reply.Some?
    ensures Deliveries(Run(start, rounds, true), c) == 0
  {
    forall i | 0 <= i < |rounds|
      ensures !Opportunity(c.log, Head(start, rounds[..i]), rounds[i], true)
    {
      HeldBackOpportunity(c.log, Head(start, rounds[..i]), rounds[i]);
      if i > 0 {
        HeadAfterFirst(start, rounds[..i]);
      }
    }
    forall i | 0 <= i < |rounds| ensures Chance(chain, c.log, start, rounds, i, true) != Some(c.log) {
      FreeFacts(chain, EventIdOf(c.log), Head(start, rounds[..i]), true);
    }
    DeliveredOnceIff(chain, start, rounds, true, c);
  }

  lemma {:induction false} HeadAfterFirst(start: int, rounds: seq<Round>)
    requires |rounds| >= 1 && rounds[0].head > start && rounds[0].reply.Some?
    ensures Head(start, rounds) >= rounds[0].head
    decreases |rounds|
  {
    if |rounds| > 1 {
      HeadAfterFirst(start, rounds[..|rounds| - 1]);
    } else {
      assert rounds[..0] == [];
    }
  }
}

/**
 * The polling loop that turns contract logs into ordered state changes: blockchain/events.go,
 * blockchain/statechangesort.go.
 */
module EventPump {
  import opened Primitives

  datatype EventName =
    | TokenNetworkCreated | SecretRevealed | OpenedAndDeposit | NewDeposit | Withdraw | Closed
    | Punished | Unlocked | ProofUpdated | Settled | CooperativeSettled | Unknown

  /** `content` stands for the decoded fields. */
  datatype Log = Log(tx: nat, index: nat, block: int, name: EventName, content: nat)

  /** 24 bytes of the transaction hash and one byte of the log index. */
  datatype EventId = EventId(txPrefix: nat, index: nat)

  function TxPrefix(l: Log): nat { l.tx / UINT64 }

  function EventIdOf(l: Log): EventId { EventId(TxPrefix(l), l.index % 256) }

  /** A state change is a log, or the second half of an open-and-deposit log. */
  datatype Change = Change(log: Log, second: bool)

  function ChangesOf(l: Log): seq<Change> {
    if l.name == Unknown then []
    else if l.name == OpenedAndDeposit then [Change(l, false), Change(l, true)]
    else [Change(l, false)]
  }

  // ---------- Selecting ----------

  /** needConfirm, and the same delay for revealed secrets. */
  predicate Deferrable(l: Log) {
    l.name in {OpenedAndDeposit, NewDeposit, Withdraw, SecretRevealed}
  }

  predicate Skipped(l: Log, done: map<EventId, int>) {
    EventIdOf(l) in done && done[EventIdOf(l)] == l.block
  }

  predicate Deferred(l: Log, last: int, confirm: bool) {
    confirm && Deferrable(l) && last - l.block < FORK_CONFIRM
  }

  datatype Selection = Selection(changes: seq<Change>, done: map<EventId, int>)

  function SelectOne(s: Selection, l: Log, last: int, confirm: bool): Selection {
    if Skipped(l, s.done) || Deferred(l, last, confirm) then s
    else Selection(s.changes + ChangesOf(l), s.done[EventIdOf(l) := l.block])
  }

  /** The changes that a batch of logs gives, and the record of what was handled. */
  function Select(logs: seq<Log>, done: map<EventId, int>, last: int, confirm: bool): Selection
    decreases |logs|
  {
    if logs == [] then Selection([], done)
    else SelectOne(Select(logs[..|logs| - 1], done, last, confirm), logs[|logs| - 1], last, confirm)
  }

  /** First block of the re-queried window. */
  function Window(last: int): int {
    if last - 2 * FORK_CONFIRM < 0 then 0 else last - 2 * FORK_CONFIRM
  }

  function Prune(done: map<EventId, int>, window: int): map<EventId, int> {
    map id | id in done && done[id] > window :: done[id]
  }

  // ---------- Sorting ----------

  function Insert(c: Change, s: seq<Change>): seq<Change>
    decreases |s|
  {
    if s == [] || c.log.block <= s[0].log.block then [c] + s else [s[0]] + Insert(c, s[1..])
  }

  function SortByBlock(s: seq<Change>): seq<Change>
    decreases |s|
  {
    if s == [] then [] else Insert(s[0], SortByBlock(s[1..]))
  }

  predicate Sorted(s: seq<Change>) {
    forall i, j :: 0 <= i < j < |s| ==> s[i].log.block <= s[j].log.block
  }

  /** The changes of one block, in order. */
  function AtBlock(s: seq<Change>, block: int): seq<Change>
    decreases |s|
  {
    if s == [] then []
    else (if s[0].log.block == block then [s[0]] else []) + AtBlock(s[1..], block)
  }

  lemma {:induction false} InsertIsPermutation(c: Change, s: seq<Change>)
    ensures multiset(Insert(c, s)) == multiset{c} + multiset(s)
    decreases |s|
  {
    if s != [] && c.log.block > s[0].log.block {
      InsertIsPermutation(c, s[1..]);
      assert s == [s[0]] + s[1..];
    }
  }

  lemma {:induction false} InsertKeepsSorted(c: Change, s: seq<Change>)
    requires Sorted(s)
    ensures Sorted(Insert(c, s))
    decreases |s|
  {
    if s != [] && c.log.block > s[0].log.block {
      InsertKeepsSorted(c, s[1..]);
      InsertIsPermutation(c, s[1..]);
      var t := Insert(c, s[1..]);
      forall i | 0 <= i < |t| ensures s[0].log.block <= t[i].log.block {
        assert t[i] in multiset(t);
        assert t[i] == c || t[i] in s[1..];
      }
    }
  }

  lemma {:induction false} InsertKeepsBlocks(c: Change, s: seq<Change>, block: int)
    requires Sorted(s)
    ensures AtBlock(Insert(c, s), block) == (if c.log.block == block then [c] else []) + AtBlock(s, block)
    decreases |s|
  {
    if s != [] && c.log.block > s[0].log.block {
      InsertKeepsBlocks(c, s[1..], block);
      assert Insert(c, s)[1..] == Insert(c, s[1..]);
      if c.log.block == block {
        assert s[0].log.block != block;
      }
    } else {
      assert ([c] + s)[1..] == s;
    }
  }

  /** The sort is a sort, and it is stable: within one block the order is the order of arrival. */
  lemma {:induction false} SortIsStable(s: seq<Change>, block: int)
    ensures Sorted(SortByBlock(s)) && multiset(SortByBlock(s)) == multiset(s)
    ensures AtBlock(SortByBlock(s), block) == AtBlock(s, block)
    decreases |s|
  {
    if s != [] {
      SortIsStable(s[1..], block);
      InsertIsPermutation(s[0], SortByBlock(s[1..]));
      InsertKeepsSorted(s[0], SortByBlock(s[1..]));
      InsertKeepsBlocks(s[0], SortByBlock(s[1..]), block);
      assert s == [s[0]] + s[1..];
    }
  }

  // ---------- What is sent to the node ----------

  datatype Output = Tick(block: int) | Sent(change: Change) | HistoryComplete(block: int)

  function LastBlock(s: seq<Change>): int {
    if s == [] then 0 else s[|s| - 1].log.block
  }

  /** A tick before the first change of every block. */
  function Interleave(s: seq<Change>): seq<Output>
    decreases |s|
  {
    if s == [] then []
    else
      var before := s[..|s| - 1];
      var c := s[|s| - 1];
      Interleave(before) + (if c.log.block != LastBlock(before) then [Tick(c.log.block), Sent(c)] else [Sent(c)])
  }

  function Completion(first: bool, block: int): seq<Output> {
    if first then [HistoryComplete(block)] else []
  }

  function RoundOutput(sorted: seq<Change>, head: int, first: bool): seq<Output> {
    Interleave(sorted) + Completion(first, head) + (if LastBlock(sorted) != head then [Tick(head)] else [])
  }

  // ---------- The polling object ----------

  /** `startUp` is the block the loop began at, until it has been reported once more. */
  datatype Pump = Pump(last: int, startUp: int, done: map<EventId, int>, first: bool, sent: seq<Output>)

  /** One round: the chain's head, and the answer to the log query when there is one. */
  datatype Round = Round(head: int, reply: Option<seq<Log>>)

  predicate Advances(p: Pump, r: Round) { p.last < r.head && r.reply.Some? }

  function Idle(p: Pump, r: Round): Pump {
    var again := p.last >= r.head && p.startUp >= r.head;
    p.(startUp := if again then 0 else p.startUp,
       first := false,
       sent := p.sent + (if again then [Tick(p.last)] else []) + Completion(p.first, p.last))
  }

  function Advance(p: Pump, head: int, logs: seq<Log>, confirm: bool): Pump {
    var s := Select(logs, p.done, p.last, confirm);
    p.(last := head,
       done := Prune(s.done, Window(p.last)),
       first := false,
       sent := p.sent + RoundOutput(SortByBlock(s.changes), head, p.first))
  }

  function OneRound(p: Pump, r: Round, confirm: bool): Pump {
    if Advances(p, r) then Advance(p, r.head, r.reply.value, confirm) else Idle(p, r)
  }

  function StartAt(last: int): Pump { Pump(last, last, map[], true, [Tick(last)]) }

  class Events {
    const confirm: bool
    var lastBlockNumber: int
    var startUpBlockNumber: int
    var txDone: map<EventId, int>
    var firstStart: bool
    var stateChangeChannel: seq<Output>

    function View(): Pump
      reads this
    {
      Pump(lastBlockNumber, startUpBlockNumber, txDone, firstStart, stateChangeChannel)
    }

    constructor (confirm: bool, last: int)
      ensures this.confirm == confirm && View() == StartAt(last)
    {
      this.confirm := confirm;
      lastBlockNumber, startUpBlockNumber := last, last;
      txDone, firstStart, stateChangeChannel := map[], true, [Tick(last)];
    }

    method Send(o: Output)
      modifies this`stateChangeChannel
      ensures stateChangeChannel == old(stateChangeChannel) + [o]
    {
      stateChangeChannel := stateChangeChannel + [o];
    }

    method NotifyStartupCompleteIfNeeded(current: int)
      modifies this`stateChangeChannel, this`firstStart
      ensures !firstStart && stateChangeChannel == old(stateChangeChannel) + Completion(old(firstStart), current)
    {
      if firstStart {
        firstStart := false;
        Send(HistoryComplete(current));
      }
    }

    method ParseLogsToEvents(logs: seq<Log>) returns (changes: seq<Change>)
      modifies this`txDone
      ensures Selection(changes, txDone) == Select(logs, old(txDone), lastBlockNumber, confirm)
    {
      changes := [];
      for i := 0 to |logs|
        invariant Selection(changes, txDone) == Select(logs[..i], old(txDone), lastBlockNumber, confirm)
      {
        var l := logs[i];
        assert logs[..i + 1][..i] == logs[..i];
        if Skipped(l, txDone) || Deferred(l, lastBlockNumber, confirm) {
          continue;
        }
        changes := changes + ChangesOf(l);
        txDone := txDone[EventIdOf(l) := l.block];
      }
      assert logs[..|logs|] == logs;
    }

    method SendStateChanges(changes: seq<Change>) returns (last: int)
      modifies this`stateChangeChannel
      ensures stateChangeChannel == old(stateChangeChannel) + Interleave(changes) && last == LastBlock(changes)
    {
      last := 0;
      for i := 0 to |changes|
        invariant stateChangeChannel == old(stateChangeChannel) + Interleave(changes[..i])
        invariant last == LastBlock(changes[..i])
      {
        assert changes[..i + 1][..i] == changes[..i];
        var c := changes[i];
        if c.log.block != last {
          Send(Tick(c.log.block));
          last := c.log.block;
        }
        Send(Sent(c));
      }
      assert changes[..|changes|] == changes;
    }

    method SendRound(sorted: seq<Change>, head: int)
      modifies this`stateChangeChannel, this`firstStart
      ensures !firstStart && stateChangeChannel == old(stateChangeChannel) + RoundOutput(sorted, head, old(firstStart))
    {
      var lastSend := SendStateChanges(sorted);
      NotifyStartupCompleteIfNeeded(head);
      if lastSend != head {
        Send(Tick(head));
      }
    }

    /** The query has answered: handle the logs and move to the new head. */
    method HandleNewHead(head: int, logs: seq<Log>)
      modifies this
      ensures View() == Advance(old(View()), head, logs, confirm)
    {
      var from := Window(lastBlockNumber);
      var changes := ParseLogsToEvents(logs);
      var sorted := SortByBlock(changes);
      lastBlockNumber := head;
      SendRound(sorted, head);
      txDone := Prune(txDone, from);
    }

    /** The body of the loop of startAlarmTask. */
    method AlarmRound(r: Round)
      modifies this
      ensures View() == OneRound(old(View()), r, confirm)
    {
      if lastBlockNumber >= r.head {
        if startUpBlockNumber >= r.head {
          Send(Tick(lastBlockNumber));
          startUpBlockNumber := 0;
        }
        NotifyStartupCompleteIfNeeded(lastBlockNumber);
      } else if r.reply.None? {
        NotifyStartupCompleteIfNeeded(lastBlockNumber);
      } else {
        HandleNewHead(r.head, r.reply.value);
      }
    }
  }
}

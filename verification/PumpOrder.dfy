/**
 * What else the polling loop promises: one completion notice, bounded memory, and the order of an opening and its
 * deposit.
 */
module PumpOrder {
  import opened Primitives
  import opened EventPump
  import opened PumpDelivery

  // ---------- The completion notice ----------

  predicate IsNotice(o: Output) { o.HistoryComplete? }

  function Notices(sent: seq<Output>): nat
    decreases |sent|
  {
    if sent == [] then 0 else Notices(sent[..|sent| - 1]) + (if IsNotice(sent[|sent| - 1]) then 1 else 0)
  }

  lemma {:induction false} NoticesAppend(a: seq<Output>, b: seq<Output>)
    ensures Notices(a + b) == Notices(a) + Notices(b)
    decreases |b|
  {
    if b == [] {
      assert a + b == a;
    } else {
      assert (a + b)[..|a + b| - 1] == a + b[..|b| - 1];
      NoticesAppend(a, b[..|b| - 1]);
    }
  }

  lemma {:induction false} InterleaveNotices(s: seq<Change>)
    ensures Notices(Interleave(s)) == 0
    decreases |s|
  {
    if s != [] {
      InterleaveNotices(s[..|s| - 1]);
      var c := s[|s| - 1];
      var tail := if c.log.block != LastBlock(s[..|s| - 1]) then [Tick(c.log.block), Sent(c)] else [Sent(c)];
      NoNotices(tail);
      NoticesAppend(Interleave(s[..|s| - 1]), tail);
    }
  }

  lemma {:induction false} NoNotices(s: seq<Output>)
    requires forall i :: 0 <= i < |s| ==> !IsNotice(s[i])
    ensures Notices(s) == 0
    decreases |s|
  {
    if s != [] {
      NoNotices(s[..|s| - 1]);
    }
  }

  lemma CompletionNotices(first: bool, block: int)
    ensures Notices(Completion(first, block)) == if first then 1 else 0
  {
    if first {
      assert Completion(first, block)[..0] == [];
    }
  }

  lemma RoundNotices(p: Pump, r: Round, confirm: bool)
    ensures Notices(OneRound(p, r, confirm).sent) == Notices(p.sent) + (if p.first then 1 else 0)
    ensures !OneRound(p, r, confirm).first
  {
    if Advances(p, r) {
      var s := SortByBlock(Select(r.reply.value, p.done, p.last, confirm).changes);
      var tick := if LastBlock(s) != r.head then [Tick(r.head)] else [];
      InterleaveNotices(s);
      CompletionNotices(p.first, r.head);
      NoNotices(tick);
      NoticesAppend(Interleave(s), Completion(p.first, r.head));
      NoticesAppend(Interleave(s) + Completion(p.first, r.head), tick);
      NoticesAppend(p.sent, RoundOutput(s, r.head, p.first));
    } else {
      var again := if p.last >= r.head && p.startUp >= r.head then [Tick(p.last)] else [];
      CompletionNotices(p.first, p.last);
      NoNotices(again);
      NoticesAppend(p.sent, again);
      NoticesAppend(p.sent + again, Completion(p.first, p.last));
    }
  }

  /** The node is told exactly once that the history is complete, in the first round, whatever comes of it. */
  lemma {:induction false} OneNotice(start: int, rounds: seq<Round>, confirm: bool)
    ensures Notices(Run(start, rounds, confirm).sent) == if rounds == [] then 0 else 1
    ensures Run(start, rounds, confirm).first <==> rounds == []
    decreases |rounds|
  {
    if rounds == [] {
      assert StartAt(start).sent[..0] == [];
    } else {
      OneNotice(start, rounds[..|rounds| - 1], confirm);
      RoundNotices(Run(start, rounds[..|rounds| - 1], confirm), rounds[|rounds| - 1], confirm);
    }
  }

  // ---------- The start block, again ----------

  /** Some round's head is not above the block the loop started from. */
  predicate Stalled(start: int, rounds: seq<Round>) {
    exists i :: 0 <= i < |rounds| && rounds[i].head <= start
  }

  /**
   * The loop's block is reported again exactly in the first round whose head is not above the start; in every other
   * round without new logs nothing but the completion notice can be sent.
   */
  lemma {:induction false} StartReportedOnce(start: int, rounds: seq<Round>, confirm: bool)
    requires start >= 1 && forall i :: 0 <= i < |rounds| ==> rounds[i].head >= 1
    ensures Run(start, rounds, confirm).startUp == if Stalled(start, rounds) then 0 else start
    ensures rounds != [] ==>
              var n := |rounds| - 1;
              var p, q := Run(start, rounds[..n], confirm), Run(start, rounds, confirm);
              !Advances(p, rounds[n]) ==>
                q.sent == p.sent
                          + (if rounds[n].head <= start && !Stalled(start, rounds[..n]) then [Tick(p.last)] else [])
                          + Completion(p.first, p.last)
    decreases |rounds|
  {
    if rounds != [] {
      var n := |rounds| - 1;
      StartReportedOnce(start, rounds[..n], confirm);
      RunHead(start, rounds[..n], confirm);
      assert Stalled(start, rounds) <==> Stalled(start, rounds[..n]) || rounds[n].head <= start by {
        if i :| 0 <= i < n && rounds[..n][i].head <= start {
          assert rounds[i].head <= start;
        }
        if i :| 0 <= i < |rounds| && rounds[i].head <= start {
          assert i < n ==> rounds[..n][i].head <= start;
        }
      }
    }
  }

  // ---------- Memory ----------

  /** What is remembered after a round lies above the first block that round asked for. */
  lemma MemoryIsPruned(p: Pump, r: Round, confirm: bool, id: EventId)
    requires Advances(p, r) && id in OneRound(p, r, confirm).done
    ensures OneRound(p, r, confirm).done[id] > Window(p.last)
    ensures id in p.done || exists l :: l in r.reply.value && EventIdOf(l) == id && !Deferred(l, p.last, confirm)
  {
    SelectRemembers(r.reply.value, p.done, p.last, confirm, id);
  }

  lemma {:induction false} SelectRemembers(logs: seq<Log>, done: map<EventId, int>, last: int, confirm: bool,
      id: EventId)
    requires id in Select(logs, done, last, confirm).done
    ensures id in done || exists l :: l in logs && EventIdOf(l) == id && !Deferred(l, last, confirm)
    decreases |logs|
  {
    if logs != [] {
      var front, l := logs[..|logs| - 1], logs[|logs| - 1];
      if id in Select(front, done, last, confirm).done {
        SelectRemembers(front, done, last, confirm, id);
      } else {
        assert l in logs && EventIdOf(l) == id;
      }
    }
  }

  // ---------- The changes of each event ----------

  /**
   * An unknown event changes nothing; an open-and-deposit is two changes, the opening first; every other event is one.
   */
  lemma ChangesByName(l: Log)
    ensures ChangesOf(l) ==
            match l.name
            case Unknown => []
            case OpenedAndDeposit => [Change(l, false), Change(l, true)]
            case _ => [Change(l, false)]
  {
  }

  /**
   * Both halves of an opening are delivered, or neither; no other event has a second half, and unknown ones have none.
   */
  lemma HalvesTogether(chain: seq<Log>, start: int, rounds: seq<Round>, confirm: bool, l: Log)
    requires WellFormed(chain) && Honest(chain, start, rounds) && l in chain
    ensures var p := Run(start, rounds, confirm);
            var won := if Wins(chain, l, start, rounds, confirm) then 1 else 0;
            && Deliveries(p, Change(l, false)) == (if l.name == Unknown then 0 else won)
            && Deliveries(p, Change(l, true)) == (if l.name == OpenedAndDeposit then won else 0)
  {
    OnlyOwnChanges(start, rounds, confirm, Change(l, false));
    OnlyOwnChanges(start, rounds, confirm, Change(l, true));
    if l.name != Unknown {
      DeliveredOnceIff(chain, start, rounds, confirm, Change(l, false));
    }
    if l.name == OpenedAndDeposit {
      DeliveredOnceIff(chain, start, rounds, confirm, Change(l, true));
    }
  }

  // ---------- Opening before deposit ----------

  /** Every occurrence of `b` has an occurrence of `a` before it. */
  ghost predicate Leads<T(!new)>(s: seq<T>, a: T, b: T) {
    forall j :: 0 <= j < |s| && s[j] == b ==> exists i :: 0 <= i < j && s[i] == a
  }

  lemma LeadsAppend<T(!new)>(s: seq<T>, t: seq<T>, a: T, b: T)
    requires Leads(s, a, b) && Leads(t, a, b)
    ensures Leads(s + t, a, b)
  {
    forall j | 0 <= j < |s + t| && (s + t)[j] == b ensures exists i :: 0 <= i < j && (s + t)[i] == a {
      if j < |s| {
        var i :| 0 <= i < j && s[i] == a;
        assert (s + t)[i] == a;
      } else {
        var i :| 0 <= i < j - |s| && t[i] == a;
        assert (s + t)[|s| + i] == a;
      }
    }
  }

  lemma {:induction false} SelectLeads(logs: seq<Log>, done: map<EventId, int>, last: int, confirm: bool, l: Log)
    requires l.name == OpenedAndDeposit
    ensures Leads(Select(logs, done, last, confirm).changes, Change(l, false), Change(l, true))
    decreases |logs|
  {
    if logs != [] {
      var front, x := logs[..|logs| - 1], logs[|logs| - 1];
      SelectLeads(front, done, last, confirm, l);
      OwnLeads(x, l);
      LeadsAppend(Select(front, done, last, confirm).changes, ChangesOf(x), Change(l, false), Change(l, true));
    }
  }

  lemma OwnLeads(x: Log, l: Log)
    requires l.name == OpenedAndDeposit
    ensures Leads(ChangesOf(x), Change(l, false), Change(l, true))
  {
    forall j | 0 <= j < |ChangesOf(x)| && ChangesOf(x)[j] == Change(l, true)
      ensures exists i :: 0 <= i < j && ChangesOf(x)[i] == Change(l, false)
    {
      assert x == l && j == 1 && ChangesOf(x)[0] == Change(l, false);
    }
  }

  /** For two changes of one block only that block matters. */
  lemma {:induction false} LeadsInBlock(s: seq<Change>, a: Change, b: Change)
    requires a.log.block == b.log.block
    ensures Leads(s, a, b) <==> Leads(AtBlock(s, b.log.block), a, b)
    decreases |s|
  {
    BlockMembers(s, b.log.block, a);
    if s != [] {
      var t := AtBlock(s[1..], b.log.block);
      LeadsInBlock(s[1..], a, b);
      BlockMembers(s[1..], b.log.block, a);
      BlockMembers(s[1..], b.log.block, b);
      assert s == [s[0]] + s[1..];
      LeadsCons(s[0], s[1..], a, b);
      if s[0].log.block == b.log.block {
        assert AtBlock(s, b.log.block) == [s[0]] + t;
        LeadsCons(s[0], t, a, b);
      } else {
        assert AtBlock(s, b.log.block) == t;
      }
    }
  }

  lemma {:induction false} BlockMembers(s: seq<Change>, block: int, a: Change)
    requires a.log.block == block
    ensures a in AtBlock(s, block) <==> a in s
    decreases |s|
  {
    if s != [] {
      BlockMembers(s[1..], block, a);
      assert s == [s[0]] + s[1..];
    }
  }

  lemma LeadsCons(x: Change, s: seq<Change>, a: Change, b: Change)
    ensures Leads([x] + s, a, b) <==> x != b && (x == a || Leads(s, a, b))
  {
    var t := [x] + s;
    if x != b && (x == a || Leads(s, a, b)) {
      forall j | 0 <= j < |t| && t[j] == b ensures exists i :: 0 <= i < j && t[i] == a {
        if x == a {
          assert t[0] == a;
        } else {
          var i :| 0 <= i < j - 1 && s[i] == a;
          assert t[i + 1] == a;
        }
      }
    }
    if Leads(t, a, b) {
      assert t[0] == x;
      if x != a {
        forall j | 0 <= j < |s| && s[j] == b ensures exists i :: 0 <= i < j && s[i] == a {
          assert t[j + 1] == b;
          var i :| 0 <= i < j + 1 && t[i] == a;
          assert s[i - 1] == a;
        }
      }
    }
  }

  lemma {:induction false} InterleaveLeads(s: seq<Change>, a: Change, b: Change)
    requires Leads(s, a, b)
    ensures Leads(Interleave(s), Sent(a), Sent(b))
    decreases |s|
  {
    if s != [] {
      var front, c := s[..|s| - 1], s[|s| - 1];
      forall j | 0 <= j < |front| && front[j] == b ensures exists i :: 0 <= i < j && front[i] == a {
        var i :| 0 <= i < j && s[i] == a;
        assert front[i] == a;
      }
      InterleaveLeads(front, a, b);
      var u := Interleave(front);
      var tail := if c.log.block != LastBlock(front) then [Tick(c.log.block), Sent(c)] else [Sent(c)];
      if c == b {
        var i :| 0 <= i < |front| && s[i] == a;
        assert front[i] == a;
        InterleaveHolds(front, a);
        FoundThenAny(u, tail, Sent(a), Sent(b));
      } else {
        LeadsAppend(u, tail, Sent(a), Sent(b));
      }
    }
  }

  lemma InterleaveHolds(s: seq<Change>, a: Change)
    requires a in s
    ensures Sent(a) in Interleave(s)
  {
    InterleaveSends(s, a);
    assert a in multiset(s);
    assert Sent(a) in multiset(Interleave(s));
  }

  lemma FoundThenAny<T(!new)>(s: seq<T>, t: seq<T>, a: T, b: T)
    requires Leads(s, a, b) && a in s
    ensures Leads(s + t, a, b)
  {
    var i :| 0 <= i < |s| && s[i] == a;
    forall j | 0 <= j < |s + t| && (s + t)[j] == b ensures exists k :: 0 <= k < j && (s + t)[k] == a {
      if j < |s| {
        var k :| 0 <= k < j && s[k] == a;
        assert (s + t)[k] == a;
      } else {
        assert (s + t)[i] == a;
      }
    }
  }

  lemma RoundLeads(changes: seq<Change>, head: int, first: bool, a: Change, b: Change)
    requires Leads(changes, a, b) && a.log.block == b.log.block
    ensures Leads(RoundOutput(SortByBlock(changes), head, first), Sent(a), Sent(b))
  {
    var s := SortByBlock(changes);
    SortIsStable(changes, b.log.block);
    LeadsInBlock(changes, a, b);
    LeadsInBlock(s, a, b);
    InterleaveLeads(s, a, b);
    var tick := if LastBlock(s) != head then [Tick(head)] else [];
    LeadsAppend(Interleave(s), Completion(first, head), Sent(a), Sent(b));
    LeadsAppend(Interleave(s) + Completion(first, head), tick, Sent(a), Sent(b));
  }

  /**
   * In every run, whatever the rounds: the node learns of an opening before it learns of the deposit that came with it.
   */
  lemma {:induction false} OpeningBeforeDeposit(start: int, rounds: seq<Round>, confirm: bool, l: Log)
    requires l.name == OpenedAndDeposit
    ensures Leads(Run(start, rounds, confirm).sent, Sent(Change(l, false)), Sent(Change(l, true)))
    decreases |rounds|
  {
    if rounds != [] {
      var n := |rounds| - 1;
      var p, r := Run(start, rounds[..n], confirm), rounds[n];
      var a, b := Change(l, false), Change(l, true);
      OpeningBeforeDeposit(start, rounds[..n], confirm, l);
      if Advances(p, r) {
        var changes := Select(r.reply.value, p.done, p.last, confirm).changes;
        SelectLeads(r.reply.value, p.done, p.last, confirm, l);
        RoundLeads(changes, r.head, p.first, a, b);
        LeadsAppend(p.sent, RoundOutput(SortByBlock(changes), r.head, p.first), Sent(a), Sent(b));
      } else {
        var again := if p.last >= r.head && p.startUp >= r.head then [Tick(p.last)] else [];
        LeadsAppend(p.sent, again, Sent(a), Sent(b));
        LeadsAppend(p.sent + again, Completion(p.first, p.last), Sent(a), Sent(b));
      }
    }
  }
}

/**
  The reliable transport for one (receiver, channel) pair: network/protocol.go.
  The network is whatever was ever put on it: a packet may arrive never, once, often, late and out of order.
 */
module Transport {
  import opened Primitives

  datatype Link<M> = Link(
    queued: seq<M>,      // every message ever appended to the sending queue, in order
    waiting: seq<M>,     // the sending queue
    current: Option<M>,  // the message the queue's goroutine is sending
    open: set<M>,        // keys of SentHashesToChannel
    success: set<M>,     // entries whose Success flag is set, with the ack buffered
    packets: set<M>,     // data packets on the network
    acks: set<M>,        // ack packets on the network
    saved: set<M>,       // echo hashes the receiver saved an ack for
    applied: seq<M>)     // what the receiver's handler took, in order

  datatype LinkStep<M> =
    | Enqueue(m: M)            // sendWithResult and processSentMessageState
    | Take                     // the goroutine picks the next message
    | Transmit                 // one round of sendMessage
    | Receive(m: M, handled: bool)  // receiveInternal on a data packet
    | AckArrives(m: M)         // receiveInternal on an ack
    | Complete                 // sendMessage reads its ack channel

  function EmptyLink<M>(): Link<M> {
    Link([], [], None, {}, {}, {}, {}, {}, [])
  }

  function LinkNext<M(==)>(l: Link<M>, step: LinkStep<M>): Link<M> {
    match step
    case Enqueue(m) =>
      if m in l.open then l
      else l.(queued := l.queued + [m], waiting := l.waiting + [m], open := l.open + {m})
    case Take =>
      if l.current.Some? || l.waiting == [] then l
      else l.(current := Some(l.waiting[0]), waiting := l.waiting[1..])
    case Transmit => if l.current.None? then l else l.(packets := l.packets + {l.current.value})
    case Receive(m, handled) =>
      if m !in l.packets then l
      else if m in l.saved then l.(acks := l.acks + {m})
      else if !handled then l
      else l.(applied := l.applied + [m], saved := l.saved + {m}, acks := l.acks + {m})
    case AckArrives(m) =>
      if m in l.acks && m in l.open then l.(success := l.success + {m}) else l
    case Complete =>
      if l.current.None? || l.current.value !in l.success then l
      else l.(current := None, open := l.open - {l.current.value}, success := l.success - {l.current.value})
  }

  // ---------- What was queued, and how far it got ----------

  function Sending<M>(l: Link<M>): seq<M> {
    if l.current.Some? then [l.current.value] else []
  }

  /** Messages whose ack the sender has taken. */
  function Done<M>(l: Link<M>): int {
    |l.queued| - |l.waiting| - |Sending(l)|
  }

  /** The list without the later copies of any message. */
  function Dedup<M(==)>(s: seq<M>): seq<M> {
    if s == [] then []
    else
      var front, last := s[..|s| - 1], s[|s| - 1];
      if last in front then Dedup(front) else Dedup(front) + [last]
  }

  ghost predicate Ordered<M(!new)>(l: Link<M>) {
    && 0 <= Done(l)
    && l.queued[Done(l)..] == Sending(l) + l.waiting
    && Distinct(Sending(l) + l.waiting)
    && (forall m :: m in l.open <==> m in Sending(l) + l.waiting)
  }

  ghost predicate Faithful<M(!new)>(l: Link<M>) {
    && l.success <= l.acks == l.saved
    && (forall m :: m in l.saved <==> m in l.applied)
    && (forall m :: m in l.packets ==> m in l.saved || l.current == Some(m))
  }

  /** The receiver took the completed messages, perhaps also the one being sent, each once. */
  ghost predicate Delivered<M(!new)>(l: Link<M>)
    requires 0 <= Done(l) <= |l.queued|
  {
    var done := l.queued[..Done(l)];
    && (forall m :: m in done ==> m in l.saved)
    && (l.applied == Dedup(done)
        || (l.current.Some? && l.current.value !in done && l.applied == Dedup(done) + [l.current.value]))
  }

  ghost predicate LinkInv<M(!new)>(l: Link<M>) {
    Ordered(l) && Faithful(l) && Delivered(l)
  }

  lemma EmptyLinkInv<M(!new)>()
    ensures LinkInv(EmptyLink<M>())
  {}

  lemma {:induction false} DedupSame<M>(s: seq<M>)
    ensures forall m :: m in Dedup(s) <==> m in s
  {
    if s != [] {
      DedupSame(s[..|s| - 1]);
      assert s == s[..|s| - 1] + [s[|s| - 1]];
    }
  }

  lemma {:induction false} DedupOnce<M(!new)>(s: seq<M>)
    ensures Distinct(Dedup(s))
  {
    if s != [] {
      DedupOnce(s[..|s| - 1]);
      DedupSame(s[..|s| - 1]);
    }
  }

  lemma {:induction false} DedupDistinct<M(!new)>(s: seq<M>)
    requires Distinct(s)
    ensures Dedup(s) == s
  {
    if s != [] {
      var front := s[..|s| - 1];
      DedupDistinct(front);
      assert s == front + [s[|s| - 1]];
    }
  }

  lemma EnqueueKeeps<M(!new)>(l: Link<M>, m: M)
    requires LinkInv(l)
    ensures LinkInv(LinkNext(l, Enqueue(m)))
  {
    var r := LinkNext(l, Enqueue(m));
    if m !in l.open {
      assert r.queued[Done(r)..] == l.queued[Done(l)..] + [m];
      assert Sending(r) + r.waiting == (Sending(l) + l.waiting) + [m];
      assert r.queued[..Done(r)] == l.queued[..Done(l)];
    }
  }

  lemma TakeKeeps<M(!new)>(l: Link<M>)
    requires LinkInv(l)
    ensures LinkInv(LinkNext(l, Take))
  {
    var r := LinkNext(l, Take);
    assert Sending(r) + r.waiting == Sending(l) + l.waiting;
  }

  lemma ReceiveKeeps<M(!new)>(l: Link<M>, m: M, handled: bool)
    requires LinkInv(l)
    ensures LinkInv(LinkNext(l, Receive(m, handled)))
    ensures m in l.packets && m !in l.saved ==>
              l.current == Some(m) && m !in l.queued[..Done(l)] && l.applied == Dedup(l.queued[..Done(l)])
  {
    DedupSame(l.queued[..Done(l)]);
  }

  /** Taking the ack of the current message moves it to the completed ones. */
  lemma CompleteMoves<M(!new)>(l: Link<M>)
    requires LinkInv(l) && l.current.Some? && l.current.value in l.success
    ensures var r := LinkNext(l, Complete);
            && Done(r) == Done(l) + 1
            && r.queued[..Done(r)] == l.queued[..Done(l)] + [l.current.value]
            && r.queued[Done(r)..] == l.waiting
            && l.current.value in l.applied
  {
    var m := l.current.value;
    assert Sending(l) + l.waiting == [m] + l.waiting;
    assert l.queued[Done(l)] == l.queued[Done(l)..][0] == m;
    assert l.queued[Done(l) + 1..] == l.queued[Done(l)..][1..];
  }

  lemma DistinctTail<M(!new)>(m: M, rest: seq<M>)
    requires Distinct([m] + rest)
    ensures Distinct(rest) && m !in rest
  {
    forall i, j | 0 <= i < j < |rest| ensures rest[i] != rest[j] {
      assert ([m] + rest)[i + 1] == rest[i] && ([m] + rest)[j + 1] == rest[j];
    }
    forall i | 0 <= i < |rest| ensures rest[i] != m {
      assert ([m] + rest)[0] != ([m] + rest)[i + 1];
    }
  }

  lemma CompleteOrdered<M(!new)>(l: Link<M>)
    requires LinkInv(l) && l.current.Some? && l.current.value in l.success
    ensures Ordered(LinkNext(l, Complete))
  {
    var r := LinkNext(l, Complete);
    CompleteMoves(l);
    assert Sending(r) + r.waiting == l.waiting;
    assert Sending(l) + l.waiting == [l.current.value] + l.waiting;
    DistinctTail(l.current.value, l.waiting);
  }

  lemma CompleteDelivered<M(!new)>(l: Link<M>)
    requires LinkInv(l) && l.current.Some? && l.current.value in l.success
    ensures Done(LinkNext(l, Complete)) <= |l.queued| && Delivered(LinkNext(l, Complete))
  {
    var done, m := l.queued[..Done(l)], l.current.value;
    CompleteMoves(l);
    DedupSame(done);
    assert (done + [m])[..|done|] == done;
  }

  lemma CompleteKeeps<M(!new)>(l: Link<M>)
    requires LinkInv(l)
    ensures LinkInv(LinkNext(l, Complete))
  {
    var r := LinkNext(l, Complete);
    if r != l {
      CompleteOrdered(l);
      CompleteDelivered(l);
    }
  }

  lemma LinkNextKeeps<M(!new)>(l: Link<M>, step: LinkStep<M>)
    requires LinkInv(l)
    ensures LinkInv(LinkNext(l, step))
  {
    match step {
      case Enqueue(m) => EnqueueKeeps(l, m);
      case Take => TakeKeeps(l);
      case Transmit =>
      case Receive(m, handled) => ReceiveKeeps(l, m, handled);
      case AckArrives(_) =>
      case Complete => CompleteKeeps(l);
    }
  }

  function LinkReach<M(==)>(l: Link<M>, steps: seq<LinkStep<M>>): Link<M>
    decreases |steps|
  {
    if steps == [] then l else LinkReach(LinkNext(l, steps[0]), steps[1..])
  }

  lemma {:induction false} LinkReachKeeps<M(!new)>(l: Link<M>, steps: seq<LinkStep<M>>)
    requires LinkInv(l)
    ensures LinkInv(LinkReach(l, steps))
    decreases |steps|
  {
    if steps != [] {
      LinkNextKeeps(l, steps[0]);
      LinkReachKeeps(LinkNext(l, steps[0]), steps[1..]);
    }
  }

  /** How many queued messages the receiver has accounted for: the acked ones, and perhaps the one being sent. */
  function Covered<M(==)>(l: Link<M>): int {
    if l.current.Some? && l.current.value in l.saved then Done(l) + 1 else Done(l)
  }

  /**
    Whatever the network does, the receiver takes the queued messages in order, each exactly once:
    its list is the queue up to the current message without repeats.
   */
  lemma DeliveredInOrderOnce<M(!new)>(steps: seq<LinkStep<M>>)
    ensures var l := LinkReach(EmptyLink<M>(), steps);
            && 0 <= Covered(l) <= |l.queued|
            && l.applied == Dedup(l.queued[..Covered(l)])
            && Distinct(l.applied)
            && (Distinct(l.queued) ==> l.applied == l.queued[..Covered(l)])
  {
    EmptyLinkInv<M>();
    LinkReachKeeps(EmptyLink<M>(), steps);
    CoveredIsApplied(LinkReach(EmptyLink<M>(), steps));
  }

  lemma CoveredPrefix<M(!new)>(l: Link<M>)
    requires LinkInv(l)
    ensures Done(l) <= Covered(l) <= |l.queued|
    ensures l.applied == Dedup(l.queued[..Covered(l)])
  {
    var done := l.queued[..Done(l)];
    DedupSame(done);
    if Covered(l) == Done(l) + 1 {
      var m := l.current.value;
      assert l.queued[Done(l)] == l.queued[Done(l)..][0] == m;
      assert l.queued[..Done(l) + 1] == done + [m];
      assert (done + [m])[..|done|] == done;
    }
  }

  lemma CoveredIsApplied<M(!new)>(l: Link<M>)
    requires LinkInv(l)
    ensures Done(l) <= Covered(l) <= |l.queued|
    ensures l.applied == Dedup(l.queued[..Covered(l)]) && Distinct(l.applied)
    ensures Distinct(l.queued) ==> l.applied == l.queued[..Covered(l)] && |l.applied| == Covered(l)
  {
    CoveredPrefix(l);
    DedupOnce(l.queued[..Covered(l)]);
    if Distinct(l.queued) {
      DistinctPrefix(l.queued, Covered(l));
      DedupDistinct(l.queued[..Covered(l)]);
    }
  }

  lemma DistinctPrefix<M(!new)>(s: seq<M>, n: nat)
    requires Distinct(s) && n <= |s|
    ensures Distinct(s[..n])
  {
    forall i, j | 0 <= i < j < n ensures s[..n][i] != s[..n][j] {
      assert s[..n][i] == s[i] && s[..n][j] == s[j];
    }
  }

  /**
   * Stop and wait: whatever is on the network is acked already or is the one message being sent; all messages sent
   * before that one are acked, in the order of the queue; and acks come only from messages the receiver's handler took.
   */
  lemma OneAheadOfAcks<M(!new)>(steps: seq<LinkStep<M>>, m: M)
    ensures var l := LinkReach(EmptyLink<M>(), steps);
            && 0 <= Done(l) <= |l.queued|
            && (m in l.packets ==> m in l.acks || l.current == Some(m))
            && (m in l.queued[..Done(l)] ==> m in l.acks)
            && l.queued[Done(l)..] == Sending(l) + l.waiting
            && (m in l.acks <==> m in l.applied)
  {
    EmptyLinkInv<M>();
    LinkReachKeeps(EmptyLink<M>(), steps);
    CoveredIsApplied(LinkReach(EmptyLink<M>(), steps));
  }

  // ---------- Nothing gets stuck ----------

  lemma {:induction false} LinkReachAppend<M(!new)>(l: Link<M>, a: seq<LinkStep<M>>, b: seq<LinkStep<M>>)
    ensures LinkReach(l, a + b) == LinkReach(LinkReach(l, a), b)
    decreases |a|
  {
    if a == [] {
      assert a + b == b;
    } else {
      assert (a + b)[1..] == a[1..] + b;
      LinkReachAppend(LinkNext(l, a[0]), a[1..], b);
    }
  }

  /** The current message goes out, is handled, acked and completed. */
  function Round<M(==)>(l: Link<M>, m: M): Link<M> {
    LinkNext(LinkNext(LinkNext(LinkNext(l, Transmit), Receive(m, true)), AckArrives(m)), Complete)
  }

  lemma RoundCompletes<M(!new)>(l: Link<M>)
    requires LinkInv(l) && l.current.Some?
    ensures var r := Round(l, l.current.value);
            LinkInv(r) && r.current == None && r.waiting == l.waiting && r.queued == l.queued
  {
    var m := l.current.value;
    var l1 := LinkNext(l, Transmit);
    var l2 := LinkNext(l1, Receive(m, true));
    var l3 := LinkNext(l2, AckArrives(m));
    LinkNextKeeps(l, Transmit);
    LinkNextKeeps(l1, Receive(m, true));
    LinkNextKeeps(l2, AckArrives(m));
    LinkNextKeeps(l3, Complete);
    assert (Sending(l) + l.waiting)[0] == m;
    assert m in l2.acks && m in l2.open;
  }

  lemma LinkReachCons<M(!new)>(l: Link<M>, step: LinkStep<M>, rest: seq<LinkStep<M>>)
    ensures LinkReach(l, [step] + rest) == LinkReach(LinkNext(l, step), rest)
  {
    assert ([step] + rest)[1..] == rest;
  }

  function RoundSteps<M>(m: M): seq<LinkStep<M>> {
    [Transmit] + ([Receive(m, true)] + ([AckArrives(m)] + ([Complete] + [])))
  }

  lemma RoundReached<M(!new)>(l: Link<M>, m: M)
    ensures LinkReach(l, RoundSteps(m)) == Round(l, m)
  {
    var l1 := LinkNext(l, Transmit);
    var l2 := LinkNext(l1, Receive(m, true));
    var l3 := LinkNext(l2, AckArrives(m));
    LinkReachCons(l, Transmit, [Receive(m, true)] + ([AckArrives(m)] + ([Complete] + [])));
    LinkReachCons(l1, Receive(m, true), [AckArrives(m)] + ([Complete] + []));
    LinkReachCons(l2, AckArrives(m), [Complete] + []);
    LinkReachCons(l3, Complete, []);
  }

  /**
   * From every reachable link the network can still carry everything: all that was queued is taken, acked and
   * completed.
   */
  lemma {:induction false} CanDrain<M(!new)>(l: Link<M>) returns (steps: seq<LinkStep<M>>)
    requires LinkInv(l)
    ensures var r := LinkReach(l, steps);
            r.queued == l.queued && r.waiting == [] && r.current == None && r.applied == Dedup(l.queued)
    decreases |l.waiting|, if l.current.Some? then 1 else 0
  {
    if l.current.Some? {
      var m := l.current.value;
      RoundCompletes(l);
      RoundReached(l, m);
      var rest := CanDrain(Round(l, m));
      steps := RoundSteps(m) + rest;
      LinkReachAppend(l, RoundSteps(m), rest);
    } else if l.waiting != [] {
      LinkNextKeeps(l, Take);
      var rest := CanDrain(LinkNext(l, Take));
      steps := [Take] + rest;
      LinkReachCons(l, Take, rest);
    } else {
      steps := [];
      CoveredIsApplied(l);
      assert l.queued[..Done(l)] == l.queued;
    }
  }
}

/**
 * The maker of a token swap and its hooks: tokenSwapMaker and sendAsync of photonService.go, onMessage of
 * messagehandler.go.
 */
module TokenSwaps {
  import opened Primitives

  datatype Swap = Swap(hash: SecretHash, fromToken: Address, fromAmount: int, toToken: Address, toAmount: int,
    maker: Address, taker: Address)

  /** A mediated transfer as the hooks look at it. */
  datatype Transfer = Transfer(hash: SecretHash, token: Address, target: Address, amount: int)

  predicate MakersTransfer(s: Swap, t: Transfer) {
    t.hash == s.hash && t.token == s.fromToken && t.target == s.taker && t.amount == s.fromAmount
  }

  predicate TakersTransfer(s: Swap, t: Transfer) {
    t.hash == s.hash && t.token == s.toToken && t.target == s.maker && t.amount == s.toAmount
  }

  /**
   * The variables the three closures share (`captured` is the hash of the last transfer sent, `received` the flag),
   * which of them are registered, and whether the initiator's state manager for the hash exists.
   */
  datatype Maker = Maker(captured: bool, received: bool, sentHook: bool, receivedHook: bool, guarded: bool,
    managed: bool)

  datatype Event =
    | Begin(first: Option<Transfer>)              // tokenSwapMaker; with a route, `first` is sent at once
    | Send(sent: Transfer)                        // any later transfer of the node
    | Receive(got: Transfer, accepted: bool)      // a transfer from a peer, and whether the channel took it
    | Ask(hash: SecretHash)                       // a secret request
    | AllowReveal(allowed: SecretHash)            // the user's own order

  const IDLE := Maker(false, false, false, false, false, false)

  function OnSend(s: Swap, k: Maker, t: Transfer): Maker {
    if k.sentHook && MakersTransfer(s, t) then k.(captured := true, guarded := true) else k
  }

  function OnReceive(s: Swap, k: Maker, t: Transfer): Maker {
    if k.receivedHook && k.captured
      && TakersTransfer(s, t) then k.(received := true, sentHook := false, receivedHook := false) else k
  }

  /** Whether the request reaches the state manager of the swap. */
  predicate Through(s: Swap, k: Maker, hash: SecretHash) {
    hash == s.hash && k.managed && (k.guarded ==> k.received)
  }

  function AfterEvent(s: Swap, k: Maker, e: Event): Maker {
    match e
    case Begin(first) =>
      if k.managed then k
      else
        var hooked := k.(sentHook := true, receivedHook := true);
        if first.None? then hooked else OnSend(s, hooked.(managed := true), first.value)
    case Send(t) => OnSend(s, k, t)
    case Receive(t, accepted) => if accepted then OnReceive(s, k, t) else k
    case Ask(hash) => if hash == s.hash && k.guarded && k.received then k.(guarded := false) else k
    case AllowReveal(hash) => if hash == s.hash && k.managed then k.(guarded := false) else k
  }

  function AfterEvents(s: Swap, es: seq<Event>): Maker
    decreases |es|
  {
    if es == [] then IDLE else AfterEvent(s, AfterEvents(s, es[..|es| - 1]), es[|es| - 1])
  }

  class SwapMaker {
    const swap: Swap
    var captured: bool
    var hasReceiveTakerMediatedTransfer: bool
    var sentHook: bool
    var receivedHook: bool
    var guarded: bool
    var managed: bool

    function View(): Maker
      reads this
    {
      Maker(captured, hasReceiveTakerMediatedTransfer, sentHook, receivedHook, guarded, managed)
    }

    constructor (swap: Swap)
      ensures this.swap == swap && View() == IDLE
    {
      this.swap := swap;
      captured, hasReceiveTakerMediatedTransfer, sentHook, receivedHook, guarded, managed := false, false, false, false,
        false, false;
    }

    method SendAsync(t: Transfer)
      modifies this
      ensures View() == OnSend(swap, old(View()), t)
    {
      if sentHook && MakersTransfer(swap, t) {
        if captured {
          guarded := false;
        }
        captured := true;
        guarded := true;
      }
    }

    method TokenSwapMaker(first: Option<Transfer>)
      modifies this
      ensures View() == AfterEvent(swap, old(View()), Begin(first))
    {
      if managed {
        return;
      }
      sentHook, receivedHook := true, true;
      if first.Some? {
        managed := true;
        SendAsync(first.value);
      }
    }

    method OnMediatedTransfer(t: Transfer, accepted: bool)
      modifies this
      ensures View() == AfterEvent(swap, old(View()), Receive(t, accepted))
    {
      if accepted && receivedHook && captured && TakersTransfer(swap, t) {
        hasReceiveTakerMediatedTransfer := true;
        sentHook := false;
        receivedHook := false;
      }
    }

    method OnSecretRequest(hash: SecretHash) returns (through: bool)
      modifies this
      ensures View() == AfterEvent(swap, old(View()), Ask(hash))
      ensures through <==> Through(swap, old(View()), hash)
    {
      if hash != swap.hash {
        return false;
      }
      if guarded {
        if !hasReceiveTakerMediatedTransfer {
          return false;
        }
        guarded := false;
      }
      through := managed;
    }
  }

  // ---------- What the guard guarantees ----------

  /** The maker has been ordered to swap before event i, and has then sent a first transfer. */
  predicate Begun(es: seq<Event>, i: nat)
    requires i <= |es|
  {
    exists j :: 0 <= j < i && es[j].Begin?
  }

  predicate HasSent(es: seq<Event>, i: nat)
    requires i <= |es|
  {
    exists j :: 0 <= j < i && es[j].Begin? && es[j].first.Some?
  }

  /** The swap's own transfer is sent after the order, or as the first one. */
  predicate Arms(s: Swap, es: seq<Event>, i: nat)
    requires i < |es|
  {
    || (es[i].Send? && MakersTransfer(s, es[i].sent) && Begun(es, i))
    || (es[i].Begin? && es[i].first.Some? && MakersTransfer(s, es[i].first.value) && !HasSent(es, i))
  }

  /** The user orders the reveal, and there is a transfer to reveal for. */
  predicate Disarms(s: Swap, es: seq<Event>, i: nat)
    requires i < |es|
  {
    es[i] == AllowReveal(s.hash) && HasSent(es, i)
  }

  ghost predicate StaysArmed(s: Swap, es: seq<Event>) {
    exists i :: 0 <= i < |es| && Arms(s, es, i) && forall j :: i < j < |es| ==> !Disarms(s, es, j)
  }

  lemma PrefixKeeps(s: Swap, es: seq<Event>, i: nat)
    requires es != [] && i < |es|
    ensures Begun(es[..|es| - 1], i) <==> Begun(es, i)
    ensures HasSent(es[..|es| - 1], i) <==> HasSent(es, i)
    ensures i < |es| - 1 ==> (Arms(s, es[..|es| - 1], i) <==> Arms(s, es, i))
    ensures i < |es| - 1 ==> (Disarms(s, es[..|es| - 1], i) <==> Disarms(s, es, i))
  {
    var front := es[..|es| - 1];
    assert forall j :: 0 <= j < |front| ==> front[j] == es[j];
  }

  lemma ArmedSplits(s: Swap, es: seq<Event>)
    requires es != []
    ensures var n := |es| - 1;
            StaysArmed(s, es) <==> Arms(s, es, n) || (StaysArmed(s, es[..n]) && !Disarms(s, es, n))
  {
    var n := |es| - 1;
    forall i | 0 <= i < n
      ensures Arms(s, es[..n], i) <==> Arms(s, es, i)
      ensures Disarms(s, es[..n], i) <==> Disarms(s, es, i)
    {
      PrefixKeeps(s, es, i);
    }
    if StaysArmed(s, es[..n]) && !Disarms(s, es, n) {
      var i :| 0 <= i < n && Arms(s, es[..n], i) && forall j :: i < j < n ==> !Disarms(s, es[..n], j);
      assert Arms(s, es, i);
    }
    if StaysArmed(s, es) && !Arms(s, es, n) {
      var i :| 0 <= i < |es| && Arms(s, es, i) && forall j :: i < j < |es| ==> !Disarms(s, es, j);
      assert i < n && Arms(s, es[..n], i);
    }
  }

  /** The taker's matching transfer, accepted by its channel. */
  predicate TakerPays(s: Swap, e: Event) { e.Receive? && e.accepted && TakersTransfer(s, e.got) }

  ghost predicate ArmedBefore(s: Swap, es: seq<Event>, i: nat)
    requires i <= |es|
  {
    exists j :: 0 <= j < i && Arms(s, es, j)
  }

  /** The taker's transfer was accepted after the maker had sent its own. */
  ghost predicate Paid(s: Swap, es: seq<Event>) {
    exists i :: 0 <= i < |es| && TakerPays(s, es[i]) && ArmedBefore(s, es, i)
  }

  lemma ArmedBeforeSplits(s: Swap, es: seq<Event>)
    requires es != []
    ensures var n := |es| - 1;
            && (ArmedBefore(s, es, n) <==> ArmedBefore(s, es[..n], n))
            && (ArmedBefore(s, es, |es|) <==> ArmedBefore(s, es, n) || Arms(s, es, n))
  {
    var n := |es| - 1;
    forall i | 0 <= i < n ensures Arms(s, es[..n], i) <==> Arms(s, es, i) {
      PrefixKeeps(s, es, i);
    }
  }

  lemma PaidSplits(s: Swap, es: seq<Event>)
    requires es != []
    ensures var n := |es| - 1; Paid(s, es) <==> Paid(s, es[..n]) || (TakerPays(s, es[n]) && ArmedBefore(s, es, n))
  {
    var n := |es| - 1;
    forall i | 0 <= i <= n ensures ArmedBefore(s, es[..n], i) <==> ArmedBefore(s, es, i) {
      ArmedPrefix(s, es, i);
    }
    if Paid(s, es[..n]) {
      var i :| 0 <= i < n && TakerPays(s, es[..n][i]) && ArmedBefore(s, es[..n], i);
      assert TakerPays(s, es[i]) && ArmedBefore(s, es, i);
    }
    if Paid(s, es) && !(TakerPays(s, es[n]) && ArmedBefore(s, es, n)) {
      var i :| 0 <= i < |es| && TakerPays(s, es[i]) && ArmedBefore(s, es, i);
      assert TakerPays(s, es[..n][i]) && ArmedBefore(s, es[..n], i);
    }
  }

  lemma ArmedPrefix(s: Swap, es: seq<Event>, i: nat)
    requires es != [] && i < |es|
    ensures ArmedBefore(s, es[..|es| - 1], i) <==> ArmedBefore(s, es, i)
  {
    var front := es[..|es| - 1];
    if j :| 0 <= j < i && Arms(s, es, j) {
      PrefixKeeps(s, es, j);
      assert Arms(s, front, j);
    }
    if j :| 0 <= j < i && Arms(s, front, j) {
      PrefixKeeps(s, es, j);
      assert Arms(s, es, j);
    }
  }

  /** Until then the maker's state can be read off the events. */
  lemma {:induction false} StateFromEvents(s: Swap, es: seq<Event>)
    requires !Paid(s, es)
    ensures var k := AfterEvents(s, es);
            && !k.received && (k.sentHook <==> Begun(es, |es|)) && (k.receivedHook <==> Begun(es, |es|))
            && (k.managed <==> HasSent(es, |es|)) && (k.captured <==> ArmedBefore(s, es, |es|))
            && (k.guarded <==> StaysArmed(s, es))
    decreases |es|
  {
    if es != [] {
      var n := |es| - 1;
      PaidSplits(s, es);
      StateFromEvents(s, es[..n]);
      PrefixKeeps(s, es, n);
      ArmedSplits(s, es);
      ArmedBeforeSplits(s, es);
      LastEvent(es);
    }
  }

  /** From then on the flag is set, and whether there is a transfer can still be read off the events. */
  lemma {:induction false} PaidMeansReceived(s: Swap, es: seq<Event>)
    requires Paid(s, es)
    ensures var k := AfterEvents(s, es); k.received && (k.managed <==> HasSent(es, |es|))
    decreases |es|
  {
    var n := |es| - 1;
    PaidSplits(s, es);
    PrefixKeeps(s, es, n);
    LastEvent(es);
    if Paid(s, es[..n]) {
      PaidMeansReceived(s, es[..n]);
    } else {
      StateFromEvents(s, es[..n]);
      ArmedBeforeSplits(s, es);
      ArmedMeansBegun(s, es, n);
    }
  }

  lemma ArmedMeansBegun(s: Swap, es: seq<Event>, i: nat)
    requires i <= |es| && ArmedBefore(s, es, i)
    ensures Begun(es, i)
  {
    var j :| 0 <= j < i && Arms(s, es, j);
    if !es[j].Begin? {
      var b :| 0 <= b < j && es[b].Begin?;
      assert 0 <= b < i;
    }
  }

  lemma LastEvent(es: seq<Event>)
    requires es != []
    ensures var n := |es| - 1;
            && (Begun(es, |es|) <==> Begun(es, n) || es[n].Begin?)
            && (HasSent(es, |es|) <==> HasSent(es, n) || (es[n].Begin? && es[n].first.Some?))
  {
  }

  /**
   * In every run: a secret request gets through exactly when the maker has sent a transfer, and either the taker's
   * matching transfer has been accepted after the maker's own was sent, or the guard was never armed, or was disarmed
   * by the user and not armed again.
   */
  lemma RequestThroughIff(s: Swap, es: seq<Event>)
    ensures Through(s, AfterEvents(s, es), s.hash) <==> HasSent(es, |es|) && (Paid(s, es) || !StaysArmed(s, es))
  {
    if Paid(s, es) {
      PaidMeansReceived(s, es);
    } else {
      StateFromEvents(s, es);
    }
  }

  /** An input on which the gate is open: the first transfer carries a fee, and the secret is asked for at once. */
  lemma FeeLeavesGateOpen(s: Swap, fee: int)
    requires fee != 0
    ensures Through(s, AfterEvents(s, [Begin(Some(Transfer(s.hash, s.fromToken, s.taker, s.fromAmount + fee)))]),
        s.hash)
  {
    var es := [Begin(Some(Transfer(s.hash, s.fromToken, s.taker, s.fromAmount + fee)))];
    assert es[0].Begin?;
    RequestThroughIff(s, es);
  }
}

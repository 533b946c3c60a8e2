/**
 * The node's index from lock hashes to channels: photonService.go, and how a restart rebuilds it and groups the locks:
 * restore.go.
 */
module HashIndex {
  import opened Primitives
  import opened Merkle
  import opened Messages
  import opened EndStates
  import opened Channels
  import opened ChannelLaws
  import opened Solvency
  import opened Acceptance

  /** Channels are named by the identity of their objects. */
  type ChanId = nat

  datatype Key = Key(token: Address, hash: SecretHash)

  type Index = map<Key, seq<ChanId>>

  function Listed(index: Index, k: Key): seq<ChanId> {
    if k in index then index[k] else []
  }

  function Add(index: Index, k: Key, id: ChanId): Index {
    if id in Listed(index, k) then index else index[k := Listed(index, k) + [id]]
  }

  function LastPosition(s: seq<ChanId>, id: ChanId): (r: Option<nat>)
    ensures r.Some? ==> r.value < |s| && s[r.value] == id && forall j :: r.value < j < |s| ==> s[j] != id
    ensures r.None? ==> id !in s
    decreases |s|
  {
    if s == [] then None
    else if s[|s| - 1] == id then Some(|s| - 1)
    else LastPosition(s[..|s| - 1], id)
  }

  /**
   * What is left in the stored slice when one element is cut out of the shared array and the shorter slice is thrown
   * away.
   */
  function Shifted(s: seq<ChanId>, i: nat): seq<ChanId>
    requires i < |s|
  {
    s[..i] + s[i + 1..] + [s[|s| - 1]]
  }

  function Cut(index: Index, k: Key, id: ChanId): Index {
    if k !in index then index
    else
      var s := index[k];
      var i := LastPosition(s, id);
      if s == [] || (i.Some? && |s| == 1) then index - {k}
      else if i.None? then index
      else index[k := Shifted(s, i.value)]
  }

  class Service {
    var token2LockSecretHash2Channels: Index

    constructor ()
      ensures token2LockSecretHash2Channels == map[]
    {
      token2LockSecretHash2Channels := map[];
    }

    method RegisterChannelForHashlock(id: ChanId, k: Key)
      modifies this
      ensures token2LockSecretHash2Channels == Add(old(token2LockSecretHash2Channels), k, id)
    {
      var registered := Listed(token2LockSecretHash2Channels, k);
      var found := false;
      for i := 0 to |registered|
        invariant !found && id !in registered[..i]
      {
        if registered[i] == id {
          found := true;
          break;
        }
      }
      if !found {
        assert registered[..|registered|] == registered;
        token2LockSecretHash2Channels := token2LockSecretHash2Channels[k := registered + [id]];
      }
    }

    method RemoveChannelForHashlock(id: ChanId, k: Key)
      modifies this
      ensures token2LockSecretHash2Channels == Cut(old(token2LockSecretHash2Channels), k, id)
    {
      if k !in token2LockSecretHash2Channels {
        return;
      }
      var chs := token2LockSecretHash2Channels[k];
      var index := -1;
      for i := 0 to |chs|
        invariant -1 <= index < i
        invariant LastPosition(chs[..i], id) == if index == -1 then None else Some(index)
      {
        assert chs[..i + 1][..i] == chs[..i];
        if chs[i] == id {
          index := i;
        }
      }
      assert chs[..|chs|] == chs;
      var length := if index >= 0 then |chs| - 1 else |chs|;
      if index >= 0 {
        token2LockSecretHash2Channels := token2LockSecretHash2Channels[k := Shifted(chs, index)];
      }
      if length == 0 {
        token2LockSecretHash2Channels := token2LockSecretHash2Channels - {k};
      }
    }
  }

  lemma AddLists(index: Index, k: Key, id: ChanId, k2: Key, other: ChanId)
    ensures other in Listed(Add(index, k, id), k2) <==> other in Listed(index, k2) || (k2 == k && other == id)
  {
  }

  /** Cutting a channel out never loses another one. */
  lemma CutKeepsOthers(index: Index, k: Key, id: ChanId, k2: Key, other: ChanId)
    requires other in Listed(index, k2) && (k2 != k || other != id)
    ensures other in Listed(Cut(index, k, id), k2)
  {
    if k2 == k {
      var s := index[k];
      var i := LastPosition(s, id);
      if i.Some? && |s| > 1 {
        var j :| 0 <= j < |s| && s[j] == other;
        ShiftedKeeps(s, i.value, j);
      }
    }
  }

  lemma ShiftedKeeps(s: seq<ChanId>, i: nat, j: nat)
    requires i < |s| && j < |s| && j != i
    ensures s[j] in Shifted(s, i)
  {
    if j < i {
      assert Shifted(s, i)[j] == s[j];
    } else {
      assert Shifted(s, i)[j - 1] == s[j];
    }
  }

  /** The list has other entries, and it ends with the channel or names it twice. */
  predicate StaysListed(s: seq<ChanId>, id: ChanId) {
    |s| > 1 && (s[|s| - 1] == id || exists i, j :: 0 <= i < j < |s| && s[i] == id && s[j] == id)
  }

  /** A cut leaves the channel itself listed exactly in that case: the index covers, but it is not exact. */
  lemma CutLeavesStaleIff(index: Index, k: Key, id: ChanId)
    requires id in Listed(index, k)
    ensures id in Listed(Cut(index, k, id), k) <==> StaysListed(index[k], id)
  {
    var s := index[k];
    var i := LastPosition(s, id).value;
    if |s| > 1 {
      if id in Shifted(s, i) {
        var j :| 0 <= j < |s| && Shifted(s, i)[j] == id;
        if j < i {
          assert s[j] == id;
        }
      }
      if s[|s| - 1] == id {
        assert Shifted(s, i)[|s| - 1] == id;
      }
      if x, y :| 0 <= x < y < |s| && s[x] == id && s[y] == id {
        assert x < i;
        assert Shifted(s, i)[x] == id;
      }
    }
  }

  // ---------- The index and the channels ----------

  datatype Node = Node(chans: map<ChanId, Chan>, index: Index)

  predicate Holds(c: Chan, h: SecretHash) { IsKnown(c.our, h) || IsKnown(c.partner, h) }

  /** Every channel with a live lock is listed under the lock's hash. */
  ghost predicate Covers(n: Node) {
    forall id, h :: id in n.chans && Holds(n.chans[id], h) ==> id in Listed(n.index, Key(n.chans[id].token, h))
  }

  ghost predicate OneWay(c: Chan) { forall h :: !(IsKnown(c.our, h) && IsKnown(c.partner, h)) }

  /** A step of one channel, with the index calls its handlers make when a message is accepted. */
  ghost function NodeStep(n: Node, id: ChanId, s: Step): Option<Node>
    requires id in n.chans
  {
    var c := n.chans[id];
    var next := Apply(c, s);
    if next.None? then None
    else
      var m := n.(chans := n.chans[id := next.value]);
      if !Accepted(c, s) then Some(m)
      else if s.m.body.Mediated? then Some(m.(index := Add(n.index, Key(c.token, s.m.body.lock.secretHash), id)))
      else if Released(s.m.body).Some? then Some(m.(index := Cut(n.index, Key(c.token, Released(s.m.body).value), id)))
      else Some(m)
  }

  /** What an accepted message does to the set of hashes its sender holds. */
  lemma EndHashes(e: End, block: int, m: Envelope, h: SecretHash)
    requires Sound(e) && EndRegister(e, block, m).1 == Ok
    ensures IsKnown(EndRegister(e, block, m).0, h) <==>
            (m.body.Mediated? && h == m.body.lock.secretHash) || (IsKnown(e, h) && Released(m.body) != Some(h))
  {
    match m.body {
      case Direct =>
      case Mediated(_) =>
      case Unlock(secret) => assert LockFor(e, ShaSecret(secret)).value.secretHash == ShaSecret(secret);
      case RemoveExpired(g) => RemovalHashes(e, block, m, g, true, h);
      case DisposeResponse(g) => RemovalHashes(e, block, m, g, false, h);
    }
  }

  lemma RemovalHashes(e: End, block: int, m: Envelope, g: SecretHash, mustExpire: bool, h: SecretHash)
    requires Remove(e, block, m, g, mustExpire).1 == Ok
    ensures IsKnown(Remove(e, block, m, g, mustExpire).0, h) <==> IsKnown(e, h) && h != g
  {
  }

  lemma RefusedHashes(e: End, block: int, m: Envelope, h: SecretHash)
    requires EndRegister(e, block, m).1 != Ok
    ensures IsKnown(EndRegister(e, block, m).0, h) <==> IsKnown(e, h)
  {
  }

  lemma TransferHashes(c: Chan, block: int, m: Envelope, h: SecretHash)
    requires SoundChan(c)
    ensures var r := Register(c, block, m);
            && r.0.token == c.token
            && (r.1 != Ok ==> (Holds(r.0, h) <==> Holds(c, h)))
            && (r.1 == Ok ==>
                  (Holds(r.0, h) <==>
                   (m.body.Mediated? && h == m.body.lock.secretHash)
                   || (Holds(c, h) && Released(m.body) != Some(h))
                   || IsKnown(Receiver(c, m), h)))
  {
    RegisterShape(c, block, m);
    if Reaches(c, block, m) {
      if Register(c, block, m).1 == Ok {
        EndHashes(Sender(c, m), block, m, h);
      } else {
        RefusedHashes(Sender(c, m), block, m, h);
      }
    }
  }

  lemma ReleasedKnown(e: End, block: int, m: Envelope)
    requires Sound(e) && EndRegister(e, block, m).1 == Ok && Released(m.body).Some?
    ensures IsKnown(e, Released(m.body).value)
  {
  }

  lemma QuietStepHashes(c: Chan, s: Step, h: SecretHash)
    requires !s.Transfer? && Apply(c, s).Some? && SoundChan(c)
    ensures Apply(c, s).value.token == c.token
    ensures Holds(Apply(c, s).value, h) ==> Holds(c, h)
  {
    match s {
      case Learn(_) =>
      case Event(ev) =>
        if !ev.SecretRevealed? && !ev.WithdrawSeen? {
          PlainEventKeepsTerms(c, ev);
        }
      case Ask(r) => RequestKeepsEnds(c, r);
    }
  }

  /** The step releases a lock whose hash the other side of the channel holds too, and the cut unlists the channel. */
  ghost predicate Hides(n: Node, id: ChanId, s: Step)
    requires id in n.chans
  {
    var c := n.chans[id];
    && Accepted(c, s) && Released(s.m.body).Some?
    && IsKnown(Receiver(c, s.m), Released(s.m.body).value)
    && !StaysListed(Listed(n.index, Key(c.token, Released(s.m.body).value)), id)
  }

  /** A step keeps every live lock listed exactly when it hides none. */
  lemma StepKeepsCoverIff(n: Node, id: ChanId, s: Step)
    requires Covers(n) && id in n.chans && SoundChan(n.chans[id])
    requires NodeStep(n, id, s).Some?
    ensures Covers(NodeStep(n, id, s).value) <==> !Hides(n, id, s)
  {
    if Hides(n, id, s) {
      HiddenIsNotCovered(n, id, s);
    } else {
      var n' := NodeStep(n, id, s).value;
      forall x, h | x in n'.chans && Holds(n'.chans[x], h) ensures x in Listed(n'.index, Key(n'.chans[x].token, h)) {
        if x == id {
          ActingChannelCovered(n, id, s, h);
        } else {
          OtherChannelCovered(n, id, s, x, h);
        }
      }
    }
  }

  lemma HiddenIsNotCovered(n: Node, id: ChanId, s: Step)
    requires Covers(n) && id in n.chans && SoundChan(n.chans[id]) && Hides(n, id, s)
    ensures !Covers(NodeStep(n, id, s).value)
  {
    var c := n.chans[id];
    var h := Released(s.m.body).value;
    var n' := NodeStep(n, id, s).value;
    TransferHashes(c, s.block, s.m, h);
    assert Holds(c, h) && id in Listed(n.index, Key(c.token, h));
    CutLeavesStaleIff(n.index, Key(c.token, h), id);
    assert Holds(n'.chans[id], h);
  }

  /** A hash that a channel uses in one direction only is never hidden. */
  lemma OneWayNeverHides(n: Node, id: ChanId, s: Step)
    requires id in n.chans && SoundChan(n.chans[id]) && OneWay(n.chans[id])
    ensures !Hides(n, id, s)
  {
    var c := n.chans[id];
    if Accepted(c, s) && Released(s.m.body).Some? {
      AcceptanceShape(c, s.block, s.m);
      RegisterShape(c, s.block, s.m);
      ReleasedKnown(Sender(c, s.m), s.block, s.m);
    }
  }

  lemma OtherChannelCovered(n: Node, id: ChanId, s: Step, x: ChanId, h: SecretHash)
    requires Covers(n) && id in n.chans && NodeStep(n, id, s).Some? && x != id && x in n.chans && Holds(n.chans[x], h)
    ensures x in Listed(NodeStep(n, id, s).value.index, Key(n.chans[x].token, h))
  {
    var c, k := n.chans[id], Key(n.chans[x].token, h);
    assert x in Listed(n.index, k);
    if Accepted(c, s) {
      if s.m.body.Mediated? {
        AddLists(n.index, Key(c.token, s.m.body.lock.secretHash), id, k, x);
      } else if Released(s.m.body).Some? {
        CutKeepsOthers(n.index, Key(c.token, Released(s.m.body).value), id, k, x);
      }
    }
  }

  lemma ActingChannelCovered(n: Node, id: ChanId, s: Step, h: SecretHash)
    requires Covers(n) && id in n.chans && SoundChan(n.chans[id]) && !Hides(n, id, s)
    requires NodeStep(n, id, s).Some? && Holds(NodeStep(n, id, s).value.chans[id], h)
    ensures id in Listed(NodeStep(n, id, s).value.index, Key(NodeStep(n, id, s).value.chans[id].token, h))
  {
    var c := n.chans[id];
    var k := Key(c.token, h);
    if s.Transfer? {
      TransferHashes(c, s.block, s.m, h);
      if Accepted(c, s) {
        if s.m.body.Mediated? {
          AddLists(n.index, Key(c.token, s.m.body.lock.secretHash), id, k, id);
        } else if Released(s.m.body).Some? {
          var g := Released(s.m.body).value;
          assert Holds(c, h) && id in Listed(n.index, k);
          if g == h {
            CutLeavesStaleIff(n.index, k, id);
          } else {
            CutKeepsOthers(n.index, Key(c.token, g), id, k, id);
          }
        }
      }
    } else {
      QuietStepHashes(c, s, h);
    }
  }

  datatype Move = Move(id: ChanId, step: Step)

  /** ns[i+1] is what move i makes of ns[i]. */
  ghost predicate IsNodeRun(ns: seq<Node>, moves: seq<Move>) {
    && |ns| == |moves| + 1
    && forall i {:trigger moves[i]} :: 0 <= i < |moves| ==>
         moves[i].id in ns[i].chans && NodeStep(ns[i], moves[i].id, moves[i].step) == Some(ns[i + 1])
  }

  ghost predicate AllSound(n: Node) { forall id :: id in n.chans ==> SoundChan(n.chans[id]) }

  ghost predicate AllOneWay(n: Node) { forall id :: id in n.chans ==> OneWay(n.chans[id]) }

  lemma NodeRunStep(ns: seq<Node>, moves: seq<Move>, i: nat)
    requires IsNodeRun(ns, moves) && i < |moves|
    ensures moves[i].id in ns[i].chans && NodeStep(ns[i], moves[i].id, moves[i].step) == Some(ns[i + 1])
  {
  }

  lemma {:induction false} RunAllSound(ns: seq<Node>, moves: seq<Move>, i: nat)
    requires IsNodeRun(ns, moves) && i < |ns| && AllSound(ns[0])
    ensures AllSound(ns[i])
    decreases i
  {
    if i > 0 {
      RunAllSound(ns, moves, i - 1);
      NodeRunStep(ns, moves, i - 1);
      NodeStepSound(ns[i - 1], moves[i - 1].id, moves[i - 1].step);
    }
  }

  lemma NodeStepSound(n: Node, id: ChanId, s: Step)
    requires AllSound(n) && id in n.chans && NodeStep(n, id, s).Some?
    ensures AllSound(NodeStep(n, id, s).value)
  {
    StepKeeps(n.chans[id], s);
    forall x | x in NodeStep(n, id, s).value.chans ensures SoundChan(NodeStep(n, id, s).value.chans[x]) {
      assert x != id ==> NodeStep(n, id, s).value.chans[x] == n.chans[x];
    }
  }

  ghost predicate CoversUpTo(ns: seq<Node>, i: nat)
    requires i < |ns|
  {
    forall k {:trigger ns[k]} :: 0 <= k <= i ==> Covers(ns[k])
  }

  ghost predicate HidesNone(ns: seq<Node>, moves: seq<Move>, i: nat)
    requires IsNodeRun(ns, moves) && i <= |moves|
  {
    forall k {:trigger moves[k]} :: 0 <= k < i ==>
      moves[k].id in ns[k].chans && !Hides(ns[k], moves[k].id, moves[k].step)
  }

  /** From a covering index, every live lock is listed at every point of a run exactly when no step so far hid one. */
  lemma {:induction false} RunCoversIff(ns: seq<Node>, moves: seq<Move>, i: nat)
    requires IsNodeRun(ns, moves) && i < |ns| && Covers(ns[0]) && AllSound(ns[0])
    ensures CoversUpTo(ns, i) <==> HidesNone(ns, moves, i)
    decreases i
  {
    if i == 0 {
      CoversAtStart(ns, moves);
    } else {
      RunCoversIff(ns, moves, i - 1);
      RunStepCoversIff(ns, moves, i - 1);
      CoverSplits(ns, moves, i);
    }
  }

  lemma CoversAtStart(ns: seq<Node>, moves: seq<Move>)
    requires IsNodeRun(ns, moves) && Covers(ns[0])
    ensures CoversUpTo(ns, 0) && HidesNone(ns, moves, 0)
  {
  }

  lemma RunStepCoversIff(ns: seq<Node>, moves: seq<Move>, i: nat)
    requires IsNodeRun(ns, moves) && i < |moves| && AllSound(ns[0])
    ensures moves[i].id in ns[i].chans
    ensures Covers(ns[i]) ==> (Covers(ns[i + 1]) <==> !Hides(ns[i], moves[i].id, moves[i].step))
  {
    RunAllSound(ns, moves, i);
    NodeRunStep(ns, moves, i);
    if Covers(ns[i]) {
      StepKeepsCoverIff(ns[i], moves[i].id, moves[i].step);
    }
  }

  lemma CoverSplits(ns: seq<Node>, moves: seq<Move>, i: nat)
    requires IsNodeRun(ns, moves) && 0 < i <= |moves| && moves[i - 1].id in ns[i - 1].chans
    ensures CoversUpTo(ns, i) <==> CoversUpTo(ns, i - 1) && Covers(ns[i])
    ensures CoversUpTo(ns, i - 1) ==> Covers(ns[i - 1])
    ensures HidesNone(ns, moves, i) <==>
              HidesNone(ns, moves, i - 1) && !Hides(ns[i - 1], moves[i - 1].id, moves[i - 1].step)
  {
  }

  // ---------- Telling every channel a secret ----------

  /** registerSecret: every channel listed under the hash, whatever its token. */
  function TellAll(n: Node, secret: Secret): Node {
    n.(chans := map id | id in n.chans ::
         if id in Listed(n.index, Key(n.chans[id].token, ShaSecret(secret))) then LearnSecret(n.chans[id], secret).0
           else n.chans[id])
  }

  /**
   * When the index covers, every side that holds the hash learns the secret: a waiting lock is opened with it, an open
   * one stays, and no other lock of any channel changes.
   */
  lemma SecretReachesAll(n: Node, secret: Secret, id: ChanId, ours: bool, g: SecretHash)
    requires Covers(n) && AllSound(n) && AllOneWay(n) && id in n.chans
    ensures var h := ShaSecret(secret);
            var e, f := FromEnd(n.chans[id], ours), FromEnd(TellAll(n, secret).chans[id], ours);
            && f == e.(pending := f.pending, known := f.known)
            && EntryOf(f, g) ==
                 (if g == h && EntryOf(e, g).Waiting?
                  then Open(KnownLock(EntryOf(e, g).pending.lock, EntryOf(e, g).pending.lockHash, secret, false))
                  else EntryOf(e, g))
  {
    var c, h := n.chans[id], ShaSecret(secret);
    assert Holds(c, h) ==> id in Listed(n.index, Key(c.token, h));
    assert OneWay(c);
    LearnRecords(FromEnd(c, ours), secret, g);
  }

  /** registerRevealedLockSecretHash: the same walk for a secret registered on chain at `block`. */
  function RevealToAll(n: Node, secret: Secret, block: int): Node {
    n.(chans := map id | id in n.chans ::
         if id in Listed(n.index, Key(n.chans[id].token, ShaSecret(secret)))
           then SecretOnChain(n.chans[id], secret, block).0 else n.chans[id])
  }

  /**
   * When the index covers, every unexpired lock under the hash is marked as registered on chain, and no other lock
   * changes.
   */
  lemma RevealReachesAll(n: Node, secret: Secret, block: int, id: ChanId, ours: bool)
    requires Covers(n) && AllSound(n) && AllOneWay(n) && id in n.chans
    ensures var e, f := FromEnd(n.chans[id], ours), FromEnd(RevealToAll(n, secret, block).chans[id], ours);
            var lock := LockFor(e, ShaSecret(secret));
            f == if lock.Some? && block <= lock.value.expiration then RegisterRevealed(e, secret, block).0 else e
  {
    var c, h := n.chans[id], ShaSecret(secret);
    assert Holds(c, h) ==> id in Listed(n.index, Key(c.token, h));
    assert OneWay(c);
  }

  /**
   * A channel with one hash in both directions: we know the secret of the lock we sent, the partner's lock is still
   * pending.
   */
  function TwoWayChannel(secret: Secret, amount: int, expiration: int): Chan {
    var h := ShaSecret(secret);
    var lock := Lock(expiration, amount, h);
    var proof := EMPTY_PROOF.(nonce := 1, locksRoot := MerkleRoot([lock]));
    Chan(End(1, amount, map[], map[h := KnownLock(lock, LeafOf(lock), secret, false)], [lock], proof),
         End(2, amount, map[h := PendingLock(lock, LeafOf(lock))], map[], [lock], proof),
         7, 1, 3, 3, 10, 2, Opened, 0, 0)
  }

  function TwoWayUnlock(secret: Secret, amount: int): Step {
    Transfer(1, Envelope(1, 7, 1, 2, amount, Empty, Unlock(secret)))
  }

  lemma TwoWayUnlockAccepted(secret: Secret, amount: int, expiration: int)
    requires amount > 0
    ensures var c := TwoWayChannel(secret, amount, expiration);
            ConsistentChan(c) && Accepted(c, TwoWayUnlock(secret, amount))
  {
    var c, m := TwoWayChannel(secret, amount, expiration), TwoWayUnlock(secret, amount).m;
    var lock := Lock(expiration, amount, ShaSecret(secret));
    assert Without(c.our.leaves, lock) == [];
    assert RegisterUnlock(c.our, m, secret).1 == Ok;
    assert Reaches(c, 1, m);
    RegisterShape(c, 1, m);
  }

  /** Our unlock takes that channel, the only one under its hash, out of the index, and the partner's lock is hidden. */
  lemma TwoWayLosesCover(secret: Secret, amount: int, expiration: int, id: ChanId)
    requires amount > 0
    ensures var c := TwoWayChannel(secret, amount, expiration);
            var n := Node(map[id := c], map[Key(c.token, ShaSecret(secret)) := [id]]);
            Covers(n) && NodeStep(n, id, TwoWayUnlock(secret, amount)).Some?
            && !Covers(NodeStep(n, id, TwoWayUnlock(secret, amount)).value)
  {
    var c, s := TwoWayChannel(secret, amount, expiration), TwoWayUnlock(secret, amount);
    var n := Node(map[id := c], map[Key(c.token, ShaSecret(secret)) := [id]]);
    TwoWayUnlockAccepted(secret, amount, expiration);
    assert Covers(n);
    assert Hides(n, id, s);
    StepKeepsCoverIff(n, id, s);
  }

  // ---------- After a restart ----------

  datatype LockInfo = LockInfo(lock: Lock, isSent: bool, token: Address, id: ChanId)

  datatype Group = Group(sent: seq<LockInfo>, received: seq<LockInfo>)

  predicate InGroup(l: LockInfo, k: Key, isSent: bool) {
    Key(l.token, l.lock.secretHash) == k && l.isSent == isSent
  }

  /** The locks of one group and side, in the order they were collected. */
  function Members(locks: seq<LockInfo>, k: Key, isSent: bool): seq<LockInfo>
    decreases |locks|
  {
    if locks == [] then []
    else
      var l := locks[|locks| - 1];
      Members(locks[..|locks| - 1], k, isSent) + (if InGroup(l, k, isSent) then [l] else [])
  }

  function KeyOf(l: LockInfo): Key { Key(l.token, l.lock.secretHash) }

  function Enter(groups: map<Key, Group>, l: LockInfo): map<Key, Group> {
    var g := if KeyOf(l) in groups then groups[KeyOf(l)] else Group([], []);
    groups[KeyOf(l) := if l.isSent then g.(sent := g.sent + [l]) else g.(received := g.received + [l])]
  }

  function GroupAll(locks: seq<LockInfo>): map<Key, Group>
    decreases |locks|
  {
    if locks == [] then map[] else Enter(GroupAll(locks[..|locks| - 1]), locks[|locks| - 1])
  }

  function IndexAll(index: Index, locks: seq<LockInfo>): Index
    decreases |locks|
  {
    if locks == [] then index
    else
      var l := locks[|locks| - 1];
      Add(IndexAll(index, locks[..|locks| - 1]), KeyOf(l), l.id)
  }

  /** The locks of one side of one channel, each exactly once. */
  ghost predicate ListsSide(infos: seq<LockInfo>, locks: map<SecretHash, Lock>, isSent: bool, token: Address,
      id: ChanId) {
    forall l :: multiset(infos)[l] ==
                if l == LockInfo(l.lock, isSent, token, id) && l.lock.secretHash in locks
                  && locks[l.lock.secretHash] == l.lock then 1 else 0
  }

  method CollectMap(locks: map<SecretHash, Lock>, isSent: bool, token: Address, id: ChanId)
    returns (infos: seq<LockInfo>)
    requires forall h :: h in locks ==> locks[h].secretHash == h
    ensures ListsSide(infos, locks, isSent, token, id)
  {
    infos := [];
    var rest := locks;
    ghost var seen: map<SecretHash, Lock> := map[];
    while rest != map[]
      invariant forall h :: h in rest ==> h in locks && rest[h] == locks[h]
      invariant seen == map h | h in locks && h !in rest :: locks[h]
      invariant ListsSide(infos, seen, isSent, token, id)
      decreases |rest|
    {
      var h :| h in rest;
      infos := infos + [LockInfo(rest[h], isSent, token, id)];
      seen := seen[h := rest[h]];
      rest := rest - {h};
    }
    assert seen == locks;
  }

  /** The live locks of one channel. */
  predicate Live(c: Chan, id: ChanId, l: LockInfo) {
    l.token == c.token && l.id == id
      && LockFor(if l.isSent then c.our else c.partner, l.lock.secretHash) == Some(l.lock)
  }

  method CollectChannel(c: Chan, id: ChanId) returns (infos: seq<LockInfo>)
    requires SoundChan(c)
    ensures forall l :: multiset(infos)[l] == if Live(c, id, l) then 1 else 0
  {
    var a := CollectMap(PendingLocks(c.our), true, c.token, id);
    var b := CollectMap(KnownLocks(c.our), true, c.token, id);
    var p := CollectMap(PendingLocks(c.partner), false, c.token, id);
    var q := CollectMap(KnownLocks(c.partner), false, c.token, id);
    infos := a + b + p + q;
    forall l ensures multiset(infos)[l] == if Live(c, id, l) then 1 else 0 {
      LiveOnce(c, id, l, a, b, p, q);
    }
  }

  lemma LiveOnce(c: Chan, id: ChanId, l: LockInfo, a: seq<LockInfo>, b: seq<LockInfo>, p: seq<LockInfo>,
      q: seq<LockInfo>)
    requires SoundChan(c)
    requires ListsSide(a, PendingLocks(c.our), true, c.token, id) && ListsSide(b, KnownLocks(c.our), true, c.token, id)
    requires ListsSide(p, PendingLocks(c.partner), false, c.token, id)
        && ListsSide(q, KnownLocks(c.partner), false, c.token, id)
    ensures multiset(a + b + p + q)[l] == if Live(c, id, l) then 1 else 0
  {
    assert multiset(a + b + p + q) == multiset(a) + multiset(b) + multiset(p) + multiset(q);
  }

  method CollectLocks(chans: map<ChanId, Chan>) returns (infos: seq<LockInfo>)
    requires forall id :: id in chans ==> SoundChan(chans[id])
    ensures forall l :: multiset(infos)[l] == if l.id in chans && Live(chans[l.id], l.id, l) then 1 else 0
  {
    infos := [];
    var rest := chans.Keys;
    while rest != {}
      invariant rest <= chans.Keys
      invariant forall l :: multiset(infos)[l] == if l.id in chans && l.id !in rest
          && Live(chans[l.id], l.id, l) then 1 else 0
      decreases |rest|
    {
      var id :| id in rest;
      var more := CollectChannel(chans[id], id);
      infos := infos + more;
      rest := rest - {id};
    }
  }

  /** restoreLocks: collect, index and group. */
  method RestoreLocks(chans: map<ChanId, Chan>, rs: Service) returns (locks: seq<LockInfo>, groups: map<Key, Group>)
    requires forall id :: id in chans ==> SoundChan(chans[id])
    modifies rs
    ensures forall l :: multiset(locks)[l] == if l.id in chans && Live(chans[l.id], l.id, l) then 1 else 0
    ensures groups == GroupAll(locks)
    ensures Covers(Node(chans, rs.token2LockSecretHash2Channels))
    ensures forall k, id :: id in Listed(rs.token2LockSecretHash2Channels, k) <==>
              id in Listed(old(rs.token2LockSecretHash2Channels), k) || HasLive(locks, k, id)
  {
    locks := CollectLocks(chans);
    groups := map[];
    for i := 0 to |locks|
      invariant groups == GroupAll(locks[..i])
      invariant rs.token2LockSecretHash2Channels == IndexAll(old(rs.token2LockSecretHash2Channels), locks[..i])
    {
      assert locks[..i + 1][..i] == locks[..i];
      rs.RegisterChannelForHashlock(locks[i].id, KeyOf(locks[i]));
      groups := Enter(groups, locks[i]);
    }
    assert locks[..|locks|] == locks;
    RestoredCovers(chans, locks, old(rs.token2LockSecretHash2Channels));
    forall k, id ensures id in Listed(IndexAll(old(rs.token2LockSecretHash2Channels), locks), k) <==>
                         id in Listed(old(rs.token2LockSecretHash2Channels), k) || HasLive(locks, k, id) {
      IndexAllExact(old(rs.token2LockSecretHash2Channels), locks, k, id);
    }
  }

  /** One of the locks is under the key, in the channel. */
  ghost predicate HasLive(locks: seq<LockInfo>, k: Key, id: ChanId) {
    exists l :: l in locks && KeyOf(l) == k && l.id == id
  }

  /** Indexing lists exactly what was listed before and the channels of the locks. */
  lemma {:induction false} IndexAllExact(index: Index, locks: seq<LockInfo>, k: Key, id: ChanId)
    ensures id in Listed(IndexAll(index, locks), k) <==> id in Listed(index, k) || HasLive(locks, k, id)
    decreases |locks|
  {
    if locks != [] {
      var front, last := locks[..|locks| - 1], locks[|locks| - 1];
      IndexAllExact(index, front, k, id);
      AddLists(IndexAll(index, front), KeyOf(last), last.id, k, id);
      assert locks == front + [last];
      if l :| l in front && KeyOf(l) == k && l.id == id {
        assert l in locks;
      }
    }
  }

  lemma {:induction false} IndexAllLists(index: Index, locks: seq<LockInfo>, l: LockInfo)
    requires l in locks
    ensures l.id in Listed(IndexAll(index, locks), KeyOf(l))
    decreases |locks|
  {
    var front, last := locks[..|locks| - 1], locks[|locks| - 1];
    AddLists(IndexAll(index, front), KeyOf(last), last.id, KeyOf(l), l.id);
    if l != last {
      assert l in front;
      IndexAllLists(index, front, l);
    }
  }

  lemma RestoredCovers(chans: map<ChanId, Chan>, locks: seq<LockInfo>, index: Index)
    requires forall l :: multiset(locks)[l] == if l.id in chans && Live(chans[l.id], l.id, l) then 1 else 0
    requires forall id :: id in chans ==> SoundChan(chans[id])
    ensures Covers(Node(chans, IndexAll(index, locks)))
  {
    forall id, h | id in chans && Holds(chans[id], h)
      ensures id in Listed(IndexAll(index, locks), Key(chans[id].token, h)) {
      var c := chans[id];
      var sent := IsKnown(c.our, h);
      var lock := LockFor(if sent then c.our else c.partner, h).value;
      var l := LockInfo(lock, sent, c.token, id);
      assert Live(c, id, l);
      assert l in multiset(locks);
      IndexAllLists(index, locks, l);
    }
  }

  lemma {:induction false} GroupsAreMembers(locks: seq<LockInfo>, k: Key)
    ensures k in GroupAll(locks) <==> exists l :: l in locks && KeyOf(l) == k
    ensures k in GroupAll(locks) ==> GroupAll(locks)[k] == Group(Members(locks, k, true), Members(locks, k, false))
    ensures k !in GroupAll(locks) ==> Members(locks, k, true) == [] && Members(locks, k, false) == []
    decreases |locks|
  {
    if locks != [] {
      var front, last := locks[..|locks| - 1], locks[|locks| - 1];
      GroupsAreMembers(front, k);
      assert locks == front + [last];
      if k in GroupAll(front) {
        var l :| l in front && KeyOf(l) == k;
        assert l in locks;
      }
    }
  }

  lemma {:induction false} MembersCount(locks: seq<LockInfo>, k: Key, isSent: bool, l: LockInfo)
    ensures multiset(Members(locks, k, isSent))[l] == if InGroup(l, k, isSent) then multiset(locks)[l] else 0
    decreases |locks|
  {
    if locks != [] {
      var front, last := locks[..|locks| - 1], locks[|locks| - 1];
      assert locks == front + [last];
      MembersCount(front, k, isSent, l);
    }
  }

  /**
   * After a restart the grouping is a partition of the live locks: a lock is in the group of its own hash and token, on
   * its own side, exactly once, and in no other place.
   */
  lemma GroupsPartition(chans: map<ChanId, Chan>, locks: seq<LockInfo>, k: Key, l: LockInfo)
    requires forall x :: multiset(locks)[x] == if x.id in chans && Live(chans[x.id], x.id, x) then 1 else 0
    ensures var live := l.id in chans && Live(chans[l.id], l.id, l);
            var groups := GroupAll(locks);
            && (live ==> KeyOf(l) in groups)
            && (k in groups ==>
                  && multiset(groups[k].sent)[l] == (if live && KeyOf(l) == k && l.isSent then 1 else 0)
                  && multiset(groups[k].received)[l] == (if live && KeyOf(l) == k && !l.isSent then 1 else 0))
  {
    GroupsAreMembers(locks, k);
    GroupsAreMembers(locks, KeyOf(l));
    MembersCount(locks, k, true, l);
    MembersCount(locks, k, false, l);
    if l.id in chans && Live(chans[l.id], l.id, l) {
      assert l in multiset(locks);
    }
  }
}

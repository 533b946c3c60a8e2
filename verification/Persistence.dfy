/**
 * Saving a channel and building it again: channel/channeltype/type.go, NewChannelSerialization,
 * channelSerilization2Channel.
 */
module Persistence {
  import opened Primitives
  import opened Merkle
  import opened Messages
  import opened EndStates
  import opened EndObjects
  import opened Channels
  import opened ChannelLaws
  import opened ChannelObjects

  datatype SavedSecret = SavedSecret(secret: Secret, onChain: bool)

  /** One side as it is saved: the maps are not, only the leaves and the secrets. */
  datatype SavedEnd = SavedEnd(address: Address, contractBalance: int, proof: BalanceProof, leaves: seq<Lock>,
    secrets: seq<SavedSecret>)

  datatype Serialization = Serialization(
    our: SavedEnd, partner: SavedEnd, channelId: nat, openBlock: int, token: Address,
    revealTimeout: nat, settleTimeout: nat, state: State, closedBlock: int, settledBlock: int)

  // ---------- Saving ----------

  /** The list holds exactly the secrets of the map, in whatever order the map was walked. */
  ghost predicate ListsSecrets(known: map<SecretHash, KnownLock>, secrets: seq<SavedSecret>) {
    && (forall h :: h in known ==> SavedSecret(known[h].secret, known[h].onChain) in secrets)
    && (forall s :: s in secrets ==> exists h :: h in known && s == SavedSecret(known[h].secret, known[h].onChain))
  }

  ghost predicate SavesEnd(e: End, s: SavedEnd) {
    && s.address == e.address && s.contractBalance == e.contractBalance && s.proof == e.proof && s.leaves == e.leaves
    && ListsSecrets(e.known, s.secrets)
  }

  ghost predicate Saves(c: Chan, s: Serialization) {
    && SavesEnd(c.our, s.our) && SavesEnd(c.partner, s.partner)
    && s.channelId == c.channelId && s.openBlock == c.openBlock && s.token == c.token
    && s.revealTimeout == c.revealTimeout && s.settleTimeout == c.settleTimeout
    && s.state == c.state && s.closedBlock == c.closedBlock && s.settledBlock == c.settledBlock
  }

  method ListSecrets(known: map<SecretHash, KnownLock>) returns (secrets: seq<SavedSecret>)
    ensures ListsSecrets(known, secrets)
  {
    secrets := [];
    var rest := known.Keys;
    while rest != {}
      invariant rest <= known.Keys
      invariant forall h :: h in known && h !in rest ==> SavedSecret(known[h].secret, known[h].onChain) in secrets
      invariant forall s :: s in secrets ==>
          exists h :: h in known && s == SavedSecret(known[h].secret, known[h].onChain)
      decreases |rest|
    {
      var h :| h in rest;
      secrets := secrets + [SavedSecret(known[h].secret, known[h].onChain)];
      rest := rest - {h};
    }
  }

  method SaveEnd(e: EndState) returns (s: SavedEnd)
    ensures SavesEnd(e.View(), s)
  {
    var secrets := ListSecrets(e.lock2UnclaimedLocks);
    s := SavedEnd(e.address, e.contractBalance, e.balanceProofState, e.tree.leaves, secrets);
  }

  method NewChannelSerialization(c: Channel) returns (s: Serialization)
    ensures Saves(c.View(), s)
  {
    var our := SaveEnd(c.ourState);
    var partner := SaveEnd(c.partnerState);
    s := Serialization(our, partner, c.channelId, c.openBlockNumber, c.tokenAddress,
                       c.revealTimeout, c.settleTimeout, c.state, c.closedBlock, c.settledBlock);
  }

  // ---------- Rebuilding the maps ----------

  function SecretMap(secrets: seq<SavedSecret>): map<SecretHash, SavedSecret>
    decreases |secrets|
  {
    if secrets == [] then map[]
    else
      var s := secrets[|secrets| - 1];
      SecretMap(secrets[..|secrets| - 1])[ShaSecret(s.secret) := s]
  }

  function PendingFrom(leaves: seq<Lock>, secrets: map<SecretHash, SavedSecret>): map<SecretHash, PendingLock>
    decreases |leaves|
  {
    if leaves == [] then map[]
    else
      var l := leaves[|leaves| - 1];
      var m := PendingFrom(leaves[..|leaves| - 1], secrets);
      if l.secretHash in secrets then m else m[l.secretHash := PendingLock(l, LeafOf(l))]
  }

  function KnownFrom(leaves: seq<Lock>, secrets: map<SecretHash, SavedSecret>): map<SecretHash, KnownLock>
    decreases |leaves|
  {
    if leaves == [] then map[]
    else
      var l := leaves[|leaves| - 1];
      var m := KnownFrom(leaves[..|leaves| - 1], secrets);
      if l.secretHash !in secrets then m
      else m[l.secretHash := KnownLock(l, LeafOf(l), secrets[l.secretHash].secret, secrets[l.secretHash].onChain)]
  }

  method GetSecretHashMap(secrets: seq<SavedSecret>) returns (m: map<SecretHash, SavedSecret>)
    ensures m == SecretMap(secrets)
  {
    m := map[];
    for i := 0 to |secrets|
      invariant m == SecretMap(secrets[..i])
    {
      assert secrets[..i + 1][..i] == secrets[..i];
      m := m[ShaSecret(secrets[i].secret) := secrets[i]];
    }
    assert secrets[..|secrets|] == secrets;
  }

  /** OurLock2PendingLocks and PartnerLock2PendingLocks. */
  method Lock2PendingLocks(s: SavedEnd) returns (m: map<SecretHash, PendingLock>)
    ensures m == PendingFrom(s.leaves, SecretMap(s.secrets))
  {
    m := map[];
    var m2 := GetSecretHashMap(s.secrets);
    for i := 0 to |s.leaves|
      invariant m == PendingFrom(s.leaves[..i], m2)
    {
      assert s.leaves[..i + 1][..i] == s.leaves[..i];
      var l := s.leaves[i];
      if l.secretHash !in m2 {
        m := m[l.secretHash := PendingLock(l, LeafOf(l))];
      }
    }
    assert s.leaves[..|s.leaves|] == s.leaves;
  }

  /** OurLock2UnclaimedLocks and PartnerLock2UnclaimedLocks. */
  method Lock2UnclaimedLocks(s: SavedEnd) returns (m: map<SecretHash, KnownLock>)
    ensures m == KnownFrom(s.leaves, SecretMap(s.secrets))
  {
    m := map[];
    var m2 := GetSecretHashMap(s.secrets);
    for i := 0 to |s.leaves|
      invariant m == KnownFrom(s.leaves[..i], m2)
    {
      assert s.leaves[..i + 1][..i] == s.leaves[..i];
      var l := s.leaves[i];
      if l.secretHash in m2 {
        m := m[l.secretHash := KnownLock(l, LeafOf(l), m2[l.secretHash].secret, m2[l.secretHash].onChain)];
      }
    }
    assert s.leaves[..|s.leaves|] == s.leaves;
  }

  /** OurAmountLocked and PartnerAmountLocked, from the saved leaves. */
  method SavedAmountLocked(s: SavedEnd) returns (sum: int)
    ensures sum == SumLeaves(s.leaves)
  {
    sum := 0;
    for i := 0 to |s.leaves|
      invariant sum == SumLeaves(s.leaves[..i])
    {
      assert s.leaves[..i + 1] == s.leaves[..i] + [s.leaves[i]];
      SumAppend(s.leaves[..i], s.leaves[i]);
      sum := sum + s.leaves[i].amount;
    }
    assert s.leaves[..|s.leaves|] == s.leaves;
  }

  /** The locked sum of the saved leaves is the one of the live maps. */
  lemma SavedLockedIsLive(e: End, s: SavedEnd)
    requires Consistent(e) && SavesEnd(e, s)
    ensures SumLeaves(s.leaves) == AmountLocked(e)
  {
    LockedIsLeafSum(e);
  }

  // ---------- Loading ----------

  function LoadEnd(s: SavedEnd): End {
    var m2 := SecretMap(s.secrets);
    End(s.address, s.contractBalance, PendingFrom(s.leaves, m2), KnownFrom(s.leaves, m2), s.leaves, s.proof)
  }

  function Load(s: Serialization, punishBlocks: nat): Chan {
    Chan(LoadEnd(s.our), LoadEnd(s.partner), s.channelId, s.openBlock, s.token,
         s.revealTimeout, s.settleTimeout, punishBlocks, s.state, s.closedBlock, s.settledBlock)
  }

  lemma {:induction false} SecretMapFacts(known: map<SecretHash, KnownLock>, secrets: seq<SavedSecret>)
    requires forall s :: s in secrets ==> exists h :: h in known && s == SavedSecret(known[h].secret, known[h].onChain)
    requires forall h :: h in known ==> ShaSecret(known[h].secret) == h
    ensures forall h :: h in SecretMap(secrets) ==>
        h in known && SecretMap(secrets)[h] == SavedSecret(known[h].secret, known[h].onChain)
    ensures forall s :: s in secrets ==> ShaSecret(s.secret) in SecretMap(secrets)
    decreases |secrets|
  {
    if secrets != [] {
      var front, s := secrets[..|secrets| - 1], secrets[|secrets| - 1];
      assert secrets == front + [s];
      assert forall x :: x in front ==> x in secrets;
      SecretMapFacts(known, front);
      assert s in secrets;
    }
  }

  lemma SavedSecrets(e: End, secrets: seq<SavedSecret>)
    requires Sound(e) && ListsSecrets(e.known, secrets)
    ensures SecretMap(secrets) == map h | h in e.known :: SavedSecret(e.known[h].secret, e.known[h].onChain)
  {
    SecretMapFacts(e.known, secrets);
    forall h | h in e.known ensures h in SecretMap(secrets) {
      assert SavedSecret(e.known[h].secret, e.known[h].onChain) in secrets;
    }
  }

  /** A leaf per entry, an entry per leaf. */
  lemma {:induction false} MapsFromLeaves(leaves: seq<Lock>, m2: map<SecretHash, SavedSecret>)
    ensures var p, k := PendingFrom(leaves, m2), KnownFrom(leaves, m2);
            && (forall l :: l in leaves ==> if l.secretHash in m2 then l.secretHash in k else l.secretHash in p)
            && (forall h :: h in p ==>
                h !in m2 && p[h].lock in leaves && p[h].lock.secretHash == h && p[h].lockHash == LeafOf(p[h].lock))
            && (forall h :: h in k ==>
                h in m2 && k[h].lock in leaves && k[h].lock.secretHash == h && k[h].lockHash == LeafOf(k[h].lock)
                                       && k[h].secret == m2[h].secret && k[h].onChain == m2[h].onChain)
    decreases |leaves|
  {
    if leaves != [] {
      MapsFromLeaves(leaves[..|leaves| - 1], m2);
      assert leaves == leaves[..|leaves| - 1] + [leaves[|leaves| - 1]];
    }
  }

  /** Every recorded lock has its leaf. */
  ghost predicate LocksHaveLeaves(e: End) {
    && (forall h :: h in e.pending ==> e.pending[h].lock in e.leaves)
    && (forall h :: h in e.known ==> e.known[h].lock in e.leaves)
  }

  lemma LoadedPending(e: End, s: SavedEnd)
    requires Sound(e) && SavesEnd(e, s)
    ensures forall h :: h in LoadEnd(s).pending ==> h in e.pending && LoadEnd(s).pending[h] == e.pending[h]
    ensures forall h :: h in e.pending && e.pending[h].lock in e.leaves ==> h in LoadEnd(s).pending
  {
    SavedSecrets(e, s.secrets);
    MapsFromLeaves(s.leaves, SecretMap(s.secrets));
  }

  lemma LoadedKnown(e: End, s: SavedEnd)
    requires Sound(e) && SavesEnd(e, s)
    ensures forall h :: h in LoadEnd(s).known ==> h in e.known && LoadEnd(s).known[h] == e.known[h]
    ensures forall h :: h in e.known && e.known[h].lock in e.leaves ==> h in LoadEnd(s).known
  {
    SavedSecrets(e, s.secrets);
    MapsFromLeaves(s.leaves, SecretMap(s.secrets));
  }

  /**
   * Loading gives back exactly what was saved, whatever order the secrets were listed in, exactly when no lock has lost
   * its leaf.
   */
  lemma EndRoundTripIff(e: End, s: SavedEnd)
    requires Sound(e) && SavesEnd(e, s)
    ensures LoadEnd(s) == e <==> LocksHaveLeaves(e)
  {
    LoadedPending(e, s);
    LoadedKnown(e, s);
    if LoadEnd(s) == e {
      MapsFromLeaves(s.leaves, SecretMap(s.secrets));
    }
  }

  /** Saving and loading any well-formed channel gives the same channel. */
  lemma ChannelRoundTrip(c: Chan, s: Serialization)
    requires ConsistentChan(c) && Saves(c, s)
    ensures Load(s, c.punishBlocks) == c
  {
    EndRoundTripIff(c.our, s.our);
    EndRoundTripIff(c.partner, s.partner);
  }

  /**
   * At any point of a run without a half-done removal the node may stop and start again: the run goes on from the same
   * channel.
   */
  lemma RunSurvivesRestart(cs: seq<Chan>, ss: seq<Step>, i: nat, s: Serialization)
    requires IsRun(cs, ss) && i < |cs| && Saves(cs[i], s)
    requires forall k :: 0 <= k < i ==> NotHalf(cs[k], ss[k])
    ensures Load(s, cs[i].punishBlocks) == cs[i]
  {
    RunConsistent(cs, ss, i);
    ChannelRoundTrip(cs[i], s);
  }

  /** A serialization of a live object; the source's tree constructor panics on a repeated leaf. */
  ghost predicate Loadable(s: Serialization) {
    Distinct(s.our.leaves) && Distinct(s.partner.leaves)
  }

  method LoadEndState(s: SavedEnd) returns (e: EndState)
    requires Distinct(s.leaves)
    ensures fresh(e) && Built(e.tree) && e.View() == LoadEnd(s)
  {
    var tree := NewMerkleTree(s.leaves);
    e := new EndState.Restored(s.address, s.contractBalance, s.proof, tree);
    e.lock2PendingLocks := Lock2PendingLocks(s);
    e.lock2UnclaimedLocks := Lock2UnclaimedLocks(s);
  }

  /** channelSerilization2Channel: refused exactly when NewChannel refuses the timeouts. */
  method LoadChannel(s: Serialization, punishBlocks: nat) returns (ch: Channel?)
    requires Loadable(s)
    ensures ch == null <==> s.settleTimeout <= s.revealTimeout || s.revealTimeout < 3
    ensures ch != null ==> fresh(ch) && ch.View() == Load(s, punishBlocks)
  {
    var our := LoadEndState(s.our);
    var partner := LoadEndState(s.partner);
    ch := NewChannel(our, partner, s.channelId, s.openBlock, s.token, s.revealTimeout, s.settleTimeout, punishBlocks);
    if ch == null {
      return;
    }
    ch.state := s.state;
    ch.closedBlock := s.closedBlock;
    ch.settledBlock := s.settledBlock;
  }

  /** Stop and start: the new object shows exactly what the old one did. */
  method Restart(c: Channel) returns (ch: Channel?)
    requires c.Valid() && ConsistentChan(c.View())
    ensures ch == null <==> c.settleTimeout <= c.revealTimeout || c.revealTimeout < 3
    ensures ch != null ==> ch.View() == c.View()
  {
    var s := NewChannelSerialization(c);
    ch := LoadChannel(s, c.punishBlocks);
    ChannelRoundTrip(c.View(), s);
  }
}

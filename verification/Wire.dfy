/** The packets nodes exchange: encoding/message.go, and the dispatch of network/protocol.go. */
module Wire {
  import opened Primitives
  import opened ByteCodec

  // ---------- Fields ----------

  /**
   * How a field is written. UInt and SInt are big-endian integers read by encoding/binary, Amount a 32-byte integer,
   * Expiry a 32-byte integer kept as a signed 64-bit one, Data bytes after a variable-length count, Path addresses
   * after a 32-bit count, Text bytes after a 32-bit count.
   */
  datatype Kind = Raw(n: nat) | UInt(width: nat) | SInt(width: nat) | Amount | Expiry | Data | Path | Text

  datatype Value = Bytes(bytes: seq<Byte>) | Num(n: int) | List(addresses: seq<seq<Byte>>)

  const MAX_PACKET := 1200

  const ADDRESS := 20

  predicate Fits(k: Kind, v: Value) {
    match k
    case Raw(n) => v.Bytes? && |v.bytes| == n
    case UInt(width) => v.Num? && 0 <= v.n < Pow256(width)
    case SInt(width) => v.Num? && Signed(v.n, width)
    case Amount => v.Num? && 0 <= v.n < Pow256(32)
    case Expiry => v.Num? && 0 <= v.n && Signed(v.n, 8)
    case Data => v.Bytes? && |v.bytes| <= MAX_PACKET
    case Path => v.List? && Signed(|v.addresses|, 4) && forall a :: a in v.addresses ==> |a| == ADDRESS
    case Text => v.Bytes? && Signed(|v.bytes|, 4)
  }

  function Join(parts: seq<seq<Byte>>): seq<Byte>
    decreases |parts|
  {
    if parts == [] then [] else parts[0] + Join(parts[1..])
  }

  function Count(n: nat): seq<Byte> { BigEndian(n, 4) }

  function Put(k: Kind, v: Value): seq<Byte>
    requires Fits(k, v)
  {
    match k
    case Raw(_) => v.bytes
    case UInt(width) => BigEndian(v.n, width)
    case SInt(width) => BigEndian(ToUnsigned(v.n, width), width)
    case Amount => BigEndian(v.n, 32)
    case Expiry => BigEndian(v.n, 32)
    case Data => VarInt(|v.bytes|) + v.bytes
    case Path => Count(|v.addresses|) + Join(v.addresses)
    case Text => Count(|v.bytes|) + v.bytes
  }

  /** binary.Read leaves the integer at zero when the buffer is too short. */
  function IntOf(s: seq<Byte>, width: nat): nat {
    if |s| < width then 0 else FromBigEndian(s[..width])
  }

  function SignedOf(s: seq<Byte>, width: nat): int { ToSigned(IntOf(s, width), width) }

  function Addresses(s: seq<Byte>, count: int): (seq<seq<Byte>>, seq<Byte>)
    decreases count
  {
    if count <= 0 then ([], s)
    else
      var r := Addresses(DropUpTo(s, ADDRESS), count - 1);
      ([TakePadded(s, ADDRESS)] + r.0, r.1)
  }

  /** Only a bad variable-length count or missing data makes a field fail; other short reads go unnoticed here. */
  function Get(k: Kind, s: seq<Byte>): Option<(Value, seq<Byte>)> {
    match k
    case Raw(n) => Some((Bytes(TakePadded(s, n)), DropUpTo(s, n)))
    case UInt(width) => Some((Num(IntOf(s, width)), DropUpTo(s, width)))
    case SInt(width) => Some((Num(SignedOf(s, width)), DropUpTo(s, width)))
    case Amount => Some((Num(FromBigEndian(TakePadded(s, 32))), DropUpTo(s, 32)))
    case Expiry => Some((Num(ToSigned(FromBigEndian(TakePadded(s, 32)) % Pow256(8), 8)), DropUpTo(s, 32)))
    case Data =>
      var len := ParseVarInt(s);
      if len.None? || len.value.0 > MAX_PACKET || |len.value.1| < len.value.0 then None
      else Some((Bytes(len.value.1[..len.value.0]), len.value.1[len.value.0..]))
    case Path =>
      var r := Addresses(DropUpTo(s, 4), SignedOf(s, 4));
      Some((List(r.0), r.1))
    case Text =>
      var len := SignedOf(s, 4);
      var rest := DropUpTo(s, 4);
      if len <= 0 then Some((Bytes([]), rest)) else Some((Bytes(TakePadded(rest, len)), DropUpTo(rest, len)))
  }

  lemma CutPrefix(a: seq<Byte>, b: seq<Byte>)
    ensures (a + b)[..|a|] == a && (a + b)[|a|..] == b
    ensures TakePadded(a + b, |a|) == a && DropUpTo(a + b, |a|) == b
  {
  }

  lemma {:induction false} JoinReads(parts: seq<seq<Byte>>, rest: seq<Byte>)
    requires forall a :: a in parts ==> |a| == ADDRESS
    ensures Addresses(Join(parts) + rest, |parts|) == (parts, rest)
    decreases |parts|
  {
    if parts != [] {
      assert Join(parts) + rest == parts[0] + (Join(parts[1..]) + rest);
      CutPrefix(parts[0], Join(parts[1..]) + rest);
      JoinReads(parts[1..], rest);
      assert parts == [parts[0]] + parts[1..];
    } else {
      assert Join(parts) + rest == rest;
    }
  }

  lemma CountReads(n: nat, rest: seq<Byte>)
    requires Signed(n, 4)
    ensures SignedOf(Count(n) + rest, 4) == n && DropUpTo(Count(n) + rest, 4) == rest
  {
    CutPrefix(Count(n), rest);
    SignedReads(n, 4);
  }

  lemma IntegerReads(k: Kind, v: Value, rest: seq<Byte>)
    requires k.UInt? || k.SInt? || k.Amount?
    requires Fits(k, v)
    ensures Get(k, Put(k, v) + rest) == Some((v, rest))
  {
    CutPrefix(Put(k, v), rest);
    match k {
      case UInt(width) => BigEndianReads(v.n, width);
      case SInt(width) => SignedReads(v.n, width);
      case Amount => BigEndianReads(v.n, 32);
    }
  }

  lemma {:induction false} Pow256Grows(a: nat, b: nat)
    requires a <= b
    ensures Pow256(a) <= Pow256(b)
    decreases b
  {
    if a < b {
      Pow256Grows(a, b - 1);
    }
  }

  lemma SmallMod(a: nat, b: nat)
    requires a < b
    ensures a % b == a
  {
  }

  /** A value that fits the narrow width survives being written at the wide one. */
  lemma NarrowReads(n: nat, narrow: nat, wide: nat, rest: seq<Byte>)
    requires narrow <= wide && Signed(n, narrow)
    ensures var s := BigEndian(n, wide) + rest;
            ToSigned(FromBigEndian(TakePadded(s, wide)) % Pow256(narrow), narrow) == n && DropUpTo(s, wide) == rest
  {
    CutPrefix(BigEndian(n, wide), rest);
    Pow256Grows(narrow, wide);
    BigEndianReads(n, wide);
    SmallMod(n, Pow256(narrow));
  }

  lemma ExpiryReads(v: Value, rest: seq<Byte>)
    requires Fits(Expiry, v)
    ensures Get(Expiry, Put(Expiry, v) + rest) == Some((v, rest))
  {
    NarrowReads(v.n, 8, 32, rest);
  }

  lemma DataReads(v: Value, rest: seq<Byte>)
    requires Fits(Data, v)
    ensures Get(Data, Put(Data, v) + rest) == Some((v, rest))
  {
    assert Put(Data, v) + rest == VarInt(|v.bytes|) + (v.bytes + rest);
    VarIntReads(|v.bytes|, v.bytes + rest);
    CutPrefix(v.bytes, rest);
  }

  lemma PathReads(v: Value, rest: seq<Byte>)
    requires Fits(Path, v)
    ensures Get(Path, Put(Path, v) + rest) == Some((v, rest))
  {
    assert Put(Path, v) + rest == Count(|v.addresses|) + (Join(v.addresses) + rest);
    CountReads(|v.addresses|, Join(v.addresses) + rest);
    JoinReads(v.addresses, rest);
  }

  lemma TextReads(v: Value, rest: seq<Byte>)
    requires Fits(Text, v)
    ensures Get(Text, Put(Text, v) + rest) == Some((v, rest))
  {
    assert Put(Text, v) + rest == Count(|v.bytes|) + (v.bytes + rest);
    CountReads(|v.bytes|, v.bytes + rest);
    CutPrefix(v.bytes, rest);
    if |v.bytes| == 0 {
      assert v.bytes == [];
      assert v.bytes + rest == rest;
    }
  }

  /** Reading a field gives back the value and leaves exactly what follows. */
  lemma FieldReads(k: Kind, v: Value, rest: seq<Byte>)
    requires Fits(k, v)
    ensures Get(k, Put(k, v) + rest) == Some((v, rest))
  {
    match k {
      case Raw(_) => CutPrefix(v.bytes, rest);
      case UInt(_) => IntegerReads(k, v, rest);
      case SInt(_) => IntegerReads(k, v, rest);
      case Amount => IntegerReads(k, v, rest);
      case Expiry => ExpiryReads(v, rest);
      case Data => DataReads(v, rest);
      case Path => PathReads(v, rest);
      case Text => TextReads(v, rest);
    }
  }

  // ---------- Field lists ----------

  predicate FitsAll(ks: seq<Kind>, vs: seq<Value>) {
    |ks| == |vs| && forall i :: 0 <= i < |ks| ==> Fits(ks[i], vs[i])
  }

  function PutAll(ks: seq<Kind>, vs: seq<Value>): seq<Byte>
    requires FitsAll(ks, vs)
    decreases |ks|
  {
    if ks == [] then [] else Put(ks[0], vs[0]) + PutAll(ks[1..], vs[1..])
  }

  function GetAll(ks: seq<Kind>, s: seq<Byte>): Option<(seq<Value>, seq<Byte>)>
    decreases |ks|
  {
    if ks == [] then Some(([], s))
    else
      var first := Get(ks[0], s);
      if first.None? then None
      else
        var others := GetAll(ks[1..], first.value.1);
        if others.None? then None else Some(([first.value.0] + others.value.0, others.value.1))
  }

  lemma {:induction false} FieldsRead(ks: seq<Kind>, vs: seq<Value>, rest: seq<Byte>)
    requires FitsAll(ks, vs)
    ensures GetAll(ks, PutAll(ks, vs) + rest) == Some((vs, rest))
    decreases |ks|
  {
    if ks == [] {
      assert PutAll(ks, vs) + rest == rest;
    } else {
      var tail := PutAll(ks[1..], vs[1..]) + rest;
      assert PutAll(ks, vs) + rest == Put(ks[0], vs[0]) + tail;
      FieldReads(ks[0], vs[0], tail);
      FieldsRead(ks[1..], vs[1..], rest);
      assert vs == [vs[0]] + vs[1..];
    }
  }

  // ---------- Messages ----------

  const ACK := 0
  const PING := 3
  const MEDIATED := 11

  /** Nonce, channel identifier, open block, transferred amount, locksroot. */
  function EnvelopeKinds(): seq<Kind> { [UInt(8), Raw(32), SInt(8), Amount, Raw(32)] }

  predicate IsEnvelope(cmd: nat) { cmd in {7, 9, 11, 17, 27} }

  /** Channel identifier and open block, the participants, their amounts, and one participant's signature. */
  function SettleKinds(): seq<Kind> { [Raw(32), SInt(8), Raw(20), Amount, Raw(20), Amount, Raw(65)] }

  function WithdrawKinds(): seq<Kind> { [Raw(32), SInt(8), Raw(20), Raw(20), Amount, Amount, Raw(65)] }

  function ErrorKinds(): seq<Kind> { [SInt(4), Text] }

  /**
   * MessageMap: the fields of each message before its last one, which is the signature, or the echo of an Ack. The lock
   * of an AnnounceDisposed is its expiration, amount and hash.
   */
  function Layout(cmd: nat): Option<seq<Kind>> {
    if cmd == 0 then Some([Raw(20)])                             // Ack: sender
    else if cmd == 3 then Some([SInt(8)])                        // Ping: nonce
    else if cmd == 5 then Some([Raw(32), Amount])                // SecretRequest: hash, amount
    else if cmd == 7 then Some([Raw(32)] + EnvelopeKinds())      // Unlock: secret
    else if cmd == 9 then Some([Data] + EnvelopeKinds())         // DirectTransfer: data
    else if cmd == 11 then                                       // MediatedTransfer: expiration, hash, amount,
      Some([SInt(8), Raw(32), Amount, Raw(20), Raw(20), Amount, Path] + EnvelopeKinds()) // target, initiator, fee, path
    else if cmd == 13 then                                       // AnnounceDisposed: lock, channel, open block, error
      Some([Expiry, Amount, Raw(32), Raw(32), SInt(8)] + ErrorKinds())
    else if cmd == 15 then Some([Raw(32), Data])                 // RevealSecret: secret, data
    else if cmd == 17 then Some([Raw(32)] + EnvelopeKinds())     // RemoveExpiredHashlock: hash
    else if cmd == 19 then Some(SettleKinds())                   // SettleRequest
    else if cmd == 21 then Some(SettleKinds() + ErrorKinds())    // SettleResponse
    else if cmd == 23 then Some(WithdrawKinds())                 // WithdrawRequest
    else if cmd == 25 then Some(WithdrawKinds() + ErrorKinds())  // WithdrawResponse
    else if cmd == 27 then Some([Raw(32)] + EnvelopeKinds())     // AnnounceDisposedResponse: hash
    else None
  }

  function TrailerLength(cmd: nat): nat { if cmd == ACK then 32 else 65 }

  datatype Msg = Msg(cmd: nat, version: int, fields: seq<Value>, trailer: seq<Byte>)

  /** checkValid of an envelope message. */
  predicate EnvelopeValid(fields: seq<Value>) {
    var n := |fields|;
    && n >= 5 && fields[n - 5].Num? && fields[n - 4].Bytes? && fields[n - 3].Num?
    && fields[n - 5].n > 0 && fields[n - 3].n > 0 && fields[n - 4].bytes != Zeros(32)
  }

  predicate WellTyped(m: Msg) {
    && Layout(m.cmd).Some? && FitsAll(Layout(m.cmd).value, m.fields)
    && |m.trailer| == TrailerLength(m.cmd) && Signed(m.version, 2)
  }

  /** The tests on a message beyond the form of its fields. */
  predicate Admissible(m: Msg) {
    (m.cmd == MEDIATED ==> m.version >= 1) && (IsEnvelope(m.cmd) ==> EnvelopeValid(m.fields))
  }

  predicate Valid(m: Msg) {
    WellTyped(m) && Admissible(m)
  }

  function Header(m: Msg): seq<Byte>
    requires Signed(m.version, 2)
  {
    LittleEndian(m.cmd, 2) + LittleEndian(ToUnsigned(m.version, 2), 2)
  }

  function Pack(m: Msg): seq<Byte>
    requires WellTyped(m)
  {
    Header(m) + PutAll(Layout(m.cmd).value, m.fields) + m.trailer
  }

  /** What becomes of a packet; the source panics on an empty one and in the unpacker of an Ack. */
  datatype Received = Panic | Dropped | Got(m: Msg)

  function HeaderInt(data: seq<Byte>, at: nat): int {
    if |data| < at + 2 then 0 else ToSigned(FromLittleEndian(data[at..at + 2]), 2)
  }

  /** UnPack of the message type `cmd`; `verifies` is the check of the signature against the whole packet. */
  function UnPack(cmd: nat, data: seq<Byte>, verifies: seq<Byte> -> bool): Received
    requires Layout(cmd).Some?
  {
    if cmd == PING && |data| != 77 then Dropped
    else if HeaderInt(data, 0) != cmd then if cmd == ACK then Panic else Dropped
    else if cmd == MEDIATED && HeaderInt(data, 2) < 1 then Dropped
    else
      var body := GetAll(Layout(cmd).value, DropUpTo(data, 4));
      if body.None? || |body.value.1| < TrailerLength(cmd) then Dropped
      else if IsEnvelope(cmd) && !EnvelopeValid(body.value.0) then Dropped
      else if cmd != ACK && !verifies(data) then Dropped
      else Got(Msg(cmd, HeaderInt(data, 2), body.value.0, body.value.1[..TrailerLength(cmd)]))
  }

  /** receiveInternal up to the unpacked message. */
  function Receive(data: seq<Byte>, verifies: seq<Byte> -> bool): Received {
    if |data| > MAX_PACKET then Dropped
    else if data == [] then Panic
    else if Layout(data[0]).None? then Dropped
    else UnPack(data[0], data, verifies)
  }

  // ---------- Round trip ----------

  lemma HeaderReads(m: Msg, rest: seq<Byte>)
    requires Signed(m.version, 2) && 2 * m.cmd < Pow256(2)
    ensures var data := Header(m) + rest;
            HeaderInt(data, 0) == m.cmd && HeaderInt(data, 2) == m.version && DropUpTo(data, 4) == rest
  {
    var data := Header(m) + rest;
    SignedReads(m.cmd, 2);
    SignedReads(m.version, 2);
    assert data[0..2] == LittleEndian(m.cmd, 2);
    assert data[2..4] == LittleEndian(ToUnsigned(m.version, 2), 2);
    assert data[4..] == rest;
  }

  lemma SmallCommands(m: Msg)
    requires WellTyped(m)
    ensures m.cmd < 28 && 2 * m.cmd < Pow256(2)
  {
    Pow256Values();
  }

  lemma FirstByte(m: Msg)
    requires WellTyped(m)
    ensures |Pack(m)| > 0 && Pack(m)[0] == m.cmd
  {
    SmallCommands(m);
    var body := PutAll(Layout(m.cmd).value, m.fields);
    WritesAssociate(Header(m), body, m.trailer);
    HeaderFirst(m, body + m.trailer);
  }

  lemma HeaderFirst(m: Msg, rest: seq<Byte>)
    requires Signed(m.version, 2) && m.cmd < 256
    ensures (Header(m) + rest)[0] == m.cmd
  {
    assert LittleEndian(m.cmd, 2)[0] == m.cmd % 256;
  }

  lemma PingLength(m: Msg)
    requires WellTyped(m) && m.cmd == PING
    ensures |Pack(m)| == 77
  {
    var ks := Layout(m.cmd).value;
    assert |Put(ks[0], m.fields[0])| == 8;
    assert PutAll(ks[1..], m.fields[1..]) == [];
  }

  lemma UnPackGets(cmd: nat, data: seq<Byte>, verifies: seq<Byte> -> bool, fields: seq<Value>, trailer: seq<Byte>)
    requires Layout(cmd).Some? && HeaderInt(data, 0) == cmd && (cmd == PING ==> |data| == 77)
    requires cmd == MEDIATED ==> HeaderInt(data, 2) >= 1
    requires GetAll(Layout(cmd).value, DropUpTo(data, 4)) == Some((fields, trailer)) && |trailer| == TrailerLength(cmd)
    requires (IsEnvelope(cmd) ==> EnvelopeValid(fields)) && (cmd != ACK ==> verifies(data))
    ensures UnPack(cmd, data, verifies) == Got(Msg(cmd, HeaderInt(data, 2), fields, trailer))
  {
    assert trailer[..|trailer|] == trailer;
  }

  /** UnPack of Pack gives back every field, for paths, texts and data of any permitted length. */
  lemma UnPackReads(m: Msg, verifies: seq<Byte> -> bool)
    requires Valid(m) && (m.cmd != ACK ==> verifies(Pack(m)))
    ensures UnPack(m.cmd, Pack(m), verifies) == Got(m)
  {
    var ks := Layout(m.cmd).value;
    var rest := PutAll(ks, m.fields) + m.trailer;
    assert Pack(m) == Header(m) + rest;
    SmallCommands(m);
    HeaderReads(m, rest);
    FieldsRead(ks, m.fields, m.trailer);
    if m.cmd == PING {
      PingLength(m);
    }
    UnPackGets(m.cmd, Pack(m), verifies, m.fields, m.trailer);
  }

  /** Dispatch on the first byte finds the type that packed the message. */
  lemma DispatchFindsType(m: Msg, verifies: seq<Byte> -> bool)
    requires Valid(m) && |Pack(m)| <= MAX_PACKET && (m.cmd != ACK ==> verifies(Pack(m)))
    ensures Receive(Pack(m), verifies) == Got(m)
  {
    FirstByte(m);
    UnPackReads(m, verifies);
  }

  /** Two valid messages with one packing are one message, whatever their types. */
  lemma PackIsInjective(a: Msg, b: Msg)
    requires Valid(a) && Valid(b) && Pack(a) == Pack(b)
    ensures a == b
  {
    FirstByte(a);
    FirstByte(b);
    UnPackReads(a, _ => true);
    UnPackReads(b, _ => true);
  }

  // ---------- Packets cut short ----------

  lemma {:induction false} AddressesExtend(s: seq<Byte>, count: int, more: seq<Byte>)
    requires Addresses(s, count).1 != []
    ensures Addresses(s + more, count) == (Addresses(s, count).0, Addresses(s, count).1 + more)
    decreases count
  {
    if count > 0 {
      AddressesOfNothing(count - 1);
      assert |s| > ADDRESS;
      assert (s + more)[ADDRESS..] == s[ADDRESS..] + more;
      assert (s + more)[..ADDRESS] == s[..ADDRESS];
      AddressesExtend(s[ADDRESS..], count - 1, more);
    }
  }

  lemma {:induction false} AddressesOfNothing(count: int)
    ensures Addresses([], count).1 == []
    decreases count
  {
    if count > 0 {
      AddressesOfNothing(count - 1);
    }
  }

  lemma DropExtends(s: seq<Byte>, n: nat, more: seq<Byte>)
    requires DropUpTo(s, n) != []
    ensures DropUpTo(s + more, n) == DropUpTo(s, n) + more && TakePadded(s + more, n) == TakePadded(s, n)
    ensures IntOf(s + more, n) == IntOf(s, n)
  {
    assert (s + more)[..n] == s[..n];
    assert (s + more)[n..] == s[n..] + more;
  }

  lemma VarIntExtends(s: seq<Byte>, more: seq<Byte>)
    requires ParseVarInt(s).Some?
    ensures ParseVarInt(s + more) == Some((ParseVarInt(s).value.0, ParseVarInt(s).value.1 + more))
  {
    VarIntUnique(s);
    var r := ParseVarInt(s).value;
    assert s + more == VarInt(r.0) + (r.1 + more);
    VarIntReads(r.0, r.1 + more);
  }

  /** A field that leaves something behind was read in full. */
  lemma FieldExtends(k: Kind, s: seq<Byte>, more: seq<Byte>)
    requires Get(k, s).Some? && Get(k, s).value.1 != []
    ensures Get(k, s + more) == Some((Get(k, s).value.0, Get(k, s).value.1 + more))
  {
    match k {
      case Raw(n) => DropExtends(s, n, more);
      case UInt(width) => DropExtends(s, width, more);
      case SInt(width) => DropExtends(s, width, more);
      case Amount => DropExtends(s, 32, more);
      case Expiry => DropExtends(s, 32, more);
      case Data => DataExtends(s, more);
      case Path =>
        AddressesOfNothing(SignedOf(s, 4));
        DropExtends(s, 4, more);
        AddressesExtend(DropUpTo(s, 4), SignedOf(s, 4), more);
      case Text =>
        DropExtends(s, 4, more);
        if SignedOf(s, 4) > 0 {
          DropExtends(DropUpTo(s, 4), SignedOf(s, 4), more);
        }
    }
  }

  lemma DataExtends(s: seq<Byte>, more: seq<Byte>)
    requires Get(Data, s).Some?
    ensures Get(Data, s + more) == Some((Get(Data, s).value.0, Get(Data, s).value.1 + more))
  {
    VarIntExtends(s, more);
    var r := ParseVarInt(s).value;
    assert (r.1 + more)[..r.0] == r.1[..r.0];
    assert (r.1 + more)[r.0..] == r.1[r.0..] + more;
  }

  lemma FieldOfNothing(k: Kind)
    requires Get(k, []).Some?
    ensures Get(k, []).value.1 == []
  {
    if k.Path? {
      AddressesOfNothing(SignedOf([], 4));
    }
  }

  lemma {:induction false} FieldsOfNothing(ks: seq<Kind>)
    requires GetAll(ks, []).Some?
    ensures GetAll(ks, []).value.1 == []
    decreases |ks|
  {
    if ks != [] {
      FieldOfNothing(ks[0]);
      FieldsOfNothing(ks[1..]);
    }
  }

  lemma {:induction false} FieldsExtend(ks: seq<Kind>, s: seq<Byte>, more: seq<Byte>)
    requires GetAll(ks, s).Some? && GetAll(ks, s).value.1 != []
    ensures GetAll(ks, s + more) == Some((GetAll(ks, s).value.0, GetAll(ks, s).value.1 + more))
    decreases |ks|
  {
    if ks != [] {
      var first := Get(ks[0], s).value;
      if first.1 == [] {
        FieldsOfNothing(ks[1..]);
      }
      FieldExtends(ks[0], s, more);
      FieldsExtend(ks[1..], first.1, more);
    }
  }

  lemma CutFields(ks: seq<Kind>, vs: seq<Value>, trailer: seq<Byte>, j: nat)
    requires FitsAll(ks, vs) && j < |PutAll(ks, vs) + trailer| && trailer != []
    requires GetAll(ks, (PutAll(ks, vs) + trailer)[..j]).Some?
    ensures |GetAll(ks, (PutAll(ks, vs) + trailer)[..j]).value.1| < |trailer|
  {
    var all := PutAll(ks, vs) + trailer;
    if GetAll(ks, all[..j]).value.1 != [] {
      FieldsExtend(ks, all[..j], all[j..]);
      assert all[..j] + all[j..] == all;
      FieldsRead(ks, vs, trailer);
    }
  }

  /** No packet cut short is ever taken for a message, although single short reads go unnoticed. */
  lemma TruncatedIsRefused(m: Msg, k: nat, verifies: seq<Byte> -> bool)
    requires Valid(m) && k < |Pack(m)|
    ensures !UnPack(m.cmd, Pack(m)[..k], verifies).Got?
  {
    var j := if k <= 4 then 0 else k - 4;
    CutBody(Header(m), PutAll(Layout(m.cmd).value, m.fields), m.trailer, k);
    CutRefused(m, j);
    ShortBodyRefused(m.cmd, Pack(m)[..k], verifies);
  }

  lemma CutBody(header: seq<Byte>, body: seq<Byte>, trailer: seq<Byte>, k: nat)
    requires |header| == 4 && k < |header + body + trailer| && trailer != []
    ensures var j := if k <= 4 then 0 else k - 4;
            j < |body + trailer| && DropUpTo((header + body + trailer)[..k], 4) == (body + trailer)[..j]
  {
  }

  lemma ShortBodyRefused(cmd: nat, data: seq<Byte>, verifies: seq<Byte> -> bool)
    requires Layout(cmd).Some?
    requires var body := GetAll(Layout(cmd).value, DropUpTo(data, 4));
        body.Some? ==> |body.value.1| < TrailerLength(cmd)
    ensures !UnPack(cmd, data, verifies).Got?
  {
  }

  lemma CutRefused(m: Msg, j: nat)
    requires Valid(m) && j < |PutAll(Layout(m.cmd).value, m.fields) + m.trailer|
    ensures var body := GetAll(Layout(m.cmd).value, (PutAll(Layout(m.cmd).value, m.fields) + m.trailer)[..j]);
            body.Some? ==> |body.value.1| < TrailerLength(m.cmd)
  {
    var ks := Layout(m.cmd).value;
    if GetAll(ks, (PutAll(ks, m.fields) + m.trailer)[..j]).Some? {
      CutFields(ks, m.fields, m.trailer, j);
    }
  }

  // ---------- The buffer at work ----------

  lemma NarrowFits(n: nat, narrow: nat, wide: nat)
    requires narrow <= wide && Signed(n, narrow)
    ensures n < Pow256(wide)
  {
    Pow256Grows(narrow, wide);
  }

  method WriteAmount(buf: Buffer, n: nat)
    requires n < Pow256(32)
    modifies buf
    ensures buf.data == old(buf.data) + BigEndian(n, 32)
  {
    var word := BigIntTo32Bytes(n);
    buf.Write(word[..]);
  }

  lemma WritesAssociate(before: seq<Byte>, count: seq<Byte>, body: seq<Byte>)
    ensures (before + count) + body == before + (count + body)
  {
  }

  method WriteData(buf: Buffer, v: Value)
    requires Fits(Data, v)
    modifies buf
    ensures buf.data == old(buf.data) + Put(Data, v)
  {
    WritesAssociate(buf.data, VarInt(|v.bytes|), v.bytes);
    buf.WriteVarInt(|v.bytes|);
    buf.Write(v.bytes);
  }

  method WriteAddresses(buf: Buffer, v: Value)
    requires Fits(Path, v)
    modifies buf
    ensures buf.data == old(buf.data) + Put(Path, v)
  {
    WritesAssociate(buf.data, Count(|v.addresses|), Join(v.addresses));
    buf.Write(Count(|v.addresses|));
    WritePath(buf, v.addresses);
  }

  method WriteText(buf: Buffer, v: Value)
    requires Fits(Text, v)
    modifies buf
    ensures buf.data == old(buf.data) + Put(Text, v)
  {
    WritesAssociate(buf.data, Count(|v.bytes|), v.bytes);
    buf.Write(Count(|v.bytes|));
    buf.Write(v.bytes);
  }

  method WriteField(buf: Buffer, k: Kind, v: Value)
    requires Fits(k, v)
    modifies buf
    ensures buf.data == old(buf.data) + Put(k, v)
  {
    match k {
      case Raw(_) => buf.Write(v.bytes);
      case UInt(width) => buf.Write(BigEndian(v.n, width));
      case SInt(width) => buf.Write(BigEndian(ToUnsigned(v.n, width), width));
      case Amount => WriteAmount(buf, v.n);
      case Expiry =>
        NarrowFits(v.n, 8, 32);
        WriteAmount(buf, v.n);
      case Data => WriteData(buf, v);
      case Path => WriteAddresses(buf, v);
      case Text => WriteText(buf, v);
    }
  }

  lemma {:induction false} JoinAppend(parts: seq<seq<Byte>>, a: seq<Byte>)
    ensures Join(parts + [a]) == Join(parts) + a
    decreases |parts|
  {
    if parts == [] {
      assert parts + [a] == [a];
      assert Join([a]) == a + Join([]);
    } else {
      assert (parts + [a])[1..] == parts[1..] + [a];
      JoinAppend(parts[1..], a);
    }
  }

  method WritePath(buf: Buffer, path: seq<seq<Byte>>)
    modifies buf
    ensures buf.data == old(buf.data) + Join(path)
  {
    for i := 0 to |path|
      invariant buf.data == old(buf.data) + Join(path[..i])
    {
      assert path[..i + 1] == path[..i] + [path[i]];
      JoinAppend(path[..i], path[i]);
      buf.Write(path[i]);
    }
    assert path[..|path|] == path;
  }

  method ReadPath(buf: Buffer, count: int) returns (path: seq<seq<Byte>>)
    modifies buf
    ensures (path, buf.data) == Addresses(old(buf.data), count)
  {
    path := [];
    var left := count;
    assert [] + Addresses(buf.data, count).0 == Addresses(buf.data, count).0;
    while left > 0
      invariant path + Addresses(buf.data, left).0 == Addresses(old(buf.data), count).0
      invariant Addresses(buf.data, left).1 == Addresses(old(buf.data), count).1
    {
      var a, _ := buf.Read(ADDRESS);
      assert path + ([a] + Addresses(buf.data, left - 1).0) == path + [a] + Addresses(buf.data, left - 1).0;
      path := path + [a];
      left := left - 1;
    }
    assert path + [] == path;
  }

  /** The writes of one packer, in order. */
  method WriteFields(buf: Buffer, ks: seq<Kind>, vs: seq<Value>)
    requires FitsAll(ks, vs)
    modifies buf
    ensures buf.data == old(buf.data) + PutAll(ks, vs)
    decreases |ks|
  {
    if ks != [] {
      WritesAssociate(buf.data, Put(ks[0], vs[0]), PutAll(ks[1..], vs[1..]));
      WriteField(buf, ks[0], vs[0]);
      WriteFields(buf, ks[1..], vs[1..]);
    }
  }

  method PackMessage(m: Msg) returns (data: seq<Byte>)
    requires WellTyped(m)
    ensures data == Pack(m)
  {
    var buf := new Buffer([]);
    buf.Write(LittleEndian(m.cmd, 2));
    buf.Write(LittleEndian(ToUnsigned(m.version, 2), 2));
    WriteFields(buf, Layout(m.cmd).value, m.fields);
    buf.Write(m.trailer);
    data := buf.data;
  }

  method ReadInt(buf: Buffer, width: nat) returns (n: nat)
    modifies buf
    ensures n == IntOf(old(buf.data), width) && buf.data == DropUpTo(old(buf.data), width)
  {
    var s, got := buf.Read(width);
    n := if got < width then 0 else FromBigEndian(s);
  }

  method ReadBigInt(buf: Buffer) returns (n: nat)
    modifies buf
    ensures n == FromBigEndian(TakePadded(old(buf.data), 32)) && buf.data == DropUpTo(old(buf.data), 32)
  {
    var s, _ := buf.Read(32);
    n := FromBigEndian(s);
  }

  method ReadData(buf: Buffer) returns (v: Option<Value>)
    modifies buf
    ensures v.Some? <==> Get(Data, old(buf.data)).Some?
    ensures v.Some? ==> Get(Data, old(buf.data)) == Some((v.value, buf.data))
  {
    var len := buf.ReadVarInt();
    if len.None? || len.value > MAX_PACKET {
      return None;
    }
    var s, got := buf.Read(len.value);
    if got < len.value {
      return None;
    }
    return Some(Bytes(s));
  }

  method ReadText(buf: Buffer) returns (v: Value)
    modifies buf
    ensures Get(Text, old(buf.data)) == Some((v, buf.data))
  {
    var raw := ReadInt(buf, 4);
    var len := ToSigned(raw, 4);
    if len <= 0 {
      return Bytes([]);
    }
    var s, _ := buf.Read(len);
    return Bytes(s);
  }

  method ReadField(buf: Buffer, k: Kind) returns (v: Option<Value>)
    modifies buf
    ensures v.Some? <==> Get(k, old(buf.data)).Some?
    ensures v.Some? ==> Get(k, old(buf.data)) == Some((v.value, buf.data))
  {
    match k {
      case Raw(n) =>
        var s, _ := buf.Read(n);
        v := Some(Bytes(s));
      case UInt(width) =>
        var n := ReadInt(buf, width);
        v := Some(Num(n));
      case SInt(width) =>
        var n := ReadInt(buf, width);
        v := Some(Num(ToSigned(n, width)));
      case Amount =>
        var n := ReadBigInt(buf);
        v := Some(Num(n));
      case Expiry =>
        var n := ReadBigInt(buf);
        v := Some(Num(ToSigned(n % Pow256(8), 8)));
      case Data => v := ReadData(buf);
      case Path =>
        var n := ReadInt(buf, 4);
        var path := ReadPath(buf, ToSigned(n, 4));
        v := Some(List(path));
      case Text =>
        var text := ReadText(buf);
        v := Some(text);
    }
  }

  /** The reads of one unpacker, in order, up to the first that fails. */
  method ReadFields(buf: Buffer, ks: seq<Kind>) returns (vs: Option<seq<Value>>)
    modifies buf
    ensures vs.Some? <==> GetAll(ks, old(buf.data)).Some?
    ensures vs.Some? ==> GetAll(ks, old(buf.data)) == Some((vs.value, buf.data))
    decreases |ks|
  {
    if ks == [] {
      return Some([]);
    }
    var first := ReadField(buf, ks[0]);
    if first.None? {
      return None;
    }
    var others := ReadFields(buf, ks[1..]);
    if others.None? {
      return None;
    }
    return Some([first.value] + others.value);
  }

  method UnPackMessage(cmd: nat, data: seq<Byte>, verifies: seq<Byte> -> bool) returns (r: Received)
    requires Layout(cmd).Some?
    ensures r == UnPack(cmd, data, verifies)
  {
    if cmd == PING && |data| != 77 {
      return Dropped;
    }
    var buf := new Buffer(data);
    var header, got := buf.Read(4);
    if HeaderInt(data, 0) != cmd {
      return if cmd == ACK then Panic else Dropped;
    }
    if cmd == MEDIATED && HeaderInt(data, 2) < 1 {
      return Dropped;
    }
    var fields := ReadFields(buf, Layout(cmd).value);
    if fields.None? {
      return Dropped;
    }
    var trailer, n := buf.Read(TrailerLength(cmd));
    if n != TrailerLength(cmd) || (IsEnvelope(cmd) && !EnvelopeValid(fields.value)) || (cmd != ACK && !verifies(data)) {
      return Dropped;
    }
    return Got(Msg(cmd, HeaderInt(data, 2), fields.value, trailer));
  }

  /** The packets on which the receiver panics: the empty one, and a first byte of zero before a second that is not. */
  lemma PanicsIff(data: seq<Byte>, verifies: seq<Byte> -> bool)
    ensures Receive(data, verifies) == Panic <==>
            data == [] || (data[0] == 0 && 2 <= |data| <= MAX_PACKET && data[1] != 0)
  {
    Pow256Values();
    if |data| >= 2 && data[0] == 0 {
      var s := data[0..2];
      assert FromLittleEndian(s[1..]) == s[1] + 256 * FromLittleEndian(s[1..][1..]);
      var high: int := data[1];
      assert FromLittleEndian(s) == 256 * high;
    }
  }

  // ---------- Exactly what is taken ----------

  /** What a read field may be: as what a written one may be, but an expiration may come out negative. */
  predicate Readable(k: Kind, v: Value) {
    if k.Expiry? then v.Num? && Signed(v.n, 8) else Fits(k, v)
  }

  predicate ReadableAll(ks: seq<Kind>, vs: seq<Value>) {
    |ks| == |vs| && forall i :: 0 <= i < |ks| ==> Readable(ks[i], vs[i])
  }

  lemma SignedInRange(n: nat, width: nat)
    requires n < Pow256(width)
    ensures Signed(ToSigned(n, width), width)
  {
  }

  lemma IntInRange(s: seq<Byte>, width: nat)
    ensures IntOf(s, width) < Pow256(width) && Signed(SignedOf(s, width), width)
  {
    if |s| >= width {
      BigEndianWrites(s[..width]);
    }
    SignedInRange(IntOf(s, width), width);
  }

  lemma {:induction false} AddressesReadable(s: seq<Byte>, count: int)
    ensures var l := Addresses(s, count).0;
            |l| == (if count <= 0 then 0 else count) && forall a :: a in l ==> |a| == ADDRESS
    decreases count
  {
    if count > 0 {
      AddressesReadable(DropUpTo(s, ADDRESS), count - 1);
    }
  }

  lemma WordInRange(s: seq<Byte>, width: nat)
    ensures FromBigEndian(TakePadded(s, width)) < Pow256(width)
  {
    BigEndianWrites(TakePadded(s, width));
  }

  lemma ModInRange(a: nat, b: nat)
    requires b > 0
    ensures a % b < b
  {
  }

  lemma ExpiryReadable(s: seq<Byte>, narrow: nat)
    ensures Signed(ToSigned(FromBigEndian(s) % Pow256(narrow), narrow), narrow)
  {
    ModInRange(FromBigEndian(s), Pow256(narrow));
    SignedInRange(FromBigEndian(s) % Pow256(narrow), narrow);
  }

  lemma FieldReadable(k: Kind, s: seq<Byte>)
    requires Get(k, s).Some?
    ensures Readable(k, Get(k, s).value.0)
  {
    match k {
      case Raw(_) =>
      case UInt(width) => IntInRange(s, width);
      case SInt(width) => IntInRange(s, width);
      case Amount => WordInRange(s, 32);
      case Expiry => ExpiryReadable(TakePadded(s, 32), 8);
      case Data =>
      case Path =>
        IntInRange(s, 4);
        AddressesReadable(DropUpTo(s, 4), SignedOf(s, 4));
      case Text => IntInRange(s, 4);
    }
  }

  lemma {:induction false} FieldsReadable(ks: seq<Kind>, s: seq<Byte>)
    requires GetAll(ks, s).Some?
    ensures ReadableAll(ks, GetAll(ks, s).value.0)
    decreases |ks|
  {
    if ks != [] {
      FieldReadable(ks[0], s);
      FieldsReadable(ks[1..], Get(ks[0], s).value.1);
    }
  }

  /**
   * Whatever the packet: it is taken only as a message of the type its first byte names, with readable fields, a
   * current version, a valid envelope and the signature in full, within the size limit (a ping of its one size), and
   * only when it verifies, unless it is an Ack.
   */
  lemma TakenOnlyIf(data: seq<Byte>, verifies: seq<Byte> -> bool)
    requires Receive(data, verifies).Got?
    ensures var m := Receive(data, verifies).m;
            && 0 < |data| <= MAX_PACKET && m.cmd == data[0] && Layout(m.cmd).Some?
            && ReadableAll(Layout(m.cmd).value, m.fields) && |m.trailer| == TrailerLength(m.cmd)
            && Admissible(m)
            && (m.cmd == PING ==> |data| == 77)
            && (m.cmd != ACK ==> verifies(data))
  {
    FieldsReadable(Layout(data[0]).value, DropUpTo(data, 4));
  }

  lemma DropAppends(data: seq<Byte>, n: nat, extra: seq<Byte>)
    requires n <= |data|
    ensures DropUpTo(data + extra, n) == DropUpTo(data, n) + extra
  {
  }

  lemma UnPackPacked(m: Msg, extra: seq<Byte>, verifies: seq<Byte> -> bool)
    requires WellTyped(m)
    ensures var data := Pack(m) + extra;
            UnPack(m.cmd, data, verifies) ==
              if Admissible(m) && (m.cmd == PING ==> extra == []) && (m.cmd != ACK ==> verifies(data))
              then Got(m) else Dropped
  {
    var ks, data := Layout(m.cmd).value, Pack(m) + extra;
    var body := PutAll(ks, m.fields) + (m.trailer + extra);
    assert data == Header(m) + body;
    SmallCommands(m);
    HeaderReads(m, body);
    FieldsRead(ks, m.fields, m.trailer + extra);
    assert (m.trailer + extra)[..|m.trailer|] == m.trailer;
    if m.cmd == PING {
      PingLength(m);
    }
  }

  /**
   * The exact fate of every packing, followed by anything: it is taken, as the message that was packed, if and only if
   * the message is admissible, the packet is within the limit (a ping has nothing behind it), and it verifies or is an
   * Ack. Otherwise it is dropped.
   */
  lemma PackedTakenIff(m: Msg, extra: seq<Byte>, verifies: seq<Byte> -> bool)
    requires WellTyped(m)
    ensures var data := Pack(m) + extra;
            Receive(data, verifies) ==
              if && Admissible(m) && |data| <= MAX_PACKET && (m.cmd == PING ==> extra == [])
                 && (m.cmd != ACK ==> verifies(data))
              then Got(m) else Dropped
  {
    FirstByte(m);
    assert (Pack(m) + extra)[0] == Pack(m)[0];
    UnPackPacked(m, extra, verifies);
  }

  lemma {:induction false} PutAllSplits(a: seq<Kind>, b: seq<Kind>, va: seq<Value>, vb: seq<Value>)
    requires FitsAll(a, va) && FitsAll(b, vb)
    ensures FitsAll(a + b, va + vb) && PutAll(a + b, va + vb) == PutAll(a, va) + PutAll(b, vb)
    decreases |a|
  {
    if a == [] {
      assert a + b == b && va + vb == vb;
    } else {
      assert (a + b)[1..] == a[1..] + b && (va + vb)[1..] == va[1..] + vb;
      PutAllSplits(a[1..], b, va[1..], vb);
    }
  }

  /** The five fields of a balance proof, as they lie in the packet. */
  function ProofBytes(nonce: nat, channel: seq<Byte>, open: int, amount: nat, root: seq<Byte>): seq<Byte>
    requires Signed(open, 8)
  {
    BigEndian(nonce, 8) + channel + BigEndian(ToUnsigned(open, 8), 8) + BigEndian(amount, 32) + root
  }

  function EnvelopeBytes(vs: seq<Value>): seq<Byte>
    requires FitsAll(EnvelopeKinds(), vs)
  {
    ProofBytes(vs[0].n, vs[1].bytes, vs[2].n, vs[3].n, vs[4].bytes)
  }

  lemma EnvelopeFields(vs: seq<Value>)
    requires FitsAll(EnvelopeKinds(), vs)
    ensures PutAll(EnvelopeKinds(), vs) == EnvelopeBytes(vs) && |EnvelopeBytes(vs)| == 112
  {
    var ks := EnvelopeKinds();
    assert PutAll(ks[1..][1..][1..][1..][1..], vs[1..][1..][1..][1..][1..]) == [];
  }

  lemma LastFive(ks: seq<Kind>, vs: seq<Value>)
    requires FitsAll(ks, vs) && |ks| >= 5 && ks[|ks| - 5..] == EnvelopeKinds()
    ensures FitsAll(EnvelopeKinds(), vs[|vs| - 5..])
    ensures |PutAll(ks, vs)| >= 112 && PutAll(ks, vs)[|PutAll(ks, vs)| - 112..] == EnvelopeBytes(vs[|vs| - 5..])
  {
    var n := |ks| - 5;
    forall i | 0 <= i < 5 ensures Fits(EnvelopeKinds()[i], vs[n..][i]) {
      assert EnvelopeKinds()[i] == ks[n..][i] == ks[n + i];
    }
    assert FitsAll(ks[..n], vs[..n]);
    assert ks == ks[..n] + EnvelopeKinds() && vs == vs[..n] + vs[n..];
    PutAllSplits(ks[..n], EnvelopeKinds(), vs[..n], vs[n..]);
    EnvelopeFields(vs[n..]);
  }

  /**
   * Every message with a balance proof ends with nonce, channel, open block, amount, locksroot and signature, in this
   * order.
   */
  lemma EnvelopeAtEnd(m: Msg)
    requires WellTyped(m) && IsEnvelope(m.cmd)
    ensures |m.fields| >= 5 && FitsAll(EnvelopeKinds(), m.fields[|m.fields| - 5..]) && |Pack(m)| >= 177
    ensures Pack(m)[|Pack(m)| - 177..] == EnvelopeBytes(m.fields[|m.fields| - 5..]) + m.trailer
  {
    EnvelopeLast(m.cmd);
    LastFive(Layout(m.cmd).value, m.fields);
    TailOf(Header(m), PutAll(Layout(m.cmd).value, m.fields), m.trailer, 112);
  }

  lemma EnvelopeLast(cmd: nat)
    requires IsEnvelope(cmd)
    ensures Layout(cmd).Some? && |Layout(cmd).value| >= 5
    ensures Layout(cmd).value[|Layout(cmd).value| - 5..] == EnvelopeKinds()
  {
  }

  lemma TailOf(a: seq<Byte>, b: seq<Byte>, trailer: seq<Byte>, n: nat)
    requires n <= |b|
    ensures var p := a + b + trailer; p[|p| - n - |trailer|..] == b[|b| - n..] + trailer
  {
  }
}

/** The provisioning channel between the target process and the root companion.

    The request is the path length as a native `int` (four bytes,
    little-endian on every Android ABI) followed by that many raw path bytes;
    the reply is one `bool` byte. The connection is a perfect byte queue: what
    one side sends, in order, is what the other side's `recv` can read, and a
    `recv` of `n` bytes returns the first `min(n, available)` of them. The file
    copy is an oracle `copyFile` from destination path to success. */
module Provisioning {
  import opened Common

  const Int32Min: int := -0x8000_0000
  const Int32Max: int := 0x7fff_ffff
  const TwoTo32: int := 0x1_0000_0000

  predicate IsInt32(v: int) { Int32Min <= v <= Int32Max }

  /** The name the payload gets inside the app data directory; the companion
      writes it and the gate loads it. */
  const PayloadName := FromAscii("/SNFix.dex")

  /** `(int) appDir.size()`: only the low 32 bits survive, read as two's complement. */
  function SizeToInt32(n: nat): (v: int)
    ensures IsInt32(v)
    ensures (n - v) % TwoTo32 == 0
    ensures n <= Int32Max <==> v == n
  {
    var low := n % TwoTo32;
    if low <= Int32Max then low else low - TwoTo32
  }

  function Pow256(n: nat): (p: nat)
    ensures p >= 1
  {
    if n == 0 then 1 else 0x100 * Pow256(n - 1)
  }

  /** The number `bs` holds when read least significant byte first. */
  function FromLittleEndian(bs: Bytes): (u: nat)
    ensures u < Pow256(|bs|)
  {
    if bs == [] then 0 else bs[0] as nat + 0x100 * FromLittleEndian(bs[1..])
  }

  /** The `width` low bytes of `u`, least significant first. */
  function ToLittleEndian(u: nat, width: nat): (bs: Bytes)
    ensures |bs| == width
  {
    if width == 0 then [] else [(u % 0x100) as uint8] + ToLittleEndian(u / 0x100, width - 1)
  }

  /** A number that fits in `width` bytes is read back from them unchanged. */
  lemma {:induction false} LittleEndianRoundTrip(u: nat, width: nat)
    requires u < Pow256(width)
    ensures FromLittleEndian(ToLittleEndian(u, width)) == u
  {
    if width > 0 {
      var bs := ToLittleEndian(u, width);
      assert bs[1..] == ToLittleEndian(u / 0x100, width - 1);
      LittleEndianRoundTrip(u / 0x100, width - 1);
    }
  }

  /** The four bytes of an `int` in memory: its two's complement, least
      significant byte first. */
  function EncodeInt32(v: int): (bs: Bytes)
    requires IsInt32(v)
    ensures |bs| == 4
  {
    ToLittleEndian(if v < 0 then v + TwoTo32 else v, 4)
  }

  /** The `int` four bytes in memory hold. */
  function DecodeInt32(bs: Bytes): (v: int)
    requires |bs| == 4
    ensures IsInt32(v)
  {
    var u := FromLittleEndian(bs);
    assert Pow256(4) == TwoTo32;
    if u <= Int32Max then u else u - TwoTo32
  }

  /** Every `int` survives the trip through its four bytes. */
  lemma {:induction false} Int32RoundTrip(v: int)
    requires IsInt32(v)
    ensures DecodeInt32(EncodeInt32(v)) == v
  {
    assert Pow256(4) == TwoTo32;
    LittleEndianRoundTrip(if v < 0 then v + TwoTo32 else v, 4);
  }

  /** What the target process sends: `send(fd, &strSize, 4)` then
      `send(fd, appDir.data(), appDir.size())`. */
  function EncodeRequest(appDir: Bytes): (wire: Bytes)
    ensures |wire| == 4 + |appDir|
    ensures wire[..4] == EncodeInt32(SizeToInt32(|appDir|))
    ensures wire[4..] == appDir
    ensures |appDir| <= Int32Max ==> DecodeInt32(wire[..4]) == |appDir|
  {
    Int32RoundTrip(SizeToInt32(|appDir|));
    EncodeInt32(SizeToInt32(|appDir|)) + appDir
  }

  /** What the companion makes of a connection: it reads four bytes as the size,
      `resize`s a zero-filled buffer to it and reads up to that many bytes into
      it. Fewer than four bytes leave the size unread, and a negative size makes
      `resize` throw: in both cases no path is received. */
  function DecodeRequest(wire: Bytes): (r: Option<Bytes>)
    ensures r.Some? <==> |wire| >= 4 && DecodeInt32(wire[..4]) >= 0
    ensures r.Some? ==> |r.value| == DecodeInt32(wire[..4])
    ensures r.Some? ==> forall i :: 0 <= i < |r.value| ==>
      r.value[i] == if 4 + i < |wire| then wire[4 + i] else 0
  {
    if |wire| < 4 then None
    else
      var strSize := DecodeInt32(wire[..4]);
      if strSize < 0 then None
      else
        var body := wire[4..];
        var got := if strSize <= |body| then body[..strSize] else body;
        Some(got + seq(strSize - |got|, _ => 0))
  }

  /** Framing round trip: whatever follows the request on the connection, the
      companion receives exactly the path the target process sent if, and only
      if, its length fits in an `int`. */
  lemma {:induction false} RequestRoundTrip(appDir: Bytes, rest: Bytes)
    ensures DecodeRequest(EncodeRequest(appDir) + rest) == Some(appDir) <==> |appDir| <= Int32Max
  {
    var wire := EncodeRequest(appDir) + rest;
    var header := EncodeInt32(SizeToInt32(|appDir|));
    assert wire[..4] == header;
    Int32RoundTrip(SizeToInt32(|appDir|));
    var r := DecodeRequest(wire);
    if |appDir| <= Int32Max {
      assert r.Some?;
      assert |r.value| == |appDir|;
      forall i | 0 <= i < |appDir|
        ensures r.value[i] == appDir[i]
      {
        assert wire[4 + i] == appDir[i];
      }
      assert r.value == appDir;
    } else {
      assert r.Some? ==> |r.value| != |appDir|;
    }
  }

  /** A path of 2^31 to 2^32 - 1 bytes gets a negative size on the wire, and the
      companion receives no path at all. */
  lemma OversizedPathIsNotReceived(appDir: Bytes)
    requires Int32Max < |appDir| < TwoTo32
    ensures DecodeRequest(EncodeRequest(appDir)) == None
  {
    var header := EncodeInt32(SizeToInt32(|appDir|));
    assert EncodeRequest(appDir)[..4] == header;
    Int32RoundTrip(SizeToInt32(|appDir|));
  }

  /** The reply: `send(fd, &correct, sizeof(bool))`, one byte holding 0 or 1. */
  function EncodeReply(correct: bool): (bs: Bytes)
    ensures |bs| == 1
    ensures bs[0] <= 1
    ensures DecodeReply(bs) == Some(correct)
  {
    [if correct then 1 else 0]
  }

  /** The target process's `recv` of the reply; nothing to read leaves no answer. */
  function DecodeReply(bs: Bytes): (r: Option<bool>)
    ensures r.Some? <==> |bs| >= 1
    ensures |bs| >= 1 && bs[0] <= 1 ==> r == Some(bs[0] == 1)
  {
    if |bs| == 0 then None else Some(bs[0] != 0)
  }

  lemma ReplyRoundTrip(correct: bool, rest: Bytes)
    ensures DecodeReply(EncodeReply(correct) + rest) == Some(correct)
  {
  }

  /** One connection served by the companion. */
  datatype Served = Served(
    appDir: Bytes,           // the path received
    destination: Bytes,      // where the payload was copied to
    copied: bool,            // the outcome of `copy_file`
    permissionsSet: bool,    // whether the destination was made readable by all
    reply: Bytes)            // the bytes sent back

  /** `companion(fd)`: receives the path, copies the payload to
      `path + "/SNFix.dex"` (overwriting), makes the copy readable by owner,
      group and others only when the copy succeeded, and replies with the copy's
      outcome. A connection whose path cannot be received gets no reply. */
  function Companion(wire: Bytes, copyFile: Bytes -> bool): (r: Option<Served>)
    ensures r.Some? <==> DecodeRequest(wire).Some?
    ensures r.Some? ==> DecodeRequest(wire) == Some(r.value.appDir)
    ensures r.Some? ==> r.value.destination == r.value.appDir + PayloadName
    ensures r.Some? ==> r.value.copied == copyFile(r.value.destination)
    ensures r.Some? ==> (r.value.permissionsSet <==> r.value.copied)
    ensures r.Some? ==> DecodeReply(r.value.reply) == Some(r.value.copied)
  {
    match DecodeRequest(wire)
    case None => None
    case Some(appDir) =>
      var destination := appDir + PayloadName;
      var correct := copyFile(destination);
      Some(Served(appDir, destination, correct, correct, EncodeReply(correct)))
  }

  /** For every path that fits the length field, the companion serves the very
      path the target process sent: the payload goes to that path plus
      "/SNFix.dex", and the target process reads back exactly the copy's outcome. */
  lemma CompanionServesRequest(appDir: Bytes, rest: Bytes, copyFile: Bytes -> bool)
    requires |appDir| <= Int32Max
    ensures var r := Companion(EncodeRequest(appDir) + rest, copyFile);
      && r.Some?
      && r.value.appDir == appDir
      && r.value.destination == appDir + PayloadName
      && r.value.permissionsSet == copyFile(appDir + PayloadName)
      && DecodeReply(r.value.reply) == Some(copyFile(appDir + PayloadName))
  {
    RequestRoundTrip(appDir, rest);
  }
}

/** The synthetic voice packets of server.go (`media`), against RFC 3550 section 5.1. */
module RtpSource {

  type Byte = n: nat | n < 256

  /** What one tick of the sender finds: no confirmed call with a stream and a voice flow; an unusable user-plane
      address, which ends the sender; or a packet handed to the radio, which may fail. */
  datatype Tick = Skip | BadAddress | Send(ok: bool)

  function U16(v: nat): seq<Byte>
    requires v < 0x1_0000
  {
    [v / 256, v % 256]
  }

  function U32(v: nat): seq<Byte>
    requires v < 0x1_0000_0000
  {
    [v / 0x100_0000, v / 0x1_0000 % 256, v / 256 % 256, v % 256]
  }

  /** The packet built from a sequence number and a timestamp: a twelve-byte header and twenty zero bytes. */
  function Packet(number: nat, stamp: nat): seq<Byte>
    requires number < 0x1_0000 && stamp < 0x1_0000_0000
  {
    [0x80, 116] + U16(number) + U32(stamp) + U32(1) + seq(20, _ => 0)
  }

  // ---------------------------------------------------------------- a receiver's view

  datatype Header = Header(
    version: nat, padding: bool, extension: bool, sources: nat, marker: bool, payloadType: nat,
    number: nat, stamp: nat, ssrc: nat)

  function Word(b: seq<Byte>, at: nat): nat
    requires at + 4 <= |b|
  {
    Join(Join(Join(b[at], b[at + 1]), b[at + 2]), b[at + 3])
  }

  function Join(high: nat, low: nat): nat {
    high * 256 + low
  }

  function Decode(b: seq<Byte>): Header
    requires |b| >= 12
  {
    Header(b[0] / 64, b[0] / 32 % 2 == 1, b[0] / 16 % 2 == 1, b[0] % 16, b[1] / 128 == 1, b[1] % 128,
           Join(b[2], b[3]), Word(b, 4), Word(b, 8))
  }

  lemma WordOfU32(v: nat)
    requires v < 0x1_0000_0000
    ensures Word(U32(v), 0) == v
  {
    var a, b, c := v / 256, v / 0x1_0000, v / 0x100_0000;
    assert v == a * 256 + v % 256;
    assert a == b * 256 + a % 256 && a / 256 == b;
    assert b == c * 256 + b % 256 && b / 256 == c;
  }

  lemma PacketBytes(number: nat, stamp: nat)
    requires number < 0x1_0000 && stamp < 0x1_0000_0000
    ensures var p := Packet(number, stamp);
      && |p| == 32 && p[0] == 0x80 && p[1] == 116
      && p[2..4] == U16(number) && p[4..8] == U32(stamp) && p[8..12] == U32(1)
  {
  }

  lemma NumberOfU16(v: nat)
    requires v < 0x1_0000
    ensures Join(U16(v)[0], U16(v)[1]) == v
  {
  }

  lemma DecodeParts(p: seq<Byte>, number: seq<Byte>, stamp: seq<Byte>, source: seq<Byte>)
    requires |p| == 32 && p[0] == 0x80 && p[1] == 116
    requires |number| == 2 && |stamp| == |source| == 4
    requires p[2..4] == number && p[4..8] == stamp && p[8..12] == source
    ensures Decode(p) ==
            Header(2, false, false, 0, false, 116, Join(number[0], number[1]), Word(stamp, 0), Word(source, 0))
  {
    assert p[2] == number[0] && p[3] == number[1];
    assert p[4] == stamp[0] && p[5] == stamp[1] && p[6] == stamp[2] && p[7] == stamp[3];
    assert p[8] == source[0] && p[9] == source[1] && p[10] == source[2] && p[11] == source[3];
  }

  /** The header a receiver decodes carries the number and the stamp the packet was built from. */
  lemma DecodePacket(number: nat, stamp: nat)
    requires number < 0x1_0000 && stamp < 0x1_0000_0000
    ensures |Packet(number, stamp)| == 32
    ensures Decode(Packet(number, stamp)) == Header(2, false, false, 0, false, 116, number, stamp, 1)
  {
    PacketBytes(number, stamp);
    DecodeParts(Packet(number, stamp), U16(number), U32(stamp), U32(1));
    NumberOfU16(number);
    WordOfU32(stamp);
    WordOfU32(1);
  }

  // ---------------------------------------------------------------- the k-th packet

  const STAMPS: nat := 0x1_0000_0000
  const NUMBERS: nat := 0x1_0000
  const PERIOD: nat := 0x400_0000

  function Nth(k: nat): seq<Byte> {
    Packet(k % NUMBERS, 320 * k % STAMPS)
  }

  /** The ticks that build a packet: all `Send` ticks, and the bad address that ends the sender. */
  function Built(ticks: seq<Tick>): nat {
    if ticks == [] then 0
    else if ticks[0].BadAddress? then 1
    else (if ticks[0].Send? then 1 else 0) + Built(ticks[1..])
  }

  function SentOk(ticks: seq<Tick>): nat {
    if ticks == [] || ticks[0].BadAddress? then 0
    else (if ticks[0] == Send(true) then 1 else 0) + SentOk(ticks[1..])
  }

  lemma WrapStep(k: nat)
    ensures (k % NUMBERS + 1) % NUMBERS == (k + 1) % NUMBERS
    ensures (320 * k % STAMPS + 320) % STAMPS == 320 * (k + 1) % STAMPS
  {
    SameRemainder(k + 1, k % NUMBERS + 1, NUMBERS, k / NUMBERS);
    SameRemainder(320 * (k + 1), 320 * k % STAMPS + 320, STAMPS, 320 * k / STAMPS);
  }

  /** The sender's loop. Number and timestamp wrap as 16 and 32 bit counters; a failed send still uses them up. */
  method Media(ticks: seq<Tick>) returns (packets: seq<seq<Byte>>, tx: nat)
    ensures |packets| == Built(ticks) && tx == SentOk(ticks)
    ensures forall k :: 0 <= k < |packets| ==> packets[k] == Nth(k)
  {
    packets, tx := [], 0;
    var number, stamp := 0, 0;
    var i := 0;
    while i < |ticks|
      invariant i <= |ticks|
      invariant number == |packets| % NUMBERS && stamp == 320 * |packets| % STAMPS
      invariant forall k :: 0 <= k < |packets| ==> packets[k] == Nth(k)
      invariant |packets| + Built(ticks[i..]) == Built(ticks) && tx + SentOk(ticks[i..]) == SentOk(ticks)
    {
      assert ticks[i..][1..] == ticks[i + 1..];
      if ticks[i] != Skip {
        var packet := Packet(number, stamp);
        assert packet == Nth(|packets|);
        WrapStep(|packets|);
        packets := packets + [packet];
        number := (number + 1) % NUMBERS;
        stamp := (stamp + 320) % STAMPS;
        if ticks[i].BadAddress? { return; }
        if ticks[i].ok { tx := tx + 1; }
      }
      i := i + 1;
    }
  }

  // ---------------------------------------------------------------- when two packets look alike

  /** Five has an inverse modulo 2^26, so multiplying by it loses nothing. */
  lemma FiveIsInvertible(d: int)
    requires 5 * d % PERIOD == 0
    ensures d % PERIOD == 0
  {
    var q := 5 * d / PERIOD;
    assert 5 * d == q * PERIOD;
    // 5 * 13421773 == 2^26 + 1
    assert d == 13421773 * (5 * d) - d * PERIOD;
    assert d == (13421773 * q - d) * PERIOD;
    RemainderIs(d, PERIOD, 13421773 * q - d, 0);
  }

  lemma SameRemainder(a: int, b: int, m: nat, q: int)
    requires m > 0 && a == b + q * m
    ensures a % m == b % m
  {
    var x := b / m;
    assert b == x * m + b % m;
    assert a == (x + q) * m + b % m;
    RemainderIs(a, m, x + q, b % m);
  }

  lemma MultipleOutside(d: int, m: nat)
    ensures d >= 1 ==> d * m >= m
    ensures d <= -1 ==> d * m <= -(m as int)
  {
  }

  lemma RemainderIs(a: int, m: nat, q: int, r: int)
    requires 0 <= r < m && a == q * m + r
    ensures a % m == r
  {
    var d := a / m - q;
    assert a == (a / m) * m + a % m;
    assert d * m == r - a % m;
    MultipleOutside(d, m);
  }

  lemma PeriodSuffices(j: nat, k: nat)
    requires j % PERIOD == k % PERIOD
    ensures j % NUMBERS == k % NUMBERS && 320 * j % STAMPS == 320 * k % STAMPS
  {
    var m := j / PERIOD - k / PERIOD;
    assert j == k + m * PERIOD;
    SameRemainder(j, k, NUMBERS, 1024 * m);
    SameRemainder(320 * j, 320 * k, STAMPS, 5 * m);
  }

  lemma PeriodNeeded(j: nat, k: nat)
    requires 320 * j % STAMPS == 320 * k % STAMPS
    ensures j % PERIOD == k % PERIOD
  {
    var d := j - k;
    var m := 320 * j / STAMPS - 320 * k / STAMPS;
    assert 320 * d == m * STAMPS;
    assert 5 * d == m * PERIOD;
    RemainderIs(5 * d, PERIOD, m, 0);
    FiveIsInvertible(d);
    SameRemainder(j, k, PERIOD, d / PERIOD);
  }

  /** Timestamps repeat with period 2^26, numbers with period 2^16: two packets share both exactly when their indices
      agree modulo 2^26. */
  lemma SameNumbersExactly(j: nat, k: nat)
    ensures (j % NUMBERS == k % NUMBERS && 320 * j % STAMPS == 320 * k % STAMPS) <==> j % PERIOD == k % PERIOD
  {
    if j % PERIOD == k % PERIOD { PeriodSuffices(j, k); }
    if 320 * j % STAMPS == 320 * k % STAMPS { PeriodNeeded(j, k); }
  }
}

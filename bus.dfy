/** The SPI bus between the ESP32 and the panel controller, seen as an
    append-only trace of events, together with the fixed-width integer
    types of the C source and their wrap-around conversions. */
module Bus {

  type uint8 = x: int | 0 <= x < 0x100
  type uint16 = x: int | 0 <= x < 0x1_0000
  type uint32 = x: int | 0 <= x < 0x1_0000_0000

  datatype Option<T> = None | Some(value: T)

  /** C's conversion of an `int` to `uint8_t`. */
  function Wrap8(x: int): (r: uint8)
    ensures 0 <= x < 0x100 ==> r == x
  {
    x % 0x100
  }

  /** C's conversion of an `int` to `uint16_t`. */
  function Wrap16(x: int): (r: uint16)
    ensures 0 <= x < 0x1_0000 ==> r == x
  {
    x % 0x1_0000
  }

  /** C's conversion of an `int` to `uint32_t`. */
  function Wrap32(x: int): (r: uint32)
    ensures 0 <= x < 0x1_0000_0000 ==> r == x
  {
    x % 0x1_0000_0000
  }

  /** One observable step of the driver on the bus or the reset line.
      A transfer is recorded with the level the data/command line had
      while it was clocked out: `Cmd` with D/C low, the others with D/C high. */
  datatype Event =
    | Cmd(op: uint8)              // SPI.write of one command byte
    | Data8(value: uint8)         // SPI.write of one parameter or pixel byte
    | Data16(word: uint16)        // SPI.write16: one word, most significant byte first
    | Bytes(burst: seq<uint8>)    // SPI.writeBytes: one burst, in buffer order
    | Reset(high: bool)           // the panel's reset line driven high or low
    | Delay(ms: nat)              // a blocking delay(ms)

  /** Doubling a count and converting to `uint32_t` gives the same result
      whether or not the count was converted first. */
  lemma WrapDouble(n: int)
    ensures Wrap32(Wrap32(n) * 2) == Wrap32(n * 2)
  {
    var q, r := n / 0x1_0000_0000, n % 0x1_0000_0000;
    if r * 2 < 0x1_0000_0000 {
      Wrap32Unique(n * 2, q * 2, r * 2);
    } else {
      Wrap32Unique(n * 2, q * 2 + 1, r * 2 - 0x1_0000_0000);
    }
  }

  /** The remainder is the one value in range that differs from `x` by a
      multiple of the modulus. */
  lemma Wrap32Unique(x: int, q: int, r: int)
    requires 0 <= r < 0x1_0000_0000 && x == q * 0x1_0000_0000 + r
    ensures Wrap32(x) == r
  {
  }

  /** The bytes an event clocks out on the data line. */
  function WireBytes(e: Event): seq<uint8>
  {
    match e
    case Cmd(op) => [op]
    case Data8(v) => [v]
    case Data16(w) => [w / 0x100, w % 0x100]
    case Bytes(bs) => bs
    case Reset(_) => []
    case Delay(_) => []
  }

  /** A 16-bit transfer sends the most significant byte first; pin and
      delay events send nothing. */
  lemma WireBytesOrder(e: Event)
    ensures e.Data16? ==> var bs := WireBytes(e);
      |bs| == 2 && bs[0] as int * 0x100 + bs[1] as int == e.word
    ensures e.Reset? || e.Delay? ==> WireBytes(e) == []
  {
  }

  /** The bytes a whole trace clocks out, in order. */
  function Wire(tr: seq<Event>): seq<uint8>
  {
    if tr == [] then [] else Wire(tr[..|tr| - 1]) + WireBytes(tr[|tr| - 1])
  }

  /** One more event adds its bytes at the end. */
  lemma WireSnoc(tr: seq<Event>, e: Event)
    ensures Wire(tr + [e]) == Wire(tr) + WireBytes(e)
  {
    assert (tr + [e])[..|tr|] == tr;
  }

  lemma {:induction false} WireAppend(a: seq<Event>, b: seq<Event>)
    ensures Wire(a + b) == Wire(a) + Wire(b)
    decreases |b|
  {
    if b == [] {
      assert a + b == a;
    } else {
      var n := |b| - 1;
      var front, last := b[..n], b[n];
      assert b == front + [last];
      assert a + b == (a + front) + [last];
      calc {
        Wire(a + b);
        == { WireSnoc(a + front, last); }
        Wire(a + front) + WireBytes(last);
        == { WireAppend(a, front); }
        Wire(a) + Wire(front) + WireBytes(last);
        == { WireSnoc(front, last); }
        Wire(a) + Wire(b);
      }
    }
  }

  lemma AppendAssoc<T>(a: seq<T>, b: seq<T>, c: seq<T>)
    ensures a + (b + c) == a + b + c
  {
  }

  /** Seven single transfers in a row add the seven events in order. */
  lemma AppendSeven(t: seq<Event>, e0: Event, e1: Event, e2: Event, e3: Event, e4: Event, e5: Event, e6: Event)
    ensures t + [e0] + [e1] + [e2] + [e3] + [e4] + [e5] + [e6] == t + [e0, e1, e2, e3, e4, e5, e6]
  {
  }

  /** The two bytes of a `uint16_t` exchanged. */
  function Swap16(w: uint16): (r: uint16)
    ensures r / 0x100 == w % 0x100 && r % 0x100 == w / 0x100
  {
    (w % 0x100) * 0x100 + w / 0x100
  }

  /** The bytes of a `uint16_t` buffer as they lie in the ESP32's
      little-endian memory, i.e. what `(uint8_t *)buffer` reads. */
  function LeBytes(words: seq<uint16>): (bs: seq<uint8>)
    ensures |bs| == 2 * |words|
    ensures forall k :: 0 <= k < |words| ==>
              bs[2 * k] == words[k] % 0x100 && bs[2 * k + 1] == words[k] / 0x100
  {
    seq(2 * |words|, i requires 0 <= i < 2 * |words| =>
      if i % 2 == 0 then words[i / 2] % 0x100 else words[i / 2] / 0x100)
  }

  /** One `Data8` event per byte, in order. */
  function Data8s(bs: seq<uint8>): (es: seq<Event>)
    ensures |es| == |bs|
    ensures forall i :: 0 <= i < |bs| ==> es[i] == Data8(bs[i])
  {
    seq(|bs|, i requires 0 <= i < |bs| => Data8(bs[i]))
  }

  /** `n` copies of one event. */
  function Repeat(e: Event, n: nat): (es: seq<Event>)
    ensures |es| == n
    ensures forall i :: 0 <= i < n ==> es[i] == e
  {
    seq(n, _ => e)
  }

  /** One `Data16` event per word, in order. */
  function Data16s(ws: seq<uint16>): (es: seq<Event>)
    ensures |es| == |ws|
    ensures forall i :: 0 <= i < |ws| ==> es[i] == Data16(ws[i])
  {
    seq(|ws|, i requires 0 <= i < |ws| => Data16(ws[i]))
  }

  /** Every word of a buffer with its two bytes exchanged. */
  function SwapAll(ws: seq<uint16>): (rs: seq<uint16>)
    ensures |rs| == |ws|
    ensures forall i :: 0 <= i < |ws| ==> rs[i] == Swap16(ws[i])
  {
    seq(|ws|, i requires 0 <= i < |ws| => Swap16(ws[i]))
  }

  /** One more copy at the end. */
  lemma RepeatSnoc(e: Event, n: nat)
    ensures Repeat(e, n) + [e] == Repeat(e, n + 1)
  {
    assert (Repeat(e, n) + [e])[n] == e;
  }

  /** One more byte transfer at the end of a prefix. */
  lemma Data8sSnoc(bs: seq<uint8>, n: nat)
    requires n < |bs|
    ensures Data8s(bs[..n]) + [Data8(bs[n])] == Data8s(bs[..n + 1])
  {
    assert bs[..n + 1] == bs[..n] + [bs[n]];
  }

  /** Two more byte transfers at the end of a prefix. */
  lemma Data8sSnocTwo(t: seq<Event>, bs: seq<uint8>, n: nat)
    requires n + 1 < |bs|
    ensures t + Data8s(bs[..n]) + [Data8(bs[n])] + [Data8(bs[n + 1])] == t + Data8s(bs[..n + 2])
  {
    Data8sSnoc(bs, n);
    Data8sSnoc(bs, n + 1);
  }

  /** One more word transfer at the end of a prefix. */
  lemma Data16sSnoc(ws: seq<uint16>, n: nat)
    requires n < |ws|
    ensures Data16s(ws[..n]) + [Data16(ws[n])] == Data16s(ws[..n + 1])
  {
    assert ws[..n + 1] == ws[..n] + [ws[n]];
  }

  /** Byte transfers put exactly those bytes on the wire. */
  lemma {:induction false} Data8sWire(bs: seq<uint8>)
    ensures Wire(Data8s(bs)) == bs
    decreases |bs|
  {
    if bs != [] {
      var n := |bs| - 1;
      var es := Data8s(bs);
      assert es[..n] == Data8s(bs[..n]);
      Data8sWire(bs[..n]);
      assert bs == bs[..n] + [bs[n]];
    }
  }

  /** The in-memory bytes of a prefix of a buffer are a prefix of its bytes. */
  lemma LeBytesPrefix(ws: seq<uint16>, n: nat)
    requires n <= |ws|
    ensures LeBytes(ws)[..2 * n] == LeBytes(ws[..n])
  {
    var a, b := LeBytes(ws)[..2 * n], LeBytes(ws[..n]);
    assert |a| == |b|;
    forall i | 0 <= i < |a|
      ensures a[i] == b[i]
    {
      var k := i / 2;
      assert i == 2 * k || i == 2 * k + 1;
    }
  }

  /** Sending a buffer's memory bytes in order is the same, on the wire, as
      sending each of its words byte-swapped with a 16-bit transfer: the
      ESP32 stores the low byte first, a 16-bit transfer sends the high
      byte first. */
  lemma {:induction false} LeBytesWire(ws: seq<uint16>)
    ensures Wire(Data16s(SwapAll(ws))) == LeBytes(ws)
    decreases |ws|
  {
    if ws != [] {
      var n := |ws| - 1;
      var w := ws[n];
      var es := Data16s(SwapAll(ws));
      var front := Data16s(SwapAll(ws[..n]));
      assert es[..n] == front;
      assert es[n] == Data16(Swap16(w));
      assert Wire(es) == Wire(front) + WireBytes(Data16(Swap16(w)));
      SwappedWordBytes(w);
      LeBytesWire(ws[..n]);
      LeBytesPrefix(ws, n);
      LeBytesLast(ws);
    }
  }

  lemma SwappedWordBytes(w: uint16)
    ensures WireBytes(Data16(Swap16(w))) == [w % 0x100, w / 0x100]
  {
  }

  lemma LeBytesLast(ws: seq<uint16>)
    requires ws != []
    ensures LeBytes(ws) == LeBytes(ws)[..2 * (|ws| - 1)] + [ws[|ws| - 1] % 0x100, ws[|ws| - 1] / 0x100]
  {
    var n := |ws| - 1;
    var bs := LeBytes(ws);
    var tail := [ws[n] % 0x100, ws[n] / 0x100];
    assert |bs| == 2 * n + 2;
    forall i | 0 <= i < |bs|
      ensures bs[i] == (bs[..2 * n] + tail)[i]
    {
      if i >= 2 * n {
        assert i == 2 * n || i == 2 * n + 1;
      }
    }
  }
}

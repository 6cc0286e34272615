/** The packet header, put together as text in base two and as bytes, and taken apart again. */
module Header {
  import opened Printing

  function Pow2(w: nat): (r: nat)
    ensures r > 0
  {
    if w == 0 then 1 else 2 * Pow2(w - 1)
  }

  /** The lowest `w` bits of a number, the highest first. */
  function Bits(n: nat, w: nat): (r: string)
    ensures |r| == w
    decreases w
  {
    if w == 0 then "" else Bits(n / 2, w - 1) + [if n % 2 == 1 then '1' else '0']
  }

  /** The header: priority 0, the two addresses, the two ports, and eight flags that are off. */
  function HeaderText(dest: nat, src: nat, srcPort: nat, destPort: nat): (r: string)
    ensures |r| == 32
  {
    Bits(0, 2) + (Bits(src, 5) + (Bits(dest, 5) + (Bits(destPort, 6) + (Bits(srcPort, 6) + Bits(0, 8)))))
  }

  lemma Halving(a: nat, b: nat, k: nat)
    requires k > 0 && b < Pow2(k)
    ensures (a * Pow2(k) + b) / 2 == a * Pow2(k - 1) + b / 2 && (a * Pow2(k) + b) % 2 == b % 2 && b / 2 < Pow2(k - 1)
  {
    assert a * Pow2(k) == 2 * (a * Pow2(k - 1));
  }

  /** Numbers side by side are their bits side by side. */
  lemma {:induction false} SideBySide(a: nat, j: nat, b: nat, k: nat)
    requires b < Pow2(k)
    ensures Bits(a * Pow2(k) + b, j + k) == Bits(a, j) + Bits(b, k)
    decreases k
  {
    if k > 0 {
      Halving(a, b, k);
      SideBySide(a, j, b / 2, k - 1);
      hide Pow2;
      var c := [if b % 2 == 1 then '1' else '0'];
      assert Bits(a, j) + Bits(b / 2, k - 1) + c == Bits(a, j) + (Bits(b / 2, k - 1) + c);
    }
  }

  lemma {:induction false} BitsRead(n: nat, w: nat)
    requires n < Pow2(w)
    ensures Value(Bits(n, w), 2) == n
    decreases w
  {
    if w > 0 {
      BitsRead(n / 2, w - 1);
      var init := Bits(n / 2, w - 1);
      assert Bits(n, w)[..w - 1] == init;
    }
  }

  lemma Powers()
    ensures Pow2(5) == 32 && Pow2(6) == 64 && Pow2(8) == 256
    ensures Pow2(14) == 64 * 256 && Pow2(20) == 64 * 64 * 256 && Pow2(25) == 32 * 64 * 64 * 256
    ensures Pow2(30) == 32 * 32 * 64 * 64 * 256 && Pow2(16) == 0x1_0000 && Pow2(24) == 0x100_0000
            && Pow2(32) == 0x1_0000_0000
  {
    assert Pow2(5) == 32 && Pow2(8) == 256 && Pow2(11) == 2048 && Pow2(14) == 16384 && Pow2(17) == 131072;
    assert Pow2(20) == 1048576 && Pow2(23) == 8388608 && Pow2(26) == 67108864 && Pow2(29) == 536870912
           && Pow2(32) == 0x1_0000_0000;
  }

  /** The fields in one number. */
  function HeaderValue(dest: nat, src: nat, srcPort: nat, destPort: nat): nat {
    (((src * 32 + dest) * 64 + destPort) * 64 + srcPort) * 256
  }

  lemma TextIsValue(dest: nat, src: nat, srcPort: nat, destPort: nat)
    requires dest < 32 && src < 32 && srcPort < 64 && destPort < 64
    ensures HeaderText(dest, src, srcPort, destPort) == Bits(HeaderValue(dest, src, srcPort, destPort), 32)
    ensures Value(HeaderText(dest, src, srcPort, destPort), 2)
      == HeaderValue(dest, src, srcPort, destPort) < 0x4000_0000
  {
    Powers();
    hide Bits, Pow2;
    SideBySide(srcPort, 6, 0, 8);
    SideBySide(destPort, 6, srcPort * 256, 14);
    SideBySide(dest, 5, destPort * 64 * 256 + srcPort * 256, 20);
    SideBySide(src, 5, dest * 64 * 64 * 256 + destPort * 64 * 256 + srcPort * 256, 25);
    SideBySide(0, 2, HeaderValue(dest, src, srcPort, destPort), 30);
    BitsRead(HeaderValue(dest, src, srcPort, destPort), 32);
  }

  // --- as text

  function Zeros(n: nat): (r: string)
    ensures |r| == n && forall i :: 0 <= i < n ==> r[i] == '0'
  {
    seq(n, i => '0')
  }

  /** The text in the buffer, with zeros in front up to the width. */
  method Padded(output: string, buf: array<char>, ghost text: string, width: nat) returns (r: string)
    requires Holds(buf, text) && NoNul(text) && |text| <= width
    ensures r == output + (Zeros(width - |text|) + text)
  {
    var len := Strlen(buf, text);
    r := output;
    if len == width {
      r := r + buf[..len];
    } else {
      var count := width - len;
      while count != 0
        invariant 0 <= count <= width - len && r == output + Zeros(width - len - count)
      {
        assert Zeros(width - len - count) + "0" == Zeros(width - len - count + 1);
        r := r + "0";
        count := count - 1;
      }
      r := r + buf[..len];
    }
  }

  lemma {:induction false} DigitsArePadded(n: nat, w: nat)
    requires n < Pow2(w)
    ensures |Digits(n, 2)| <= w && Zeros(w - |Digits(n, 2)|) + Digits(n, 2) == Bits(n, w)
    decreases w
  {
    if n == 0 {
      ZeroBits(w);
      assert Zeros(w) + "" == Zeros(w);
    } else {
      assert w > 0;
      DigitsArePadded(n / 2, w - 1);
      DigitsUnfold(n, 2);
      assert Div(n, 2) == n / 2 && Rem(n, 2) == n % 2;
      assert DigitChar(n % 2) == if n % 2 == 1 then '1' else '0';
      var d, c := Digits(n / 2, 2), [DigitChar(n % 2)];
      assert Zeros(w - 1 - |d|) + (d + c) == Zeros(w - 1 - |d|) + d + c;
    }
  }

  lemma {:induction false} ZeroBits(w: nat)
    ensures Bits(0, w) == Zeros(w)
    decreases w
  {
    if w > 0 {
      ZeroBits(w - 1);
    }
  }

  /** What `itoa` prints, padded, is the bits. */
  lemma PrintedBits(n: nat, w: nat)
    requires n < Pow2(w) && 0 < w <= 8
    ensures NoNul(Printed(n, 2)) && |Printed(n, 2)| <= w && Zeros(w - |Printed(n, 2)|) + Printed(n, 2) == Bits(n, w)
  {
    PrintedNoNul(n, 2);
    hide Digits;
    if n == 0 {
      ZeroBits(w);
      assert Zeros(w - 1) + "0" == Zeros(w);
    } else {
      DigitsArePadded(n, w);
    }
  }

  /** One field, printed and padded. */
  method Field(output: string, n: nat, width: nat) returns (r: string)
    requires n < Pow2(width) && 0 < width <= 8
    ensures r == output + Bits(n, width)
  {
    hide Printed;
    PrintedBits(n, width);
    var buf := new char[20];
    var returned := Itoa(n, buf, 2);
    r := Padded(output, buf, Printed(n, 2), width);
  }

  /** `generate_csp_header` up to its 32 characters. For an address of 32 or more, or a port of 64 or more, the
      padding would not end. */
  method GenerateBits(dest: nat, src: nat, srcPort: nat, destPort: nat) returns (output: string)
    requires dest < 32 && src < 32 && srcPort < 64 && destPort < 64
    ensures output == HeaderText(dest, src, srcPort, destPort)
  {
    Powers();
    ZeroBits(2);
    ZeroBits(8);
    assert Zeros(2) == "00" && Zeros(8) == "00000000";
    hide Bits, Pow2;
    output := "00";
    output := Field(output, src, 5);
    output := Field(output, dest, 5);
    output := Field(output, destPort, 6);
    output := Field(output, srcPort, 6);
    output := output + "00000000";
    Nested(Bits(0, 2), Bits(src, 5), Bits(dest, 5), Bits(destPort, 6), Bits(srcPort, 6), Bits(0, 8));
  }

  lemma Nested(a: string, b: string, c: string, d: string, e: string, f: string)
    ensures a + b + c + d + e + f == a + (b + (c + (d + (e + f))))
  {
  }

  // --- as bytes

  /** The six bytes in front of a packet, priority, reserve and flags being 0. */
  function Packed(dest: bv8, src: bv8, srcPort: bv8, destPort: bv8, length: bv16): (r: seq<bv8>)
    ensures |r| == 6
  {
    [ ((0 << 6) & 0xC0) | ((src << 1) & 0x3E) | ((dest >> 4) & 0x01),
      ((dest << 4) & 0xF0) | ((destPort >> 2) & 0x0F),
      ((destPort << 6) & 0xC0) | (srcPort & 0x3F),
      ((0 << 4) & 0xF0) | (0 & 0x0F),
      (length >> 8) as bv8,
      (length & 0xFF) as bv8 ]
  }

  method FillHeader(h: array<bv8>, dest: bv8, src: bv8, srcPort: bv8, destPort: bv8, length: bv16)
    requires h.Length == 6
    modifies h
    ensures h[..] == Packed(dest, src, srcPort, destPort, length)
    ensures dest < 32 && src < 32 && srcPort < 64 && destPort < 64 ==>
      && FourBytes(h[..]) == HeaderValue(dest as int, src as int, srcPort as int, destPort as int)
      && DecodeParameters(h[..]).src == src as bv32 && DecodeParameters(h[..]).dest == dest as bv32
      && DecodeParameters(h[..]).srcPort == srcPort as bv32 && DecodeParameters(h[..]).destPort == destPort as bv32
  {
    var prio, reserve, flags: bv8 := 0, 0, 0;
    h[0] := ((prio << 6) & 0xC0) | ((src << 1) & 0x3E) | ((dest >> 4) & 0x01);
    h[1] := ((dest << 4) & 0xF0) | ((destPort >> 2) & 0x0F);
    h[2] := ((destPort << 6) & 0xC0) | (srcPort & 0x3F);
    h[3] := ((reserve << 4) & 0xF0) | (flags & 0x0F);
    h[4] := (length >> 8) as bv8;
    h[5] := (length & 0xFF) as bv8;
    assert h[..] == Packed(dest, src, srcPort, destPort, length);
    if dest < 32 && src < 32 && srcPort < 64 && destPort < 64 {
      BytesSpell(dest, src, srcPort, destPort, length);
      DecodeRecovers(dest, src, srcPort, destPort, length);
    }
  }

  /** The first four bytes spell the number whose bits the text shows. */
  lemma BytesSpell(dest: bv8, src: bv8, srcPort: bv8, destPort: bv8, length: bv16)
    requires dest < 32 && src < 32 && srcPort < 64 && destPort < 64
    ensures FourBytes(Packed(dest, src, srcPort, destPort, length))
      == HeaderValue(dest as int, src as int, srcPort as int, destPort as int)
  {
    hide *;
    BytesAre(dest, src, srcPort, destPort, length);
    Small(dest, src, srcPort, destPort);
    FourSpelled(Packed(dest, src, srcPort, destPort, length), dest as int, src as int, srcPort as int, destPort as int);
  }

  lemma Disjoint(x: bv8, y: bv8)
    requires x & y == 0
    ensures (x | y) as int == x as int + y as int
  {
  }

  lemma FirstByte(dest: bv8, src: bv8)
    requires dest < 32 && src < 32
    ensures (((0 << 6) & 0xC0) | ((src << 1) & 0x3E) | ((dest >> 4) & 0x01)) as int == src as int * 2 + dest as int / 16
  {
    var a, b := (src << 1) & 0x3E, (dest >> 4) & 0x01;
    assert a as int == src as int * 2;
    assert b as int == dest as int / 16;
    assert ((0 << 6) & 0xC0) | a == a;
    assert a & b == 0;
    Disjoint(a, b);
  }

  lemma SecondByte(dest: bv8, destPort: bv8)
    requires dest < 32 && destPort < 64
    ensures (((dest << 4) & 0xF0) | ((destPort >> 2) & 0x0F)) as int == dest as int % 16 * 16 + destPort as int / 4
  {
    var a, b := (dest << 4) & 0xF0, (destPort >> 2) & 0x0F;
    LowNibble(dest);
    HighBits(destPort);
    assert a & b == 0;
    Disjoint(a, b);
  }

  lemma LowNibble(x: bv8)
    ensures ((x << 4) & 0xF0) as int == x as int % 16 * 16
  {
  }

  lemma HighBits(x: bv8)
    requires x < 64
    ensures ((x >> 2) & 0x0F) as int == x as int / 4
  {
  }

  lemma ThirdByte(srcPort: bv8, destPort: bv8)
    requires srcPort < 64
    ensures (((destPort << 6) & 0xC0) | (srcPort & 0x3F)) as int == destPort as int % 4 * 64 + srcPort as int
  {
    var a, b := (destPort << 6) & 0xC0, srcPort & 0x3F;
    LowTwo(destPort);
    assert b == srcPort;
    assert a & b == 0;
    Disjoint(a, b);
  }

  lemma LowTwo(x: bv8)
    ensures ((x << 6) & 0xC0) as int == x as int % 4 * 64
  {
  }

  /** The number the first four bytes spell. */
  function FourBytes(h: seq<bv8>): nat
    requires |h| >= 4
  {
    ((h[0] as int * 256 + h[1] as int) * 256 + h[2] as int) * 256 + h[3] as int
  }

  /** The bytes and the text are the same 32 bits. */
  lemma TextIsBytes(dest: bv8, src: bv8, srcPort: bv8, destPort: bv8, length: bv16)
    requires dest < 32 && src < 32 && srcPort < 64 && destPort < 64
    ensures
      var h := Packed(dest, src, srcPort, destPort, length);
      var text := HeaderText(dest as int, src as int, srcPort as int, destPort as int);
      Value(text, 2) == FourBytes(h) && text == Bits(FourBytes(h), 32)
  {
    hide *;
    Small(dest, src, srcPort, destPort);
    TextIsValue(dest as int, src as int, srcPort as int, destPort as int);
    BytesSpell(dest, src, srcPort, destPort, length);
  }

  lemma Small(dest: bv8, src: bv8, srcPort: bv8, destPort: bv8)
    requires dest < 32 && src < 32 && srcPort < 64 && destPort < 64
    ensures dest as int < 32 && src as int < 32 && srcPort as int < 64 && destPort as int < 64
  {
  }

  lemma FourSpelled(h: seq<bv8>, d: nat, s: nat, p: nat, q: nat)
    requires |h| == 6 && h[0] as int == s * 2 + d / 16 && h[1] as int == d % 16 * 16 + q / 4
    requires h[2] as int == q % 4 * 64 + p && h[3] as int == 0
    ensures FourBytes(h) == HeaderValue(d, s, p, q)
  {
    var a, b, c, e := h[0] as int, h[1] as int, h[2] as int, h[3] as int;
    Spelled(d, s, p, q);
    assert FourBytes(h) == ((a * 256 + b) * 256 + c) * 256 + e;
  }

  lemma BytesAre(dest: bv8, src: bv8, srcPort: bv8, destPort: bv8, length: bv16)
    requires dest < 32 && src < 32 && srcPort < 64 && destPort < 64
    ensures
      var h := Packed(dest, src, srcPort, destPort, length);
      && h[0] as int == src as int * 2 + dest as int / 16
      && h[1] as int == dest as int % 16 * 16 + destPort as int / 4
      && h[2] as int == destPort as int % 4 * 64 + srcPort as int
      && h[3] as int == 0
  {
    FirstByte(dest, src);
    SecondByte(dest, destPort);
    ThirdByte(srcPort, destPort);
    assert Packed(dest, src, srcPort, destPort, length)[3] == 0;
  }

  lemma Spelled(d: nat, s: nat, p: nat, q: nat)
    ensures (((s * 2 + d / 16) * 256 + (d % 16 * 16 + q / 4)) * 256 + (q % 4 * 64 + p)) * 256 == HeaderValue(d, s, p, q)
  {
    assert d == d / 16 * 16 + d % 16 && q == q / 4 * 4 + q % 4;
  }

  // --- taken apart

  datatype Decoded = Decoded(pri: bv32, src: bv32, dest: bv32, destPort: bv32, srcPort: bv32,
                             hmac: bv32, xtea: bv32, rdp: bv32, crc: bv32, dataLength: bv32)

  function Byte(x: bv8): bv32 {
    x as bv32
  }

  function DecodeParameters(h: seq<bv8>): Decoded
    requires |h| == 6
  {
    Decoded((Byte(h[0]) >> 6) & 0x03, (Byte(h[0]) >> 1) & 0x1F, (((Byte(h[0]) << 8) | Byte(h[1])) >> 4) & 0x1F,
            (((Byte(h[1]) << 8) | Byte(h[2])) >> 6) & 0x3F, ((Byte(h[1]) << 8) | Byte(h[2])) & 0x3F,
            (Byte(h[3]) >> 3) & 0x01, (Byte(h[3]) >> 2) & 0x01, (Byte(h[3]) >> 1) & 0x01, Byte(h[3]) & 0x01,
            Byte(h[5]) & 0xFF)
  }

  /** Decoding gives back the low bits of every field, and of the length the lower byte: all of an address
      below 32 and of a port below 64. */
  lemma DecodeRecovers(dest: bv8, src: bv8, srcPort: bv8, destPort: bv8, length: bv16)
    ensures DecodeParameters(Packed(dest, src, srcPort, destPort, length)) ==
      Decoded(0, Byte(src & 0x1F), Byte(dest & 0x1F), Byte(destPort & 0x3F), Byte(srcPort & 0x3F),
              0, 0, 0, 0, (length & 0xFF) as bv32)
    ensures dest < 32 && src < 32 && srcPort < 64 && destPort < 64 ==>
      dest & 0x1F == dest && src & 0x1F == src && srcPort & 0x3F == srcPort && destPort & 0x3F == destPort
  {
  }
}

/** The 56-bit position code: angles in steps of 1/23300 degree, altitude in steps of 25. Shifts and masks of
    unsigned numbers are written as products, quotients and remainders. */
module Position {

  /** C's `a | b` where `a` has its bits from `unit` on and `b` below. */
  function Or(a: nat, b: nat, unit: nat): nat
    requires unit > 0 && a % unit == 0 && b < unit
  {
    a + b
  }

  /** What a byte keeps. */
  function Byte(x: nat): (r: nat)
    ensures r < 256
  {
    x % 256
  }

  ghost predicate Code(c: seq<nat>) {
    |c| == 7 && forall i :: 0 <= i < 7 ==> c[i] < 256
  }

  /** Three numbers of 23, 22 and 11 bits in seven bytes. */
  function Pack(lon: nat, lat: nat, alt: nat): (c: seq<nat>)
    requires lat < 0x40_0000 && alt < 0x800
    ensures Code(c)
  {
    [ Byte(lon / 0x8000), Byte(lon / 0x80), Byte(Or(lon * 2, lat / 0x20_0000, 2)), Byte(lat / 0x2000),
      Byte(lat / 0x20), Byte(Or(lat * 8, alt / 0x100, 8)), Byte(alt % 0x100) ]
  }

  function LonOf(c: seq<nat>): nat
    requires Code(c)
  {
    Or(Or(c[0] * 0x8000, c[1] * 0x80, 0x8000), c[2] / 2, 0x80)
  }

  function LatOf(c: seq<nat>): nat
    requires Code(c)
  {
    Or(Or(Or(c[2] % 2 * 0x20_0000, c[3] * 0x2000, 0x20_0000), c[4] * 0x20, 0x2000), c[5] / 8, 0x20)
  }

  function AltOf(c: seq<nat>): nat
    requires Code(c)
  {
    Or(c[5] % 8 * 0x100, c[6], 0x100)
  }

  lemma LonPieces(lon: nat, t: nat)
    requires lon < 0x80_0000 && t < 2
    ensures lon / 0x8000 < 256 && lon == lon / 0x8000 * 0x8000 + lon / 0x80 % 256 * 0x80 + lon % 0x80
    ensures (lon * 2 + t) % 256 == lon % 0x80 * 2 + t
  {
  }

  lemma LatPieces(lat: nat, t: nat)
    requires lat < 0x40_0000 && t < 8
    ensures lat / 0x20_0000 < 2
    ensures lat == lat / 0x20_0000 * 0x20_0000 + lat / 0x2000 % 256 * 0x2000 + lat / 0x20 % 256 * 0x20 + lat % 0x20
    ensures (lat * 8 + t) % 256 == lat % 0x20 * 8 + t
  {
    var p := lat / 0x20;
    var r := p / 256;
    assert lat == p * 0x20 + lat % 0x20 && p == r * 256 + p % 256 && r == r / 256 * 256 + r % 256;
    ByteHigher(lat, r, p % 256 * 0x20 + lat % 0x20);
    TwoBytesHigher(lat, r / 256, r % 256 * 0x2000 + p % 256 * 0x20 + lat % 0x20);
    LowBits(lat, t);
  }

  lemma ByteHigher(x: nat, q: nat, r: nat)
    requires x == q * 0x2000 + r && r < 0x2000
    ensures x / 0x2000 == q
  {
  }

  lemma TwoBytesHigher(x: nat, q: nat, r: nat)
    requires x == q * 0x20_0000 + r && r < 0x20_0000
    ensures x / 0x20_0000 == q
  {
  }

  lemma LowBits(lat: nat, t: nat)
    requires t < 8
    ensures (lat * 8 + t) % 256 == lat % 0x20 * 8 + t
  {
  }

  lemma Packs(lon: nat, lat: nat, alt: nat)
    requires lon < 0x80_0000 && lat < 0x40_0000 && alt < 0x800
    ensures
      var c := Pack(lon, lat, alt);
      && c[0] == lon / 0x8000 && c[1] == lon / 0x80 % 256 && c[2] == lon % 0x80 * 2 + lat / 0x20_0000
      && c[3] == lat / 0x2000 % 256 && c[4] == lat / 0x20 % 256 && c[5] == lat % 0x20 * 8 + alt / 0x100
      && c[6] == alt % 0x100
  {
    LonPieces(lon, lat / 0x20_0000);
    LatPieces(lat, alt / 0x100);
  }

  lemma UnpackPacked(lon: nat, lat: nat, alt: nat)
    requires lon < 0x80_0000 && lat < 0x40_0000 && alt < 0x800
    ensures
      var c := Pack(lon, lat, alt);
      LonOf(c) == lon && LatOf(c) == lat && AltOf(c) == alt
  {
    var c := Pack(lon, lat, alt);
    Packs(lon, lat, alt);
    hide Pack;
    LonPieces(lon, lat / 0x20_0000);
    LatPieces(lat, alt / 0x100);
    Halved(lon % 0x80, lat / 0x20_0000);
    Eighth(lat % 0x20, alt / 0x100);
    assert LonOf(c) == c[0] * 0x8000 + c[1] * 0x80 + c[2] / 2;
    assert LatOf(c) == c[2] % 2 * 0x20_0000 + c[3] * 0x2000 + c[4] * 0x20 + c[5] / 8;
  }

  lemma Halved(x: nat, t: nat)
    requires t < 2
    ensures (x * 2 + t) / 2 == x && (x * 2 + t) % 2 == t
  {
  }

  lemma Eighth(x: nat, t: nat)
    requires t < 8
    ensures (x * 8 + t) / 8 == x && (x * 8 + t) % 8 == t
  {
  }

  lemma PackUnpacked(c: seq<nat>)
    requires Code(c)
    ensures LonOf(c) < 0x80_0000 && LatOf(c) < 0x40_0000 && AltOf(c) < 0x800
    ensures Pack(LonOf(c), LatOf(c), AltOf(c)) == c
  {
    PackLon(c);
    PackLat(c);
    PackAlt(c);
    hide LonOf, LatOf, AltOf;
    Packs(LonOf(c), LatOf(c), AltOf(c));
    hide Pack;
    assert c[2] == c[2] / 2 * 2 + c[2] % 2 && c[5] == c[5] / 8 * 8 + c[5] % 8;
  }

  lemma PackAlt(c: seq<nat>)
    requires Code(c)
    ensures AltOf(c) < 0x800 && AltOf(c) / 0x100 == c[5] % 8 && AltOf(c) % 0x100 == c[6]
  {
  }

  lemma PackLon(c: seq<nat>)
    requires Code(c)
    ensures
      var lon := LonOf(c);
      lon < 0x80_0000 && lon / 0x8000 == c[0] && lon / 0x80 % 256 == c[1] && lon % 0x80 == c[2] / 2
  {
    var lon := LonOf(c);
    assert lon == c[0] * 0x8000 + c[1] * 0x80 + c[2] / 2;
    assert lon / 0x80 == c[0] * 256 + c[1];
  }

  lemma PackLat(c: seq<nat>)
    requires Code(c)
    ensures
      var lat := LatOf(c);
      lat < 0x40_0000 && lat / 0x20_0000 == c[2] % 2 && lat / 0x2000 % 256 == c[3] && lat / 0x20 % 256 == c[4]
        && lat % 0x20 == c[5] / 8
  {
    var lat := LatOf(c);
    assert lat == c[2] % 2 * 0x20_0000 + c[3] * 0x2000 + c[4] * 0x20 + c[5] / 8;
    assert lat / 0x2000 == c[2] % 2 * 256 + c[3];
    assert lat / 0x20 == c[2] % 2 * 0x1_0000 + c[3] * 256 + c[4];
  }

  /** The seven bytes as one number, the first the highest. */
  ghost function Whole(c: seq<nat>): nat
    requires Code(c)
  {
    (((((c[0] * 256 + c[1]) * 256 + c[2]) * 256 + c[3]) * 256 + c[4]) * 256 + c[5]) * 256 + c[6]
  }

  /** The code is the 23 bits of the longitude, the 22 of the latitude and the 11 of the altitude side by side. */
  lemma OneNumber(lon: nat, lat: nat, alt: nat)
    requires lon < 0x80_0000 && lat < 0x40_0000 && alt < 0x800
    ensures Whole(Pack(lon, lat, alt)) == lon * 0x2_0000_0000 + lat * 0x800 + alt
  {
    Packs(lon, lat, alt);
    hide Pack;
    LonPieces(lon, 0);
    LatPieces(lat, 0);
    assert alt == alt / 0x100 * 0x100 + alt % 0x100;
  }

  // --- positions

  /** A position; the altitude is an unsigned number. */
  class Pos {
    var lon: real
    var lat: real
    var altitude: nat

    constructor (x: real, y: real, a: nat)
      ensures lon == x && lat == y && altitude == a
    {
      lon, lat, altitude := x, y, a;
    }
  }

  class Compos {
    var compos: array<nat>

    constructor ()
      ensures fresh(compos) && compos.Length == 7
    {
      compos := new nat[7];
    }
  }

  /** The conversion of a real number to a 32-bit unsigned one, where C defines it. */
  predicate Converts(x: real) {
    -1.0 < x < 0x1_0000_0000 as real
  }

  function ToUint32(x: real): nat
    requires Converts(x)
  {
    if x < 0.0 then 0 else x.Floor
  }

  function Scaled(angle: real, offset: real): real {
    (angle + offset) * 23300.0 + 0.5
  }

  ghost function CodeOf(lon: real, lat: real, altitude: nat): (c: seq<nat>)
    requires Converts(Scaled(lon, 180.0)) && Converts(Scaled(lat, 90.0)) && altitude < 0x1_0000_0000
    ensures Code(c)
  {
    Pack(ToUint32(Scaled(lon, 180.0)) % 0x80_0000, ToUint32(Scaled(lat, 90.0)) % 0x40_0000, altitude / 25 % 0x800)
  }

  method Compress(input: Pos, output: Compos)
    requires Converts(Scaled(input.lon, 180.0)) && Converts(Scaled(input.lat, 90.0)) && input.altitude < 0x1_0000_0000
    requires output.compos.Length == 7
    modifies output.compos
    ensures output.compos[..] == CodeOf(input.lon, input.lat, input.altitude)
  {
    var lonTmp := ToUint32((input.lon + 180.0) * 23300.0 + 0.5) % 0x80_0000;
    var latTmp := ToUint32((input.lat + 90.0) * 23300.0 + 0.5) % 0x40_0000;
    var altTmp := ToUint32((input.altitude / 25) as real + 0.5) % 0x800;
    assert ToUint32((input.altitude / 25) as real + 0.5) == input.altitude / 25;
    output.compos[0] := Byte(lonTmp / 0x8000);
    output.compos[1] := Byte(lonTmp / 0x80);
    output.compos[2] := Byte(Or(lonTmp * 2, latTmp / 0x20_0000, 2));
    output.compos[3] := Byte(latTmp / 0x2000);
    output.compos[4] := Byte(latTmp / 0x20);
    output.compos[5] := Byte(Or(latTmp * 8, altTmp / 0x100, 8));
    output.compos[6] := Byte(altTmp % 0x100);
  }

  method Decompress(input: Compos, output: Pos)
    requires input.compos.Length == 7 && Code(input.compos[..])
    modifies output
    ensures output.lon == LonOf(input.compos[..]) as real / 23300.0 - 180.0
    ensures output.lat == LatOf(input.compos[..]) as real / 23300.0 - 90.0
    ensures output.altitude == AltOf(input.compos[..]) * 25
  {
    var c := input.compos[..];
    var lonTmp, latTmp, altTmp := LonOf(c), LatOf(c), AltOf(c);
    output.lat := latTmp as real / 23300.0 - 90.0;
    output.lon := lonTmp as real / 23300.0 - 180.0;
    output.altitude := altTmp * 25;
  }

  function Abs(x: real): real {
    if x < 0.0 then -x else x
  }

  lemma Rounded(angle: real, offset: real, limit: nat)
    requires 0.0 <= (angle + offset) * 23300.0 < limit as real - 0.5 && limit <= 0x1_0000_0000
    ensures Converts(Scaled(angle, offset)) && ToUint32(Scaled(angle, offset)) < limit
    ensures Abs(ToUint32(Scaled(angle, offset)) as real / 23300.0 - offset - angle) <= 1.0 / 46600.0
  {
    var n := ToUint32(Scaled(angle, offset));
    assert n as real <= (angle + offset) * 23300.0 + 0.5 < n as real + 1.0;
  }

  /** There and back, an angle is off by at most half a step and the altitude comes down to a multiple of 25. */
  lemma ErrorBound(lon: real, lat: real, altitude: nat)
    requires -180.0 <= lon <= 180.0 && -90.0 <= lat <= 90.0 && altitude < 51200
    ensures Converts(Scaled(lon, 180.0)) && Converts(Scaled(lat, 90.0))
    ensures
      var c := CodeOf(lon, lat, altitude);
      && Abs((LonOf(c) as real / 23300.0 - 180.0) - lon) <= 1.0 / 46600.0
      && Abs((LatOf(c) as real / 23300.0 - 90.0) - lat) <= 1.0 / 46600.0
      && AltOf(c) * 25 == altitude - altitude % 25
  {
    hide *;
    InRange(lon, 180.0, 0x80_0000);
    InRange(lat, 90.0, 0x40_0000);
    Rounded(lon, 180.0, 0x80_0000);
    Rounded(lat, 90.0, 0x40_0000);
    Quarters(altitude);
    CodeIs(lon, lat, altitude);
    UnpackPacked(ToUint32(Scaled(lon, 180.0)), ToUint32(Scaled(lat, 90.0)), altitude / 25);
  }

  lemma InRange(angle: real, offset: real, limit: nat)
    requires -offset <= angle <= offset
    requires (offset == 180.0 && limit == 0x80_0000) || (offset == 90.0 && limit == 0x40_0000)
    ensures 0.0 <= (angle + offset) * 23300.0 < limit as real - 0.5
  {
  }

  lemma Quarters(altitude: nat)
    requires altitude < 51200
    ensures altitude / 25 < 0x800 && altitude / 25 * 25 == altitude - altitude % 25
  {
  }

  lemma CodeIs(lon: real, lat: real, altitude: nat)
    requires Converts(Scaled(lon, 180.0)) && Converts(Scaled(lat, 90.0)) && altitude < 51200
    requires ToUint32(Scaled(lon, 180.0)) < 0x80_0000 && ToUint32(Scaled(lat, 90.0)) < 0x40_0000
             && altitude / 25 < 0x800
    ensures CodeOf(lon, lat, altitude) == Pack(ToUint32(Scaled(lon, 180.0)), ToUint32(Scaled(lat, 90.0)), altitude / 25)
  {
    hide Pack, Scaled, ToUint32, Converts;
  }

  lemma Exact(n: nat, offset: real)
    requires n < 0x80_0000
    ensures Converts(Scaled(n as real / 23300.0 - offset, offset))
    ensures ToUint32(Scaled(n as real / 23300.0 - offset, offset)) == n
  {
    assert Scaled(n as real / 23300.0 - offset, offset) == n as real + 0.5;
  }

  /** Every code comes back from the position it stands for. */
  lemma CodesComeBack(c: seq<nat>)
    requires Code(c)
    ensures
      var lon, lat := LonOf(c) as real / 23300.0 - 180.0, LatOf(c) as real / 23300.0 - 90.0;
      && Converts(Scaled(lon, 180.0)) && Converts(Scaled(lat, 90.0)) && AltOf(c) * 25 < 51200
      && CodeOf(lon, lat, AltOf(c) * 25) == c
  {
    hide *;
    PackUnpacked(c);
    Exact(LonOf(c), 180.0);
    Exact(LatOf(c), 90.0);
    TimesBack(AltOf(c));
    CodeIs(LonOf(c) as real / 23300.0 - 180.0, LatOf(c) as real / 23300.0 - 90.0, AltOf(c) * 25);
  }

  lemma TimesBack(n: nat)
    requires n < 0x800
    ensures n * 25 < 51200 && n * 25 / 25 == n
  {
  }

  /** The bound is reached, half a step off the grid. */
  lemma BoundIsReached()
    ensures
      var lon := 1.0 / 46600.0 - 180.0;
      Converts(Scaled(lon, 180.0))
        && Abs((ToUint32(Scaled(lon, 180.0)) as real / 23300.0 - 180.0) - lon) == 1.0 / 46600.0
  {
    var lon := 1.0 / 46600.0 - 180.0;
    assert Scaled(lon, 180.0) == 1.0;
    assert ToUint32(1.0) == 1;
  }
}

/** src/Endianness.h: conversions between host and network byte order.

    A value of an n-byte type is its bit pattern, read as an unsigned number below 256^n. */
module ByteOrder {

  type Byte = b: int | 0 <= b < 256

  datatype Host = LittleEndian | BigEndian

  function Pow256(n: nat): (p: nat)
    ensures p > 0
  {
    if n == 0 then 1 else 256 * Pow256(n - 1)
  }

  /** The n bytes of `v`, most significant first. */
  function Bytes(v: nat, n: nat): (b: seq<Byte>)
    requires v < Pow256(n)
    ensures |b| == n
    decreases n
  {
    if n == 0 then [] else
      DigitFits(v, n);
      var p := Pow256(n - 1);
      [v / p] + Bytes(v % p, n - 1)
  }

  /** The number whose bytes these are, most significant first. */
  function Number(b: seq<Byte>): (v: nat)
    ensures v < Pow256(|b|)
  {
    if b == [] then 0 else
      DigitBounds(b[0], Number(b[1..]), |b|);
      b[0] * Pow256(|b| - 1) + Number(b[1..])
  }

  function Reverse<T>(s: seq<T>): (r: seq<T>)
    ensures |r| == |s|
    ensures forall i :: 0 <= i < |s| ==> r[i] == s[|s| - 1 - i]
  {
    if s == [] then [] else Reverse(s[1..]) + [s[0]]
  }

  /** The bytes of a value in the host's memory. */
  function Memory(host: Host, v: nat, n: nat): (b: seq<Byte>)
    requires v < Pow256(n)
    ensures |b| == n
  {
    if host == BigEndian then Bytes(v, n) else Reverse(Bytes(v, n))
  }

  /** The value the host sees in these bytes of memory. */
  function Value(host: Host, b: seq<Byte>): (v: nat)
    ensures v < Pow256(|b|)
  {
    if host == BigEndian then Number(b) else Number(Reverse(b))
  }

  // ---------- arithmetic ----------

  lemma MulOrder(a: int, b: int, c: nat)
    ensures a <= b ==> a * c <= b * c
  {
  }

  lemma DivModUnique(x: nat, d: nat, q: nat, r: nat)
    requires r < d && x == q * d + r
    ensures x / d == q && x % d == r
  {
    MulOrder(x / d + 1, q, d);
    MulOrder(q + 1, x / d, d);
  }

  lemma DigitFits(v: nat, n: nat)
    requires n > 0 && v < Pow256(n)
    ensures 0 <= v / Pow256(n - 1) < 256
    ensures 0 <= v % Pow256(n - 1) < Pow256(n - 1)
  {
    MulOrder(256, v / Pow256(n - 1), Pow256(n - 1));
  }

  lemma DigitBounds(d: nat, rest: nat, n: nat)
    requires n > 0 && d < 256 && rest < Pow256(n - 1)
    ensures 0 <= d * Pow256(n - 1) + rest < Pow256(n)
  {
    MulOrder(d, 255, Pow256(n - 1));
    MulOrder(0, d, Pow256(n - 1));
  }

  /** Scaling both sides of a division by `c`. */
  lemma ScaledDivMod(a: nat, b: nat, c: nat)
    requires b > 0 && c > 0
    ensures b * c > 0 && (a * c) / (b * c) == a / b && (a * c) % (b * c) == (a % b) * c
  {
    var q, r := a / b, a % b;
    assert a == q * b + r;
    assert a * c == (q * b + r) * c == q * (b * c) + r * c;
    assert r * c < b * c;
    DivModUnique(a * c, b * c, q, r * c);
  }

  lemma {:induction false} PowSum(m: nat, n: nat)
    ensures Pow256(m + n) == Pow256(m) * Pow256(n)
  {
    if m == 0 {
    } else {
      PowSum(m - 1, n);
      assert Pow256(m + n) == 256 * (Pow256(m - 1) * Pow256(n));
      assert Pow256(m) * Pow256(n) == 256 * Pow256(m - 1) * Pow256(n);
    }
  }

  // ---------- the two loops ----------

  /** ConvertHostToNetworkByteOrder: `bytes` is the memory of the returned value. */
  method HostToNetwork(host: Host, val: nat, n: nat) returns (ret: nat, bytes: array<Byte>)
    requires val < Pow256(n)
    ensures bytes[..] == Bytes(val, n)
    ensures fresh(bytes) && ret == Value(host, Bytes(val, n))
  {
    hide Bytes, Scaled, TopByte, ShiftLeft, Pow256, Value;
    bytes := new Byte[n](_ => 0);
    var v := val;
    ghost var low: nat := val;
    Unshifted(val);
    for i := 0 to n
      invariant low < Pow256(n - i) && v == Scaled(low, i)
      invariant bytes[..i] + Bytes(low, n - i) == Bytes(val, n)
    {
      Shifted(low, i, n);
      ghost var before, rest := bytes[..i], Bytes(low % Pow256(n - i - 1), n - i - 1);
      bytes[i] := TopByte(v, n);
      v := ShiftLeft(v, n);
      low := low % Pow256(n - i - 1);
      assert bytes[..i + 1] == before + [bytes[i]];
      assert before + ([bytes[i]] + rest) == bytes[..i + 1] + rest;
    }
    NothingLeft(low);
    assert bytes[..n] == bytes[..];
    ret := Value(host, bytes[..]);
  }

  lemma Unshifted(v: nat)
    ensures Scaled(v, 0) == v
  {
  }

  lemma NothingLeft(low: nat)
    requires low < Pow256(0)
    ensures Bytes(low, 0) == []
  {
  }

  /** (uint8_t)(val >> (8 * n - 8)) */
  function TopByte(v: nat, n: nat): Byte
    requires n > 0
  {
    v / Pow256(n - 1) % 256
  }

  /** val <<= 8 */
  function ShiftLeft(v: nat, n: nat): nat {
    v * 256 % Pow256(n)
  }

  /** `low` shifted left by `i` bytes, before anything is cut off. */
  ghost function Scaled(low: nat, i: nat): nat {
    low * Pow256(i)
  }

  lemma ShiftedTop(low: nat, i: nat, n: nat)
    requires i < n && low < Pow256(n - i)
    ensures TopByte(Scaled(low, i), n) == low / Pow256(n - i - 1)
  {
    DigitFits(low, n - i);
    PowSum(n - i - 1, i);
    ScaledDivMod(low, Pow256(n - i - 1), Pow256(i));
  }

  lemma ShiftedRest(low: nat, i: nat, n: nat)
    requires i < n && low < Pow256(n - i)
    ensures 0 <= low % Pow256(n - i - 1) < Pow256(n - i - 1)
    ensures ShiftLeft(Scaled(low, i), n) == Scaled(low % Pow256(n - i - 1), i + 1)
  {
    DigitFits(low, n - i);
    PowSum(n - i - 1, i + 1);
    ScaledDivMod(low, Pow256(n - i - 1), Pow256(i + 1));
    assert Scaled(low, i) * 256 == low * Pow256(i + 1) by {
      assert low * (256 * Pow256(i)) == low * Pow256(i) * 256;
    }
  }

  /** One turn of the loop: the top byte of the shifted value, and the value shifted on. */
  lemma Shifted(low: nat, i: nat, n: nat)
    requires i < n && low < Pow256(n - i)
    ensures var rest := low % Pow256(n - i - 1);
      && 0 <= rest < Pow256(n - i - 1)
      && Bytes(low, n - i) == [TopByte(Scaled(low, i), n)] + Bytes(rest, n - i - 1)
      && ShiftLeft(Scaled(low, i), n) == Scaled(rest, i + 1)
  {
    ShiftedRest(low, i, n);
    ShiftedTop(low, i, n);
    hide TopByte, ShiftLeft, Scaled, Pow256;
  }

  /** ConvertNetworkToHostByteOrder. */
  method NetworkToHost(host: Host, val: nat, n: nat) returns (ret: nat)
    requires val < Pow256(n)
    ensures ret == Number(Memory(host, val, n))
  {
    var bytes := Memory(host, val, n);
    ret := 0;
    for i := 0 to n
      invariant ret == Number(bytes[..i])
    {
      AppendFits(bytes, i);
      hide Pow256, Number, Memory;
      ret := (ret * 256 + bytes[i]) % Pow256(n);
    }
    assert bytes[..n] == bytes;
  }

  lemma AppendFits(b: seq<Byte>, i: nat)
    requires i < |b|
    ensures (Number(b[..i]) * 256 + b[i]) % Pow256(|b|) == Number(b[..i + 1])
  {
    NumberAppend(b[..i], b[i]);
    assert b[..i + 1] == b[..i] + [b[i]];
    PowGrows(i + 1, |b|);
    DivModUnique(Number(b[..i + 1]), Pow256(|b|), 0, Number(b[..i + 1]));
  }

  lemma {:induction false} PowGrows(m: nat, n: nat)
    requires m <= n
    ensures Pow256(m) <= Pow256(n)
  {
    if m == n {
    } else {
      PowGrows(m, n - 1);
    }
  }

  lemma {:induction false} NumberAppend(b: seq<Byte>, last: Byte)
    ensures Number(b + [last]) == Number(b) * 256 + last
  {
    if b == [] {
      assert b + [last] == [last];
      assert [last][1..] == [];
    } else {
      NumberAppend(b[1..], last);
      assert (b + [last])[1..] == b[1..] + [last];
      var p := Pow256(|b| - 1);
      assert b[0] * (256 * p) == b[0] * p * 256;
    }
  }

  // ---------- the two layouts ----------

  /** Byte i of the big-endian bytes is the digit of weight 256 to the power n - 1 - i. */
  lemma {:induction false} BytesAt(v: nat, n: nat, i: nat)
    requires v < Pow256(n) && i < n
    ensures Bytes(v, n)[i] == v / Pow256(n - 1 - i) % 256
    decreases n
  {
    DigitFits(v, n);
    var p := Pow256(n - 1);
    if i == 0 {
      DivModUnique(v / p, 256, 0, v / p);
    } else {
      BytesAt(v % p, n - 1, i - 1);
      assert Bytes(v, n)[i] == Bytes(v % p, n - 1)[i - 1];
      DigitOfRest(v, n - 1, n - 1 - i);
    }
  }

  lemma Recomposed(a: nat, b: nat, r: nat, d: nat, p: nat)
    requires b < d && r < p
    ensures (a * d + b) * p + r == a * (d * p) + (b * p + r)
    ensures 0 <= b * p + r < d * p
  {
    MulOrder(b + 1, d, p);
    MulOrder(0, b, p);
  }

  lemma RestOf(v: nat, a: nat, rest: nat, dp: nat)
    requires v == a * dp + rest && rest < dp
    ensures v % dp == rest
  {
    DivModUnique(v, dp, a, rest);
  }

  lemma DivMod(x: nat, d: nat)
    requires d > 0
    ensures 0 <= x / d && 0 <= x % d < d && x == x / d * d + x % d
  {
  }

  lemma RestDiv(v: nat, d: nat, p: nat)
    requires d > 0 && p > 0
    ensures d * p > 0 && v % (d * p) / p == v / p % d
  {
    DivMod(v, p);
    DivMod(v / p, d);
    var q, r := v / p, v % p;
    var a, b := q / d, q % d;
    Recomposed(a, b, r, d, p);
    RestOf(v, a, b * p + r, d * p);
    DivModUnique(b * p + r, p, b, r);
  }

  lemma ModMod(x: nat, e: nat)
    requires e > 0
    ensures x % (256 * e) % 256 == x % 256
  {
    var a, b := x / (256 * e), x % (256 * e);
    assert x == a * (256 * e) + b;
    assert a * (256 * e) == 256 * (a * e);
  }

  /** The digits below 256 to the power m are those of the remainder. */
  lemma DigitOfRest(v: nat, m: nat, j: nat)
    requires j < m
    ensures 0 <= v % Pow256(m) && v % Pow256(m) / Pow256(j) % 256 == v / Pow256(j) % 256
  {
    var p, e := Pow256(j), Pow256(m - j - 1);
    PowSum(m - j, j);
    assert Pow256(m) == (256 * e) * p;
    hide Pow256;
    DigitBelow(v, p, e);
  }

  lemma DigitBelow(v: nat, p: nat, e: nat)
    requires p > 0 && e > 0
    ensures (256 * e) * p > 0 && v % ((256 * e) * p) / p % 256 == v / p % 256
  {
    var d := 256 * e;
    RestDiv(v, d, p);
    ModMod(v / p, e);
  }

  /** Byte i in memory: counted from the least significant end on a little-endian host, from the
      most significant one on a big-endian host. */
  lemma MemoryLayout(v: nat, n: nat, i: nat)
    requires v < Pow256(n) && i < n
    ensures Memory(LittleEndian, v, n)[i] == v / Pow256(i) % 256
    ensures Memory(BigEndian, v, n)[i] == v / Pow256(n - 1 - i) % 256
  {
    hide Bytes, Pow256;
    BytesAt(v, n, i);
    BytesAt(v, n, n - 1 - i);
  }

  // ---------- round trips ----------

  lemma {:induction false} NumberOfBytes(v: nat, n: nat)
    requires v < Pow256(n)
    ensures Number(Bytes(v, n)) == v
    decreases n
  {
    if n == 0 {
    } else {
      DigitFits(v, n);
      NumberOfBytes(v % Pow256(n - 1), n - 1);
      assert Bytes(v, n)[1..] == Bytes(v % Pow256(n - 1), n - 1);
    }
  }

  lemma {:induction false} BytesOfNumber(b: seq<Byte>)
    ensures Bytes(Number(b), |b|) == b
  {
    if b == [] {
    } else {
      BytesOfNumber(b[1..]);
      DivModUnique(Number(b), Pow256(|b| - 1), b[0], Number(b[1..]));
    }
  }

  lemma ReverseTwice<T>(s: seq<T>)
    ensures Reverse(Reverse(s)) == s
  {
  }

  lemma ValueOfMemory(host: Host, v: nat, n: nat)
    requires v < Pow256(n)
    ensures Value(host, Memory(host, v, n)) == v
  {
    NumberOfBytes(v, n);
    ReverseTwice(Bytes(v, n));
  }

  lemma MemoryOfValue(host: Host, b: seq<Byte>)
    ensures Memory(host, Value(host, b), |b|) == b
  {
    BytesOfNumber(b);
    BytesOfNumber(Reverse(b));
    ReverseTwice(b);
  }

  /** What the host-to-network loop returns. */
  function ToNetwork(host: Host, v: nat, n: nat): (r: nat)
    requires v < Pow256(n)
    ensures r < Pow256(n)
  {
    Value(host, Bytes(v, n))
  }

  /** What the network-to-host loop returns. */
  function ToHost(host: Host, v: nat, n: nat): (r: nat)
    requires v < Pow256(n)
    ensures r < Pow256(n)
  {
    Number(Memory(host, v, n))
  }

  /** On either kind of host and for every width, the converted value lies in memory with its
      most significant byte first, and the two conversions undo each other in both orders. */
  lemma ConversionsAreInverse(host: Host, v: nat, n: nat)
    requires v < Pow256(n)
    ensures Memory(host, ToNetwork(host, v, n), n) == Bytes(v, n)
    ensures ToHost(host, ToNetwork(host, v, n), n) == v
    ensures ToNetwork(host, ToHost(host, v, n), n) == v
  {
    MemoryOfValue(host, Bytes(v, n));
    NumberOfBytes(v, n);
    BytesOfNumber(Memory(host, v, n));
    ValueOfMemory(host, v, n);
  }
}

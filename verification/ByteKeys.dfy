/** The 8-byte keys of internal/persistence/queue.go and the byte order the store iterates in. */
module ByteKeys {

  type Byte = x: int | 0 <= x < 256

  const WORD: int := 0x1_0000_0000_0000_0000

  function Pow256(i: nat): (p: nat)
    ensures p > 0
  {
    if i == 0 then 1 else 256 * Pow256(i - 1)
  }

  /** The w low-order bytes of n, most significant first. */
  function BigEndian(n: nat, w: nat): (key: seq<Byte>)
    ensures |key| == w
  {
    if w == 0 then [] else BigEndian(n / 256, w - 1) + [n % 256]
  }

  function ValueOf(key: seq<Byte>): nat {
    if key == [] then 0 else 256 * ValueOf(key[..|key| - 1]) + key[|key| - 1]
  }

  /** The key under which sequence number n is stored. */
  function KeyOf(n: nat): seq<Byte> {
    BigEndian(n, 8)
  }

  /** Byte-wise lexicographic order, the order of the store's iterator. */
  predicate Before(a: seq<Byte>, b: seq<Byte>) {
    b != [] && (a == [] || a[0] < b[0] || (a[0] == b[0] && Before(a[1..], b[1..])))
  }

  lemma {:induction false} Nested(n: nat, i: nat)
    ensures (n / 256) / Pow256(i) == n / Pow256(i + 1)
  {
    var p, a, c := Pow256(i), n / 256, n % 256;
    var q, b := a / p, a % p;
    assert n == 256 * (p * q + b) + c;
    assert 256 * (p * q) == (256 * p) * q;
    DivideSum(256 * p, q, 256 * b + c);
  }

  lemma MulMonotone(p: nat, a: int, b: int)
    requires a <= b
    ensures p * a <= p * b
  {
    assert p * (b - a) >= 0;
  }

  lemma DivideSum(p: nat, q: nat, a: nat)
    requires a < p
    ensures (p * q + a) / p == q
  {
    var x := p * q + a;
    var d, m := x / p, x % p;
    assert x == p * d + m;
    assert p * d < p * (q + 1) && p * q < p * (d + 1);
    if d > q {
      MulMonotone(p, q + 1, d);
    } else if d < q {
      MulMonotone(p, d + 1, q);
    }
  }

  /** Byte i from the right is the number shifted right by 8*i bits, cut to a byte. */
  lemma {:induction false} ByteAt(n: nat, w: nat, i: nat)
    requires i < w
    ensures BigEndian(n, w)[w - 1 - i] == (n / Pow256(i)) % 256
  {
    if i == 0 {
      assert Pow256(0) == 1;
    } else {
      ByteAt(n / 256, w - 1, i - 1);
      Nested(n, i - 1);
    }
  }

  /** The key loop: key[7-i] = byte(seq >> (i*8)). */
  method EncodeKey(n: nat) returns (key: array<Byte>)
    ensures fresh(key) && key[..] == KeyOf(n)
  {
    key := new Byte[8](_ => 0);
    for i := 0 to 8
      invariant forall j :: 8 - i <= j < 8 ==> key[j] == (n / Pow256(7 - j)) % 256
    {
      key[7 - i] := (n / Pow256(i)) % 256;
    }
    forall j | 0 <= j < 8
      ensures key[j] == KeyOf(n)[j]
    {
      ByteAt(n, 8, 7 - j);
    }
  }

  /** Decoding a key gives the number back, as long as it fits. */
  lemma {:induction false} RoundTrip(n: nat, w: nat)
    requires n < Pow256(w)
    ensures ValueOf(BigEndian(n, w)) == n
  {
    if w > 0 {
      RoundTrip(n / 256, w - 1);
      assert BigEndian(n, w)[..w - 1] == BigEndian(n / 256, w - 1);
    }
  }

  lemma {:induction false} BeforeSnoc(a: seq<Byte>, b: seq<Byte>, x: Byte, y: Byte)
    requires |a| == |b|
    ensures Before(a + [x], b + [y]) <==> Before(a, b) || (a == b && x < y)
  {
    if a != [] {
      BeforeSnoc(a[1..], b[1..], x, y);
      assert (a + [x])[1..] == a[1..] + [x] && (b + [y])[1..] == b[1..] + [y];
      assert a == [a[0]] + a[1..] && b == [b[0]] + b[1..];
    }
  }

  /** Byte order on keys is numeric order on sequence numbers. */
  lemma {:induction false} OrderIsNumeric(m: nat, n: nat, w: nat)
    requires m < Pow256(w) && n < Pow256(w)
    ensures Before(BigEndian(m, w), BigEndian(n, w)) <==> m < n
  {
    if w > 0 {
      OrderIsNumeric(m / 256, n / 256, w - 1);
      BeforeSnoc(BigEndian(m / 256, w - 1), BigEndian(n / 256, w - 1), m % 256, n % 256);
      RoundTrip(m / 256, w - 1);
      RoundTrip(n / 256, w - 1);
    }
  }

  lemma WordIs256To8()
    ensures Pow256(8) == WORD
  {
    assert Pow256(2) == 65536 && Pow256(4) == 256 * 256 * Pow256(2);
    assert Pow256(6) == 256 * 256 * Pow256(4) && Pow256(8) == 256 * 256 * Pow256(6);
  }

  /** For 64-bit sequence numbers: the key is injective and its order is the order of the numbers. */
  lemma KeyOrder(m: nat, n: nat)
    requires m < WORD && n < WORD
    ensures Before(KeyOf(m), KeyOf(n)) <==> m < n
    ensures KeyOf(m) == KeyOf(n) <==> m == n
  {
    WordIs256To8();
    OrderIsNumeric(m, n, 8);
    RoundTrip(m, 8);
    RoundTrip(n, 8);
  }

  lemma {:induction false} Irreflexive(a: seq<Byte>)
    ensures !Before(a, a)
  {
    if a != [] { Irreflexive(a[1..]); }
  }

  lemma {:induction false} Transitive(a: seq<Byte>, b: seq<Byte>, c: seq<Byte>)
    requires Before(a, b) && Before(b, c)
    ensures Before(a, c)
  {
    if a != [] && a[0] == b[0] == c[0] { Transitive(a[1..], b[1..], c[1..]); }
  }

  lemma {:induction false} Connected(a: seq<Byte>, b: seq<Byte>)
    ensures a == b || Before(a, b) || Before(b, a)
  {
    if a != [] && b != [] && a[0] == b[0] {
      Connected(a[1..], b[1..]);
      assert a == [a[0]] + a[1..] && b == [b[0]] + b[1..];
    }
  }
}

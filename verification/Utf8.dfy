/** UTF-8: how long a string is in bytes, and in which order strings come when they are compared byte by byte. */
module Utf8 {

  /** Section 3 of RFC 3629: six bits to each byte but the first. */
  function CodePoint(n: int): (bytes: seq<int>)
    ensures 1 <= |bytes| <= 4
  {
    var n1 := n / 0x40;
    var n2 := n1 / 0x40;
    var n3 := n2 / 0x40;
    if n < 0x80 then [n]
    else if n < 0x800 then [0xC0 + n1, 0x80 + n % 0x40]
    else if n < 0x10000 then [0xE0 + n2, 0x80 + n1 % 0x40, 0x80 + n % 0x40]
    else [0xF0 + n3, 0x80 + n2 % 0x40, 0x80 + n1 % 0x40, 0x80 + n % 0x40]
  }

  function Bytes(text: string): seq<int> {
    if text == "" then [] else CodePoint(text[0] as int) + Bytes(text[1..])
  }

  /** The order of slices of bytes. */
  predicate BytesBefore(a: seq<int>, b: seq<int>) {
    b != [] && (a == [] || a[0] < b[0] || (a[0] == b[0] && BytesBefore(a[1..], b[1..])))
  }

  /** Order of strings by their code points. */
  predicate LexBefore(a: string, b: string) {
    b != "" && (a == "" || a[0] < b[0] || (a[0] == b[0] && LexBefore(a[1..], b[1..])))
  }

  lemma {:induction false} SameFront(front: seq<int>, a: seq<int>, b: seq<int>)
    ensures BytesBefore(front + a, front + b) <==> BytesBefore(a, b)
    decreases |front|
  {
    if front == [] {
      assert front + a == a && front + b == b;
    } else {
      SameFront(front[1..], a, b);
      assert (front + a)[1..] == front[1..] + a && (front + b)[1..] == front[1..] + b;
    }
  }

  /** Two numbers compare as their quotients do, and then as their remainders. */
  lemma QuotientFirst(m: int, n: int)
    requires 0 <= m < n
    ensures m / 0x40 < n / 0x40 || (m / 0x40 == n / 0x40 && m % 0x40 < n % 0x40)
  {
  }

  /** The first bytes in which two code points differ are in their order. */
  lemma DiffersInOrder(m: int, n: int) returns (k: nat)
    requires 0 <= m < n < 0x110000
    ensures var x, y := CodePoint(m), CodePoint(n);
            k < |x| && k < |y| && x[..k] == y[..k] && x[k] < y[k]
  {
    if |CodePoint(m)| < |CodePoint(n)| {
      k := 0;
      LeadingByte(m, n);
    } else {
      QuotientFirst(m, n);
      if m / 0x40 < n / 0x40 {
        QuotientFirst(m / 0x40, n / 0x40);
        if m / 0x40 / 0x40 < n / 0x40 / 0x40 {
          QuotientFirst(m / 0x40 / 0x40, n / 0x40 / 0x40);
        }
      }
      k := FirstDifference(m, n);
    }
  }

  lemma FirstDifference(m: int, n: int) returns (k: nat)
    requires 0 <= m < n < 0x110000 && |CodePoint(m)| >= |CodePoint(n)|
    requires var m1, n1 := m / 0x40, n / 0x40;
             var m2, n2 := m1 / 0x40, n1 / 0x40;
             && (m1 < n1 || (m1 == n1 && m % 0x40 < n % 0x40))
             && (m1 < n1 ==> m2 < n2 || (m2 == n2 && m1 % 0x40 < n1 % 0x40))
             && (m2 < n2 ==> m2 / 0x40 < n2 / 0x40 || (m2 / 0x40 == n2 / 0x40 && m2 % 0x40 < n2 % 0x40))
    ensures var x, y := CodePoint(m), CodePoint(n);
            k < |x| && k < |y| && x[..k] == y[..k] && x[k] < y[k]
  {
    var x, y := CodePoint(m), CodePoint(n);
    var m1, n1 := m / 0x40, n / 0x40;
    var m2, n2 := m1 / 0x40, n1 / 0x40;
    k := if m1 == n1 then |x| - 1
         else if m2 == n2 then if |x| < 3 then 0 else |x| - 2
         else if m2 / 0x40 == n2 / 0x40 then if |x| < 4 then 0 else 1
         else 0;
  }

  lemma LeadingByte(m: int, n: int)
    requires 0 <= m < n < 0x110000 && |CodePoint(m)| < |CodePoint(n)|
    ensures CodePoint(m)[0] < CodePoint(n)[0]
  {
  }

  lemma {:induction false} DiffersAt(x: seq<int>, y: seq<int>, k: nat)
    requires k < |x| && k < |y| && x[..k] == y[..k] && x[k] < y[k]
    ensures BytesBefore(x, y) && !BytesBefore(y, x)
    decreases k
  {
    if k > 0 {
      assert x[0] == x[..k][0] == y[..k][0] == y[0];
      assert x[1..][..k - 1] == x[..k][1..] && y[1..][..k - 1] == y[..k][1..];
      DiffersAt(x[1..], y[1..], k - 1);
    }
  }

  lemma CodePointsOrdered(m: int, n: int, a: seq<int>, b: seq<int>)
    requires 0 <= m < n < 0x110000
    ensures BytesBefore(CodePoint(m) + a, CodePoint(n) + b) && !BytesBefore(CodePoint(n) + b, CodePoint(m) + a)
  {
    hide CodePoint, BytesBefore;
    var k := DiffersInOrder(m, n);
    var x, y := CodePoint(m) + a, CodePoint(n) + b;
    assert x[..k] == CodePoint(m)[..k] && y[..k] == CodePoint(n)[..k];
    DiffersAt(x, y, k);
  }

  /** Comparing byte by byte is comparing code point by code point. */
  lemma {:induction false} ByteOrderIsCodePointOrder(a: string, b: string)
    ensures BytesBefore(Bytes(a), Bytes(b)) <==> LexBefore(a, b)
    decreases |a|
  {
    hide CodePoint;
    if a != "" && b != "" {
      var m, n := a[0] as int, b[0] as int;
      var x, y := Bytes(a[1..]), Bytes(b[1..]);
      if m < n {
        CodePointsOrdered(m, n, x, y);
      } else if n < m {
        CodePointsOrdered(n, m, y, x);
      } else {
        SameFront(CodePoint(m), x, y);
        ByteOrderIsCodePointOrder(a[1..], b[1..]);
      }
    }
  }

  lemma {:induction false} BytesParts(a: string, b: string)
    ensures Bytes(a + b) == Bytes(a) + Bytes(b) && |Bytes(a)| >= |a|
    decreases |a|
  {
    hide CodePoint;
    if a == "" {
      assert a + b == b;
    } else {
      BytesParts(a[1..], b);
      assert (a + b)[1..] == a[1..] + b;
    }
  }
}

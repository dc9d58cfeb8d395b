/**
 UTF-8 (RFC 3629, section 3) and the unsigned byte order every canonical encoding sorts by.
 Buffer.compare, strcmp and Python's bytes ordering are all Before on Encode.
 */
module Utf8 {

  /** The bytes of one Unicode scalar value. */
  function EncodeChar(c: char): (bytes: seq<nat>)
    ensures 1 <= |bytes| <= 4
    ensures (c as int) < 0x80 ==> |bytes| == 1
  {
    var n := c as int;
    if n < 0x80 then [n]
    else if n < 0x800 then [0xC0 + n / 64, 0x80 + n % 64]
    else if n < 0x10000 then [0xE0 + n / 64 / 64, 0x80 + n / 64 % 64, 0x80 + n % 64]
    else [0xF0 + n / 64 / 64 / 64, 0x80 + n / 64 / 64 % 64, 0x80 + n / 64 % 64, 0x80 + n % 64]
  }

  function Encode(text: string): seq<nat> {
    if text == "" then [] else EncodeChar(text[0]) + Encode(text[1..])
  }

  /** Lexicographic order; a proper prefix comes first. */
  predicate Before(a: seq<nat>, b: seq<nat>) {
    b != [] && (a == [] || a[0] < b[0] || (a[0] == b[0] && Before(a[1..], b[1..])))
  }

  predicate TextBefore(a: string, b: string) { Before(Encode(a), Encode(b)) }

  function CodePoints(text: string): seq<nat> {
    if text == "" then [] else [text[0] as int] + CodePoints(text[1..])
  }

  lemma {:induction false} BeforeIrreflexive(a: seq<nat>)
    ensures !Before(a, a)
  {
    if a != [] { BeforeIrreflexive(a[1..]); }
  }

  lemma {:induction false} BeforeTransitive(a: seq<nat>, b: seq<nat>, c: seq<nat>)
    requires Before(a, b) && Before(b, c)
    ensures Before(a, c)
  {
    if a != [] && a[0] == b[0] && b[0] == c[0] {
      BeforeTransitive(a[1..], b[1..], c[1..]);
    }
  }

  lemma {:induction false} BeforeTotal(a: seq<nat>, b: seq<nat>)
    ensures a == b || Before(a, b) || Before(b, a)
  {
    if a != [] && b != [] && a[0] == b[0] {
      BeforeTotal(a[1..], b[1..]);
      assert a == [a[0]] + a[1..] && b == [b[0]] + b[1..];
    }
  }

  lemma {:induction false} BeforeSharedPrefix(x: seq<nat>, a: seq<nat>, b: seq<nat>)
    ensures Before(x + a, x + b) <==> Before(a, b)
  {
    if x == [] {
      assert x + a == a && x + b == b;
    } else {
      assert (x + a)[1..] == x[1..] + a && (x + b)[1..] == x[1..] + b;
      BeforeSharedPrefix(x[1..], a, b);
    }
  }

  /** Base-64 digits compare like the numbers. */
  lemma DigitOrder(m: nat, n: nat)
    requires m < n
    ensures m / 64 < n / 64 || (m / 64 == n / 64 && m % 64 < n % 64)
  {
  }

  lemma SameLengthOrder(m: nat, n: nat, x: seq<nat>, y: seq<nat>)
    requires m < n
    requires
      || (x == [0xC0 + m / 64, 0x80 + m % 64] && y == [0xC0 + n / 64, 0x80 + n % 64])
      || (x == [0xE0 + m / 64 / 64, 0x80 + m / 64 % 64, 0x80 + m % 64]
          && y == [0xE0 + n / 64 / 64, 0x80 + n / 64 % 64, 0x80 + n % 64])
      || (x == [0xF0 + m / 64 / 64 / 64, 0x80 + m / 64 / 64 % 64, 0x80 + m / 64 % 64, 0x80 + m % 64]
          && y == [0xF0 + n / 64 / 64 / 64, 0x80 + n / 64 / 64 % 64, 0x80 + n / 64 % 64, 0x80 + n % 64])
    ensures exists i :: FirstLess(x, y, i)
  {
    DigitOrder(m, n);
    var k := |x|;
    if m / 64 == n / 64 {
      assert FirstLess(x, y, k - 1);
    } else {
      if k == 2 {
        assert FirstLess(x, y, 0);
      } else {
        DigitOrder(m / 64, n / 64);
        if m / 64 / 64 == n / 64 / 64 {
          assert FirstLess(x, y, k - 2);
        } else if k == 3 {
          assert FirstLess(x, y, 0);
        } else {
          DigitOrder(m / 64 / 64, n / 64 / 64);
          if m / 64 / 64 / 64 == n / 64 / 64 / 64 {
            assert FirstLess(x, y, 1);
          } else {
            assert FirstLess(x, y, 0);
          }
        }
      }
    }
  }

  /** A longer encoding starts with a larger byte. */
  lemma LengthOrder(c: char, d: char)
    requires |EncodeChar(c)| < |EncodeChar(d)|
    ensures FirstLess(EncodeChar(c), EncodeChar(d), 0)
  {
  }

  /** At the first differing byte the smaller scalar has the smaller byte. */
  lemma CharOrder(c: char, d: char)
    requires c < d
    ensures exists i :: FirstLess(EncodeChar(c), EncodeChar(d), i)
  {
    if |EncodeChar(c)| < |EncodeChar(d)| {
      LengthOrder(c, d);
    } else if (d as int) < 0x80 {
      assert FirstLess(EncodeChar(c), EncodeChar(d), 0);
    } else {
      SameLengthOrder(c as int, d as int, EncodeChar(c), EncodeChar(d));
    }
  }

  predicate FirstLess(x: seq<nat>, y: seq<nat>, i: nat) {
    i < |x| && i < |y| && x[..i] == y[..i] && x[i] < y[i]
  }

  lemma FirstLessIsBefore(x: seq<nat>, y: seq<nat>, i: nat, a: seq<nat>, b: seq<nat>)
    requires FirstLess(x, y, i)
    ensures Before(x + a, y + b)
  {
    assert x + a == x[..i] + (x[i..] + a) && y + b == x[..i] + (y[i..] + b);
    BeforeSharedPrefix(x[..i], x[i..] + a, y[i..] + b);
  }

  /** Sorting by UTF-8 bytes is sorting by code points. */
  lemma {:induction false} ByteOrderIsCodePointOrder(s: string, t: string)
    ensures TextBefore(s, t) <==> Before(CodePoints(s), CodePoints(t))
  {
    if s != "" && t != "" {
      if s[0] == t[0] {
        BeforeSharedPrefix(EncodeChar(s[0]), Encode(s[1..]), Encode(t[1..]));
        ByteOrderIsCodePointOrder(s[1..], t[1..]);
      } else {
        var (low, high) := if s[0] < t[0] then (s, t) else (t, s);
        CharOrder(low[0], high[0]);
        var i :| FirstLess(EncodeChar(low[0]), EncodeChar(high[0]), i);
        FirstLessIsBefore(EncodeChar(low[0]), EncodeChar(high[0]), i, Encode(low[1..]), Encode(high[1..]));
        if t[0] < s[0] && TextBefore(s, t) {
          BeforeTransitive(Encode(s), Encode(t), Encode(s));
          BeforeIrreflexive(Encode(s));
        }
      }
    }
  }

  lemma {:induction false} CodePointsInjective(s: string, t: string)
    requires CodePoints(s) == CodePoints(t)
    ensures s == t
  {
    if s != "" && t != "" {
      assert CodePoints(s)[1..] == CodePoints(s[1..]) && CodePoints(t)[1..] == CodePoints(t[1..]);
      assert s[0] as int == CodePoints(s)[0] == CodePoints(t)[0] == t[0] as int;
      CodePointsInjective(s[1..], t[1..]);
      assert s == [s[0]] + s[1..] && t == [t[0]] + t[1..];
    }
  }

  /** The byte order is a strict total order on texts: in particular no two texts share their bytes. */
  lemma TextOrderTotal(s: string, t: string)
    ensures s == t || TextBefore(s, t) || TextBefore(t, s)
  {
    ByteOrderIsCodePointOrder(s, t);
    ByteOrderIsCodePointOrder(t, s);
    BeforeTotal(CodePoints(s), CodePoints(t));
    if CodePoints(s) == CodePoints(t) { CodePointsInjective(s, t); }
  }

  lemma EncodeInjective(s: string, t: string)
    requires Encode(s) == Encode(t)
    ensures s == t
  {
    TextOrderTotal(s, t);
    BeforeIrreflexive(Encode(s));
  }

  lemma Regroup<T>(a: seq<T>, b: seq<T>, c: seq<T>)
    ensures a + (b + c) == (a + b) + c
  {
  }

  lemma Rest(s: string, t: string)
    requires s != ""
    ensures (s + t)[0] == s[0] && (s + t)[1..] == s[1..] + t
  {
  }

  lemma {:induction false} EncodeConcat(s: string, t: string)
    ensures Encode(s + t) == Encode(s) + Encode(t)
  {
    if s == "" {
      assert s + t == t;
    } else {
      EncodeConcat(s[1..], t);
      Rest(s, t);
      Regroup(EncodeChar(s[0]), Encode(s[1..]), Encode(t));
    }
  }
}

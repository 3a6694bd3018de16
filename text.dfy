/**
 * The JavaScript string operations the engine and the parser rely on:
 * `includes`, `trim`, `split` on a one-character separator, `join`,
 * `String(n)` for a non-negative integer and `padStart(2, '0')`.
 */
module Text {

  /** `s.includes(t)`: some window of `s` equals `t`. */
  predicate Contains(s: string, t: string)
    decreases |s|
  {
    |t| <= |s| && (s[..|t|] == t || (|s| > 0 && Contains(s[1..], t)))
  }

  /** `t` occurs in `s` starting at position `i`. */
  predicate OccursAt(s: string, t: string, i: int) {
    0 <= i && i + |t| <= |s| && s[i..i + |t|] == t
  }

  lemma {:induction false} ContainsIffOccurs(s: string, t: string)
    ensures Contains(s, t) <==> exists i :: OccursAt(s, t, i)
    decreases |s|
  {
    if |t| <= |s| && s[..|t|] == t {
      assert OccursAt(s, t, 0);
    } else if |t| <= |s| && |s| > 0 {
      assert s[0..|t|] == s[..|t|];
      forall i | OccursAt(s, t, i)
        ensures i > 0 && OccursAt(s[1..], t, i - 1)
      {
        assert i > 0;
        var w := s[1..][i - 1..i - 1 + |t|];
        assert |w| == |t|;
        forall m | 0 <= m < |t| ensures w[m] == s[i..i + |t|][m] {
          assert w[m] == s[i + m];
        }
        assert w == s[i..i + |t|];
      }
      forall i | OccursAt(s[1..], t, i)
        ensures OccursAt(s, t, i + 1)
      {
        assert s[i + 1..i + 1 + |t|] == s[1..][i..i + |t|];
      }
      ContainsIffOccurs(s[1..], t);
    }
  }

  /** The characters `String.prototype.trim` removes: JavaScript WhiteSpace and LineTerminator. */
  predicate IsJsSpace(c: char) {
    c == '\t' || c == '\n' || c == '\U{B}' || c == '\U{C}' || c == '\r' || c == ' '
    || c == '\U{A0}' || c == '\U{1680}' || ('\U{2000}' <= c <= '\U{200A}')
    || c == '\U{2028}' || c == '\U{2029}' || c == '\U{202F}' || c == '\U{205F}'
    || c == '\U{3000}' || c == '\U{FEFF}'
  }

  function TrimStart(s: string): string {
    if s != [] && IsJsSpace(s[0]) then TrimStart(s[1..]) else s
  }

  /** `trimStart` drops exactly the leading spaces: a suffix is left that does not start with one. */
  lemma {:induction false} TrimStartDrops(s: string)
    ensures var r := TrimStart(s);
      && |r| <= |s| && r == s[|s| - |r|..]
      && (r == [] || !IsJsSpace(r[0]))
      && forall k :: 0 <= k < |s| - |r| ==> IsJsSpace(s[k])
  {
    if s != [] && IsJsSpace(s[0]) {
      var t := s[1..];
      TrimStartDrops(t);
      var r := TrimStart(t);
      assert r == s[|s| - |r|..];
      forall k | 1 <= k < |s| - |r| ensures IsJsSpace(s[k]) {
        assert s[k] == t[k - 1];
      }
    }
  }

  function TrimEnd(s: string): string {
    if s != [] && IsJsSpace(s[|s| - 1]) then TrimEnd(s[..|s| - 1]) else s
  }

  /** `trimEnd` drops exactly the trailing spaces: a prefix is left that does not end with one. */
  lemma {:induction false} TrimEndDrops(s: string)
    ensures var r := TrimEnd(s);
      && |r| <= |s| && r == s[..|r|]
      && (r == [] || !IsJsSpace(r[|r| - 1]))
      && forall k :: |r| <= k < |s| ==> IsJsSpace(s[k])
  {
    if s != [] && IsJsSpace(s[|s| - 1]) {
      var t := s[..|s| - 1];
      TrimEndDrops(t);
      var r := TrimEnd(t);
      assert r == s[..|r|];
      forall k | |r| <= k < |s| - 1 ensures IsJsSpace(s[k]) {
        assert s[k] == t[k];
      }
    }
  }

  /** `s.trim()`. */
  function Trim(s: string): string {
    TrimEnd(TrimStart(s))
  }

  /**
   * Trimming leaves the slice of `s` between its leading and trailing
   * spaces, which neither starts nor ends with a space.
   */
  lemma TrimSlice(s: string)
    ensures var r := Trim(s);
      var i := |s| - |TrimStart(s)|;
      && 0 <= i && i + |r| <= |s| && r == s[i..i + |r|]
      && (forall k :: 0 <= k < i ==> IsJsSpace(s[k]))
      && (forall k :: i + |r| <= k < |s| ==> IsJsSpace(s[k]))
      && (r == [] || (!IsJsSpace(r[0]) && !IsJsSpace(r[|r| - 1])))
  {
    var a := TrimStart(s);
    TrimStartDrops(s);
    TrimEndDrops(a);
    var r := TrimEnd(a);
    assert r == s[|s| - |a|..|s| - |a| + |r|];
    if r != [] {
      assert r[0] == a[0];
    }
  }

  /** `s.split(sep)` for a one-character separator: never empty, `"".split(sep) == [""]`. */
  function Split(s: string, sep: char): (parts: seq<string>)
    ensures |parts| >= 1
  {
    if s == [] then [""]
    else
      var rest := Split(s[1..], sep);
      if s[0] == sep then [""] + rest else [[s[0]] + rest[0]] + rest[1..]
  }

  /** `parts.join(sep)`. */
  function Join(parts: seq<string>, sep: string): string {
    if |parts| == 0 then ""
    else if |parts| == 1 then parts[0]
    else parts[0] + sep + Join(parts[1..], sep)
  }

  /** Splitting loses nothing: joining the pieces restores the text. */
  lemma {:induction false} SplitJoin(s: string, sep: char)
    ensures Join(Split(s, sep), [sep]) == s
  {
    if s != [] {
      SplitJoin(s[1..], sep);
      var rest := Split(s[1..], sep);
      var parts := Split(s, sep);
      if s[0] == sep {
        assert parts == [""] + rest;
        assert Join(parts, [sep]) == "" + [sep] + Join(rest, [sep]);
      } else {
        assert parts == [[s[0]] + rest[0]] + rest[1..];
        if |rest| == 1 {
          assert Join(parts, [sep]) == [s[0]] + rest[0];
        } else {
          assert Join(rest, [sep]) == rest[0] + [sep] + Join(rest[1..], [sep]);
          assert Join(parts, [sep]) == [s[0]] + rest[0] + [sep] + Join(rest[1..], [sep]);
        }
      }
    }
  }

  /** No piece of a split holds the separator. */
  lemma {:induction false} SplitPiecesFree(s: string, sep: char)
    ensures forall p, k :: p in Split(s, sep) && 0 <= k < |p| ==> p[k] != sep
  {
    if s != [] {
      SplitPiecesFree(s[1..], sep);
      var rest := Split(s[1..], sep);
      var parts := Split(s, sep);
      if s[0] != sep {
        assert parts == [[s[0]] + rest[0]] + rest[1..];
        forall p, k | p in parts && 0 <= k < |p| ensures p[k] != sep {
          if p == parts[0] {
            if k > 0 { assert p[k] == rest[0][k - 1]; }
          } else {
            assert p in rest;
          }
        }
      }
    }
  }

  function DigitChar(d: nat): (c: char)
    requires d < 10
  {
    "0123456789"[d]
  }

  function DigitValue(c: char): int {
    c as int - '0' as int
  }

  /** `String(n)` for a non-negative integer: its decimal digits, no leading zero. */
  function NatToDecimal(n: nat): (s: string)
    ensures |s| >= 1
  {
    if n < 10 then [DigitChar(n)] else NatToDecimal(n / 10) + [DigitChar(n % 10)]
  }

  /** Reads a string of decimal digits back as a number. */
  function DecimalValue(s: string): int {
    if s == [] then 0 else 10 * DecimalValue(s[..|s| - 1]) + DigitValue(s[|s| - 1])
  }

  lemma {:induction false} DecimalRoundTrip(n: nat)
    ensures DecimalValue(NatToDecimal(n)) == n
    ensures forall k :: 0 <= k < |NatToDecimal(n)| ==> '0' <= NatToDecimal(n)[k] <= '9'
    ensures NatToDecimal(n)[0] != '0' || n == 0
  {
    if n >= 10 {
      DecimalRoundTrip(n / 10);
      var s := NatToDecimal(n);
      assert s[..|s| - 1] == NatToDecimal(n / 10);
    }
  }

  /** `String(n).padStart(2, '0')`. */
  function Pad2(n: nat): (s: string) {
    var d := NatToDecimal(n);
    if |d| < 2 then "0" + d else d
  }

  lemma Pad2Digits(n: nat)
    requires n < 100
    ensures Pad2(n) == [DigitChar(n / 10), DigitChar(n % 10)]
  {
    if n >= 10 {
      assert NatToDecimal(n / 10) == [DigitChar(n / 10)];
    }
  }

  /** Two zero-padded digits read back as the number they pad. */
  lemma Pad2Value(n: nat)
    requires n < 100
    ensures |Pad2(n)| == 2 && DecimalValue(Pad2(n)) == n
  {
    Pad2Digits(n);
    var s := Pad2(n);
    assert s[..1] == [DigitChar(n / 10)];
    assert DecimalValue(s[..1]) == n / 10;
  }
}

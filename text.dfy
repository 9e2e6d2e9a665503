/**
 * The JavaScript string operations the SDK relies on: `toLowerCase`, `includes`,
 * `Array.prototype.join`, and the decimal rendering of integers.
 */
module Text {

  /** `s` stands in `t` starting at offset `k`. */
  predicate OccursAt(t: string, s: string, k: nat) {
    k + |s| <= |t| && t[k..k + |s|] == s
  }

  /** `s` occurs in `t` at some offset: the meaning of `t.includes(s)`. */
  ghost predicate Occurs(t: string, s: string) {
    exists k: nat :: OccursAt(t, s, k)
  }

  /** Whatever occurs inside an occurrence of `s` occurs in `t`. */
  lemma OccursWithin(t: string, s: string, k: nat, a: nat, b: nat)
    requires OccursAt(t, s, k)
    requires a <= b <= |s|
    ensures OccursAt(t, s[a..b], k + a)
  {
    assert forall j :: 0 <= j < |s| ==> s[j] == t[k + j];
    assert t[k + a..k + b] == s[a..b];
  }

  /** `t.includes(s)`, computed by trying every offset from the left. */
  function Includes(t: string, s: string): (r: bool)
    ensures r <==> Occurs(t, s)
    decreases |t|
  {
    if |s| > |t| then false
    else if t[..|s|] == s then assert OccursAt(t, s, 0); true
    else
      var r := Includes(t[1..], s);
      assert r ==> Occurs(t, s) by {
        if r {
          var k: nat :| OccursAt(t[1..], s, k);
          assert t[k + 1..k + 1 + |s|] == t[1..][k..k + |s|];
          assert OccursAt(t, s, k + 1);
        }
      }
      assert Occurs(t, s) ==> r by {
        if Occurs(t, s) {
          var k: nat :| OccursAt(t, s, k);
          assert k != 0;
          assert t[1..][k - 1..k - 1 + |s|] == t[k..k + |s|];
          assert OccursAt(t[1..], s, k - 1);
        }
      }
      r
  }

  predicate IsUpper(c: char) {
    'A' <= c <= 'Z'
  }

  /** ASCII lower-casing of one character. */
  function LowerChar(c: char): (r: char)
    ensures !IsUpper(r)
    ensures !IsUpper(c) ==> r == c
  {
    if IsUpper(c) then (c as int + 32) as char else c
  }

  /** `s.toLowerCase()` on ASCII letters. */
  function Lower(s: string): (r: string)
    ensures |r| == |s|
    ensures forall i :: 0 <= i < |s| ==> r[i] == LowerChar(s[i])
  {
    seq(|s|, i requires 0 <= i < |s| => LowerChar(s[i]))
  }

  predicate IsLowerCase(s: string) {
    forall i :: 0 <= i < |s| ==> !IsUpper(s[i])
  }

  lemma LowerIsLowerCase(s: string)
    ensures IsLowerCase(Lower(s))
  {
  }

  lemma LowerFixesLowerCase(s: string)
    requires IsLowerCase(s)
    ensures Lower(s) == s
  {
  }

  /** Lower-casing preserves a lower-case piece in the middle of a string. */
  lemma LowerKeepsLowerCasePiece(prefix: string, piece: string, suffix: string)
    requires IsLowerCase(piece)
    ensures OccursAt(Lower(prefix + piece + suffix), piece, |prefix|)
  {
    var t := Lower(prefix + piece + suffix);
    assert forall i :: 0 <= i < |piece| ==> t[|prefix| + i] == piece[i];
    assert t[|prefix|..|prefix| + |piece|] == piece;
  }

  /** Lower-casing twice is lower-casing once. */
  lemma LowerIdempotent(s: string)
    ensures Lower(Lower(s)) == Lower(s)
  {
    LowerIsLowerCase(s);
    LowerFixesLowerCase(Lower(s));
  }

  /**
   * The UTF-16 code units one character takes: two for a character outside the
   * Basic Multilingual Plane (a surrogate pair), one otherwise.
   */
  function Utf16Units(c: char): (n: nat)
    ensures n == 1 || n == 2
    ensures n == 2 <==> c as int >= 0x1_0000
  {
    if c as int >= 0x1_0000 then 2 else 1
  }

  /**
   * JavaScript's `.length` of a string, which the library's `.min(n)` and
   * `.max(n)` compare against: its UTF-16 code units, not its characters.
   */
  function Utf16Length(s: string): (n: nat)
    ensures |s| <= n <= 2 * |s|
    decreases |s|
  {
    if |s| == 0 then 0 else Utf16Units(s[0]) + Utf16Length(s[1..])
  }

  /** The code units agree with the characters exactly when every character lies in the Basic Multilingual Plane. */
  lemma {:induction false} Utf16LengthIsLengthOnPlaneZero(s: string)
    ensures Utf16Length(s) == |s| <==> forall i :: 0 <= i < |s| ==> s[i] as int < 0x1_0000
    decreases |s|
  {
    if |s| > 0 {
      Utf16LengthIsLengthOnPlaneZero(s[1..]);
      assert forall i :: 1 <= i < |s| ==> s[1..][i - 1] == s[i];
    }
  }

  /** `k` copies of a character outside the Basic Multilingual Plane take `2 * k` code units. */
  lemma {:induction false} AstralRunLength(c: char, k: nat)
    requires c as int >= 0x1_0000
    ensures Utf16Length(seq(k, _ => c)) == 2 * k
    decreases k
  {
    if k > 0 {
      AstralRunLength(c, k - 1);
      assert seq(k, _ => c)[1..] == seq(k - 1, _ => c);
    }
  }

  /** Whatever occurs in `t` still occurs once `p` is put in front of it. */
  lemma OccursAfterPrefix(p: string, t: string, s: string)
    requires Occurs(t, s)
    ensures Occurs(p + t, s)
  {
    var k: nat :| OccursAt(t, s, k);
    assert (p + t)[|p| + k..|p| + k + |s|] == t[k..k + |s|];
    assert OccursAt(p + t, s, |p| + k);
  }

  /** `parts.join(sep)`. */
  function Join(parts: seq<string>, sep: string): string {
    if |parts| == 0 then ""
    else if |parts| == 1 then parts[0]
    else parts[0] + sep + Join(parts[1..], sep)
  }

  /** Every part of a join occurs in the joined string. */
  lemma {:induction false} JoinContainsParts(parts: seq<string>, sep: string, i: nat)
    requires i < |parts|
    ensures Occurs(Join(parts, sep), parts[i])
  {
    var j := Join(parts, sep);
    if |parts| == 1 {
      assert j[0..|parts[0]|] == parts[0];
      assert OccursAt(j, parts[i], 0);
    } else if i == 0 {
      assert j[0..|parts[0]|] == parts[0];
      assert OccursAt(j, parts[i], 0);
    } else {
      var rest := Join(parts[1..], sep);
      JoinContainsParts(parts[1..], sep, i - 1);
      var k: nat :| OccursAt(rest, parts[i], k);
      var off := |parts[0]| + |sep|;
      assert j == parts[0] + sep + rest;
      assert j[off + k..off + k + |parts[i]|] == rest[k..k + |parts[i]|];
      assert OccursAt(j, parts[i], off + k);
    }
  }

  function DigitChar(d: nat): (c: char)
    requires d < 10
  {
    "0123456789"[d]
  }

  /** The decimal digits of `n`, as JavaScript's `String(n)` prints a non-negative integer. */
  function NatToString(n: nat): (s: string)
    ensures |s| > 0
    ensures forall i :: 0 <= i < |s| ==> '0' <= s[i] <= '9'
    decreases n
  {
    if n < 10 then [DigitChar(n)] else NatToString(n / 10) + [DigitChar(n % 10)]
  }

  /** `String(n)` for an integer: a minus sign before the digits of a negative number. */
  function IntToString(n: int): string {
    if n < 0 then "-" + NatToString(-n) else NatToString(n)
  }

  /** The value of a string of decimal digits. */
  function DecimalValue(s: string): nat
    requires forall i :: 0 <= i < |s| ==> '0' <= s[i] <= '9'
  {
    if |s| == 0 then 0 else 10 * DecimalValue(s[..|s| - 1]) + (s[|s| - 1] as int - '0' as int)
  }

  /** Reading the digits back gives the number: the rendering loses nothing. */
  lemma {:induction false} DecimalRoundTrip(n: nat)
    ensures DecimalValue(NatToString(n)) == n
    decreases n
  {
    var s := NatToString(n);
    if n >= 10 {
      DecimalRoundTrip(n / 10);
      assert s[..|s| - 1] == NatToString(n / 10);
    }
  }

  /** Different numbers render differently. */
  lemma NatToStringInjective(m: nat, n: nat)
    requires NatToString(m) == NatToString(n)
    ensures m == n
  {
    DecimalRoundTrip(m);
    DecimalRoundTrip(n);
  }
}

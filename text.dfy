/** String helpers shared by the cogs: the `lower().strip()` normalisation used by
    the anti-spam and the message-XP gates, the command-prefix test, and the
    decimal rendering `str(n)` that the backup uses to key permission overwrites. */
module Text {

  /** The whitespace that `str.strip()` removes, restricted to the ASCII and
      C0 separator characters (Python also strips other Unicode spaces). */
  predicate IsSpace(c: char) {
    // tab, line feed, vertical tab, form feed, carriage return; the four
    // information separators and the space.
    ('\t' <= c <= '\r') || ('\U{1C}' <= c <= ' ')
  }

  predicate IsUpper(c: char) {
    'A' <= c <= 'Z'
  }

  function LowerChar(c: char): (r: char)
    ensures !IsUpper(r)
    ensures IsSpace(r) <==> IsSpace(c)
    ensures !IsUpper(c) ==> r == c
  {
    if IsUpper(c) then (c as int - 'A' as int + 'a' as int) as char else c
  }

  /** `s.lower()` on the ASCII letters. */
  function Lower(s: string): (r: string)
    ensures |r| == |s|
    ensures forall i :: 0 <= i < |s| ==> r[i] == LowerChar(s[i])
  {
    seq(|s|, i requires 0 <= i < |s| => LowerChar(s[i]))
  }

  /** `s.lstrip()`: drops the leading whitespace. */
  function LStrip(s: string): (r: string)
    ensures |r| <= |s| && r == s[|s| - |r|..]
    ensures forall i :: 0 <= i < |s| - |r| ==> IsSpace(s[i])
    ensures |r| > 0 ==> !IsSpace(r[0])
  {
    if |s| > 0 && IsSpace(s[0]) then LStrip(s[1..]) else s
  }

  /** `s.rstrip()`: drops the trailing whitespace. */
  function RStrip(s: string): (r: string)
    ensures |r| <= |s| && r == s[..|r|]
    ensures forall i :: |r| <= i < |s| ==> IsSpace(s[i])
    ensures |r| > 0 ==> !IsSpace(r[|r| - 1])
  {
    if |s| > 0 && IsSpace(s[|s| - 1]) then RStrip(s[..|s| - 1]) else s
  }

  /** `s.strip()`. */
  function Strip(s: string): string {
    RStrip(LStrip(s))
  }

  /** `s.lower().strip()`: the normal form under which two messages count as the same. */
  function Normalise(s: string): string {
    Strip(Lower(s))
  }

  /** What the bot's command prefix test `s.startswith('+')` checks. */
  predicate IsCommand(s: string) {
    |s| > 0 && s[0] == '+'
  }

  lemma {:induction false} LStripOfTrimmed(s: string)
    requires |s| == 0 || !IsSpace(s[0])
    ensures LStrip(s) == s
  {
  }

  lemma {:induction false} RStripOfTrimmed(s: string)
    requires |s| == 0 || !IsSpace(s[|s| - 1])
    ensures RStrip(s) == s
  {
  }

  /** A stripped string has no whitespace at either end. */
  lemma {:induction false} StripEnds(s: string)
    ensures |Strip(s)| > 0 ==> !IsSpace(Strip(s)[0]) && !IsSpace(Strip(s)[|Strip(s)| - 1])
  {
    var l := LStrip(s);
    var t := RStrip(l);
    if |t| > 0 {
      assert t[0] == l[0];
    }
  }

  /** Stripping a stripped string is a no-op. */
  lemma {:induction false} StripIdempotent(s: string)
    ensures Strip(Strip(s)) == Strip(s)
  {
    var l := LStrip(s);
    var t := RStrip(l);
    if |t| > 0 {
      assert t[0] == l[0];
      LStripOfTrimmed(t);
    }
    assert LStrip(t) == t;
    RStripOfTrimmed(t);
  }

  /** Lower-casing is idempotent. */
  lemma {:induction false} LowerIdempotent(s: string)
    ensures Lower(Lower(s)) == Lower(s)
  {
  }

  /** Lower-casing commutes with both strips, because it preserves whitespace. */
  lemma {:induction false} LowerLStrip(s: string)
    ensures Lower(LStrip(s)) == LStrip(Lower(s))
    decreases |s|
  {
    if |s| > 0 && IsSpace(s[0]) {
      assert Lower(s)[1..] == Lower(s[1..]);
      LowerLStrip(s[1..]);
    }
  }

  lemma {:induction false} LowerRStrip(s: string)
    ensures Lower(RStrip(s)) == RStrip(Lower(s))
    decreases |s|
  {
    if |s| > 0 && IsSpace(s[|s| - 1]) {
      assert Lower(s)[..|s| - 1] == Lower(s[..|s| - 1]);
      LowerRStrip(s[..|s| - 1]);
    }
  }

  /** Normalising a normalised message gives it back: the stored form of a message
      compares equal to the normal form of the same text. */
  lemma {:induction false} NormaliseIdempotent(s: string)
    ensures Normalise(Normalise(s)) == Normalise(s)
  {
    var l := Lower(s);
    calc {
      Normalise(Normalise(s));
      Strip(Lower(RStrip(LStrip(l))));
      { LowerRStrip(LStrip(l)); }
      Strip(RStrip(Lower(LStrip(l))));
      { LowerLStrip(l); }
      Strip(RStrip(LStrip(Lower(l))));
      { LowerIdempotent(s); }
      Strip(Strip(l));
      { StripIdempotent(l); }
      Strip(l);
    }
  }

  /** Stripping only removes characters, so it cannot introduce an upper-case letter. */
  lemma {:induction false} StripNoUpper(s: string)
    requires forall i :: 0 <= i < |s| ==> !IsUpper(s[i])
    ensures forall i :: 0 <= i < |Strip(s)| ==> !IsUpper(Strip(s)[i])
  {
    var ls := LStrip(s);
    var off := |s| - |ls|;
    var t := RStrip(ls);
    assert Strip(s) == t;
    forall i | 0 <= i < |t| ensures !IsUpper(t[i]) {
      assert t[i] == ls[i] == s[off + i];
    }
  }

  /** The normal form has no upper-case ASCII letter and no whitespace at its ends. */
  lemma {:induction false} NormaliseShape(s: string)
    ensures forall i :: 0 <= i < |Normalise(s)| ==> !IsUpper(Normalise(s)[i])
    ensures |Normalise(s)| > 0 ==> !IsSpace(Normalise(s)[0]) && !IsSpace(Normalise(s)[|Normalise(s)| - 1])
  {
    var l := Lower(s);
    assert Normalise(s) == Strip(l);
    LowerNoUpper(s);
    StripNoUpper(l);
    StripEnds(l);
  }

  /** Lower-casing leaves no upper-case ASCII letter. */
  lemma LowerNoUpper(s: string)
    ensures forall i :: 0 <= i < |Lower(s)| ==> !IsUpper(Lower(s)[i])
  {
  }

  function DigitChar(d: nat): (c: char)
    requires d < 10
    ensures '0' <= c <= '9'
  {
    ('0' as int + d) as char
  }

  /** `str(n)` for a non-negative integer: its decimal digits, most significant first. */
  function DecimalString(n: nat): (r: string)
    ensures |r| >= 1
    ensures forall i :: 0 <= i < |r| ==> '0' <= r[i] <= '9'
    ensures (|r| == 1) == (n < 10)
    ensures r[|r| - 1] == DigitChar(n % 10)
  {
    if n < 10 then [DigitChar(n)] else DecimalString(n / 10) + [DigitChar(n % 10)]
  }

  /** Distinct identifiers render as distinct strings, so comparing `str(id)` with a
      stored key is the same as comparing the identifiers. */
  lemma {:induction false} DecimalStringInjective(a: nat, b: nat)
    ensures DecimalString(a) == DecimalString(b) ==> a == b
    decreases a
  {
    if DecimalString(a) == DecimalString(b) && a >= 10 && b >= 10 {
      var sa, sb := DecimalString(a), DecimalString(b);
      assert sa[..|sa| - 1] == DecimalString(a / 10);
      assert sb[..|sb| - 1] == DecimalString(b / 10);
      DecimalStringInjective(a / 10, b / 10);
      assert DigitChar(a % 10) == DigitChar(b % 10);
    }
  }
}

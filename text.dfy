/**
 * The string operations the subscription endpoints rely on: `str.isdigit()`,
 * `int()` on a digit string, and `str.split(", ")`, restricted to ASCII text.
 */
module Text {

  predicate IsDigit(c: char)
  {
    '0' <= c <= '9'
  }

  /** Every character is a decimal digit (the empty string qualifies). */
  predicate AllDigits(s: string)
  {
    forall i :: 0 <= i < |s| ==> IsDigit(s[i])
  }

  /** `s.isdigit()`: non-empty and made of decimal digits only. */
  predicate IsDigits(s: string)
  {
    |s| > 0 && AllDigits(s)
  }

  function DigitValue(c: char): (d: nat)
    requires IsDigit(c)
    ensures d < 10
  {
    (c as int) - ('0' as int)
  }

  function DigitChar(d: nat): (c: char)
    requires d < 10
    ensures IsDigit(c) && DigitValue(c) == d
  {
    (('0' as int) + d) as char
  }

  /** `int(s)` for a string of decimal digits; leading zeros are allowed. */
  function DecimalValue(s: string): nat
    requires AllDigits(s)
    decreases |s|
  {
    if |s| == 0 then 0 else 10 * DecimalValue(s[..|s| - 1]) + DigitValue(s[|s| - 1])
  }

  /** `str(n)` for a natural number: its shortest decimal spelling. */
  function DecimalString(n: nat): (s: string)
    ensures IsDigits(s)
    ensures |s| > 1 ==> s[0] != '0'
  {
    if n < 10 then [DigitChar(n)] else DecimalString(n / 10) + [DigitChar(n % 10)]
  }

  /** Reading back a spelled-out number gives the number. */
  lemma {:induction false} DecimalRoundTrip(n: nat)
    ensures DecimalValue(DecimalString(n)) == n
  {
    var s := DecimalString(n);
    if n >= 10 {
      assert s[..|s| - 1] == DecimalString(n / 10);
      DecimalRoundTrip(n / 10);
    }
  }

  /** `s.split(", ")`: the pieces between the non-overlapping separators found left to right. */
  function Split(s: string): (parts: seq<string>)
    ensures |parts| >= 1
  {
    SplitFrom(s, "")
  }

  /** Splitting the rest `s` of a text whose current, unfinished piece is `cur`. */
  function SplitFrom(s: string, cur: string): (parts: seq<string>)
    ensures |parts| >= 1
    decreases |s|
  {
    if |s| == 0 then [cur]
    else if |s| >= 2 && s[0] == ',' && s[1] == ' ' then [cur] + SplitFrom(s[2..], "")
    else SplitFrom(s[1..], cur + [s[0]])
  }

  /** `", ".join(parts)`. */
  function Join(parts: seq<string>): string
    requires |parts| >= 1
  {
    if |parts| == 1 then parts[0] else parts[0] + ", " + Join(parts[1..])
  }

  /** The text contains the separator ", ". */
  predicate HasSeparator(p: string)
  {
    exists i :: 0 <= i < |p| - 1 && p[i] == ',' && p[i + 1] == ' '
  }

  /** A text without a comma. */
  predicate NoComma(p: string)
  {
    forall i :: 0 <= i < |p| ==> p[i] != ','
  }

  lemma {:induction false} SplitFromJoin(s: string, cur: string)
    ensures Join(SplitFrom(s, cur)) == cur + s
    decreases |s|
  {
    if |s| == 0 {
    } else if |s| >= 2 && s[0] == ',' && s[1] == ' ' {
      SplitFromJoin(s[2..], "");
      assert s == ", " + s[2..];
    } else {
      SplitFromJoin(s[1..], cur + [s[0]]);
      assert cur + s == (cur + [s[0]]) + s[1..];
    }
  }

  /** Joining the pieces back with the separator gives the original text. */
  lemma SplitJoin(s: string)
    ensures Join(Split(s)) == s
  {
    SplitFromJoin(s, "");
  }

  lemma {:induction false} SplitFromNoSeparator(s: string, cur: string)
    requires !HasSeparator(cur)
    requires |cur| > 0 && cur[|cur| - 1] == ',' ==> !(|s| > 0 && s[0] == ' ')
    ensures forall k :: 0 <= k < |SplitFrom(s, cur)| ==> !HasSeparator(SplitFrom(s, cur)[k])
    decreases |s|
  {
    if |s| == 0 {
    } else if |s| >= 2 && s[0] == ',' && s[1] == ' ' {
      SplitFromNoSeparator(s[2..], "");
    } else {
      var next := cur + [s[0]];
      forall i | 0 <= i < |next| - 1
        ensures !(next[i] == ',' && next[i + 1] == ' ')
      {
        if i < |cur| - 1 {
          assert next[i] == cur[i] && next[i + 1] == cur[i + 1];
        } else {
          assert next[i] == cur[|cur| - 1] && next[i + 1] == s[0];
        }
      }
      SplitFromNoSeparator(s[1..], next);
    }
  }

  /** No piece of a split contains the separator, so the split is as fine as it can be. */
  lemma SplitPiecesHaveNoSeparator(s: string)
    ensures forall k :: 0 <= k < |Split(s)| ==> !HasSeparator(Split(s)[k])
  {
    SplitFromNoSeparator(s, "");
  }

  lemma {:induction false} SplitFromCommaFree(p: string, s: string, cur: string)
    requires NoComma(p)
    ensures SplitFrom(p + s, cur) == SplitFrom(s, cur + p)
    decreases |p|
  {
    if |p| > 0 {
      assert (p + s)[0] == p[0];
      assert (p + s)[1..] == p[1..] + s;
      SplitFromCommaFree(p[1..], s, cur + [p[0]]);
      assert cur + [p[0]] + p[1..] == cur + p;
    } else {
      assert p + s == s;
      assert cur + p == cur;
    }
  }

  lemma {:induction false} SplitFromJoined(parts: seq<string>, cur: string)
    requires |parts| >= 1
    requires forall k :: 0 <= k < |parts| ==> NoComma(parts[k])
    ensures SplitFrom(Join(parts), cur) == [cur + parts[0]] + parts[1..]
    decreases |parts|
  {
    if |parts| == 1 {
      SplitFromCommaFree(parts[0], "", cur);
      assert parts[0] + "" == parts[0];
    } else {
      var rest := ", " + Join(parts[1..]);
      assert Join(parts) == parts[0] + rest;
      SplitFromCommaFree(parts[0], rest, cur);
      assert rest[0] == ',' && rest[1] == ' ' && rest[2..] == Join(parts[1..]);
      assert SplitFrom(rest, cur + parts[0]) == [cur + parts[0]] + SplitFrom(Join(parts[1..]), "");
      SplitFromJoined(parts[1..], "");
      assert "" + parts[1] == parts[1];
      assert [parts[1]] + parts[2..] == parts[1..];
    }
  }

  /** Splitting comma-free pieces joined with the separator gives the pieces back. */
  lemma JoinSplit(parts: seq<string>)
    requires |parts| >= 1
    requires forall k :: 0 <= k < |parts| ==> NoComma(parts[k])
    ensures Split(Join(parts)) == parts
  {
    SplitFromJoined(parts, "");
    assert "" + parts[0] == parts[0];
  }
}

/** String helpers that the request builder and the flag display rely on:
    Rust's `[String]::join` with a one-character separator, its inverse
    `Split`, and the decimal rendering that `format!("{n}")` gives a `u32`. */
module Text {

  /** The parts with `sep` between neighbours; no separator before the first
      or after the last part, and the empty string for no parts. */
  function Join(parts: seq<string>, sep: char): (joined: string)
    ensures |parts| == 0 ==> joined == ""
    ensures |parts| >= 1 ==> |parts[0]| <= |joined| && joined[..|parts[0]|] == parts[0]
    ensures |parts| >= 2 ==> |parts[0]| < |joined| && joined[|parts[0]|] == sep
  {
    if |parts| == 0 then ""
    else if |parts| == 1 then parts[0]
    else parts[0] + [sep] + Join(parts[1..], sep)
  }

  /** The position of the first occurrence of `c` in `s`. */
  function FirstIndex(s: string, c: char): (i: nat)
    requires c in s
    ensures i < |s| && s[i] == c && c !in s[..i]
  {
    if s[0] == c then 0
    else
      assert c in s[1..] by {
        var k :| 0 <= k < |s| && s[k] == c;
        assert s[1..][k - 1] == c;
      }
      1 + FirstIndex(s[1..], c)
  }

  /** Any occurrence with no earlier one is the first. */
  lemma FirstIndexUnique(s: string, c: char, k: nat)
    requires k < |s| && s[k] == c && c !in s[..k]
    ensures FirstIndex(s, c) == k
  {
  }

  /** The pieces of `s` between occurrences of `sep`, in order; always at
      least one piece (the empty string splits into `[""]`). */
  function Split(s: string, sep: char): (parts: seq<string>)
    ensures |parts| >= 1
    decreases |s|
  {
    if sep !in s then [s]
    else
      var i := FirstIndex(s, sep);
      [s[..i]] + Split(s[i + 1..], sep)
  }

  /** A string without the separator is a single piece. */
  lemma SplitWithout(s: string, sep: char)
    requires sep !in s
    ensures Split(s, sep) == [s]
  {
  }

  /** The first piece ends at the first separator. */
  lemma SplitAtFirst(s: string, sep: char, k: nat)
    requires k < |s| && s[k] == sep && sep !in s[..k]
    ensures Split(s, sep) == [s[..k]] + Split(s[k + 1..], sep)
  {
    FirstIndexUnique(s, sep, k);
  }

  /** Splitting distributes over a separator placed between two strings. */
  lemma {:induction false} SplitAround(a: string, sep: char, b: string)
    ensures Split(a + [sep] + b, sep) == Split(a, sep) + Split(b, sep)
    decreases |a|
  {
    var s := a + [sep] + b;
    if sep !in a {
      assert s[..|a|] == a && s[|a|] == sep && s[|a| + 1..] == b;
      SplitAtFirst(s, sep, |a|);
      SplitWithout(a, sep);
    } else {
      var i := FirstIndex(a, sep);
      var rest := a[i + 1..];
      var first, left, right := [a[..i]], Split(rest, sep), Split(b, sep);
      assert Split(s, sep) == first + Split(rest + [sep] + b, sep) by {
        assert s[..i] == a[..i] && s[i] == sep && s[i + 1..] == rest + [sep] + b;
        SplitAtFirst(s, sep, i);
      }
      assert Split(a, sep) == first + left by {
        SplitAtFirst(a, sep, i);
      }
      assert Split(rest + [sep] + b, sep) == left + right by {
        SplitAround(rest, sep, b);
      }
      assert first + (left + right) == (first + left) + right;
    }
  }

  /** Join and Split are inverse when no part contains the separator. */
  lemma {:induction false} SplitJoin(parts: seq<string>, sep: char)
    requires |parts| >= 1
    requires forall i :: 0 <= i < |parts| ==> sep !in parts[i]
    ensures Split(Join(parts, sep), sep) == parts
  {
    if |parts| == 1 {
      SplitWithout(parts[0], sep);
    } else {
      var rest := Join(parts[1..], sep);
      assert Split(Join(parts, sep), sep) == Split(parts[0], sep) + Split(rest, sep) by {
        assert Join(parts, sep) == parts[0] + [sep] + rest;
        SplitAround(parts[0], sep, rest);
      }
      assert Split(parts[0], sep) == [parts[0]] by {
        SplitWithout(parts[0], sep);
      }
      assert Split(rest, sep) == parts[1..] by {
        SplitJoin(parts[1..], sep);
      }
      assert [parts[0]] + parts[1..] == parts;
    }
  }

  /** Joining the pieces of a split gives back the string, for every string. */
  lemma {:induction false} JoinSplit(s: string, sep: char)
    ensures Join(Split(s, sep), sep) == s
    decreases |s|
  {
    if sep in s {
      var i := FirstIndex(s, sep);
      var rest := Split(s[i + 1..], sep);
      JoinSplit(s[i + 1..], sep);
      assert ([s[..i]] + rest)[1..] == rest;
      assert s == s[..i] + [sep] + s[i + 1..];
    }
  }

  /** A character absent from every part, and different from the separator,
      is absent from the join. */
  lemma {:induction false} JoinAvoids(parts: seq<string>, sep: char, c: char)
    requires c != sep
    requires forall i :: 0 <= i < |parts| ==> c !in parts[i]
    ensures c !in Join(parts, sep)
  {
    if |parts| > 1 {
      JoinAvoids(parts[1..], sep, c);
    }
  }

  predicate IsDigit(c: char) {
    '0' <= c <= '9'
  }

  predicate AllDigits(s: string) {
    forall i :: 0 <= i < |s| ==> IsDigit(s[i])
  }

  function Digit(d: nat): (c: char)
    requires d < 10
    ensures IsDigit(c)
  {
    (48 + d) as char
  }

  function DigitValue(c: char): (d: nat)
    requires IsDigit(c)
    ensures d < 10
  {
    c as int - 48
  }

  /** The decimal digits of `n`, most significant first, with no leading zero. */
  function Decimal(n: nat): (s: string)
    ensures |s| >= 1 && AllDigits(s)
    ensures s[0] == '0' ==> s == "0"
    decreases n
  {
    if n < 10 then [Digit(n)] else Decimal(n / 10) + [Digit(n % 10)]
  }

  /** The value of a string of decimal digits. */
  function ParseDecimal(s: string): nat
    requires AllDigits(s)
  {
    if |s| == 0 then 0 else 10 * ParseDecimal(s[..|s| - 1]) + DigitValue(s[|s| - 1])
  }

  /** Reading back a decimal rendering gives the number. */
  lemma {:induction false} ParseDecimalOfDecimal(n: nat)
    ensures ParseDecimal(Decimal(n)) == n
    decreases n
  {
    var s := Decimal(n);
    if n >= 10 {
      ParseDecimalOfDecimal(n / 10);
      assert s[..|s| - 1] == Decimal(n / 10);
    }
  }
}

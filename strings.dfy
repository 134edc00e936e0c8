/** String helpers with Python's semantics: `sep.join`, `str.split`, `str(int)`,
    `format(i, "02d")` and `str.replace`. */
module Strings {

  /** `sep.join(parts)`. */
  function Join(sep: string, parts: seq<string>): string
  {
    if |parts| == 0 then ""
    else if |parts| == 1 then parts[0]
    else parts[0] + sep + Join(sep, parts[1..])
  }

  /** `s.split(c)` for a one-character separator: always at least one part. */
  function Split(s: string, c: char): (parts: seq<string>)
    ensures |parts| >= 1
  {
    if |s| == 0 then [""]
    else
      var tail := Split(s[1..], c);
      if s[0] == c then [""] + tail
      else [[s[0]] + tail[0]] + tail[1..]
  }

  lemma {:induction false} SplitNoSeparator(s: string, c: char)
    requires c !in s
    ensures Split(s, c) == [s]
  {
    if |s| > 0 {
      assert c !in s[1..];
      SplitNoSeparator(s[1..], c);
      assert [s[0]] + s[1..] == s;
    }
  }

  /** Splitting a string that starts with `x`: one step of `Split`. */
  lemma SplitCons(x: char, t: string, c: char)
    ensures x == c ==> Split([x] + t, c) == [""] + Split(t, c)
    ensures x != c ==> Split([x] + t, c) == [[x] + Split(t, c)[0]] + Split(t, c)[1..]
  {
    assert ([x] + t)[0] == x && ([x] + t)[1..] == t;
  }

  lemma Assoc<T>(p: seq<T>, q: seq<T>, r: seq<T>)
    ensures p + (q + r) == (p + q) + r
  {
  }

  /** Splitting distributes over one separator occurrence. */
  lemma {:induction false} SplitAround(a: string, b: string, c: char)
    ensures Split(a + [c] + b, c) == Split(a, c) + Split(b, c)
  {
    Assoc(a, [c], b);
    if |a| == 0 {
      assert a + ([c] + b) == [c] + b;
      SplitCons(c, b, c);
    } else {
      var x, rest := a[0], a[1..];
      assert a == [x] + rest;
      var r := rest + ([c] + b);
      Assoc([x], rest, [c] + b);
      Assoc(rest, [c], b);
      SplitAround(rest, b, c);
      SplitCons(x, rest, c);
      SplitCons(x, r, c);
      var head := Split(rest, c);
      var tail := Split(b, c);
      if x == c {
        Assoc([""], head, tail);
      } else {
        assert (head + tail)[0] == head[0];
        assert (head + tail)[1..] == head[1..] + tail;
        Assoc([[x] + head[0]], head[1..], tail);
      }
    }
  }

  /** `sep.join(s.split(sep)) == s`. */
  lemma {:induction false} JoinSplit(s: string, c: char)
    ensures Join([c], Split(s, c)) == s
  {
    if |s| > 0 {
      JoinSplit(s[1..], c);
      var tail := Split(s[1..], c);
      if s[0] == c {
        assert Split(s, c) == [""] + tail;
        assert (["" ] + tail)[1..] == tail;
        assert s == [c] + s[1..];
      } else {
        var parts := [[s[0]] + tail[0]] + tail[1..];
        assert Split(s, c) == parts;
        if |tail| == 1 {
          assert s == [s[0]] + s[1..];
        } else {
          assert parts[1..] == tail[1..];
          assert Join([c], tail) == tail[0] + [c] + Join([c], tail[1..]);
          assert s == [s[0]] + s[1..];
        }
      }
    }
  }

  /** No part of a split holds the separator. */
  lemma {:induction false} SplitParts(s: string, c: char)
    ensures forall p <- Split(s, c) :: c !in p
  {
    if |s| > 0 {
      SplitParts(s[1..], c);
      var tail := Split(s[1..], c);
      assert tail[0] in tail;
      forall p <- tail[1..] ensures p in tail { }
    }
  }

  /** `sep.join(parts).split(sep) == parts` when no part holds the separator. */
  lemma {:induction false} SplitJoin(parts: seq<string>, c: char)
    requires |parts| > 0 && forall p <- parts :: c !in p
    ensures Split(Join([c], parts), c) == parts
  {
    if |parts| == 1 {
      SplitNoSeparator(parts[0], c);
    } else {
      forall p <- parts[1..] ensures c !in p {
        assert p in parts;
      }
      SplitJoin(parts[1..], c);
      assert parts[0] in parts;
      SplitAround(parts[0], Join([c], parts[1..]), c);
      SplitNoSeparator(parts[0], c);
      assert parts == [parts[0]] + parts[1..];
    }
  }

  /** Joining one more part adds the separator and the part at the end. */
  lemma {:induction false} JoinSnoc(sep: string, parts: seq<string>, last: string)
    requires |parts| > 0
    ensures Join(sep, parts + [last]) == Join(sep, parts) + sep + last
  {
    if |parts| > 1 {
      JoinSnoc(sep, parts[1..], last);
      assert (parts + [last])[1..] == parts[1..] + [last];
    }
  }

  function DigitChar(d: nat): (ch: char)
    requires d < 10
    ensures '0' <= ch <= '9' && DigitValue(ch) == d
  {
    ('0' as int + d) as char
  }

  function DigitValue(ch: char): nat
  {
    if '0' <= ch <= '9' then (ch - '0') as nat else 0
  }

  predicate IsDigits(s: string)
  {
    forall i :: 0 <= i < |s| ==> '0' <= s[i] <= '9'
  }

  /** `str(n)` for a natural number: its decimal digits, most significant first. */
  function NatToString(n: nat): (r: string)
    ensures |r| >= 1 && IsDigits(r)
    ensures n < 10 <==> |r| == 1
  {
    if n < 10 then [DigitChar(n)] else NatToString(n / 10) + [DigitChar(n % 10)]
  }

  /** `str(i)` for any integer. */
  function IntToString(i: int): string
  {
    if i < 0 then "-" + NatToString(-i) else NatToString(i)
  }

  /** `int(s)` for a string of decimal digits. */
  function ParseNat(s: string): nat
  {
    if |s| == 0 then 0 else 10 * ParseNat(s[..|s| - 1]) + DigitValue(s[|s| - 1])
  }

  lemma {:induction false} ParseNatToString(n: nat)
    ensures ParseNat(NatToString(n)) == n
  {
    if n >= 10 {
      ParseNatToString(n / 10);
      var s := NatToString(n);
      assert s == NatToString(n / 10) + [DigitChar(n % 10)];
      assert s[..|s| - 1] == NatToString(n / 10);
      assert ParseNat(s) == 10 * (n / 10) + n % 10;
    }
  }

  /** A leading zero does not change the value. */
  lemma {:induction false} ParseNatLeadingZero(s: string)
    ensures ParseNat("0" + s) == ParseNat(s)
  {
    if |s| > 0 {
      assert ("0" + s)[..|"0" + s| - 1] == "0" + s[..|s| - 1];
      ParseNatLeadingZero(s[..|s| - 1]);
    }
  }

  /** `format(i, "02d")`: zero-padded to at least two characters; the sign counts
      towards the width. */
  function Pad2(i: int): string
  {
    if i < 0 then "-" + NatToString(-i)
    else if i < 10 then "0" + NatToString(i)
    else NatToString(i)
  }

  /** `s.replace(target, replacement)` for a one-character `target`. */
  function ReplaceChar(s: string, target: char, replacement: string): string
  {
    if |s| == 0 then ""
    else (if s[0] == target then replacement else [s[0]]) + ReplaceChar(s[1..], target, replacement)
  }

  lemma {:induction false} ReplaceAppend(a: string, b: string, target: char, replacement: string)
    ensures ReplaceChar(a + b, target, replacement) == ReplaceChar(a, target, replacement) + ReplaceChar(b, target, replacement)
  {
    if |a| > 0 {
      assert (a + b)[1..] == a[1..] + b;
      ReplaceAppend(a[1..], b, target, replacement);
    } else {
      assert a + b == b;
    }
  }

  lemma {:induction false} ReplaceAbsent(s: string, target: char, replacement: string)
    requires target !in s
    ensures ReplaceChar(s, target, replacement) == s
  {
    if |s| > 0 {
      assert target !in s[1..];
      ReplaceAbsent(s[1..], target, replacement);
      assert s == [s[0]] + s[1..];
    }
  }

  /** Replacing in a joined string replaces in the separator and in every part. */
  lemma {:induction false} ReplaceJoin(sep: string, parts: seq<string>, target: char, replacement: string)
    ensures ReplaceChar(Join(sep, parts), target, replacement) ==
      Join(ReplaceChar(sep, target, replacement), seq(|parts|, i requires 0 <= i < |parts| => ReplaceChar(parts[i], target, replacement)))
  {
    var mapped := seq(|parts|, i requires 0 <= i < |parts| => ReplaceChar(parts[i], target, replacement));
    if |parts| > 1 {
      ReplaceJoin(sep, parts[1..], target, replacement);
      assert mapped[1..] == seq(|parts[1..]|, i requires 0 <= i < |parts[1..]| => ReplaceChar(parts[1..][i], target, replacement));
      ReplaceAppend(parts[0] + sep, Join(sep, parts[1..]), target, replacement);
      ReplaceAppend(parts[0], sep, target, replacement);
    }
  }
}

/** The Python string operations the core uses, on `seq<char>`: `lower`, `find`,
    `split`, `replace`, `rstrip`, `strip`, `str(int)` and `int(str)`. Case is folded for
    ASCII letters only; whitespace is Python's full set. */
module TextOps {
  import opened Common

  /** `str.lower` on ASCII letters. */
  function LowerChar(c: char): char {
    if 'A' <= c <= 'Z' then (c as int + 32) as char else c
  }

  function Lower(s: string): (t: string)
    ensures |t| == |s| && forall i :: 0 <= i < |s| ==> t[i] == LowerChar(s[i])
  {
    seq(|s|, i requires 0 <= i < |s| => LowerChar(s[i]))
  }

  /** `s.find(p) != -1`: `p` occurs in `s` (the empty string occurs everywhere). */
  predicate Occurs(p: string, s: string) {
    exists i :: 0 <= i <= |s| && OccursAt(p, s, i)
  }

  /** `p` occurs in `s` at index `i`. */
  predicate OccursAt(p: string, s: string, i: int) {
    0 <= i && i + |p| <= |s| && s[i..i + |p|] == p
  }

  /** The position of the first `c` in `s`, if any. */
  function IndexOf(s: string, c: char): (r: Option<nat>)
    ensures r.None? <==> c !in s
    ensures r.Some? ==> r.value < |s| && s[r.value] == c && c !in s[..r.value]
    decreases |s|
  {
    if s == [] then None
    else if s[0] == c then Some(0)
    else match IndexOf(s[1..], c)
      case None => None
      case Some(i) =>
        assert s[..i + 1] == [s[0]] + s[1..][..i];
        Some(i + 1)
  }

  /** `s.split(c)` for a one-character separator: the pieces between separators, so
      there is always one more piece than separators. */
  function Split(s: string, c: char): (parts: seq<string>)
    ensures |parts| >= 1
    ensures forall i :: 0 <= i < |parts| ==> c !in parts[i]
    decreases |s|
  {
    match IndexOf(s, c)
    case None => [s]
    case Some(i) => [s[..i]] + Split(s[i + 1..], c)
  }

  /** `c.join(parts)`. */
  function Join(parts: seq<string>, c: char): string
    decreases |parts|
  {
    if |parts| <= 1 then (if parts == [] then "" else parts[0])
    else parts[0] + [c] + Join(parts[1..], c)
  }

  /** `Split` cut at the first separator. */
  lemma SplitAt(s: string, c: char, i: nat)
    requires IndexOf(s, c) == Some(i)
    ensures Split(s, c) == [s[..i]] + Split(s[i + 1..], c)
  {
  }

  /** `Join` of a head and a non-empty tail. */
  lemma JoinCons(a: string, rest: seq<string>, c: char)
    requires |rest| >= 1
    ensures Join([a] + rest, c) == a + [c] + Join(rest, c)
  {
    assert ([a] + rest)[0] == a && ([a] + rest)[1..] == rest;
  }

  /** Splitting loses nothing: joining the pieces back gives the input. */
  lemma {:induction false} JoinSplit(s: string, c: char)
    ensures Join(Split(s, c), c) == s
    decreases |s|
  {
    var r := IndexOf(s, c);
    if r.None? {
      assert Split(s, c) == [s];
    } else {
      var i := r.value;
      var tail := s[i + 1..];
      SplitAt(s, c, i);
      JoinSplit(tail, c);
      JoinCons(s[..i], Split(tail, c), c);
      assert s == s[..i] + [c] + tail;
    }
  }

  /** The first separator of `a + [c] + b`, when `a` has none, is the one after `a`. */
  lemma {:induction false} IndexOfAfter(a: string, c: char, b: string)
    requires c !in a
    ensures IndexOf(a + [c] + b, c) == Some(|a|)
    decreases |a|
  {
    if a != [] {
      assert (a + [c] + b)[1..] == a[1..] + [c] + b;
      IndexOfAfter(a[1..], c, b);
    }
  }

  /** Joining pieces without the separator and splitting again gives the pieces back. */
  lemma {:induction false} SplitJoin(parts: seq<string>, c: char)
    requires |parts| >= 1
    requires forall i :: 0 <= i < |parts| ==> c !in parts[i]
    ensures Split(Join(parts, c), c) == parts
    decreases |parts|
  {
    if |parts| == 1 {
      assert Join(parts, c) == parts[0];
    } else {
      var head, tail := parts[0], parts[1..];
      assert parts == [head] + tail;
      var rest := Join(tail, c);
      var s := head + [c] + rest;
      JoinCons(head, tail, c);
      IndexOfAfter(head, c, rest);
      assert s[..|head|] == head && s[|head| + 1..] == rest;
      SplitAt(s, c, |head|);
      assert forall i :: 0 <= i < |tail| ==> c !in tail[i] by {
        forall i | 0 <= i < |tail| ensures c !in tail[i] {
          assert tail[i] == parts[i + 1];
        }
      }
      SplitJoin(tail, c);
    }
  }

  /** Splitting a text without the separator gives the text itself. */
  lemma SplitWithout(s: string, c: char)
    requires c !in s
    ensures Split(s, c) == [s]
  {
  }

  /** `s.replace(p, r)`: the non-overlapping occurrences of `p`, left to right. */
  function Replace(s: string, p: string, r: string): string
    requires |p| > 0
    decreases |s|
  {
    if |s| < |p| then s
    else if s[..|p|] == p then r + Replace(s[|p|..], p, r)
    else [s[0]] + Replace(s[1..], p, r)
  }

  /** Replacing a text that does not occur changes nothing. */
  lemma {:induction false} ReplaceAbsent(s: string, p: string, r: string)
    requires |p| > 0 && !Occurs(p, s)
    ensures Replace(s, p, r) == s
    decreases |s|
  {
    if |s| >= |p| {
      assert s[0..0 + |p|] == s[..|p|];
      assert !OccursAt(p, s, 0);
      assert !Occurs(p, s[1..]) by {
        forall i | 0 <= i <= |s[1..]|
          ensures !OccursAt(p, s[1..], i)
        {
          if i + |p| <= |s[1..]| {
            assert s[1..][i..i + |p|] == s[i + 1..i + 1 + |p|];
            assert !OccursAt(p, s, i + 1);
          }
        }
      }
      ReplaceAbsent(s[1..], p, r);
    }
  }

  /** A text that starts with `p` (and has no other occurrence after it) loses exactly
      that prefix. */
  lemma ReplacePrefix(p: string, rest: string, r: string)
    requires |p| > 0 && !Occurs(p, rest)
    ensures Replace(p + rest, p, r) == r + rest
  {
    assert (p + rest)[..|p|] == p && (p + rest)[|p|..] == rest;
    ReplaceAbsent(rest, p, r);
  }

  /** `s.rstrip(c)` for one character. */
  function RStrip(s: string, c: char): (t: string)
    ensures |t| <= |s| && t == s[..|t|]
    ensures t == [] || t[|t| - 1] != c
    ensures forall i :: |t| <= i < |s| ==> s[i] == c
    decreases |s|
  {
    if s != [] && s[|s| - 1] == c then RStrip(s[..|s| - 1], c) else s
  }

  /** The whitespace `str.strip`, `str.isspace` and `int` recognise: the ASCII controls
      tab to carriage return and the four separators 0x1C to 0x1F, space, and the Unicode
      spaces and line or paragraph separators. */
  predicate IsSpace(c: char) {
    ('\t' <= c <= '\r') || ('\U{001C}' <= c <= ' ') || c == '\U{0085}' || c == '\U{00A0}' ||
    c == '\U{1680}' || ('\U{2000}' <= c <= '\U{200A}') || c == '\U{2028}' || c == '\U{2029}' ||
    c == '\U{202F}' || c == '\U{205F}' || c == '\U{3000}'
  }

  /** `s.strip()`. */
  function Strip(s: string): (t: string)
    ensures |t| <= |s|
    ensures t != [] ==> !IsSpace(t[0]) && !IsSpace(t[|t| - 1])
    decreases |s|
  {
    if s == [] then s
    else if IsSpace(s[0]) then Strip(s[1..])
    else if IsSpace(s[|s| - 1]) then Strip(s[..|s| - 1])
    else s
  }

  /** `s.isspace() or not s`, the test of a blank form entry: `s.strip()` is empty. */
  predicate Blank(s: string) {
    forall i :: 0 <= i < |s| ==> IsSpace(s[i])
  }

  lemma {:induction false} StripEmptyIffBlank(s: string)
    ensures Strip(s) == [] <==> Blank(s)
    decreases |s|
  {
    if s != [] {
      if IsSpace(s[0]) {
        StripEmptyIffBlank(s[1..]);
        assert Blank(s) <==> Blank(s[1..]) by {
          assert forall i :: 1 <= i < |s| ==> s[i] == s[1..][i - 1];
        }
      } else if IsSpace(s[|s| - 1]) {
        StripEmptyIffBlank(s[..|s| - 1]);
        assert forall i :: 0 <= i < |s| - 1 ==> s[i] == s[..|s| - 1][i];
      }
    }
  }

  // ---------------------------------------------------------------------------
  // Decimal numbers

  function DigitChar(d: nat): char
    requires d < 10
  {
    "0123456789"[d]
  }

  predicate IsDigit(c: char) {
    '0' <= c <= '9'
  }

  function DigitValue(c: char): nat
    requires IsDigit(c)
  {
    c as int - '0' as int
  }

  /** The decimal digits of a natural number, without leading zeros. */
  function Digits(n: nat): (s: string)
    ensures |s| >= 1 && forall i :: 0 <= i < |s| ==> IsDigit(s[i])
    decreases n
  {
    if n < 10 then [DigitChar(n)] else Digits(n / 10) + [DigitChar(n % 10)]
  }

  /** `str(n)` for an integer. */
  function Dec(n: int): (s: string)
    ensures |s| >= 1
  {
    if n < 0 then "-" + Digits(-n) else Digits(n)
  }

  /** The value of a non-empty run of digits. */
  function DigitsValue(s: string): nat
    requires forall i :: 0 <= i < |s| ==> IsDigit(s[i])
    decreases |s|
  {
    if s == [] then 0 else DigitsValue(s[..|s| - 1]) * 10 + DigitValue(s[|s| - 1])
  }

  lemma {:induction false} DigitsRoundTrip(n: nat)
    ensures DigitsValue(Digits(n)) == n
    decreases n
  {
    if n >= 10 {
      DigitsRoundTrip(n / 10);
      var s := Digits(n / 10) + [DigitChar(n % 10)];
      assert s[..|s| - 1] == Digits(n / 10);
    }
  }

  /** `int(s)` for a string: surrounding whitespace, an optional sign, then at least one
      decimal digit; anything else raises ValueError. */
  function ParseInt(s: string): (r: Result<int>)
    ensures r.Err? ==> r.error.ValueError?
  {
    var t := Strip(s);
    var neg := t != [] && t[0] == '-';
    var body := if t != [] && (t[0] == '-' || t[0] == '+') then t[1..] else t;
    if body != [] && forall i :: 0 <= i < |body| ==> IsDigit(body[i]) then
      var v: int := DigitsValue(body);
      Ok(if neg then -v else v)
    else Err(ValueError("invalid literal for int()"))
  }

  /** `int` strips the ASCII separators and Unicode spaces like the usual whitespace:
      `int(" 5\x1c")` and `int("\u3000-7\xa0")` are 5 and -7. */
  lemma ParseIntStripsAnySpace()
    ensures ParseInt(" 5\U{001C}") == Ok(5)
    ensures ParseInt("\U{3000}-7\U{00A0}") == Ok(-7)
  {
    assert Strip(" 5\U{001C}") == "5" by {
      assert " 5\U{001C}"[1..] == "5\U{001C}" && "5\U{001C}"[..1] == "5";
    }
    assert DigitsValue("5") == 5;
    assert Strip("\U{3000}-7\U{00A0}") == "-7" by {
      assert "\U{3000}-7\U{00A0}"[1..] == "-7\U{00A0}" && "-7\U{00A0}"[..2] == "-7";
    }
    assert "-7"[1..] == "7" && DigitsValue("7") == 7;
  }

  /** A text that starts and ends with a digit or a minus sign is its own `strip()`. */
  lemma UnspacedEnds(s: string)
    requires s != []
    requires s[0] == '-' || IsDigit(s[0])
    requires IsDigit(s[|s| - 1])
    ensures Strip(s) == s
  {
  }

  /** `int(str(n)) == n`. */
  lemma ParseDec(n: int)
    ensures ParseInt(Dec(n)) == Ok(n)
  {
    var s := Dec(n);
    var d := if n < 0 then Digits(-n) else Digits(n);
    DigitsRoundTrip(if n < 0 then -n else n);
    assert IsDigit(s[|s| - 1]) && (s[0] == '-' || IsDigit(s[0]));
    UnspacedEnds(s);
    if n < 0 {
      assert s[1..] == d;
    }
  }
}

/** The string operations of Python's `str` that the pipeline relies on:
    lower-casing, stripping, substring tests, `split`/`join`/`replace`,
    counting, decimal rendering and ordering. Characters are Unicode scalar
    values; case mapping and whitespace are those of ASCII. */
module Text {

  function LowerChar(c: char): char {
    if 'A' <= c <= 'Z' then (c as int + 32) as char else c
  }

  /** `s.lower()` (ASCII letters only) */
  function Lower(s: string): (r: string)
    ensures |r| == |s|
    ensures forall i :: 0 <= i < |s| ==> r[i] == LowerChar(s[i])
  {
    if s == [] then [] else [LowerChar(s[0])] + Lower(s[1..])
  }

  /** The ASCII characters for which `str.isspace()` holds. */
  predicate IsSpace(c: char) {
    c == ' ' || 9 <= c as int <= 13 || 28 <= c as int <= 31
  }

  function TrimLeft(s: string, drop: char -> bool): (r: string)
    ensures |r| <= |s| && r == s[|s| - |r|..]
    ensures r != [] ==> !drop(r[0])
  {
    if s != [] && drop(s[0]) then TrimLeft(s[1..], drop) else s
  }

  function TrimRight(s: string, drop: char -> bool): (r: string)
    ensures |r| <= |s| && r == s[..|r|]
    ensures r != [] ==> !drop(r[|r| - 1])
  {
    if s != [] && drop(s[|s| - 1]) then TrimRight(s[..|s| - 1], drop) else s
  }

  /** `s.strip()` */
  function Strip(s: string): string {
    TrimRight(TrimLeft(s, IsSpace), IsSpace)
  }

  /** `s.strip(c)` for a one-character argument */
  function StripChar(s: string, c: char): (r: string)
    ensures r != [] ==> r[0] != c && r[|r| - 1] != c
  {
    var left := TrimLeft(s, x => x == c);
    var r := TrimRight(left, x => x == c);
    assert r != [] ==> r[0] == left[0];
    r
  }

  predicate StartsWith(s: string, prefix: string) {
    prefix <= s
  }

  predicate EndsWith(s: string, suffix: string) {
    |suffix| <= |s| && s[|s| - |suffix|..] == suffix
  }

  /** A string built as prefix, middle, suffix starts and ends with those. */
  lemma Affixes(prefix: string, middle: string, suffix: string)
    ensures StartsWith(prefix + middle + suffix, prefix) && EndsWith(prefix + middle + suffix, suffix)
    ensures middle != [] ==> (prefix + middle + suffix)[|prefix|] == middle[0]
  {
    var s := prefix + middle + suffix;
    if middle != [] {
      assert s[|prefix|] == (prefix + middle)[|prefix|];
    }
    assert s[..|prefix|] == prefix;
    assert s[|s| - |suffix|..] == suffix;
  }

  lemma EndsWithAppend(a: string, b: string, suffix: string)
    requires EndsWith(b, suffix)
    ensures EndsWith(a + b, suffix)
  {
    assert (a + b)[|a + b| - |suffix|..] == b[|b| - |suffix|..];
  }

  lemma EndsWithTrans(s: string, t: string, suffix: string)
    requires EndsWith(s, t) && EndsWith(t, suffix)
    ensures EndsWith(s, suffix)
  {
    assert s[|s| - |suffix|..] == s[|s| - |t|..][|t| - |suffix|..];
  }

  /** Text that neither starts nor ends with whitespace is its own `strip()`. */
  lemma StripPlain(s: string)
    requires s != [] && !IsSpace(s[0]) && !IsSpace(s[|s| - 1])
    ensures Strip(s) == s
  {
    assert TrimLeft(s, IsSpace) == s;
  }

  /** `sub in s` */
  predicate Contains(s: string, sub: string)
    decreases |s|
  {
    |sub| <= |s| && (s[..|sub|] == sub || Contains(s[1..], sub))
  }

  lemma {:induction false} ContainsAt(s: string, sub: string, i: nat)
    requires i + |sub| <= |s| && s[i..i + |sub|] == sub
    ensures Contains(s, sub)
    decreases i
  {
    if i > 0 {
      assert s[1..][i - 1..i - 1 + |sub|] == s[i..i + |sub|];
      ContainsAt(s[1..], sub, i - 1);
    }
  }

  lemma {:induction false} ContainsPrefixOf(s: string, t: string, sub: string)
    requires s <= t && Contains(s, sub)
    ensures Contains(t, sub)
    decreases |s|
  {
    if s[..|sub|] != sub {
      ContainsPrefixOf(s[1..], t[1..], sub);
    }
  }

  /** `s.split(sep)` for a non-empty separator: the pieces between the
      occurrences of `sep`, found left to right without overlap. */
  function Split(s: string, sep: string): (r: seq<string>)
    requires |sep| > 0
    ensures |r| >= 1
    decreases |s|
  {
    if |s| < |sep| then [s]
    else if s[..|sep|] == sep then [[]] + Split(s[|sep|..], sep)
    else
      var rest := Split(s[1..], sep);
      [[s[0]] + rest[0]] + rest[1..]
  }

  /** `sep.join(parts)` */
  function Join(parts: seq<string>, sep: string): string {
    if parts == [] then []
    else if |parts| == 1 then parts[0]
    else parts[0] + sep + Join(parts[1..], sep)
  }

  /** `s.replace(target, replacement)` for a non-empty `target`, which Python defines as
      `replacement.join(s.split(target))`. */
  function Replace(s: string, target: string, replacement: string): string
    requires |target| > 0
  {
    Join(Split(s, target), replacement)
  }

  lemma JoinCons(x: string, rest: seq<string>, sep: string)
    requires |rest| >= 1
    ensures Join([x] + rest, sep) == x + sep + Join(rest, sep)
  {
    assert ([x] + rest)[1..] == rest;
  }

  lemma JoinExtendHead(c: char, rest: seq<string>, sep: string)
    requires |rest| >= 1
    ensures Join([[c] + rest[0]] + rest[1..], sep) == [c] + Join(rest, sep)
  {
    if |rest| > 1 {
      JoinCons([c] + rest[0], rest[1..], sep);
      JoinCons(rest[0], rest[1..], sep);
      assert rest == [rest[0]] + rest[1..];
    }
  }

  /** Joining the pieces with the separator gives back the string. */
  lemma {:induction false} SplitJoin(s: string, sep: string)
    requires |sep| > 0
    ensures Join(Split(s, sep), sep) == s
    decreases |s|
  {
    if |s| < |sep| {
    } else if s[..|sep|] == sep {
      var tail := s[|sep|..];
      SplitJoin(tail, sep);
      assert s == sep + tail;
      SplitJoinAtSeparator(sep, tail);
    } else {
      SplitJoin(s[1..], sep);
      SplitJoinPastHead(s, sep);
    }
  }

  lemma SplitJoinAtSeparator(sep: string, tail: string)
    requires 0 < |sep|
    requires Join(Split(tail, sep), sep) == tail
    ensures Join(Split(sep + tail, sep), sep) == sep + tail
  {
    var s := sep + tail;
    assert s[..|sep|] == sep && s[|sep|..] == tail;
    var rest := Split(tail, sep);
    assert Split(s, sep) == [[]] + rest;
    JoinCons([], rest, sep);
    assert [] + sep == sep;
  }

  lemma SplitJoinPastHead(s: string, sep: string)
    requires 0 < |sep| <= |s| && s[..|sep|] != sep
    requires Join(Split(s[1..], sep), sep) == s[1..]
    ensures Join(Split(s, sep), sep) == s
  {
    var tail := s[1..];
    JoinExtendHead(s[0], Split(tail, sep), sep);
    assert s == [s[0]] + tail;
  }

  /** Every `c` in `s` becomes `d`. */
  function MapChar(s: string, c: char, d: char): (r: string)
    ensures |r| == |s|
    ensures forall i :: 0 <= i < |s| ==> r[i] == if s[i] == c then d else s[i]
  {
    if s == [] then [] else [if s[0] == c then d else s[0]] + MapChar(s[1..], c, d)
  }

  /** `s.replace(c, d)` for single characters swaps characters one for one. */
  lemma {:induction false} ReplaceChar(s: string, c: char, d: char)
    ensures Replace(s, [c], [d]) == MapChar(s, c, d)
    decreases |s|
  {
    if |s| >= 1 {
      var tail := s[1..];
      ReplaceChar(tail, c, d);
      if s[..1] == [c] {
        JoinCons([], Split(tail, [c]), [d]);
      } else {
        JoinExtendHead(s[0], Split(tail, [c]), [d]);
      }
    }
  }

  lemma {:induction false} SplitFirstIsPrefix(s: string, sep: string)
    requires |sep| > 0
    ensures Split(s, sep)[0] <= s
    decreases |s|
  {
    if |s| >= |sep| && s[..|sep|] != sep {
      SplitFirstIsPrefix(s[1..], sep);
    }
  }

  /** No piece of a split contains the separator. */
  lemma {:induction false} SplitPiecesFree(s: string, sep: string)
    requires |sep| > 0
    ensures forall i :: 0 <= i < |Split(s, sep)| ==> !Contains(Split(s, sep)[i], sep)
    decreases |s|
  {
    if |s| < |sep| {
    } else if s[..|sep|] == sep {
      SplitPiecesFree(s[|sep|..], sep);
    } else {
      var rest := Split(s[1..], sep);
      SplitPiecesFree(s[1..], sep);
      SplitFirstIsPrefix(s[1..], sep);
      var first := [s[0]] + rest[0];
      assert first <= s;
      assert first[1..] == rest[0];
      assert |first| >= |sep| ==> first[..|sep|] == s[..|sep|];
    }
  }

  /** A string with no occurrence of the separator splits into itself alone. */
  lemma {:induction false} SplitAbsent(s: string, sep: string)
    requires |sep| > 0 && !Contains(s, sep)
    ensures Split(s, sep) == [s]
    decreases |s|
  {
    if |s| >= |sep| {
      assert s[..|sep|] != sep;
      SplitAbsent(s[1..], sep);
      assert [s[0]] + s[1..] == s;
    }
  }

  /** A one-character separator occurs only where its character does. */
  lemma {:induction false} ContainsChar(s: string, c: char)
    requires Contains(s, [c])
    ensures c in s
    decreases |s|
  {
    if s[..1] != [c] {
      ContainsChar(s[1..], c);
      var k :| 0 <= k < |s[1..]| && s[1..][k] == c;
      assert s[k + 1] == c;
    } else {
      assert s[0] == s[..1][0];
    }
  }

  /** An occurrence of `sub` puts its first character in `s`. */
  lemma {:induction false} ContainsHead(s: string, sub: string)
    requires |sub| > 0 && Contains(s, sub)
    ensures sub[0] in s
    decreases |s|
  {
    if s[..|sub|] == sub {
      assert s[0] == sub[0];
    } else {
      ContainsHead(s[1..], sub);
      var k :| 0 <= k < |s[1..]| && s[1..][k] == sub[0];
      assert s[k + 1] == sub[0];
    }
  }

  /** Replacing a target that does not occur changes nothing. */
  lemma ReplaceAbsent(s: string, target: string, replacement: string)
    requires |target| > 0 && !Contains(s, target)
    ensures Replace(s, target, replacement) == s
  {
    SplitAbsent(s, target);
  }

  /** A target whose first character occurs nowhere else splits the text in two. */
  lemma {:induction false} SplitAround(a: string, target: string, b: string)
    requires |target| > 0 && target[0] !in a && target[0] !in b
    ensures Split(a + target + b, target) == [a, b]
    decreases |a|
  {
    var whole := a + target + b;
    if a == [] {
      assert whole[..|target|] == target && whole[|target|..] == b;
      if Contains(b, target) {
        ContainsHead(b, target);
      }
      SplitAbsent(b, target);
    } else {
      assert whole[0] == a[0] && whole[..|target|][0] == whole[0];
      assert whole[1..] == a[1..] + target + b;
      SplitAround(a[1..], target, b);
      assert [a[0]] + a[1..] == a;
    }
  }

  /** One occurrence of the target is replaced where it stands. */
  lemma ReplaceOnce(a: string, target: string, b: string, replacement: string)
    requires |target| > 0 && target[0] !in a && target[0] !in b
    ensures Replace(a + target + b, target, replacement) == a + replacement + b
  {
    SplitAround(a, target, b);
    assert [a, b][1..] == [b];
    assert Replace(a + target + b, target, replacement) == Join([a, b], replacement);
    assert Join([a, b], replacement) == a + replacement + Join([b], replacement);
  }

  /** Splitting on a character gives one more piece than it has occurrences. */
  lemma {:induction false} SplitCount(s: string, c: char)
    ensures |Split(s, [c])| == Count(s, c) + 1
    decreases |s|
  {
    if |s| >= 1 {
      SplitCount(s[1..], c);
    }
  }

  /** The last piece of `s + c + t` split on `c`, when `t` has no `c`, is `t`. */
  lemma {:induction false} SplitLastPiece(s: string, c: char, t: string)
    requires c !in t
    ensures var parts := Split(s + [c] + t, [c]);
      |parts| >= 2 && parts[|parts| - 1] == t
    decreases |s|
  {
    var whole := s + [c] + t;
    if s == [] {
      assert whole[..1] == [c] && whole[1..] == t;
      if Contains(t, [c]) {
        ContainsChar(t, c);
      }
      SplitAbsent(t, [c]);
    } else {
      assert whole[1..] == s[1..] + [c] + t;
      SplitLastPiece(s[1..], c, t);
    }
  }

  /** Lower-casing works character by character. */
  lemma LowerAppend(a: string, b: string)
    ensures Lower(a + b) == Lower(a) + Lower(b)
  {
    var l, r := Lower(a + b), Lower(a) + Lower(b);
    forall i | 0 <= i < |a + b| ensures l[i] == r[i] {
      if i < |a| {
        assert (a + b)[i] == a[i];
      } else {
        assert (a + b)[i] == b[i - |a|];
      }
    }
  }

  /** Text without upper-case ASCII letters is its own lower case. */
  lemma LowerFixed(s: string)
    requires forall i :: 0 <= i < |s| ==> !('A' <= s[i] <= 'Z')
    ensures Lower(s) == s
  {
  }

  /** Lower-casing, character by character. */
  lemma LowerEq(s: string, t: string)
    requires |s| == |t| && forall i :: 0 <= i < |s| ==> LowerChar(s[i]) == t[i]
    ensures Lower(s) == t
  {
  }

  predicate IsDigit(c: char) {
    '0' <= c <= '9'
  }

  predicate AllDigits(s: string) {
    forall i :: 0 <= i < |s| ==> IsDigit(s[i])
  }

  /** The value of a run of decimal digits. */
  function DigitsValue(s: string): (r: nat)
    requires AllDigits(s)
  {
    if s == [] then 0 else 10 * DigitsValue(s[..|s| - 1]) + (s[|s| - 1] as int - '0' as int)
  }

  function Pow10(n: nat): (r: nat)
    ensures r >= 1
  {
    if n == 0 then 1 else 10 * Pow10(n - 1)
  }

  /** `%02d` for a number below 100 */
  function Two(n: nat): (r: string)
    requires n < 100
    ensures |r| == 2 && AllDigits(r) && DigitsValue(r) == n
  {
    var r := [Digit(n / 10), Digit(n % 10)];
    assert r[..1] == [Digit(n / 10)] && r[..1][..0] == [];
    assert DigitsValue(r[..1]) == n / 10;
    r
  }

  /** `%04d` for a number below 10000 */
  function Four(n: nat): (r: string)
    requires n < 10000
    ensures |r| == 4 && AllDigits(r) && DigitsValue(r) == n
  {
    var r := Two(n / 100) + Two(n % 100);
    DigitsAppend(Two(n / 100), Two(n % 100));
    r
  }

  /** `%06d` for a number below 1000000 */
  function Six(n: nat): (r: string)
    requires n < 1000000
    ensures |r| == 6 && AllDigits(r) && DigitsValue(r) == n
  {
    var r := Four(n / 100) + Two(n % 100);
    DigitsAppend(Four(n / 100), Two(n % 100));
    r
  }

  /** Appending two digits multiplies the value of the prefix by a hundred. */
  lemma DigitsAppend(a: string, b: string)
    requires AllDigits(a) && AllDigits(b) && |b| == 2
    ensures AllDigits(a + b) && DigitsValue(a + b) == 100 * DigitsValue(a) + DigitsValue(b)
  {
    var ab := a + b;
    var a0 := a + b[..1];
    assert ab[..|ab| - 1] == a0;
    assert a0[..|a0| - 1] == a;
    assert DigitsValue(a0) == 10 * DigitsValue(a) + (b[0] as int - '0' as int);
    assert b[..1][..0] == [];
    assert DigitsValue(b[..1]) == b[0] as int - '0' as int;
  }

  /** `s.count(c)` for one character */
  function Count(s: string, c: char): nat {
    if s == [] then 0 else (if s[0] == c then 1 else 0) + Count(s[1..], c)
  }

  function Digit(d: nat): char
    requires d < 10
  {
    ('0' as int + d) as char
  }

  /** `str(n)` for a natural number */
  function NatToString(n: nat): (r: string)
    ensures |r| >= 1
    ensures forall i :: 0 <= i < |r| ==> '0' <= r[i] <= '9'
  {
    if n < 10 then [Digit(n)] else NatToString(n / 10) + [Digit(n % 10)]
  }

  /** The digits of `str(n)` read back as `n`. */
  lemma {:induction false} NatToStringValue(n: nat)
    ensures AllDigits(NatToString(n)) && DigitsValue(NatToString(n)) == n
  {
    var r := NatToString(n);
    if n < 10 {
      assert r[..0] == [];
    } else {
      NatToStringValue(n / 10);
      assert r[..|r| - 1] == NatToString(n / 10);
    }
  }

  /** Different numbers have different decimal strings. */
  lemma NatToStringInjective(m: nat, n: nat)
    requires NatToString(m) == NatToString(n)
    ensures m == n
  {
    NatToStringValue(m);
    NatToStringValue(n);
  }

  /** `str(i)` for an integer */
  function IntToString(i: int): string {
    if i < 0 then "-" + NatToString(-i) else NatToString(i)
  }

  /** Left-pad with `fill` to at least `width` characters (`%02d` and the like). */
  function PadLeft(s: string, width: nat, fill: char): (r: string)
    ensures |r| == if |s| < width then width else |s|
    ensures EndsWith(r, s)
    decreases width - |s|
  {
    if |s| >= width then s else PadLeft([fill] + s, width, fill)
  }

  /** `s[:n]` */
  function Take(s: string, n: nat): (r: string)
    ensures |r| == if |s| < n then |s| else n
    ensures r <= s
  {
    if |s| <= n then s else s[..n]
  }

  /** Python's ordering of strings: lexicographic by code point. */
  predicate StrLe(a: string, b: string) {
    |a| == 0 || (|b| > 0 && (a[0] < b[0] || (a[0] == b[0] && StrLe(a[1..], b[1..]))))
  }

  lemma {:induction false} StrLeTotal(a: string, b: string)
    ensures StrLe(a, b) || StrLe(b, a)
  {
    if |a| > 0 && |b| > 0 && a[0] == b[0] {
      StrLeTotal(a[1..], b[1..]);
    }
  }

  lemma {:induction false} StrLeTrans(a: string, b: string, c: string)
    requires StrLe(a, b) && StrLe(b, c)
    ensures StrLe(a, c)
  {
    if |a| > 0 && a[0] == b[0] && b[0] == c[0] {
      StrLeTrans(a[1..], b[1..], c[1..]);
    }
  }

  lemma {:induction false} StrLeAntisym(a: string, b: string)
    requires StrLe(a, b) && StrLe(b, a)
    ensures a == b
  {
    if |a| > 0 {
      StrLeAntisym(a[1..], b[1..]);
      assert a == [a[0]] + a[1..] && b == [b[0]] + b[1..];
    }
  }
}

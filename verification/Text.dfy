/**
 The byte-string operations the repository takes from its language's library.
 A Go string is a sequence of bytes; here it is a `string` with one `char` per
 byte, so a whitespace rune outside ASCII is the two or three bytes of its
 UTF-8 form.
 */
module Text {

  datatype Option<+T> = None | Some(value: T)

  datatype Result<+T> = Ok(value: T) | Err

  // ---------- whitespace ----------

  /** The byte at index `i`, as a number. */
  function At(s: string, i: nat): int
    requires i < |s|
  {
    s[i] as int
  }

  /** The width in bytes of the whitespace rune that starts at `i`; 0 when none does. */
  function SpaceWidth(s: string, i: nat): (w: nat)
    requires i <= |s|
    ensures i + w <= |s|
  {
    if i < |s| && (9 <= At(s, i) <= 13 || At(s, i) == 32) then 1
    else if i + 1 < |s| && At(s, i) == 0xC2 && (At(s, i + 1) == 0x85 || At(s, i + 1) == 0xA0) then 2
    else if i + 2 < |s| && IsWideSpace(At(s, i), At(s, i + 1), At(s, i + 2)) then 3
    else 0
  }

  predicate IsWideSpace(a: int, b: int, c: int) {
    || (a == 0xE1 && b == 0x9A && c == 0x80)
    || (a == 0xE2 && b == 0x80 && (0x80 <= c <= 0x8A || c == 0xA8 || c == 0xA9 || c == 0xAF))
    || (a == 0xE2 && b == 0x81 && c == 0x9F)
    || (a == 0xE3 && b == 0x80 && c == 0x80)
  }

  /** The width in bytes of the whitespace rune that ends the string; 0 when none does. */
  function TrailingWidth(s: string): (w: nat)
    ensures w <= |s|
  {
    if |s| >= 1 && SpaceWidth(s, |s| - 1) == 1 then 1
    else if |s| >= 2 && SpaceWidth(s, |s| - 2) == 2 then 2
    else if |s| >= 3 && SpaceWidth(s, |s| - 3) == 3 then 3
    else 0
  }

  function TrimLeft(s: string): (r: string)
    ensures SpaceWidth(r, 0) == 0
    ensures |r| <= |s|
  {
    var w := SpaceWidth(s, 0);
    if w == 0 then s else TrimLeft(s[w..])
  }

  function TrimRight(s: string): (r: string)
    ensures TrailingWidth(r) == 0
    ensures r <= s
  {
    var w := TrailingWidth(s);
    if w == 0 then s else TrimRight(s[..|s| - w])
  }

  function TrimSpace(s: string): string {
    TrimRight(TrimLeft(s))
  }

  /** The bytes of a code point below 2^16 (section 3 of RFC 3629). */
  function Utf8(rune: nat): string
    requires rune < 0x1_0000
  {
    if rune < 0x80 then [rune as char]
    else if rune < 0x800 then [(0xC0 + rune / 64) as char, (0x80 + rune % 64) as char]
    else [(0xE0 + rune / 4096) as char, (0x80 + rune / 64 % 64) as char, (0x80 + rune % 64) as char]
  }

  /** The code points with Unicode's White_Space property. */
  predicate WhiteSpace(rune: nat) {
    || 0x09 <= rune <= 0x0D || rune == 0x20 || rune == 0x85 || rune == 0xA0 || rune == 0x1680
    || 0x2000 <= rune <= 0x200A || rune == 0x2028 || rune == 0x2029 || rune == 0x202F || rune == 0x205F
    || rune == 0x3000
  }

  /** The runes taken for whitespace are those, and no others. */
  lemma SpacesAreWhite(rune: nat)
    requires rune < 0x1_0000
    ensures SpaceWidth(Utf8(rune), 0) == if WhiteSpace(rune) then |Utf8(rune)| else 0
  {
    if rune >= 0x800 {
      WideSpace(rune, 0xE0 + rune / 4096, 0x80 + rune / 64 % 64, 0x80 + rune % 64);
    }
  }

  lemma WideSpace(rune: nat, a: int, b: int, c: int)
    requires 0x800 <= rune < 0x1_0000
    requires a == 0xE0 + rune / 4096 && b == 0x80 + rune / 64 % 64 && c == 0x80 + rune % 64
    ensures IsWideSpace(a, b, c) <==> WhiteSpace(rune)
  {
    assert rune == (a - 0xE0) * 4096 + (b - 0x80) * 64 + (c - 0x80);
    assert 0x80 <= b < 0xC0 && 0x80 <= c < 0xC0;
  }

  /** Nothing but one whitespace rune. */
  predicate IsSpaceRune(r: string) {
    r != "" && SpaceWidth(r, 0) == |r|
  }

  /** Pieces put together with `s` at one end. */
  function After(pieces: seq<string>, s: string): string {
    if pieces == [] then s else pieces[0] + After(pieces[1..], s)
  }

  function Before(s: string, pieces: seq<string>): string {
    if pieces == [] then s else Before(s, pieces[..|pieces| - 1]) + pieces[|pieces| - 1]
  }

  lemma FirstRune(s: string) returns (first: string, rest: string)
    requires SpaceWidth(s, 0) > 0
    ensures IsSpaceRune(first) && s == first + rest && |rest| < |s| && TrimLeft(s) == TrimLeft(rest)
  {
    var w := SpaceWidth(s, 0);
    first, rest := s[..w], s[w..];
    assert forall k | 0 <= k < w :: At(first, k) == At(s, k);
  }

  lemma LastRune(s: string) returns (rest: string, last: string)
    requires TrailingWidth(s) > 0
    ensures IsSpaceRune(last) && s == rest + last && |rest| < |s| && TrimRight(s) == TrimRight(rest)
  {
    var w := TrailingWidth(s);
    rest, last := s[..|s| - w], s[|s| - w..];
    assert forall k | 0 <= k < w :: At(last, k) == At(s, |s| - w + k);
  }

  lemma {:induction false} LeftRunes(s: string) returns (runes: seq<string>)
    ensures (forall r | r in runes :: IsSpaceRune(r)) && s == After(runes, TrimLeft(s))
    decreases |s|
  {
    if SpaceWidth(s, 0) == 0 {
      runes := [];
    } else {
      var first, rest := FirstRune(s);
      var more := LeftRunes(rest);
      runes := [first] + more;
      assert runes[1..] == more;
    }
  }

  lemma {:induction false} RightRunes(s: string) returns (runes: seq<string>)
    ensures (forall r | r in runes :: IsSpaceRune(r)) && s == Before(TrimRight(s), runes)
    decreases |s|
  {
    if TrailingWidth(s) == 0 {
      runes := [];
    } else {
      var rest, last := LastRune(s);
      var more := RightRunes(rest);
      runes := more + [last];
      assert runes[..|runes| - 1] == more;
    }
  }

  /** Trimming takes whitespace runes off both ends and nothing else. */
  lemma {:induction false} TrimTakesSpace(s: string) returns (left: seq<string>, right: seq<string>)
    ensures (forall r | r in left :: IsSpaceRune(r)) && forall r | r in right :: IsSpaceRune(r)
    ensures s == After(left, Before(TrimSpace(s), right))
  {
    left := LeftRunes(s);
    right := RightRunes(TrimLeft(s));
  }

  /** No whitespace rune starts anywhere in the string. */
  ghost predicate SpaceFree(s: string) {
    forall i | 0 <= i < |s| :: SpaceWidth(s, i) == 0
  }

  /** Trimming leaves nothing to trim at either end. */
  lemma TrimSpaceIsTight(s: string)
    ensures SpaceWidth(TrimSpace(s), 0) == 0 && TrailingWidth(TrimSpace(s)) == 0
  {
    var l := TrimLeft(s);
    var r := TrimRight(l);
    assert forall i | 0 <= i < |r| :: At(r, i) == At(l, i);
  }

  /** Printable ASCII without spaces is its own trimmed form. */
  lemma {:induction false} TrimPlain(s: string)
    requires forall i | 0 <= i < |s| :: 33 <= s[i] as int <= 126
    ensures TrimSpace(s) == s
  {
    assert forall i | 0 <= i < |s| :: At(s, i) == s[i] as int;
    assert SpaceWidth(s, 0) == 0 && TrailingWidth(s) == 0;
  }

  /** A carriage return, like any trailing whitespace byte, does not survive trimming. */
  lemma {:induction false} TrimDropsTrailingByte(s: string, c: char)
    requires 9 <= c as int <= 13 || c as int == 32
    ensures TrimSpace(s + [c]) == TrimSpace(s)
    decreases |s|
  {
    var t := s + [c];
    if s == [] {
      assert SpaceWidth(t, 0) == 1;
      assert t[1..] == [];
    } else {
      var w := SpaceWidth(s, 0);
      SpaceWidthStable(s, [c], 0);
      if w == 0 {
        assert TrailingWidth(t) == 1;
        assert t[..|t| - 1] == s;
      } else {
        assert t[w..] == s[w..] + [c];
        TrimDropsTrailingByte(s[w..], c);
      }
    }
  }

  /** ASCII bytes placed after a string neither make nor hide whitespace inside it. */
  lemma SpaceWidthStable(s: string, tail: string, i: nat)
    requires i < |s|
    requires tail == [] || At(tail, 0) < 0x80
    ensures SpaceWidth(s + tail, i) == SpaceWidth(s, i)
  {
    var t := s + tail;
    assert forall k | 0 <= k < |s| :: At(t, k) == At(s, k);
    if tail != [] {
      assert At(t, |s|) == At(tail, 0);
    }
  }

  // ---------- fields ----------

  /** The index of the first whitespace rune at or after `i`, or the length. */
  function WordEnd(s: string, i: nat): (e: nat)
    requires i <= |s|
    ensures i <= e <= |s|
    ensures i < |s| && SpaceWidth(s, i) == 0 ==> e > i
    decreases |s| - i
  {
    if i == |s| || SpaceWidth(s, i) > 0 then i else WordEnd(s, i + 1)
  }

  /** The maximal runs of bytes outside whitespace, in order. */
  function Fields(s: string): seq<string>
    decreases |s|
  {
    var t := TrimLeft(s);
    if t == [] then []
    else
      var e := WordEnd(t, 0);
      assert e > 0;
      [t[..e]] + Fields(t[e..])
  }

  // ---------- separators ----------

  /** The parts between separators; always at least one part. */
  function Split(s: string, sep: char): (parts: seq<string>)
    ensures |parts| >= 1
  {
    if s == [] then [[]]
    else
      var rest := Split(s[1..], sep);
      if s[0] == sep then [[]] + rest
      else [[s[0]] + rest[0]] + rest[1..]
  }

  function Join(parts: seq<string>, sep: char): string {
    if parts == [] then []
    else if |parts| == 1 then parts[0]
    else parts[0] + [sep] + Join(parts[1..], sep)
  }

  lemma {:induction false} JoinSplit(s: string, sep: char)
    ensures Join(Split(s, sep), sep) == s
  {
    if s == [] {
    } else {
      var rest := Split(s[1..], sep);
      JoinSplit(s[1..], sep);
      if s[0] == sep {
        assert ([[]] + rest)[1..] == rest;
      } else {
        var parts := [[s[0]] + rest[0]] + rest[1..];
        assert parts[1..] == rest[1..];
        assert s == [s[0]] + s[1..];
      }
    }
  }

  lemma {:induction false} SplitConcat(p: string, s: string, sep: char)
    requires sep !in p
    ensures Split(p, sep) == [p]
    ensures Split(p + [sep] + s, sep) == [p] + Split(s, sep)
  {
    var t := p + [sep] + s;
    if p == [] {
      assert t[1..] == s;
    } else {
      SplitConcat(p[1..], s, sep);
      assert t[1..] == p[1..] + [sep] + s;
      assert p == [p[0]] + p[1..];
    }
  }

  lemma {:induction false} SplitJoin(parts: seq<string>, sep: char)
    requires |parts| >= 1
    requires forall p | p in parts :: sep !in p
    ensures Split(Join(parts, sep), sep) == parts
  {
    if |parts| == 1 {
      SplitConcat(parts[0], [], sep);
    } else {
      SplitJoin(parts[1..], sep);
      SplitConcat(parts[0], Join(parts[1..], sep), sep);
    }
  }

  lemma JoinThree(a: string, b: string, c: string, sep: char)
    ensures Join([a, b, c], sep) == a + [sep] + b + [sep] + c
  {
    assert [a, b, c][1..] == [b, c];
    assert [b, c][1..] == [c];
    calc {
      Join([a, b, c], sep);
      a + [sep] + Join([b, c], sep);
      a + [sep] + (b + [sep] + c);
      a + [sep] + b + [sep] + c;
    }
  }

  /** The parts before the first separator, and after it when there is one. */
  function Cut(s: string, sep: char): (r: (string, string, bool))
    ensures sep !in r.0
    ensures if r.2 then s == r.0 + [sep] + r.1 else s == r.0 && r.1 == []
  {
    if s == [] then ([], [], false)
    else if s[0] == sep then ([], s[1..], true)
    else
      var (head, tail, found) := Cut(s[1..], sep);
      ([s[0]] + head, tail, found)
  }

  lemma {:induction false} CutAt(head: string, tail: string, sep: char)
    requires sep !in head
    ensures Cut(head, sep) == (head, [], false)
    ensures Cut(head + [sep] + tail, sep) == (head, tail, true)
  {
    var t := head + [sep] + tail;
    if head == [] {
      assert t[1..] == tail;
    } else {
      CutAt(head[1..], tail, sep);
      assert t[1..] == head[1..] + [sep] + tail;
      assert head == [head[0]] + head[1..];
    }
  }

  // ---------- byte order ----------

  /** Byte-wise lexicographic order, strict. */
  predicate LexLess(a: string, b: string) {
    if b == [] then false
    else if a == [] then true
    else if a[0] != b[0] then a[0] < b[0]
    else LexLess(a[1..], b[1..])
  }

  lemma {:induction false} LexTotal(a: string, b: string)
    ensures a != b ==> LexLess(a, b) != LexLess(b, a)
    ensures a == b ==> !LexLess(a, b)
  {
    if a == [] || b == [] || a[0] != b[0] {
    } else {
      LexTotal(a[1..], b[1..]);
      assert a == [a[0]] + a[1..] && b == [b[0]] + b[1..];
    }
  }

  lemma {:induction false} LexTransitive(a: string, b: string, c: string)
    requires LexLess(a, b) && LexLess(b, c)
    ensures LexLess(a, c)
  {
    if a == [] || a[0] != b[0] || b[0] != c[0] {
    } else {
      LexTransitive(a[1..], b[1..], c[1..]);
    }
  }

  /** A common prefix does not affect the order. */
  lemma {:induction false} LexPrefix(p: string, a: string, b: string)
    ensures LexLess(p + a, p + b) == LexLess(a, b)
  {
    if p == [] {
      assert p + a == a && p + b == b;
    } else {
      assert (p + a)[1..] == p[1..] + a && (p + b)[1..] == p[1..] + b;
      LexPrefix(p[1..], a, b);
    }
  }

  // ---------- decimal numerals ----------

  predicate IsDigit(c: char) {
    '0' <= c <= '9'
  }

  predicate AllDigits(s: string) {
    forall i | 0 <= i < |s| :: IsDigit(s[i])
  }

  /** The value of a string of digits, most significant first. */
  function Decimal(s: string): nat
    requires AllDigits(s)
  {
    if s == [] then 0
    else 10 * Decimal(s[..|s| - 1]) + (s[|s| - 1] as int - '0' as int)
  }

  function DigitChar(d: nat): (c: char)
    requires d < 10
    ensures IsDigit(c) && c as int - '0' as int == d
  {
    (d + '0' as int) as char
  }

  /** The shortest decimal numeral of a number. */
  function Itoa(n: nat): (s: string)
    ensures AllDigits(s) && |s| >= 1
    ensures n < 10 ==> |s| == 1
    ensures |s| > 1 ==> s[0] != '0'
    ensures n > 0 ==> s[0] != '0'
    ensures Decimal(s) == n
  {
    if n < 10 then
      assert [DigitChar(n)][..0] == [];
      [DigitChar(n)]
    else
      var s := Itoa(n / 10) + [DigitChar(n % 10)];
      assert s[..|s| - 1] == Itoa(n / 10);
      s
  }

  /** A numeral without a leading zero is the numeral of its value. */
  lemma {:induction false} ItoaDecimal(s: string)
    requires AllDigits(s) && |s| >= 1
    requires |s| > 1 ==> s[0] != '0'
    ensures Itoa(Decimal(s)) == s
  {
    var init, last := s[..|s| - 1], s[|s| - 1];
    assert s == init + [last];
    if |s| == 1 {
      assert s == [last];
      DecimalOne(last);
      ItoaDigit(last);
    } else {
      ItoaDecimal(init);
      DecimalPositive(init);
      ItoaAppend(init, last);
    }
  }

  lemma {:induction false} ItoaAppend(init: string, last: char)
    requires AllDigits(init) && IsDigit(last) && Decimal(init) > 0 && Itoa(Decimal(init)) == init
    ensures Itoa(Decimal(init + [last])) == init + [last]
  {
    var d := last as int - '0' as int;
    assert (init + [last])[..|init|] == init;
    assert Decimal(init + [last]) == 10 * Decimal(init) + d;
    ItoaStep(Decimal(init), d);
    assert DigitChar(d) == last;
  }

  lemma DecimalOne(c: char)
    requires IsDigit(c)
    ensures Decimal([c]) == c as int - '0' as int
  {
    assert [c][..0] == [];
  }

  lemma ItoaDigit(c: char)
    requires IsDigit(c)
    ensures Itoa(c as int - '0' as int) == [c]
  {
    assert DigitChar(c as int - '0' as int) == c;
  }

  lemma {:induction false} ItoaStep(n: nat, d: nat)
    requires n > 0 && d < 10
    ensures Itoa(10 * n + d) == Itoa(n) + [DigitChar(d)]
  {
    assert (10 * n + d) / 10 == n && (10 * n + d) % 10 == d;
  }

  lemma {:induction false} DecimalPositive(s: string)
    requires AllDigits(s) && |s| >= 1 && s[0] != '0'
    ensures Decimal(s) > 0
  {
    if |s| > 1 {
      DecimalPositive(s[..|s| - 1]);
    } else {
      assert s[..0] == [];
    }
  }

  /** A longer numeral is a larger number, and equal lengths compare byte by byte. */
  lemma {:induction false} DecimalOrder(a: string, b: string)
    requires AllDigits(a) && AllDigits(b) && |a| == |b|
    ensures Decimal(a) < Decimal(b) <==> LexLess(a, b)
    decreases |a|
  {
    if |a| == 0 {
    } else {
      var a', b' := a[..|a| - 1], b[..|b| - 1];
      DecimalOrder(a', b');
      DecimalOrder(b', a');
      LexTotal(a', b');
      assert a == a' + [a[|a| - 1]] && b == b' + [b[|b| - 1]];
      if a' == b' {
        LexPrefix(a', [a[|a| - 1]], [b[|b| - 1]]);
      } else {
        LexExtend(a', b', [a[|a| - 1]], [b[|b| - 1]]);
      }
    }
  }

  /** Distinct strings of one length keep their order whatever follows them. */
  lemma {:induction false} LexExtend(a: string, b: string, x: string, y: string)
    requires |a| == |b| && a != b
    ensures LexLess(a + x, b + y) == LexLess(a, b)
  {
    assert (a + x)[1..] == a[1..] + x && (b + y)[1..] == b[1..] + y;
    if a[0] != b[0] {
    } else {
      assert a == [a[0]] + a[1..] && b == [b[0]] + b[1..];
      LexExtend(a[1..], b[1..], x, y);
    }
  }

  lemma {:induction false} DecimalBound(s: string)
    requires AllDigits(s)
    ensures Decimal(s) < Pow10(|s|)
  {
    if s == [] {
    } else {
      DecimalBound(s[..|s| - 1]);
    }
  }

  function Pow10(n: nat): (p: nat)
    ensures p >= 1
  {
    if n == 0 then 1 else 10 * Pow10(n - 1)
  }

  lemma {:induction false} DecimalAtLeast(s: string)
    requires AllDigits(s) && |s| >= 1 && s[0] != '0'
    ensures Decimal(s) >= Pow10(|s| - 1)
  {
    if |s| > 1 {
      DecimalAtLeast(s[..|s| - 1]);
    } else {
      DecimalPositive(s);
    }
  }

  lemma {:induction false} Pow10Monotone(m: nat, n: nat)
    requires m <= n
    ensures Pow10(m) <= Pow10(n)
    decreases n - m
  {
    if m == n {
    } else {
      Pow10Monotone(m, n - 1);
    }
  }
}

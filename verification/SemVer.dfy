/**
 Release versions: the strict parser, the tag printer and the precedence order
 of internal/upgrade/version.go.
 */
module SemVer {
  import opened Text

  const MAX_VERSION_LENGTH := 64
  const MAX_NUMERIC_LENGTH := 9

  datatype Version = Version(prerelease: string, major: int, minor: int, patch: int) {
    predicate IsStable() {
      prerelease == ""
    }
  }

  // ---------- parsing ----------

  function NumericIdentifier(part: string): Result<nat> {
    if part == "" || |part| > MAX_NUMERIC_LENGTH then Err
    else if !AllDigits(part) then Err
    else if |part| > 1 && part[0] == '0' then Err
    else Ok(Decimal(part))
  }

  predicate IdentifierChar(c: char) {
    IsDigit(c) || 'A' <= c <= 'Z' || 'a' <= c <= 'z' || c == '-'
  }

  predicate IdentifierValid(id: string) {
    && id != ""
    && (forall i | 0 <= i < |id| :: IdentifierChar(id[i]))
    && (AllDigits(id) && |id| > 1 ==> id[0] != '0')
  }

  predicate PrereleaseValid(prerelease: string) {
    && prerelease != ""
    && forall id | id in Split(prerelease, '.') :: IdentifierValid(id)
  }

  function ParseBody(core: string, prerelease: string, hasPrerelease: bool): Result<Version> {
    var parts := Split(core, '.');
    if |parts| != 3 then Err
    else if exists p | p in parts :: NumericIdentifier(p).Err? then Err
    else if hasPrerelease && !PrereleaseValid(prerelease) then Err
    else
      assert forall i | 0 <= i < 3 :: parts[i] in parts;
      Ok(Version(prerelease, NumericIdentifier(parts[0]).value,
                 NumericIdentifier(parts[1]).value, NumericIdentifier(parts[2]).value))
  }

  function Parse(raw: string): Result<Version> {
    if |raw| == 0 || |raw| > MAX_VERSION_LENGTH then Err
    else
      var body := if raw[0] == 'v' then raw[1..] else raw;
      var (core, prerelease, hasPrerelease) := Cut(body, '-');
      ParseBody(core, prerelease, hasPrerelease)
  }

  function ReleaseTag(tag: string): Result<Version> {
    if tag == "" || tag[0] != 'v' then Err else Parse(tag)
  }

  method ParseNumericIdentifier(part: string) returns (r: Result<nat>)
    ensures r == NumericIdentifier(part)
  {
    if part == "" || |part| > MAX_NUMERIC_LENGTH {
      return Err;
    }
    for i := 0 to |part|
      invariant AllDigits(part[..i])
    {
      if part[i] < '0' || part[i] > '9' {
        assert !IsDigit(part[i]);
        return Err;
      }
    }
    assert part[..|part|] == part;
    if |part| > 1 && part[0] == '0' {
      return Err;
    }
    return Ok(Decimal(part));
  }

  /** True when the bytes after the hyphen are dot-separated valid identifiers. */
  method ValidatePrerelease(prerelease: string) returns (valid: bool)
    ensures valid == PrereleaseValid(prerelease)
  {
    if prerelease == "" {
      return false;
    }
    var ids := Split(prerelease, '.');
    for i := 0 to |ids|
      invariant forall k | 0 <= k < i :: IdentifierValid(ids[k])
    {
      var id := ids[i];
      assert id in ids;
      if id == "" {
        return false;
      }
      var numeric := true;
      for j := 0 to |id|
        invariant forall k | 0 <= k < j :: IdentifierChar(id[k])
        invariant numeric == AllDigits(id[..j])
      {
        if '0' <= id[j] <= '9' {
        } else if 'A' <= id[j] <= 'Z' || 'a' <= id[j] <= 'z' || id[j] == '-' {
          numeric := false;
          assert id[..j + 1][j] == id[j];
        } else {
          assert !IdentifierChar(id[j]);
          return false;
        }
      }
      assert id[..|id|] == id;
      if numeric && |id| > 1 && id[0] == '0' {
        return false;
      }
    }
    return true;
  }

  method ParseVersion(raw: string) returns (r: Result<Version>)
    ensures r == Parse(raw)
  {
    if |raw| == 0 || |raw| > MAX_VERSION_LENGTH {
      return Err;
    }
    var body := if raw[0] == 'v' then raw[1..] else raw;
    var (core, prerelease, hasPrerelease) := Cut(body, '-');
    var parts := Split(core, '.');
    if |parts| != 3 {
      return Err;
    }
    var numbers: seq<nat> := [];
    for i := 0 to 3
      invariant |numbers| == i
      invariant forall k | 0 <= k < i :: NumericIdentifier(parts[k]) == Ok(numbers[k])
    {
      var number := ParseNumericIdentifier(parts[i]);
      if number.Err? {
        assert parts[i] in parts;
        return Err;
      }
      numbers := numbers + [number.value];
    }
    if hasPrerelease {
      var valid := ValidatePrerelease(prerelease);
      if !valid {
        return Err;
      }
    }
    return Ok(Version(prerelease, numbers[0], numbers[1], numbers[2]));
  }

  // ---------- printing ----------

  function Numeral(n: int): string {
    if n < 0 then "-" + Itoa(-n) else Itoa(n)
  }

  function Core(v: Version): string {
    Numeral(v.major) + "." + Numeral(v.minor) + "." + Numeral(v.patch)
  }

  function Tag(v: Version): string {
    if v.prerelease == "" then "v" + Core(v)
    else "v" + Core(v) + "-" + v.prerelease
  }

  /** Digits, letters and hyphens, at least one, and no numeral with a leading zero. */
  ghost predicate IdentifierIs(id: string) {
    && id != ""
    && (forall c | c in id :: '0' <= c <= '9' || 'A' <= c <= 'Z' || 'a' <= c <= 'z' || c == '-')
    && ((forall c | c in id :: '0' <= c <= '9') && |id| > 1 ==> id[0] != '0')
  }

  /** Such identifiers with dots between (section 9 of Semantic Versioning 2.0.0). */
  ghost predicate IsPrerelease(s: string, ids: seq<string>) {
    && ids != [] && s == Join(ids, '.')
    && forall id | id in ids :: IdentifierIs(id)
  }

  lemma {:induction false} PrereleaseMeans(s: string)
    ensures PrereleaseValid(s) <==> exists ids :: IsPrerelease(s, ids)
  {
    if PrereleaseValid(s) {
      JoinSplit(s, '.');
      forall id | id in Split(s, '.') ensures IdentifierIs(id) {
        IdentifierMeans(id);
      }
      assert IsPrerelease(s, Split(s, '.'));
    }
    if ids :| IsPrerelease(s, ids) {
      forall id | id in ids ensures '.' !in id {
        assert IdentifierIs(id);
      }
      SplitJoin(ids, '.');
      forall id | id in ids ensures IdentifierValid(id) {
        assert IdentifierIs(id);
        IdentifierMeans(id);
      }
      assert ids[0] in ids;
      NonEmptyJoin(ids);
    }
  }

  lemma {:induction false} IdentifierMeans(id: string)
    ensures IdentifierValid(id) <==> IdentifierIs(id)
  {
    assert forall i | 0 <= i < |id| :: id[i] in id;
    assert AllDigits(id) <==> forall c | c in id :: '0' <= c <= '9';
  }

  lemma NonEmptyJoin(ids: seq<string>)
    requires ids != [] && ids[0] != ""
    ensures Join(ids, '.') != ""
  {
  }

  /** The versions the parser can produce. */
  predicate WellFormed(v: Version) {
    && 0 <= v.major < 1_000_000_000
    && 0 <= v.minor < 1_000_000_000
    && 0 <= v.patch < 1_000_000_000
    && (v.prerelease != "" ==> PrereleaseValid(v.prerelease))
  }

  lemma NumericIdentifierValue(part: string)
    requires NumericIdentifier(part).Ok?
    ensures Itoa(NumericIdentifier(part).value) == part
    ensures NumericIdentifier(part).value < 1_000_000_000
  {
    ItoaDecimal(part);
    DecimalBound(part);
    Pow10Monotone(|part|, 9);
    Pow10Nine();
  }

  lemma Pow10Nine()
    ensures Pow10(9) == 1_000_000_000
  {
    assert Pow10(3) == 1000;
    assert Pow10(6) == 1000 * Pow10(3);
    assert Pow10(9) == 1000 * Pow10(6);
  }

  lemma NumeralParses(n: int)
    requires 0 <= n < 1_000_000_000
    ensures NumericIdentifier(Numeral(n)) == Ok(n)
    ensures '.' !in Numeral(n) && '-' !in Numeral(n)
  {
    var s := Itoa(n);
    if |s| > MAX_NUMERIC_LENGTH {
      DecimalAtLeast(s);
      Pow10Monotone(9, |s| - 1);
      Pow10Nine();
    }
  }

  lemma SplitCore(v: Version)
    requires WellFormed(v)
    ensures Split(Core(v), '.') == [Numeral(v.major), Numeral(v.minor), Numeral(v.patch)]
    ensures '-' !in Core(v)
  {
    var parts := [Numeral(v.major), Numeral(v.minor), Numeral(v.patch)];
    NumeralParses(v.major);
    NumeralParses(v.minor);
    NumeralParses(v.patch);
    JoinThree(Numeral(v.major), Numeral(v.minor), Numeral(v.patch), '.');
    assert Join(parts, '.') == Core(v);
    SplitJoin(parts, '.');
  }

  lemma {:induction false} ParsedBody(core: string, prerelease: string, hasPrerelease: bool)
    requires ParseBody(core, prerelease, hasPrerelease).Ok? && (!hasPrerelease ==> prerelease == "")
    ensures var v := ParseBody(core, prerelease, hasPrerelease).value;
            WellFormed(v) && Core(v) == core && v.prerelease == prerelease
    ensures hasPrerelease ==> prerelease != ""
  {
    var parts := Split(core, '.');
    assert forall i | 0 <= i < 3 :: parts[i] in parts;
    NumericIdentifierValue(parts[0]);
    NumericIdentifierValue(parts[1]);
    NumericIdentifierValue(parts[2]);
    JoinSplit(core, '.');
    JoinThree(parts[0], parts[1], parts[2], '.');
    assert parts == [parts[0], parts[1], parts[2]];
  }

  lemma {:induction false} ParsedIsWellFormed(raw: string)
    requires Parse(raw).Ok?
    ensures WellFormed(Parse(raw).value)
  {
    var (core, prerelease, has) := Cut(if raw[0] == 'v' then raw[1..] else raw, '-');
    ParsedBody(core, prerelease, has);
  }

  /** A tag is the letter v and the version's text. */
  lemma {:induction false} TagText(v: Version, body: string)
    requires body == if v.prerelease == "" then Core(v) else Core(v) + ['-'] + v.prerelease
    ensures Tag(v) == ['v'] + body
  {
    assert "v" + Core(v) + "-" + v.prerelease == ['v'] + (Core(v) + ['-'] + v.prerelease);
  }

  lemma {:induction false} ParsedText(body: string)
    requires var (core, prerelease, has) := Cut(body, '-'); ParseBody(core, prerelease, has).Ok?
    ensures var (core, prerelease, has) := Cut(body, '-');
            Tag(ParseBody(core, prerelease, has).value) == ['v'] + body
  {
    var (core, prerelease, has) := Cut(body, '-');
    ParsedBody(core, prerelease, has);
    TagText(ParseBody(core, prerelease, has).value, body);
  }

  /** Printing what a release tag parsed to gives the tag back. */
  lemma {:induction false} TagOfParsedTag(s: string)
    requires ReleaseTag(s).Ok?
    ensures Tag(ReleaseTag(s).value) == s
  {
    ParsedText(s[1..]);
    assert s == ['v'] + s[1..];
  }

  lemma {:induction false} PrintedBodyParses(v: Version, body: string)
    requires WellFormed(v)
    requires body == if v.prerelease == "" then Core(v) else Core(v) + ['-'] + v.prerelease
    ensures var (core, prerelease, has) := Cut(body, '-'); ParseBody(core, prerelease, has) == Ok(v)
  {
    SplitCore(v);
    CutAt(Core(v), v.prerelease, '-');
    CoreParses(v);
  }

  lemma {:induction false} CoreParses(v: Version)
    requires WellFormed(v)
    ensures ParseBody(Core(v), v.prerelease, v.prerelease != "") == Ok(v)
  {
    SplitCore(v);
    NumeralParses(v.major);
    NumeralParses(v.minor);
    NumeralParses(v.patch);
  }

  /** A tag parses back to the version it was printed from, exactly for the
      versions the parser can produce whose tag fits the length bound. */
  lemma {:induction false} ParsedTagOfVersion(v: Version)
    ensures ReleaseTag(Tag(v)) == Ok(v) <==> WellFormed(v) && |Tag(v)| <= 64
  {
    if ReleaseTag(Tag(v)) == Ok(v) {
      ParsedIsWellFormed(Tag(v));
    }
    if WellFormed(v) && |Tag(v)| <= MAX_VERSION_LENGTH {
      var body := if v.prerelease == "" then Core(v) else Core(v) + ['-'] + v.prerelease;
      PrintedBodyParses(v, body);
      TagText(v, body);
      assert (['v'] + body)[1..] == body;
    }
  }

  // ---------- precedence ----------

  function CompareInt(a: int, b: int): int {
    if a < b then -1 else if a > b then 1 else 0
  }

  function CompareIdentifier(x: string, y: string): int {
    if x == y then 0
    else
      match (NumericIdentifier(x), NumericIdentifier(y))
      case (Ok(m), Ok(n)) => CompareInt(m, n)
      case (Ok(_), Err) => -1
      case (Err, Ok(_)) => 1
      case (Err, Err) => if LexLess(x, y) then -1 else 1
  }

  function CompareIdentifiers(left: seq<string>, right: seq<string>): int {
    if left == [] || right == [] then CompareInt(|left|, |right|)
    else if left[0] == right[0] then CompareIdentifiers(left[1..], right[1..])
    else CompareIdentifier(left[0], right[0])
  }

  function PrereleaseOrder(a: string, b: string): int {
    if a == b then 0
    else if a == "" then 1
    else if b == "" then -1
    else CompareIdentifiers(Split(a, '.'), Split(b, '.'))
  }

  function Compare(a: Version, b: Version): int {
    if a.major != b.major then CompareInt(a.major, b.major)
    else if a.minor != b.minor then CompareInt(a.minor, b.minor)
    else if a.patch != b.patch then CompareInt(a.patch, b.patch)
    else PrereleaseOrder(a.prerelease, b.prerelease)
  }

  method ComparePrerelease(a: string, b: string) returns (order: int)
    ensures order == PrereleaseOrder(a, b)
  {
    if a == b {
      return 0;
    } else if a == "" {
      return 1;
    } else if b == "" {
      return -1;
    }
    var left, right := Split(a, '.'), Split(b, '.');
    var i := 0;
    while i < |left| && i < |right|
      invariant i <= |left| && i <= |right|
      invariant CompareIdentifiers(left, right) == CompareIdentifiers(left[i..], right[i..])
    {
      if left[i] == right[i] {
        i := i + 1;
        continue;
      }
      var leftNumber := ParseNumericIdentifier(left[i]);
      var rightNumber := ParseNumericIdentifier(right[i]);
      if leftNumber.Ok? && rightNumber.Ok? {
        return CompareInt(leftNumber.value, rightNumber.value);
      } else if leftNumber.Ok? {
        return -1;
      } else if rightNumber.Ok? {
        return 1;
      } else if LexLess(left[i], right[i]) {
        return -1;
      } else {
        return 1;
      }
    }
    return CompareInt(|left|, |right|);
  }

  lemma IdentifierZero(x: string, y: string)
    ensures CompareIdentifier(x, y) == 0 <==> x == y
  {
    if NumericIdentifier(x).Ok? && NumericIdentifier(y).Ok? {
      NumericIdentifierValue(x);
      NumericIdentifierValue(y);
    }
  }

  lemma IdentifierAntisymmetric(x: string, y: string)
    ensures CompareIdentifier(x, y) == -CompareIdentifier(y, x)
  {
    LexTotal(x, y);
  }

  lemma IdentifierTransitive(x: string, y: string, z: string)
    requires CompareIdentifier(x, y) < 0 && CompareIdentifier(y, z) < 0
    ensures CompareIdentifier(x, z) < 0
  {
    if NumericIdentifier(x).Err? && NumericIdentifier(z).Err? {
      LexTransitive(x, y, z);
      LexTotal(x, z);
    }
  }

  lemma {:induction false} IdentifiersOrder(l: seq<string>, r: seq<string>)
    ensures CompareIdentifiers(l, r) == 0 <==> l == r
    ensures CompareIdentifiers(l, r) == -CompareIdentifiers(r, l)
  {
    if l == [] || r == [] {
    } else {
      if l[0] == r[0] {
        IdentifiersOrder(l[1..], r[1..]);
        assert l == [l[0]] + l[1..] && r == [r[0]] + r[1..];
      } else {
        IdentifierZero(l[0], r[0]);
        IdentifierAntisymmetric(l[0], r[0]);
      }
    }
  }

  lemma {:induction false} IdentifiersTransitive(l: seq<string>, m: seq<string>, r: seq<string>)
    requires CompareIdentifiers(l, m) < 0 && CompareIdentifiers(m, r) < 0
    ensures CompareIdentifiers(l, r) < 0
  {
    if l == [] || m == [] || r == [] {
    } else {
      if l[0] == m[0] && m[0] == r[0] {
        IdentifiersTransitive(l[1..], m[1..], r[1..]);
      } else if l[0] != m[0] && m[0] != r[0] {
        IdentifierTransitive(l[0], m[0], r[0]);
        IdentifierZero(l[0], r[0]);
      }
    }
  }

  /** `Compare` is antisymmetric and zero exactly on equal versions, on every pair. */
  lemma CompareAntisymmetric(a: Version, b: Version)
    ensures Compare(a, b) == -Compare(b, a)
    ensures Compare(a, b) == 0 <==> a == b
    ensures -1 <= Compare(a, b) <= 1
  {
    IdentifiersOrder(Split(a.prerelease, '.'), Split(b.prerelease, '.'));
    IdentifiersRange(Split(a.prerelease, '.'), Split(b.prerelease, '.'));
    JoinSplit(a.prerelease, '.');
    JoinSplit(b.prerelease, '.');
  }

  lemma {:induction false} IdentifiersRange(l: seq<string>, r: seq<string>)
    ensures -1 <= CompareIdentifiers(l, r) <= 1
  {
    if l == [] || r == [] || l[0] != r[0] {
    } else {
      IdentifiersRange(l[1..], r[1..]);
    }
  }

  /** `Compare` is transitive on every three versions, parsed or not. */
  lemma CompareTransitive(a: Version, b: Version, c: Version)
    requires Compare(a, b) <= 0 && Compare(b, c) <= 0
    ensures Compare(a, c) <= 0
    ensures Compare(a, b) < 0 || Compare(b, c) < 0 ==> Compare(a, c) < 0
  {
    CompareAntisymmetric(a, b);
    CompareAntisymmetric(b, c);
    if a != b && b != c && a.prerelease != "" && b.prerelease != "" && c.prerelease != "" {
      var l, m, r := Split(a.prerelease, '.'), Split(b.prerelease, '.'), Split(c.prerelease, '.');
      if CompareIdentifiers(l, m) < 0 && CompareIdentifiers(m, r) < 0 {
        IdentifiersTransitive(l, m, r);
        IdentifiersOrder(l, r);
      }
    }
  }

  // ---------- Semantic Versioning 2.0.0, section 11 ----------

  /** Section 11, item 4: digits-only identifiers compare as numbers and below
      all others; the others compare byte by byte. */
  predicate IdentifierPrecedes(x: string, y: string) {
    if AllDigits(x) && AllDigits(y) then Decimal(x) < Decimal(y)
    else if AllDigits(x) || AllDigits(y) then AllDigits(x)
    else LexLess(x, y)
  }

  ghost predicate ListPrecedes(l: seq<string>, r: seq<string>) {
    exists i: nat :: PrecedesAt(l, r, i)
  }

  /** The lists agree before i, and there the left one ends or is lower. */
  predicate PrecedesAt(l: seq<string>, r: seq<string>, i: nat) {
    && i <= |l| && i < |r|
    && l[..i] == r[..i]
    && (i < |l| ==> IdentifierPrecedes(l[i], r[i]) && l[i] != r[i])
  }

  ghost predicate CorePrecedes(a: Version, b: Version) {
    || a.major < b.major
    || (a.major == b.major && a.minor < b.minor)
    || (a.major == b.major && a.minor == b.minor && a.patch < b.patch)
  }

  ghost predicate SameCore(a: Version, b: Version) {
    a.major == b.major && a.minor == b.minor && a.patch == b.patch
  }

  ghost predicate Precedes(a: Version, b: Version) {
    || CorePrecedes(a, b)
    || (&& SameCore(a, b)
        && a.prerelease != ""
        && (b.prerelease == "" || ListPrecedes(Split(a.prerelease, '.'), Split(b.prerelease, '.'))))
  }

  predicate LongNumeric(x: string) {
    AllDigits(x) && |x| > MAX_NUMERIC_LENGTH
  }

  /** The pairs on which comparing an over-long numeric identifier byte by byte
      gives the order the standard asks for. */
  predicate PairFaithful(x: string, y: string) {
    if LongNumeric(x) && LongNumeric(y) then |x| == |y| || LexLess(x, y) == (|x| < |y|)
    else if LongNumeric(x) && !AllDigits(y) then LexLess(x, y)
    else if LongNumeric(y) && !AllDigits(x) then LexLess(y, x)
    else true
  }

  /** The first identifiers that differ, if both lists reach one, are a faithful pair. */
  predicate DecidedFaithfully(l: seq<string>, r: seq<string>) {
    if l == [] || r == [] then true
    else if l[0] == r[0] then DecidedFaithfully(l[1..], r[1..])
    else PairFaithful(l[0], r[0])
  }

  predicate FaithfulPair(a: Version, b: Version) {
    a.major == b.major && a.minor == b.minor && a.patch == b.patch && a.prerelease != "" && b.prerelease != ""
    ==> DecidedFaithfully(Split(a.prerelease, '.'), Split(b.prerelease, '.'))
  }

  /** A shorter numeral without a leading zero is a smaller number. */
  lemma ShorterIsSmaller(x: string, y: string)
    requires AllDigits(x) && AllDigits(y) && |x| < |y| && y[0] != '0'
    ensures Decimal(x) < Decimal(y)
  {
    DecimalBound(x);
    DecimalAtLeast(y);
    Pow10Monotone(|x|, |y| - 1);
  }

  lemma IdentifierAgrees(x: string, y: string)
    requires IdentifierValid(x) && IdentifierValid(y) && x != y
    ensures PairFaithful(x, y) <==> (CompareIdentifier(x, y) < 0 <==> IdentifierPrecedes(x, y))
  {
    LexTotal(x, y);
    if AllDigits(x) && AllDigits(y) {
      if |x| < |y| {
        ShorterIsSmaller(x, y);
      } else if |y| < |x| {
        ShorterIsSmaller(y, x);
      } else {
        DecimalOrder(x, y);
      }
    }
  }

  lemma {:induction false} ListAgrees(l: seq<string>, r: seq<string>)
    requires forall id | id in l :: IdentifierValid(id)
    requires forall id | id in r :: IdentifierValid(id)
    ensures DecidedFaithfully(l, r) <==> (CompareIdentifiers(l, r) < 0 <==> ListPrecedes(l, r))
  {
    if l == [] {
      assert r != [] ==> PrecedesAt(l, r, 0);
    } else if r != [] {
      if l[0] == r[0] {
        ListAgrees(l[1..], r[1..]);
        ListPrecedesTail(l, r);
      } else {
        IdentifierAgrees(l[0], r[0]);
        assert PrecedesAt(l, r, 0) <==> IdentifierPrecedes(l[0], r[0]);
        assert forall i: nat | 0 < i <= |l| && i <= |r| :: l[..i][0] != r[..i][0];
      }
    }
  }

  lemma {:induction false} ListPrecedesTail(l: seq<string>, r: seq<string>)
    requires l != [] && r != [] && l[0] == r[0]
    ensures ListPrecedes(l, r) <==> ListPrecedes(l[1..], r[1..])
  {
    if i: nat :| PrecedesAt(l, r, i) {
      assert i > 0;
      PrecedesAtTail(l, r, i - 1);
    }
    if j: nat :| PrecedesAt(l[1..], r[1..], j) {
      PrecedesAtTail(l, r, j);
    }
  }

  lemma {:induction false} PrecedesAtTail(l: seq<string>, r: seq<string>, j: nat)
    requires l != [] && r != [] && l[0] == r[0]
    ensures PrecedesAt(l, r, j + 1) <==> PrecedesAt(l[1..], r[1..], j)
  {
    if j + 1 <= |l| && j + 1 < |r| {
      assert l[..j + 1] == [l[0]] + l[1..][..j] && r[..j + 1] == [r[0]] + r[1..][..j];
      assert l[1..][..j] == l[..j + 1][1..] && r[1..][..j] == r[..j + 1][1..];
    }
  }

  /** `Compare` gives the precedence of section 11 exactly on the pairs whose
      first differing prerelease identifiers are a faithful pair. */
  lemma CompareAgreesWithSemVer(a: Version, b: Version)
    requires WellFormed(a) && WellFormed(b)
    ensures FaithfulPair(a, b) <==> (Compare(a, b) < 0 <==> Precedes(a, b))
  {
    var l, r := Split(a.prerelease, '.'), Split(b.prerelease, '.');
    if SameCore(a, b) && a.prerelease != "" && b.prerelease != "" {
      ListAgrees(l, r);
      if a.prerelease == b.prerelease {
        IdentifiersOrder(l, r);
      }
    }
  }

  predicate ShortNumerics(v: Version) {
    v.prerelease != "" ==> forall id | id in Split(v.prerelease, '.') :: !LongNumeric(id)
  }

  /** With numeric identifiers of at most nine digits the two orders are one. */
  lemma ShortNumericsAgree(a: Version, b: Version)
    requires WellFormed(a) && WellFormed(b) && ShortNumerics(a) && ShortNumerics(b)
    ensures Compare(a, b) < 0 <==> Precedes(a, b)
  {
    if a.prerelease != "" && b.prerelease != "" {
      ShortListsFaithful(Split(a.prerelease, '.'), Split(b.prerelease, '.'));
    }
    CompareAgreesWithSemVer(a, b);
  }

  lemma {:induction false} ShortListsFaithful(l: seq<string>, r: seq<string>)
    requires forall id | id in l + r :: !LongNumeric(id)
    ensures DecidedFaithfully(l, r)
  {
    if l == [] || r == [] {
    } else {
      assert l[0] in l + r && r[0] in l + r;
      if l[0] == r[0] {
        assert forall id | id in l[1..] + r[1..] :: id in l + r;
        ShortListsFaithful(l[1..], r[1..]);
      }
    }
  }

  /** A longer numeral whose first digit is lower sorts before the shorter one. */
  lemma LongNumericsMisordered(x: string, y: string)
    requires LongNumeric(x) && LongNumeric(y)
    requires |x| < |y| && '0' < y[0] < x[0]
    ensures Compare(Version(x, 1, 0, 0), Version(y, 1, 0, 0)) > 0
    ensures Precedes(Version(x, 1, 0, 0), Version(y, 1, 0, 0))
  {
    assert '.' !in x && '.' !in y;
    SplitConcat(x, [], '.');
    SplitConcat(y, [], '.');
    assert [x][..0] == [y][..0];
    ShorterIsSmaller(x, y);
    assert PrecedesAt([x], [y], 0);
  }

  /** Ten-digit numeric identifiers can come out in the wrong order. */
  lemma TenDigitCounterexample()
    ensures Compare(Version("9999999999", 1, 0, 0), Version("10000000000", 1, 0, 0)) > 0
    ensures Precedes(Version("9999999999", 1, 0, 0), Version("10000000000", 1, 0, 0))
  {
    LongNumericsMisordered("9999999999", "10000000000");
  }
}

/**
 The strict parser of a release's checksums document
 (internal/upgrade/artifact.go).
 */
module Checksums {
  import opened Text

  const MAX_CHECKSUM_LINES := 512
  const MAX_ASSET_NAME_BYTES := 128
  const DIGEST_LENGTH := 64

  datatype Entry = Entry(digest: string, name: string)

  type Sums = map<string, string>

  // ---------- one line ----------

  function LowerChar(c: char): char {
    if 'A' <= c <= 'Z' then ((c as int) + 32) as char else c
  }

  function Lower(s: string): (r: string)
    ensures |r| == |s|
    ensures forall i | 0 <= i < |s| :: r[i] == LowerChar(s[i])
  {
    seq(|s|, i requires 0 <= i < |s| => LowerChar(s[i]))
  }

  predicate IsHex(c: char) {
    '0' <= c <= '9' || 'a' <= c <= 'f' || 'A' <= c <= 'F'
  }

  predicate HexDigest(digest: string) {
    |digest| == DIGEST_LENGTH && forall i | 0 <= i < |digest| :: IsHex(digest[i])
  }

  predicate FileName(name: string) {
    && 0 < |name| <= MAX_ASSET_NAME_BYTES
    && '/' !in name && '\\' !in name && '\0' !in name
    && name != "." && name != ".."
  }

  function ParseLine(line: string): Result<Entry> {
    var fields := Fields(line);
    if |fields| != 2 then Err
    else
      var digest := Lower(fields[0]);
      var name := if fields[1] != "" && fields[1][0] == '*' then fields[1][1..] else fields[1];
      if HexDigest(digest) && FileName(name) then Ok(Entry(digest, name)) else Err
  }

  /** What the parser makes of one line of the document. */
  datatype Item = BlankLine | BadLine | EntryLine(entry: Entry)

  function ItemOf(line: string): Item {
    var trimmed := TrimSpace(line);
    if trimmed == "" then BlankLine
    else
      match ParseLine(trimmed)
      case Err => BadLine
      case Ok(e) => EntryLine(e)
  }

  function Items(raw: string): seq<Item> {
    ItemsOf(Split(raw, '\n'))
  }

  function ItemsOf(lines: seq<string>): seq<Item> {
    seq(|lines|, i requires 0 <= i < |lines| => ItemOf(lines[i]))
  }

  // ---------- the whole document ----------

  /** Reads the lines into the entries already found. */
  function ReadItems(items: seq<Item>, sums: Sums): Result<Sums> {
    if items == [] then Ok(sums)
    else if items[0].BlankLine? then ReadItems(items[1..], sums)
    else if |sums| >= MAX_CHECKSUM_LINES then Err
    else if items[0].BadLine? then Err
    else
      var e := items[0].entry;
      if e.name in sums && sums[e.name] != e.digest then Err
      else ReadItems(items[1..], sums[e.name := e.digest])
  }

  function ParseDocument(raw: string): Result<Sums> {
    if raw == "" then Err
    else
      var sums := ReadItems(Items(raw), map[]);
      if sums == Ok(map[]) then Err else sums
  }

  method ParseChecksums(raw: string) returns (r: Result<Sums>)
    ensures r == ParseDocument(raw)
  {
    if |raw| == 0 {
      return Err;
    }
    var sums: Sums := map[];
    var lines := Split(raw, '\n');
    for index := 0 to |lines|
      invariant ReadItems(Items(raw), map[]) == ReadItems(Items(raw)[index..], sums)
    {
      var trimmed := TrimSpace(lines[index]);
      assert Items(raw)[index] == ItemOf(lines[index]);
      if trimmed == "" {
        continue;
      }
      if |sums| >= MAX_CHECKSUM_LINES {
        return Err;
      }
      var entry := ParseLine(trimmed);
      if entry.Err? {
        return Err;
      }
      var Entry(digest, name) := entry.value;
      if name in sums && sums[name] != digest {
        return Err;
      }
      sums := sums[name := digest];
    }
    if |sums| == 0 {
      return Err;
    }
    return Ok(sums);
  }

  // ---------- what a line means ----------

  ghost predicate Hexadecimal(s: string) {
    forall c | c in s :: '0' <= c <= '9' || 'a' <= c <= 'f' || 'A' <= c <= 'F'
  }

  /** A name of 1 to 128 bytes that names a file in its own directory. */
  ghost predicate PlainName(name: string) {
    1 <= |name| <= 128 && name != "." && name != ".." && forall c | c in name :: c != '/' && c != '\\' && c != '\0'
  }

  /** A line is an entry exactly when it is two words, 64 hexadecimal digits and a plain name that
      may follow a star; the entry's digits are lowered and its name has no star before it. */
  lemma {:induction false} LineMeans(line: string, digest: string, name: string)
    ensures ItemOf(line) == EntryLine(Entry(digest, name))
            <==> var words := Fields(TrimSpace(line));
                 && TrimSpace(line) != "" && |words| == 2
                 && |words[0]| == 64 && Hexadecimal(words[0]) && digest == Lower(words[0])
                 && words[1] == (if "*" <= words[1] then "*" else "") + name && PlainName(name)
  {
    var words := Fields(TrimSpace(line));
    if |words| == 2 {
      LowerHexadecimal(words[0]);
      assert words[1] != "" && words[1][0] == '*' ==> words[1] == "*" + words[1][1..];
    }
  }

  lemma {:induction false} LowerHexadecimal(s: string)
    ensures HexDigest(Lower(s)) <==> |s| == 64 && Hexadecimal(s)
  {
    assert forall i | 0 <= i < |s| :: s[i] in s && (IsHex(LowerChar(s[i])) <==> IsHex(s[i]));
  }

  // ---------- what success means ----------

  /** The map holds the entry of every non-blank line on top of `base`, and nothing else. */
  ghost predicate Covers(items: seq<Item>, base: Sums, sums: Sums) {
    && base.Keys <= sums.Keys
    && (forall n | n in base :: sums[n] == base[n])
    && BadLine !in items
    && (forall e | EntryLine(e) in items :: e.name in sums && sums[e.name] == e.digest)
    && (forall n | n in sums && n !in base :: EntryLine(Entry(sums[n], n)) in items)
  }

  lemma {:induction false} ReadItemsCovers(items: seq<Item>, base: Sums)
    requires ReadItems(items, base).Ok?
    ensures Covers(items, base, ReadItems(items, base).value)
  {
    if items == [] {
    } else {
      assert items == [items[0]] + items[1..];
      if items[0].BlankLine? {
        ReadItemsCovers(items[1..], base);
      } else {
        var e := items[0].entry;
        ReadItemsCovers(items[1..], base[e.name := e.digest]);
      }
    }
  }

  /** A document that parses has no malformed line; its map lists the entry of
      every non-blank line, and only those. */
  lemma ParsedDocument(raw: string)
    requires ParseDocument(raw).Ok?
    ensures Covers(Items(raw), map[], ParseDocument(raw).value)
    ensures 0 < |ParseDocument(raw).value| <= 512
  {
    ReadItemsCovers(Items(raw), map[]);
    ReadItemsBound(Items(raw), map[]);
  }

  lemma {:induction false} ReadItemsBound(items: seq<Item>, base: Sums)
    requires |base| <= MAX_CHECKSUM_LINES && ReadItems(items, base).Ok?
    ensures |ReadItems(items, base).value| <= MAX_CHECKSUM_LINES
  {
    if items == [] {
    } else {
      if items[0].BlankLine? {
        ReadItemsBound(items[1..], base);
      } else {
        var e := items[0].entry;
        ReadItemsBound(items[1..], base[e.name := e.digest]);
      }
    }
  }

  // ---------- the round trip ----------

  /** An entry a release can publish: a lower-case digest and a plain file name. */
  ghost predicate Publishable(e: Entry) {
    && HexDigest(e.digest) && Lower(e.digest) == e.digest
    && FileName(e.name) && SpaceFree(e.name) && e.name[0] != '*'
  }

  /** The line `sha256sum` prints for an entry, with the digest in either case. */
  function RenderLine(digest: string, name: string): string {
    digest + "  " + name
  }

  function Render(entries: seq<Entry>): string {
    if entries == [] then "" else RenderLine(entries[0].digest, entries[0].name) + ['\n'] + Render(entries[1..])
  }

  ghost predicate DistinctNames(entries: seq<Entry>) {
    forall i, j | 0 <= i < j < |entries| :: entries[i].name != entries[j].name
  }

  function Table(entries: seq<Entry>): Sums {
    if entries == [] then map[]
    else Table(entries[..|entries| - 1])[entries[|entries| - 1].name := entries[|entries| - 1].digest]
  }

  lemma HexIsPlain(digest: string, tail: string, i: nat)
    requires HexDigest(digest) && i < |digest|
    ensures SpaceWidth(digest + tail, i) == 0
  {
    assert (digest + tail)[i] == digest[i];
  }

  lemma {:induction false} WordEndAt(s: string, i: nat, e: nat)
    requires i <= e <= |s|
    requires forall k | i <= k < e :: SpaceWidth(s, k) == 0
    requires e < |s| ==> SpaceWidth(s, e) > 0
    ensures WordEnd(s, i) == e
    decreases e - i
  {
    if i == e {
    } else {
      WordEndAt(s, i + 1, e);
    }
  }

  lemma FieldsOfWord(w: string)
    requires w != "" && SpaceFree(w)
    ensures Fields(w) == [w]
  {
    WordEndAt(w, 0, |w|);
    assert w[..|w|] == w && w[|w|..] == [];
  }

  lemma FieldsStep(t: string, e: nat)
    requires t != [] && SpaceWidth(t, 0) == 0 && e <= |t| && WordEnd(t, 0) == e
    ensures e > 0 && Fields(t) == [t[..e]] + Fields(t[e..])
  {
  }

  lemma FieldsSkipsSpace(s: string)
    ensures Fields("  " + s) == Fields(s)
  {
    var two := "  " + s;
    assert SpaceWidth(two, 0) == 1 && two[1..] == " " + s;
    assert SpaceWidth(two[1..], 0) == 1 && two[1..][1..] == s;
    assert TrimLeft(two) == TrimLeft(s);
  }

  lemma DigestEnd(digest: string, tail: string)
    requires HexDigest(digest) && tail != "" && At(tail, 0) == 32
    ensures WordEnd(digest + tail, 0) == |digest|
  {
    var line := digest + tail;
    forall k | 0 <= k < |digest|
      ensures SpaceWidth(line, k) == 0
    {
      HexIsPlain(digest, tail, k);
    }
    assert line[|digest|] == tail[0];
    WordEndAt(line, 0, |digest|);
  }

  lemma FirstField(w: string, tail: string)
    requires w != "" && WordEnd(w + tail, 0) == |w|
    ensures Fields(w + tail) == [w] + Fields(tail)
  {
    FieldsStep(w + tail, |w|);
    assert (w + tail)[..|w|] == w && (w + tail)[|w|..] == tail;
  }

  lemma RenderedFields(digest: string, name: string)
    requires HexDigest(digest) && name != "" && SpaceFree(name)
    ensures Fields(digest + ("  " + name)) == [digest, name]
  {
    DigestEnd(digest, "  " + name);
    FirstField(digest, "  " + name);
    assert Fields("  " + name) == [name] by {
      FieldsSkipsSpace(name);
      FieldsOfWord(name);
    }
  }

  lemma TrimKeepsTight(s: string)
    requires SpaceWidth(s, 0) == 0 && TrailingWidth(s) == 0
    ensures TrimSpace(s) == s
  {
  }

  lemma TrailingOfSuffix(p: string, w: string)
    requires |w| >= 1 && SpaceFree(w) && |p| >= 2
    requires At(p, |p| - 1) == 32 && At(p, |p| - 2) == 32
    ensures TrailingWidth(p + w) == 0
  {
    var s := p + w;
    var n := |s|;
    assert forall k | 0 <= k < |w| :: s[|p| + k] == w[k];
    assert s[|p| - 1] == p[|p| - 1] && s[|p| - 2] == p[|p| - 2];
    assert SpaceWidth(w, |w| - 1) == 0;
    if |w| >= 2 {
      assert SpaceWidth(w, |w| - 2) == 0;
    }
    if |w| >= 3 {
      assert SpaceWidth(w, |w| - 3) == 0;
    }
  }

  lemma RenderedLineIsTrimmed(digest: string, name: string)
    requires HexDigest(digest) && name != "" && SpaceFree(name)
    ensures TrimSpace(RenderLine(digest, name)) == RenderLine(digest, name)
  {
    assert RenderLine(digest, name) == digest + ("  " + name);
    HexIsPlain(digest, "  " + name, 0);
    var p := digest + "  ";
    assert RenderLine(digest, name) == p + name;
    assert At(p, |digest|) == 32 && At(p, |digest| + 1) == 32;
    TrailingOfSuffix(p, name);
    TrimKeepsTight(RenderLine(digest, name));
  }

  lemma LowerHexIsHex(digest: string)
    requires HexDigest(Lower(digest))
    ensures HexDigest(digest)
  {
    forall i | 0 <= i < |digest|
      ensures IsHex(digest[i])
    {
      assert IsHex(Lower(digest)[i]);
    }
  }

  /** Whatever the case the digest is printed in, the line gives the entry back. */
  lemma RenderedLineParses(digest: string, name: string)
    requires Publishable(Entry(Lower(digest), name))
    ensures ItemOf(RenderLine(digest, name)) == EntryLine(Entry(Lower(digest), name))
  {
    LowerHexIsHex(digest);
    var line := RenderLine(digest, name);
    RenderedLineIsTrimmed(digest, name);
    assert line == digest + ("  " + name);
    RenderedFields(digest, name);
    ParseLineOf(line, digest, name);
    ItemOfTrimmed(line);
  }

  lemma ParseLineOf(line: string, digest: string, name: string)
    requires Fields(line) == [digest, name] && Publishable(Entry(Lower(digest), name))
    ensures ParseLine(line) == Ok(Entry(Lower(digest), name))
  {
  }

  lemma ItemOfTrimmed(line: string)
    requires line != "" && TrimSpace(line) == line && ParseLine(line).Ok?
    ensures ItemOf(line) == EntryLine(ParseLine(line).value)
  {
  }

  lemma NoNewline(e: Entry)
    requires Publishable(e)
    ensures '\n' !in RenderLine(e.digest, e.name)
  {
    forall i | 0 <= i < |e.name|
      ensures e.name[i] != '\n'
    {
      assert SpaceWidth(e.name, i) == 0;
      assert At(e.name, i) != 10;
    }
  }

  function RenderedLines(entries: seq<Entry>): seq<string> {
    seq(|entries|, i requires 0 <= i < |entries| => RenderLine(entries[i].digest, entries[i].name))
  }

  lemma {:induction false} SplitRendered(entries: seq<Entry>)
    requires forall e | e in entries :: Publishable(e)
    ensures Split(Render(entries), '\n') == RenderedLines(entries) + [""]
  {
    if entries == [] {
    } else {
      NoNewline(entries[0]);
      SplitRendered(entries[1..]);
      SplitConcat(RenderLine(entries[0].digest, entries[0].name), Render(entries[1..]), '\n');
    }
  }

  lemma {:induction false} TableKeys(entries: seq<Entry>)
    requires DistinctNames(entries)
    ensures |Table(entries)| == |entries|
    ensures forall n :: n in Table(entries) <==> exists i :: 0 <= i < |entries| && entries[i].name == n
    ensures forall i | 0 <= i < |entries| ::
              entries[i].name in Table(entries) && Table(entries)[entries[i].name] == entries[i].digest
  {
    if entries == [] {
    } else {
      var init := entries[..|entries| - 1];
      var last := entries[|entries| - 1];
      TableKeys(init);
      assert last.name !in Table(init);
      forall i | 0 <= i < |entries|
        ensures entries[i].name in Table(entries) && Table(entries)[entries[i].name] == entries[i].digest
      {
        if i < |init| {
          assert entries[i] == init[i];
        }
      }
      forall n | n in Table(entries)
        ensures exists i :: 0 <= i < |entries| && entries[i].name == n
      {
        if n != last.name {
          var i :| 0 <= i < |init| && init[i].name == n;
          assert entries[i].name == n;
        }
      }
    }
  }

  function EntryItems(entries: seq<Entry>): seq<Item> {
    seq(|entries|, i requires 0 <= i < |entries| => EntryLine(entries[i])) + [BlankLine]
  }

  lemma {:induction false} RenderedItems(entries: seq<Entry>)
    requires forall e | e in entries :: Publishable(e)
    ensures Items(Render(entries)) == EntryItems(entries)
  {
    SplitRendered(entries);
    ItemsOfLines(entries);
  }

  lemma {:induction false} ItemsOfLines(entries: seq<Entry>)
    requires forall e | e in entries :: Publishable(e)
    ensures ItemsOf(RenderedLines(entries) + [""]) == EntryItems(entries)
  {
    var lines := RenderedLines(entries) + [""];
    forall i | 0 <= i < |lines|
      ensures ItemsOf(lines)[i] == EntryItems(entries)[i]
    {
      if i < |entries| {
        RenderedItem(entries, i);
      } else {
        BlankItem();
      }
    }
  }

  lemma {:induction false} RenderedItem(entries: seq<Entry>, i: nat)
    requires i < |entries| && Publishable(entries[i])
    ensures ItemOf(RenderedLines(entries)[i]) == EntryLine(entries[i])
  {
    RenderedLineParses(entries[i].digest, entries[i].name);
  }

  lemma BlankItem()
    ensures ItemOf("") == BlankLine
  {
  }

  lemma {:induction false} ReadEntryItems(entries: seq<Entry>, k: nat)
    requires k <= |entries| <= MAX_CHECKSUM_LINES && DistinctNames(entries)
    ensures ReadItems(EntryItems(entries)[k..], Table(entries[..k])) == Ok(Table(entries))
    decreases |entries| - k
  {
    var items := EntryItems(entries)[k..];
    if k == |entries| {
      assert items == [BlankLine] && items[1..] == [];
      assert entries[..k] == entries;
    } else {
      PrefixTable(entries, k);
      assert items[0] == EntryLine(entries[k]);
      assert items[1..] == EntryItems(entries)[k + 1..];
      ReadEntryItems(entries, k + 1);
    }
  }

  lemma PrefixTable(entries: seq<Entry>, k: nat)
    requires k < |entries| && DistinctNames(entries)
    ensures |Table(entries[..k])| == k
    ensures entries[k].name !in Table(entries[..k])
    ensures Table(entries[..k + 1]) == Table(entries[..k])[entries[k].name := entries[k].digest]
  {
    assert DistinctNames(entries[..k]);
    TableKeys(entries[..k]);
    assert entries[..k + 1][..k] == entries[..k];
  }

  /** Parsing undoes rendering: 1 to 512 publishable entries, in any order, come
      back exactly, name for name and digest for digest. */
  lemma {:induction false} RenderParses(entries: seq<Entry>)
    requires 0 < |entries| <= 512
    requires DistinctNames(entries) && forall e | e in entries :: Publishable(e)
    ensures ParseDocument(Render(entries)).Ok?
    ensures var sums := ParseDocument(Render(entries)).value;
            && (forall n :: n in sums <==> exists i :: 0 <= i < |entries| && entries[i].name == n)
            && (forall i | 0 <= i < |entries| :: entries[i].name in sums && sums[entries[i].name] == entries[i].digest)
  {
    RenderedItems(entries);
    ReadEntryItems(entries, 0);
    assert entries[..0] == [];
    TableKeys(entries);
    assert entries[0].name in Table(entries);
  }

  // ---------- digest comparison ----------

  /** The comparison `VerifyDigest` makes between two printed digests. */
  predicate DigestsMatch(expected: string, actual: string) {
    var e, a := Lower(TrimSpace(expected)), Lower(TrimSpace(actual));
    HexDigest(e) && HexDigest(a) && e == a
  }

  /** A digest taken from a parsed document matches a computed one only when the
      two are the same lower-case string. */
  lemma MatchIsEquality(raw: string, name: string, actual: string)
    requires ParseDocument(raw).Ok? && name in ParseDocument(raw).value
    requires HexDigest(actual) && Lower(actual) == actual
    ensures DigestsMatch(ParseDocument(raw).value[name], actual) <==> ParseDocument(raw).value[name] == actual
    ensures HexDigest(ParseDocument(raw).value[name])
  {
    var digest := ParseDocument(raw).value[name];
    ReadItemsCovers(Items(raw), map[]);
    assert EntryLine(Entry(digest, name)) in Items(raw);
    var i :| 0 <= i < |Items(raw)| && Items(raw)[i] == EntryLine(Entry(digest, name));
    ParsedDigestIsLower(Split(raw, '\n')[i]);
    HexTrims(digest);
    HexTrims(actual);
  }

  lemma ParsedDigestIsLower(line: string)
    requires ItemOf(line).EntryLine?
    ensures HexDigest(ItemOf(line).entry.digest) && Lower(ItemOf(line).entry.digest) == ItemOf(line).entry.digest
  {
    var fields := Fields(TrimSpace(line));
    LowerTwice(fields[0]);
  }

  lemma LowerTwice(s: string)
    ensures Lower(Lower(s)) == Lower(s)
  {
  }

  lemma HexTrims(digest: string)
    requires HexDigest(digest)
    ensures TrimSpace(digest) == digest
  {
    assert digest + "" == digest;
    HexIsPlain(digest, "", 0);
    HexIsPlain(digest, "", |digest| - 1);
    HexIsPlain(digest, "", |digest| - 2);
    HexIsPlain(digest, "", |digest| - 3);
  }
}

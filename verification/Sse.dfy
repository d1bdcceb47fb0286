/**
 Token accounting for streamed responses: the accumulator that is fed chunks as
 they arrive (internal/pricing/streaming.go) and the form that reads a buffered
 stream line by line (internal/pricing/pricing.go).
 */
module Sse {
  import opened Text

  const MAX_LINE_BYTES := 4 * 1024 * 1024
  const BYTES_PER_TOKEN := 4

  datatype Usage = Usage(inputTokens: int, outputTokens: int, estimated: bool)

  /** The JSON decoding of one payload: the token counts of a usage field when
      there is one, and the delta content, empty when there is none. */
  datatype Decoder = Decoder(usage: string -> Option<(int, int)>, content: string -> string)

  datatype Counts = Counts(input: int, output: int, deltaLength: nat)

  const ZERO := Counts(0, 0, 0)

  /** The payload of a trimmed `data:` line that carries one. */
  function Payload(line: string): Option<string> {
    if !("data:" <= line) then None
    else
      var payload := TrimSpace(line[5..]);
      if payload == "" || payload == "[DONE]" then None else Some(payload)
  }

  function CountPayload(d: Decoder, c: Counts, payload: string): Counts {
    match d.usage(payload)
    case Some((input, output)) =>
      Counts(if input > 0 then input else c.input, if output > 0 then output else c.output, c.deltaLength)
    case None => c.(deltaLength := c.deltaLength + |d.content(payload)|)
  }

  function CountLine(d: Decoder, c: Counts, rawLine: string): Counts {
    match Payload(TrimSpace(rawLine))
    case None => c
    case Some(payload) => CountPayload(d, c, payload)
  }

  function CountLines(d: Decoder, c: Counts, lines: seq<string>): Counts
    decreases |lines|
  {
    if lines == [] then c else CountLines(d, CountLine(d, c, lines[0]), lines[1..])
  }

  function EstimateTokens(bodyLength: int): int {
    if bodyLength <= 0 then 0
    else if bodyLength / BYTES_PER_TOKEN < 1 then 1
    else bodyLength / BYTES_PER_TOKEN
  }

  predicate Found(c: Counts) {
    c.input > 0 || c.output > 0 || c.deltaLength > 0
  }

  /** The usage the counts stand for, or `fallback` when nothing was found. */
  function UsageOf(c: Counts, fallback: Usage): Usage {
    if c.input > 0 || c.output > 0 then Usage(c.input, c.output, false)
    else if c.deltaLength > 0 then Usage(0, EstimateTokens(c.deltaLength), true)
    else fallback
  }

  // ---------- the accumulator ----------

  datatype Acc = Acc(counts: Counts, partialLine: string)

  const START := Acc(ZERO, "")

  function Feed(d: Decoder, a: Acc, chunk: string): Acc
    decreases |chunk|
  {
    if chunk == "" then a
    else if chunk[0] == '\n' then Feed(d, Acc(CountLine(d, a.counts, a.partialLine), ""), chunk[1..])
    else Feed(d, a.(partialLine := a.partialLine + [chunk[0]]), chunk[1..])
  }

  function Flush(d: Decoder, a: Acc): Acc {
    if a.partialLine == "" then a else Acc(CountLine(d, a.counts, a.partialLine), "")
  }

  function AccumulatedUsage(d: Decoder, a: Acc): Usage {
    UsageOf(Flush(d, a).counts, Usage(1, 1, true))
  }

  class SSEAccumulator {
    const decoder: Decoder
    var inputTokens: int
    var outputTokens: int
    var deltaContentLen: nat
    var partialLine: string

    ghost function Model(): Acc
      reads this
    {
      Acc(Counts(inputTokens, outputTokens, deltaContentLen), partialLine)
    }

    constructor (decoder: Decoder)
      ensures this.decoder == decoder && Model() == START
    {
      this.decoder := decoder;
      inputTokens, outputTokens, deltaContentLen, partialLine := 0, 0, 0, "";
    }

    method ProcessLine(rawLine: string)
      modifies this`inputTokens, this`outputTokens, this`deltaContentLen
      ensures Model() == old(Model()).(counts := CountLine(decoder, old(Model()).counts, rawLine))
    {
      var line := TrimSpace(rawLine);
      if !("data:" <= line) {
        return;
      }
      var payload := TrimSpace(line[5..]);
      if payload == "" || payload == "[DONE]" {
        return;
      }
      var usage := decoder.usage(payload);
      if usage.Some? {
        var (input, output) := usage.value;
        if input > 0 {
          inputTokens := input;
        }
        if output > 0 {
          outputTokens := output;
        }
        return;
      }
      deltaContentLen := deltaContentLen + |decoder.content(payload)|;
    }

    method Write(chunk: string)
      modifies this
      ensures Model() == Feed(decoder, old(Model()), chunk)
    {
      ghost var before := Model();
      for i := 0 to |chunk|
        invariant Feed(decoder, Model(), chunk[i..]) == Feed(decoder, before, chunk)
      {
        if chunk[i] == '\n' {
          ProcessLine(partialLine);
          partialLine := "";
        } else {
          partialLine := partialLine + [chunk[i]];
        }
        assert chunk[i..][1..] == chunk[i + 1..];
      }
    }

    method FinalUsage() returns (usage: Usage)
      modifies this
      ensures usage == AccumulatedUsage(decoder, old(Model()))
      ensures Model() == Flush(decoder, old(Model()))
    {
      if |partialLine| > 0 {
        ProcessLine(partialLine);
        partialLine := "";
      }
      if inputTokens > 0 || outputTokens > 0 {
        return Usage(inputTokens, outputTokens, false);
      }
      if deltaContentLen > 0 {
        return Usage(0, EstimateTokens(deltaContentLen), true);
      }
      return Usage(1, 1, true);
    }
  }

  // ---------- the buffered form ----------

  function DropCarriageReturn(line: string): string {
    if line != "" && line[|line| - 1] == '\r' then line[..|line| - 1] else line
  }

  /** The tokens a line scanner with a bounded buffer yields: it stops for good at
      the first line that fills the buffer, and yields no empty last line. */
  function Scan(parts: seq<string>): seq<string> {
    if parts == [] || |parts[0]| >= MAX_LINE_BYTES then []
    else if |parts| == 1 && parts[0] == "" then []
    else [DropCarriageReturn(parts[0])] + Scan(parts[1..])
  }

  function BufferedCounts(d: Decoder, stream: string): Counts {
    CountLines(d, ZERO, Scan(Split(stream, '\n')))
  }

  function BufferedUsage(d: Decoder, stream: string): Usage {
    var estimate := EstimateTokens(|stream|);
    UsageOf(BufferedCounts(d, stream), Usage(estimate, estimate, true))
  }

  /** One line read by the buffered form, on top of what was counted before. */
  method CountScannedLine(d: Decoder, before: Counts, rawLine: string) returns (after: Counts)
    ensures after == CountLine(d, before, rawLine)
  {
    after := before;
    var line := TrimSpace(rawLine);
    if !("data:" <= line) {
      return;
    }
    var payload := TrimSpace(line[5..]);
    if payload == "" || payload == "[DONE]" {
      return;
    }
    var found := d.usage(payload);
    if found.Some? {
      var (input, output) := found.value;
      if input > 0 {
        after := after.(input := input);
      }
      if output > 0 {
        after := after.(output := output);
      }
      return;
    }
    after := after.(deltaLength := after.deltaLength + |d.content(payload)|);
  }

  method CountScanned(d: Decoder, lines: seq<string>) returns (counts: Counts)
    ensures counts == CountLines(d, ZERO, lines)
  {
    counts := ZERO;
    for next := 0 to |lines|
      invariant CountLines(d, counts, lines[next..]) == CountLines(d, ZERO, lines)
    {
      assert lines[next..][1..] == lines[next + 1..];
      counts := CountScannedLine(d, counts, lines[next]);
    }
  }

  method AccumulateStreamingUsage(d: Decoder, stream: string) returns (usage: Usage)
    ensures usage == BufferedUsage(d, stream)
  {
    var counts := CountScanned(d, Scan(Split(stream, '\n')));
    if counts.input > 0 || counts.output > 0 {
      return Usage(counts.input, counts.output, false);
    }
    if counts.deltaLength > 0 {
      return Usage(0, EstimateTokens(counts.deltaLength), true);
    }
    var estimated := EstimateTokens(|stream|);
    return Usage(estimated, estimated, true);
  }

  // ---------- chunking does not matter ----------

  function FeedAll(d: Decoder, a: Acc, chunks: seq<string>): Acc
    decreases |chunks|
  {
    if chunks == [] then a else FeedAll(d, Feed(d, a, chunks[0]), chunks[1..])
  }

  function Flatten(chunks: seq<string>): string {
    if chunks == [] then "" else chunks[0] + Flatten(chunks[1..])
  }

  lemma {:induction false} FeedConcat(d: Decoder, a: Acc, x: string, y: string)
    ensures Feed(d, a, x + y) == Feed(d, Feed(d, a, x), y)
    decreases |x|
  {
    if x == "" {
      assert x + y == y;
    } else {
      assert (x + y)[1..] == x[1..] + y;
      if x[0] == '\n' {
        FeedConcat(d, Acc(CountLine(d, a.counts, a.partialLine), ""), x[1..], y);
      } else {
        FeedConcat(d, a.(partialLine := a.partialLine + [x[0]]), x[1..], y);
      }
    }
  }

  /** However the stream is cut into chunks, the accumulator ends in one state. */
  lemma {:induction false} ChunkingIrrelevant(d: Decoder, a: Acc, chunks: seq<string>)
    ensures FeedAll(d, a, chunks) == Feed(d, a, Flatten(chunks))
    decreases |chunks|
  {
    if chunks == [] {
    } else {
      ChunkingIrrelevant(d, Feed(d, a, chunks[0]), chunks[1..]);
      FeedConcat(d, a, chunks[0], Flatten(chunks[1..]));
    }
  }

  // ---------- the two forms agree ----------

  /** Feeding and flushing counts every line of the stream, in order. */
  lemma {:induction false} FeedCountsLines(d: Decoder, c: Counts, partialLine: string, s: string)
    requires '\n' !in partialLine
    ensures Flush(d, Feed(d, Acc(c, partialLine), s)).counts == CountLines(d, c, Split(partialLine + s, '\n'))
    decreases |s|
  {
    if s == "" {
      assert partialLine + s == partialLine;
      SplitConcat(partialLine, "", '\n');
      BlankLineCountsNothing(d, c);
    } else if s[0] == '\n' {
      FeedCountsLines(d, CountLine(d, c, partialLine), "", s[1..]);
      assert "" + s[1..] == s[1..];
      assert partialLine + s == partialLine + ['\n'] + s[1..];
      SplitConcat(partialLine, s[1..], '\n');
    } else {
      FeedCountsLines(d, c, partialLine + [s[0]], s[1..]);
      assert partialLine + s == partialLine + [s[0]] + s[1..];
    }
  }

  lemma BlankLineCountsNothing(d: Decoder, c: Counts)
    ensures CountLine(d, c, "") == c
  {
    assert TrimSpace("") == "";
  }

  lemma CarriageReturnIgnored(d: Decoder, c: Counts, line: string)
    ensures CountLine(d, c, DropCarriageReturn(line)) == CountLine(d, c, line)
  {
    if line != "" && line[|line| - 1] == '\r' {
      TrimDropsTrailingByte(line[..|line| - 1], '\r');
      assert line == line[..|line| - 1] + ['\r'];
    }
  }

  predicate ShortLines(parts: seq<string>) {
    forall p | p in parts :: |p| < 4_194_304
  }

  /** The lines before the first one the scanner cannot hold. */
  function BeforeLongLine(parts: seq<string>): (r: seq<string>)
    ensures r <= parts && ShortLines(r)
    ensures r != parts ==> |parts[|r|]| >= 4_194_304
  {
    if parts == [] || |parts[0]| >= MAX_LINE_BYTES then []
    else [parts[0]] + BeforeLongLine(parts[1..])
  }

  lemma {:induction false} AllShortLines(parts: seq<string>)
    requires ShortLines(parts)
    ensures BeforeLongLine(parts) == parts
  {
    if parts == [] {
    } else {
      AllShortLines(parts[1..]);
      assert parts == [parts[0]] + parts[1..];
    }
  }

  /** The scanner counts exactly the lines before the first over-long one. */
  lemma {:induction false} ScanCounts(d: Decoder, c: Counts, parts: seq<string>)
    ensures CountLines(d, c, Scan(parts)) == CountLines(d, c, BeforeLongLine(parts))
    decreases |parts|
  {
    if parts == [] || |parts[0]| >= MAX_LINE_BYTES {
    } else {
      if |parts| == 1 && parts[0] == "" {
        BlankLineCountsNothing(d, c);
        assert BeforeLongLine(parts)[1..] == [];
      } else {
        CarriageReturnIgnored(d, c, parts[0]);
        ScanCounts(d, CountLine(d, c, parts[0]), parts[1..]);
      }
    }
  }

  /** What each form counts of a stream: the accumulator all of its lines, the
      buffered form the lines before the first over-long one. */
  lemma CountsOfBothForms(d: Decoder, chunks: seq<string>)
    ensures var parts := Split(Flatten(chunks), '\n');
            && Flush(d, FeedAll(d, START, chunks)).counts == CountLines(d, ZERO, parts)
            && BufferedCounts(d, Flatten(chunks)) == CountLines(d, ZERO, BeforeLongLine(parts))
  {
    var stream := Flatten(chunks);
    ChunkingIrrelevant(d, START, chunks);
    FeedCountsLines(d, ZERO, "", stream);
    assert "" + stream == stream;
    ScanCounts(d, ZERO, Split(stream, '\n'));
  }

  /** On a stream the scanner can hold, the accumulator reports what the buffered
      form reports exactly when it found usage or content, or when the whole body
      is short enough to be estimated at one token. */
  lemma AccumulatorRefinesBuffered(d: Decoder, chunks: seq<string>)
    requires ShortLines(Split(Flatten(chunks), '\n'))
    ensures var stream := Flatten(chunks);
            AccumulatedUsage(d, FeedAll(d, START, chunks)) == BufferedUsage(d, stream)
            <==> Found(BufferedCounts(d, stream)) || 0 < |stream| < 2 * BYTES_PER_TOKEN
  {
    CountsOfBothForms(d, chunks);
    AllShortLines(Split(Flatten(chunks), '\n'));
  }

  /** Asking for the usage again changes nothing. */
  lemma UsageIsStable(d: Decoder, a: Acc)
    ensures AccumulatedUsage(d, Flush(d, a)) == AccumulatedUsage(d, a)
    ensures Flush(d, Flush(d, a)) == Flush(d, a)
  {
  }

  /** A stream of eight blank lines: the accumulator reports one token each way, the
      buffered form two. */
  lemma {:induction false} BlankStreamDiffers(d: Decoder)
    ensures var stream := ['\n', '\n', '\n', '\n', '\n', '\n', '\n', '\n'];
            && AccumulatedUsage(d, FeedAll(d, START, [stream])) == Usage(1, 1, true)
            && BufferedUsage(d, stream) == Usage(2, 2, true)
  {
    var stream := ['\n', '\n', '\n', '\n', '\n', '\n', '\n', '\n'];
    assert [stream][1..] == [] && stream + "" == stream;
    assert Flatten([stream]) == stream;
    BlankStreamCounts(d, stream);
  }

  lemma {:induction false} BlankStreamCounts(d: Decoder, stream: string)
    requires forall c | c in stream :: c == '\n'
    requires Flatten([stream]) == stream
    ensures Flush(d, FeedAll(d, START, [stream])).counts == ZERO && BufferedCounts(d, stream) == ZERO
  {
    var parts := Split(stream, '\n');
    SplitsBlank(stream);
    BlankLinesCountNothing(d, ZERO, parts);
    CountsOfBothForms(d, [stream]);
    AllShortLines(parts);
  }

  lemma {:induction false} SplitsBlank(stream: string)
    requires forall c | c in stream :: c == '\n'
    ensures forall p | p in Split(stream, '\n') :: p == ""
  {
    if stream == [] {
    } else {
      assert stream[0] in stream && forall c | c in stream[1..] :: c in stream;
      SplitsBlank(stream[1..]);
    }
  }

  lemma {:induction false} BlankLinesCountNothing(d: Decoder, c: Counts, lines: seq<string>)
    requires forall p | p in lines :: p == ""
    ensures CountLines(d, c, lines) == c
    decreases |lines|
  {
    if lines == [] {
    } else {
      assert lines[0] in lines && forall p | p in lines[1..] :: p in lines;
      BlankLineCountsNothing(d, c);
      BlankLinesCountNothing(d, c, lines[1..]);
    }
  }

  // ---------- what the counts mean ----------

  /** A payload is what follows `data:`, trimmed, unless that is empty or the end mark. */
  lemma {:induction false} PayloadMeans(line: string, p: string)
    ensures Payload(line) == Some(p)
            <==> "data:" <= line && p == TrimSpace(line[|"data:"|..]) && p != "" && p != "[DONE]"
  {
  }

  /** The usage a line reports, if any. */
  function Reported(d: Decoder, line: string): Option<(int, int)> {
    match Payload(TrimSpace(line))
    case None => None
    case Some(p) => d.usage(p)
  }

  function InputAt(d: Decoder, line: string): int {
    if Reported(d, line).Some? then Reported(d, line).value.0 else 0
  }

  function OutputAt(d: Decoder, line: string): int {
    if Reported(d, line).Some? then Reported(d, line).value.1 else 0
  }

  /** The bytes of content in the lines that report no usage. */
  function ContentBytes(d: Decoder, lines: seq<string>): nat {
    if lines == [] then 0
    else
      var last := lines[|lines| - 1];
      var payload := Payload(TrimSpace(last));
      ContentBytes(d, lines[..|lines| - 1])
      + if payload.Some? && d.usage(payload.value).None? then |d.content(payload.value)| else 0
  }

  /** The count is the last positive one the lines report, or zero if none does. */
  ghost predicate IsLast(lines: seq<string>, at: string -> int, count: int) {
    || (count == 0 && forall k | 0 <= k < |lines| :: at(lines[k]) <= 0)
    || (exists k | 0 <= k < |lines| ::
          at(lines[k]) == count && count > 0 && forall j | k < j < |lines| :: at(lines[j]) <= 0)
  }

  lemma {:induction false} CountLinesSnoc(d: Decoder, c: Counts, lines: seq<string>, line: string)
    ensures CountLines(d, c, lines + [line]) == CountLine(d, CountLines(d, c, lines), line)
    decreases |lines|
  {
    if lines == [] {
      assert (lines + [line])[1..] == [];
    } else {
      assert (lines + [line])[1..] == lines[1..] + [line];
      CountLinesSnoc(d, CountLine(d, c, lines[0]), lines[1..], line);
    }
  }

  lemma {:induction false} LastGrows(lines: seq<string>, line: string, at: string -> int, count: int)
    requires IsLast(lines, at, count)
    ensures IsLast(lines + [line], at, if at(line) > 0 then at(line) else count)
  {
    var all := lines + [line];
    if at(line) > 0 {
      assert all[|lines|] == line;
    } else if k :| 0 <= k < |lines| && at(lines[k]) == count && count > 0
                   && forall j | k < j < |lines| :: at(lines[j]) <= 0 {
      assert all[k] == lines[k];
    }
  }

  lemma {:induction false} LineCounts(d: Decoder, c: Counts, line: string)
    ensures var after := CountLine(d, c, line);
            && after.input == (if InputAt(d, line) > 0 then InputAt(d, line) else c.input)
            && after.output == (if OutputAt(d, line) > 0 then OutputAt(d, line) else c.output)
            && after.deltaLength == c.deltaLength + ContentBytes(d, [line])
  {
    assert [line][..0] == [];
  }

  lemma {:induction false} ContentSnoc(d: Decoder, lines: seq<string>, line: string)
    ensures ContentBytes(d, lines + [line]) == ContentBytes(d, lines) + ContentBytes(d, [line])
  {
    assert (lines + [line])[..|lines|] == lines && [line][..0] == [];
  }

  /** Input and output counts are each the last positive one reported, and the content is that
      of the lines that report none. */
  lemma {:induction false} CountsAreLast(d: Decoder, lines: seq<string>)
    ensures var c := CountLines(d, ZERO, lines);
            && IsLast(lines, line => InputAt(d, line), c.input)
            && IsLast(lines, line => OutputAt(d, line), c.output)
            && c.deltaLength == ContentBytes(d, lines)
  {
    if lines == [] {
    } else {
      var init, last := lines[..|lines| - 1], lines[|lines| - 1];
      assert lines == init + [last];
      CountsAreLast(d, init);
      CountLinesSnoc(d, ZERO, init, last);
      ContentSnoc(d, init, last);
      var c := CountLines(d, ZERO, init);
      LineCounts(d, c, last);
      LastGrows(init, last, line => InputAt(d, line), c.input);
      LastGrows(init, last, line => OutputAt(d, line), c.output);
    }
  }

  /** A token for every four bytes, rounded down, and one for fewer. */
  ghost predicate IsEstimate(bytes: int, tokens: int) {
    && (bytes <= 0 ==> tokens == 0)
    && (0 < bytes < 4 ==> tokens == 1)
    && (bytes >= 4 ==> 4 * tokens <= bytes < 4 * tokens + 4)
  }

  /** The usage is what the lines report last; without a report it is estimated from their content
      as output, and without content either it is the fallback. */
  ghost predicate Tells(d: Decoder, lines: seq<string>, fallback: Usage, usage: Usage) {
    if exists line | line in lines :: InputAt(d, line) > 0 || OutputAt(d, line) > 0 then
      && IsLast(lines, line => InputAt(d, line), usage.inputTokens)
      && IsLast(lines, line => OutputAt(d, line), usage.outputTokens) && !usage.estimated
    else if ContentBytes(d, lines) > 0 then
      usage.inputTokens == 0 && IsEstimate(ContentBytes(d, lines), usage.outputTokens) && usage.estimated
    else usage == fallback
  }

  lemma {:induction false} CountsTell(d: Decoder, lines: seq<string>, fallback: Usage)
    ensures Tells(d, lines, fallback, UsageOf(CountLines(d, ZERO, lines), fallback))
  {
    CountsAreLast(d, lines);
    var c := CountLines(d, ZERO, lines);
    if line :| line in lines && (InputAt(d, line) > 0 || OutputAt(d, line) > 0) {
      var k :| 0 <= k < |lines| && lines[k] == line;
      assert c.input > 0 || c.output > 0;
    }
  }

  /** However it is cut, a stream is billed the usage its lines tell, or one token each way. */
  lemma {:induction false} StreamTells(d: Decoder, chunks: seq<string>)
    ensures Tells(d, Split(Flatten(chunks), '\n'), Usage(1, 1, true),
                  AccumulatedUsage(d, FeedAll(d, START, chunks)))
  {
    CountsOfBothForms(d, chunks);
    CountsTell(d, Split(Flatten(chunks), '\n'), Usage(1, 1, true));
  }

  /** The buffered form tells that of the lines before the first too long, or an estimate of the body. */
  lemma {:induction false} BufferTells(d: Decoder, stream: string)
    ensures var estimate := EstimateTokens(|stream|);
            && IsEstimate(|stream|, estimate)
            && Tells(d, BeforeLongLine(Split(stream, '\n')), Usage(estimate, estimate, true), BufferedUsage(d, stream))
  {
    var estimate := EstimateTokens(|stream|);
    ScanCounts(d, ZERO, Split(stream, '\n'));
    CountsTell(d, BeforeLongLine(Split(stream, '\n')), Usage(estimate, estimate, true));
  }
}

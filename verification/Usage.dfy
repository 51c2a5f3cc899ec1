/** Reading token usage out of a provider's response, and the text of its events. */
module Usage {
  import opened Basics
  import opened JsonValues
  import opened Text
  import opened Wrappers

  datatype UsageData = UsageData(prompt: int, completion: int, cacheRead: int, cacheWrite: int, reported: bool)

  const NO_USAGE := UsageData(0, 0, 0, 0, false)

  function Max(a: int, b: int): int { if a < b then b else a }

  /** mergeUsage. */
  function Merge(a: UsageData, b: UsageData): UsageData {
    UsageData(Max(a.prompt, b.prompt), Max(a.completion, b.completion), Max(a.cacheRead, b.cacheRead),
              Max(a.cacheWrite, b.cacheWrite), a.reported || b.reported)
  }

  function MergeAll(us: seq<UsageData>): UsageData {
    if us == [] then NO_USAGE else Merge(MergeAll(us[..|us| - 1]), us[|us| - 1])
  }

  /** `b` reports at least as much as `a`, in every field. */
  predicate AtMost(a: UsageData, b: UsageData) {
    && a.prompt <= b.prompt && a.completion <= b.completion
    && a.cacheRead <= b.cacheRead && a.cacheWrite <= b.cacheWrite
    && (a.reported ==> b.reported)
  }

  /** Merging is the least upper bound: associative, commutative, idempotent,
      above both sides and below everything that is. */
  lemma MergeIsAJoin(a: UsageData, b: UsageData, c: UsageData)
    ensures Merge(a, Merge(b, c)) == Merge(Merge(a, b), c)
    ensures Merge(a, b) == Merge(b, a) && Merge(a, a) == a
    ensures AtMost(a, Merge(a, b))
    ensures AtMost(a, c) && AtMost(b, c) ==> AtMost(Merge(a, b), c)
  {
  }

  lemma {:induction false} MergeAllConcat(a: seq<UsageData>, b: seq<UsageData>)
    ensures MergeAll(a + b) == Merge(MergeAll(a), MergeAll(b))
    ensures AtMost(NO_USAGE, MergeAll(a))
  {
    if b == [] {
      assert a + b == a;
      if a != [] { MergeAllConcat(a[..|a| - 1], []); }
    } else {
      var n := |b| - 1;
      assert (a + b)[..|a + b| - 1] == a + b[..n];
      MergeAllConcat(a, b[..n]);
    }
  }

  // ---- Finding the usage objects ----

  const DATA := "data:"

  /** json.Unmarshal into a map: an object, or null for an empty one. */
  function AsObject(v: Option<Json>): seq<Object> {
    if v.Some? && v.value.JObject? then [v.value.o]
    else if v.Some? && v.value.JNull? then [map[]]
    else []
  }

  function AsObjects(values: seq<Json>): Option<seq<Object>> {
    if values == [] then Some([])
    else
      var rest := AsObjects(values[..|values| - 1]);
      var last := AsObject(Some(values[|values| - 1]));
      if rest.None? || last == [] then None else Some(rest.value + last)
  }

  /** The event an SSE line carries, if it is a data line that mentions usage. */
  function LineObjects(line: string, decode: Decoder): seq<Object> {
    var trimmed := Trim(line);
    if !(DATA <= trimmed) then []
    else
      var data := Trim(trimmed[|DATA|..]);
      if !Contains(data, "sage") then [] else AsObject(decode(data))
  }

  /** The line is blanks, "data:", blanks, this payload and blanks. */
  ghost predicate IsDataLine(line: string, payload: string) {
    Trimmed(payload) && exists left, middle, right ::
      && Blank(left) && Blank(middle) && Blank(right)
      && line == left + "data:" + middle + payload + right
  }

  lemma DataLineIsRead(line: string, payload: string)
    requires IsDataLine(line, payload)
    ensures DATA <= Trim(line) && Trim(Trim(line)[|DATA|..]) == payload
  {
    var left, middle, right :|
      && Blank(left) && Blank(middle) && Blank(right)
      && line == left + "data:" + middle + payload + right;
    if payload == "" {
      assert line == left + DATA + (middle + right);
      EmptyDataLineIsRead(left, middle + right);
    } else {
      assert line == left + (DATA + middle + payload) + right;
      FullDataLineIsRead(left, middle, payload, right);
    }
  }

  lemma EmptyDataLineIsRead(left: string, right: string)
    requires Blank(left) && Blank(right)
    ensures Trim(left + DATA + right) == DATA && Trim(DATA[|DATA|..]) == ""
  {
    TrimmedEnds(DATA);
    TrimOf(left, DATA, right);
    assert DATA[|DATA|..] == "";
  }

  lemma FullDataLineIsRead(left: string, middle: string, payload: string, right: string)
    requires Blank(left) && Blank(middle) && Trimmed(payload) && payload != "" && Blank(right)
    ensures var content := DATA + middle + payload;
            Trim(left + content + right) == content && Trim(content[|DATA|..]) == payload
  {
    var content := DATA + middle + payload;
    TrimmedEnds(payload);
    TrimmedEnds(content);
    TrimOf(left, content, right);
    assert content[|DATA|..] == middle + payload + "";
    TrimOf(middle, payload, "");
  }

  lemma FourParts(line: string, left: string, content: string, middle: string, payload: string, after: string,
                  right: string)
    requires line == left + content + right && DATA <= content && content[|DATA|..] == middle + payload + after
    ensures line == left + "data:" + middle + payload + (after + right)
  {
    assert content == DATA + content[|DATA|..];
  }

  lemma ReadLineIsADataLine(line: string)
    requires DATA <= Trim(line)
    ensures IsDataLine(line, Trim(Trim(line)[|DATA|..]))
  {
    var content := Trim(line);
    var left, right := TrimTakes(line);
    var middle, after := TrimTakes(content[|DATA|..]);
    FourParts(line, left, content, middle, Trim(content[|DATA|..]), after, right);
    assert Blank(after + right);
  }

  function LineReader(decode: Decoder): string -> seq<Object> {
    (line: string) => LineObjects(line, decode)
  }

  /** The decoded objects of a response: a JSON object, a JSON array, or events. */
  function Objects(body: string, decode: Decoder): seq<Object> {
    var trimmed := Trim(body);
    if trimmed == "" then []
    else if trimmed[0] == '{' then
      var v := decode(trimmed);
      if v.Some? && v.value.JObject? then [v.value.o] else []
    else if trimmed[0] == '[' then
      var v := decode(trimmed);
      if v.Some? && v.value.JArray? && AsObjects(v.value.a).Some? then AsObjects(v.value.a).value else []
    else FlatMap(Split(body, '\n'), LineReader(decode))
  }

  /** usageMapIn: usage, usageMetadata, response.usage or message.usage. */
  function UsageMapIn(parsed: Object): seq<Object> {
    if Inner(parsed, "usage") != [] then Inner(parsed, "usage")
    else if Inner(parsed, "usageMetadata") != [] then Inner(parsed, "usageMetadata")
    else if InnerUsage(parsed, "response") != [] then InnerUsage(parsed, "response")
    else InnerUsage(parsed, "message")
  }

  function Inner(parsed: Object, name: string): seq<Object> {
    if name in parsed && parsed[name].JObject? then [parsed[name].o] else []
  }

  function InnerUsage(parsed: Object, wrapper: string): seq<Object> {
    if Inner(parsed, wrapper) != [] then Inner(Inner(parsed, wrapper)[0], "usage") else []
  }

  function UsageReader(): Object -> seq<Object> { (parsed: Object) => UsageMapIn(parsed) }

  // ---- Reading one usage object ----

  /** jsonInt. */
  function IntAt(m: Object, key: string): int {
    if key in m && m[key].JNumber? then Truncate(m[key].n) else 0
  }

  function FirstNonZero(a: int, b: int): int { if a != 0 then a else b }

  function Cached(m: Object, details: string): int {
    if Inner(m, details) != [] then IntAt(Inner(m, details)[0], "cached_tokens") else 0
  }

  /** parseUsageMap. */
  function ParseUsage(m: Object, provider: string): UsageData {
    match provider
    case "anthropic" =>
      var write, read := IntAt(m, "cache_creation_input_tokens"), IntAt(m, "cache_read_input_tokens");
      UsageData(IntAt(m, "input_tokens") + write + read, IntAt(m, "output_tokens"), read, write, true)
    case "openai" =>
      UsageData(FirstNonZero(IntAt(m, "prompt_tokens"), IntAt(m, "input_tokens")),
                FirstNonZero(IntAt(m, "completion_tokens"), IntAt(m, "output_tokens")),
                FirstNonZero(Cached(m, "prompt_tokens_details"), Cached(m, "input_tokens_details")), 0, true)
    case "google" => UsageData(GeminiPrompt(m), GeminiCompletion(m), GeminiCached(m), 0, true)
    case _ =>
      UsageData(FirstNonZero(IntAt(m, "prompt_tokens"), IntAt(m, "input_tokens")),
                FirstNonZero(IntAt(m, "completion_tokens"), IntAt(m, "output_tokens")), 0, 0, true)
  }

  /** jsonIntEither. */
  function Either(m: Object, camel: string, snake: string): int {
    FirstNonZero(IntAt(m, camel), IntAt(m, snake))
  }

  function GeminiPrompt(m: Object): int {
    Either(m, "promptTokenCount", "prompt_token_count")
    + Either(m, "toolUsePromptTokenCount", "tool_use_prompt_token_count")
  }

  function GeminiCompletion(m: Object): int {
    Either(m, "candidatesTokenCount", "candidates_token_count")
    + Either(m, "thoughtsTokenCount", "thoughts_token_count")
  }

  function GeminiCached(m: Object): int {
    Either(m, "cachedContentTokenCount", "cached_content_token_count")
  }

  function UsageParser(provider: string): Object -> seq<UsageData> {
    (m: Object) => [ParseUsage(m, provider)]
  }

  /** The usage the decoded objects of a response report. */
  function ObjectsUsage(objects: seq<Object>, provider: string): UsageData {
    MergeAll(FlatMap(FlatMap(objects, UsageReader()), UsageParser(provider)))
  }

  /** The usage a response reports. */
  function Extracted(body: string, provider: string, decode: Decoder): UsageData {
    ObjectsUsage(Objects(body, decode), provider)
  }

  // ---- The loops ----

  method SseObjects(body: string, decode: Decoder) returns (objects: seq<Object>)
    ensures objects == FlatMap(Split(body, '\n'), LineReader(decode))
  {
    objects := [];
    var lines := Split(body, '\n');
    for i := 0 to |lines|
      invariant objects == FlatMap(lines[..i], LineReader(decode))
    {
      FlatMapNext(lines, i, LineReader(decode));
      var line := Trim(lines[i]);
      if !(DATA <= line) { continue; }
      var data := Trim(line[|DATA|..]);
      if !Contains(data, "sage") { continue; }
      objects := objects + AsObject(decode(data));
    }
    assert lines[..|lines|] == lines;
  }

  /** The objects of usageMaps that carry usage. */
  method UsageMaps(objects: seq<Object>) returns (maps: seq<Object>)
    ensures maps == FlatMap(objects, UsageReader())
  {
    maps := [];
    for i := 0 to |objects|
      invariant maps == FlatMap(objects[..i], UsageReader())
    {
      FlatMapNext(objects, i, UsageReader());
      maps := maps + UsageMapIn(objects[i]);
    }
    assert objects[..|objects|] == objects;
  }

  /** The merging loop of ExtractUsage. */
  method MergeMaps(maps: seq<Object>, provider: string) returns (usage: UsageData)
    ensures usage == MergeAll(FlatMap(maps, UsageParser(provider)))
  {
    usage := NO_USAGE;
    for i := 0 to |maps|
      invariant usage == MergeAll(FlatMap(maps[..i], UsageParser(provider)))
    {
      FlatMapNext(maps, i, UsageParser(provider));
      ghost var parsed := FlatMap(maps[..i], UsageParser(provider));
      assert (parsed + [ParseUsage(maps[i], provider)])[..|parsed|] == parsed;
      usage := Merge(usage, ParseUsage(maps[i], provider));
    }
    assert maps[..|maps|] == maps;
  }

  /** usageMaps and ExtractUsage. */
  method ExtractUsage(body: string, provider: string, decode: Decoder) returns (usage: UsageData)
    ensures usage == Extracted(body, provider, decode)
  {
    var objects := Objects(body, decode);
    var trimmed := Trim(body);
    if trimmed != "" && trimmed[0] != '{' && trimmed[0] != '[' {
      objects := SseObjects(body, decode);
    }
    var maps := UsageMaps(objects);
    usage := MergeMaps(maps, provider);
  }

  // ---- Streams ----

  /** The usage the lines of a stream report. */
  function LinesUsage(lines: seq<string>, provider: string, decode: Decoder): UsageData {
    ObjectsUsage(FlatMap(lines, LineReader(decode)), provider)
  }

  lemma ObjectsUsageConcat(a: seq<Object>, b: seq<Object>, provider: string)
    ensures ObjectsUsage(a + b, provider) == Merge(ObjectsUsage(a, provider), ObjectsUsage(b, provider))
    ensures AtMost(NO_USAGE, ObjectsUsage(a, provider))
  {
    FlatMapConcat(a, b, UsageReader());
    var us, vs := FlatMap(a, UsageReader()), FlatMap(b, UsageReader());
    FlatMapConcat(us, vs, UsageParser(provider));
    MergeAllConcat(FlatMap(us, UsageParser(provider)), FlatMap(vs, UsageParser(provider)));
  }

  lemma LinesUsageConcat(a: seq<string>, b: seq<string>, provider: string, decode: Decoder)
    ensures LinesUsage(a + b, provider, decode)
         == Merge(LinesUsage(a, provider, decode), LinesUsage(b, provider, decode))
  {
    FlatMapConcat(a, b, LineReader(decode));
    ObjectsUsageConcat(FlatMap(a, LineReader(decode)), FlatMap(b, LineReader(decode)), provider);
  }

  /** A body read as a stream: it does not start like JSON. */
  predicate IsStream(body: string) {
    TrimLeft(body) == "" || (TrimLeft(body)[0] != '{' && TrimLeft(body)[0] != '[')
  }

  lemma {:induction false} TrimLeftStart(s: string)
    ensures TrimLeft(s) != "" ==> !IsSpace(TrimLeft(s)[0])
    ensures TrimLeft(s) == "" ==> forall i :: 0 <= i < |s| ==> IsSpace(s[i])
  {
    if s != "" && IsSpace(s[0]) {
      TrimLeftStart(s[1..]);
      assert forall i :: 1 <= i < |s| ==> s[i] == s[1..][i - 1];
    }
  }

  lemma {:induction false} TrimRightKeepsStart(s: string)
    requires s != "" && !IsSpace(s[0])
    ensures TrimRight(s) != "" && TrimRight(s)[0] == s[0]
  {
    if IsSpace(s[|s| - 1]) { TrimRightKeepsStart(s[..|s| - 1]); }
  }

  lemma {:induction false} BlankTrims(s: string)
    requires forall i :: 0 <= i < |s| ==> IsSpace(s[i])
    ensures TrimLeft(s) == ""
  {
    if s != "" { BlankTrims(s[1..]); }
  }

  lemma {:induction false} PiecesOfBlank(s: string, sep: char)
    requires forall i :: 0 <= i < |s| ==> IsSpace(s[i])
    ensures forall k, i :: 0 <= k < |Split(s, sep)| && 0 <= i < |Split(s, sep)[k]| ==> IsSpace(Split(s, sep)[k][i])
  {
    if s != "" { PiecesOfBlank(s[1..], sep); }
  }

  lemma BlankLineReportsNothing(line: string, decode: Decoder)
    requires forall i :: 0 <= i < |line| ==> IsSpace(line[i])
    ensures LineReader(decode)(line) == []
  {
    BlankTrims(line);
  }

  lemma BlankTextCarriesNothing(s: string, decode: Decoder)
    requires forall i :: 0 <= i < |s| ==> IsSpace(s[i])
    ensures FlatMap(Split(s, '\n'), LineReader(decode)) == []
  {
    var lines := Split(s, '\n');
    PiecesOfBlank(s, '\n');
    BlankLinesReportNothing(lines, decode);
  }

  lemma BlankLinesReportNothing(lines: seq<string>, decode: Decoder)
    requires forall k, i :: 0 <= k < |lines| && 0 <= i < |lines[k]| ==> IsSpace(lines[k][i])
    ensures FlatMap(lines, LineReader(decode)) == []
  {
    forall k | 0 <= k < |lines| ensures LineReader(decode)(lines[k]) == [] {
      BlankLineReportsNothing(lines[k], decode);
    }
    FlatMapNothing(lines, LineReader(decode));
  }

  /** A stream is read line by line. */
  lemma StreamIsItsLines(body: string, provider: string, decode: Decoder)
    requires IsStream(body)
    ensures Extracted(body, provider, decode) == LinesUsage(Split(body, '\n'), provider, decode)
  {
    TrimLeftStart(body);
    if TrimLeft(body) == "" {
      BlankTextCarriesNothing(body, decode);
    } else {
      TrimRightKeepsStart(TrimLeft(body));
    }
  }

  lemma {:induction false} StreamOfStreams(a: string, b: string)
    requires IsStream(a) && IsStream(b)
    ensures IsStream(a + "\n" + b)
  {
    if a == "" {
      assert (a + "\n" + b)[1..] == b;
    } else if IsSpace(a[0]) {
      assert (a + "\n" + b)[1..] == a[1..] + "\n" + b;
      StreamOfStreams(a[1..], b);
    }
  }

  /** Two stretches of a stream report the merge of what each reports. */
  lemma UsageOfJoinedStreams(a: string, b: string, provider: string, decode: Decoder)
    requires IsStream(a) && IsStream(b)
    ensures Extracted(a + "\n" + b, provider, decode)
         == Merge(Extracted(a, provider, decode), Extracted(b, provider, decode))
  {
    StreamOfStreams(a, b);
    StreamIsItsLines(a, provider, decode);
    StreamIsItsLines(b, provider, decode);
    StreamIsItsLines(a + "\n" + b, provider, decode);
    SplitAtSeparator(a, b, '\n');
    LinesUsageConcat(Split(a, '\n'), Split(b, '\n'), provider, decode);
  }

  lemma CutLinesReportNoMore(lines: seq<string>, last: string, rest: string, provider: string, decode: Decoder)
    requires LinesUsage([last], provider, decode) == NO_USAGE
    ensures AtMost(LinesUsage(lines + [last], provider, decode),
                   LinesUsage(lines + Split(last + rest, '\n'), provider, decode))
  {
    LinesUsageConcat(lines, [last], provider, decode);
    LinesUsageConcat(lines, Split(last + rest, '\n'), provider, decode);
    ObjectsUsageConcat(FlatMap(lines, LineReader(decode)), [], provider);
  }

  lemma StreamWithItsLastLine(body: string, provider: string, decode: Decoder)
    requires IsStream(body)
    ensures var lines := Split(body, '\n');
            Extracted(body, provider, decode) == LinesUsage(AllButLast(lines) + [Last(lines)], provider, decode)
  {
    StreamIsItsLines(body, provider, decode);
    LastOnTheRight(Split(body, '\n'));
  }

  lemma StreamWithMore(a: string, b: string, provider: string, decode: Decoder)
    requires IsStream(a + b)
    ensures var lines := Split(a, '\n');
            Extracted(a + b, provider, decode)
            == LinesUsage(AllButLast(lines) + Split(Last(lines) + b, '\n'), provider, decode)
  {
    StreamIsItsLines(a + b, provider, decode);
    SplitMore(a, b, '\n');
  }

  /** A stream cut anywhere never reports more than the whole, as long as the
      line it broke reports nothing: a cut at a line boundary breaks none. */
  lemma CutStreamsReportNoMore(a: string, b: string, provider: string, decode: Decoder)
    requires IsStream(a) && IsStream(a + b)
    requires LinesUsage([Last(Split(a, '\n'))], provider, decode) == NO_USAGE
    ensures AtMost(Extracted(a, provider, decode), Extracted(a + b, provider, decode))
  {
    var lines := Split(a, '\n');
    StreamWithItsLastLine(a, provider, decode);
    StreamWithMore(a, b, provider, decode);
    CutLinesReportNoMore(AllButLast(lines), Last(lines), b, provider, decode);
  }

  lemma EmptyLineReportsNothing(provider: string, decode: Decoder)
    ensures LinesUsage([""], provider, decode) == NO_USAGE
  {
    assert LineReader(decode)("") == [];
    FlatMapNothing([""], LineReader(decode));
  }

  lemma CutAtALineBoundaryReportsNoMore(a: string, b: string, provider: string, decode: Decoder)
    requires IsStream(a + "\n") && IsStream(a + "\n" + b)
    ensures AtMost(Extracted(a + "\n", provider, decode), Extracted(a + "\n" + b, provider, decode))
  {
    assert Last(Split(a + "\n", '\n')) == "" by {
      SplitAtSeparator(a, "", '\n');
      assert a + "\n" + "" == a + "\n";
    }
    EmptyLineReportsNothing(provider, decode);
    CutStreamsReportNoMore(a + "\n", b, provider, decode);
  }

  // ---- Cumulative counts ----

  function MaxOf(values: seq<int>): int {
    if values == [] then 0 else Max(MaxOf(values[..|values| - 1]), values[|values| - 1])
  }

  /** The last count a stream actually reported: zero stands for a field an
      event left out. */
  function LastReported(values: seq<int>): int {
    if values == [] then 0
    else if values[|values| - 1] != 0 then values[|values| - 1]
    else LastReported(values[..|values| - 1])
  }

  ghost predicate Cumulative(values: seq<int>) {
    && (forall i :: 0 <= i < |values| ==> values[i] >= 0)
    && forall i, j :: 0 <= i < j < |values| && values[i] != 0 && values[j] != 0 ==> values[i] <= values[j]
  }

  lemma {:induction false} CumulativeCountsEndAtTheirLast(values: seq<int>)
    requires Cumulative(values)
    ensures MaxOf(values) == LastReported(values) >= 0
    ensures LastReported(values) == 0 || LastReported(values) in values
  {
    if values != [] {
      CumulativeCountsEndAtTheirLast(values[..|values| - 1]);
    }
  }

  function Field(us: seq<UsageData>, get: UsageData -> int): seq<int> {
    if us == [] then [] else Field(us[..|us| - 1], get) + [get(us[|us| - 1])]
  }

  function Prompt(): UsageData -> int { (u: UsageData) => u.prompt }
  function Completion(): UsageData -> int { (u: UsageData) => u.completion }
  function CacheRead(): UsageData -> int { (u: UsageData) => u.cacheRead }
  function CacheWrite(): UsageData -> int { (u: UsageData) => u.cacheWrite }

  lemma {:induction false} MergeIsMaxPerField(us: seq<UsageData>)
    ensures var m := MergeAll(us);
            && m.prompt == MaxOf(Field(us, Prompt())) && m.completion == MaxOf(Field(us, Completion()))
            && m.cacheRead == MaxOf(Field(us, CacheRead())) && m.cacheWrite == MaxOf(Field(us, CacheWrite()))
  {
    if us != [] { MergeIsMaxPerField(us[..|us| - 1]); }
  }

  /** For counts that are cumulative, each field of the result is the last value
      the stream reported for it. */
  lemma CumulativeStreamsReportTheirLast(us: seq<UsageData>)
    requires Cumulative(Field(us, Prompt())) && Cumulative(Field(us, Completion()))
    requires Cumulative(Field(us, CacheRead())) && Cumulative(Field(us, CacheWrite()))
    ensures var m := MergeAll(us);
            && m.prompt == LastReported(Field(us, Prompt())) && m.completion == LastReported(Field(us, Completion()))
            && m.cacheRead == LastReported(Field(us, CacheRead()))
            && m.cacheWrite == LastReported(Field(us, CacheWrite()))
  {
    MergeIsMaxPerField(us);
    CumulativeCountsEndAtTheirLast(Field(us, Prompt()));
    CumulativeCountsEndAtTheirLast(Field(us, Completion()));
    CumulativeCountsEndAtTheirLast(Field(us, CacheRead()));
    CumulativeCountsEndAtTheirLast(Field(us, CacheWrite()));
  }

  // ---- Cached tokens inside the prompt count ----

  /** The input counts of one Anthropic event: uncached, written, read. */
  datatype Input = Input(uncached: nat, write: nat, read: nat)

  /** Such an event as parseUsageMap reads it. */
  function InputUsage(i: Input): UsageData {
    UsageData(i.uncached + i.write + i.read, 0, i.read, i.write, true)
  }

  function Inputs(events: seq<Input>): seq<UsageData> {
    if events == [] then [] else Inputs(events[..|events| - 1]) + [InputUsage(events[|events| - 1])]
  }

  /** The broken-out cache counts lie inside the prompt count. */
  predicate CacheInsidePrompt(u: UsageData) {
    u.cacheRead + u.cacheWrite <= u.prompt
  }

  ghost predicate SameCacheCounts(a: seq<Input>, b: seq<Input>) {
    |a| == |b| && forall i :: 0 <= i < |a| ==> a[i].write == b[i].write && a[i].read == b[i].read
  }

  /** One event carries the largest write count and the largest read count. */
  ghost predicate OneEventHasBoth(events: seq<Input>) {
    || MaxBy(events, Write()) + MaxBy(events, Read()) == 0
    || exists i :: 0 <= i < |events|
                   && events[i].write == MaxBy(events, Write()) && events[i].read == MaxBy(events, Read())
  }

  function MaxBy(events: seq<Input>, count: Input -> nat): nat {
    if events == [] then 0 else Max(MaxBy(events[..|events| - 1], count), count(events[|events| - 1]))
  }

  function Total(): Input -> nat { (i: Input) => i.uncached + i.write + i.read }
  function Write(): Input -> nat { (i: Input) => i.write }
  function Read(): Input -> nat { (i: Input) => i.read }

  lemma {:induction false} MaxByBounds(events: seq<Input>, count: Input -> nat, i: nat)
    requires i < |events|
    ensures count(events[i]) <= MaxBy(events, count)
  {
    if i < |events| - 1 { MaxByBounds(events[..|events| - 1], count, i); }
  }

  lemma {:induction false} MaxByIsAttained(events: seq<Input>, count: Input -> nat) returns (i: nat)
    requires MaxBy(events, count) > 0
    ensures i < |events| && count(events[i]) == MaxBy(events, count)
  {
    i := |events| - 1;
    if count(events[i]) < MaxBy(events, count) { i := MaxByIsAttained(events[..i], count); }
  }

  lemma {:induction false} MergedInputs(events: seq<Input>)
    ensures var m := MergeAll(Inputs(events));
            && m.prompt == MaxBy(events, Total())
            && m.cacheWrite == MaxBy(events, Write()) && m.cacheRead == MaxBy(events, Read())
  {
    if events != [] {
      var n := |events| - 1;
      MergedInputs(events[..n]);
      assert Inputs(events)[..n] == Inputs(events[..n]) by { InputsLength(events[..n]); }
    }
  }

  lemma {:induction false} InputsLength(events: seq<Input>)
    ensures |Inputs(events)| == |events|
  {
    if events != [] { InputsLength(events[..|events| - 1]); }
  }

  lemma {:induction false} SameCachesMergeAlike(a: seq<Input>, b: seq<Input>)
    requires SameCacheCounts(a, b)
    ensures MaxBy(a, Write()) == MaxBy(b, Write()) && MaxBy(a, Read()) == MaxBy(b, Read())
  {
    if a != [] { SameCachesMergeAlike(a[..|a| - 1], b[..|b| - 1]); }
  }

  lemma BothInOneEventSuffice(events: seq<Input>)
    requires OneEventHasBoth(events)
    ensures CacheInsidePrompt(MergeAll(Inputs(events)))
  {
    MergedInputs(events);
    if MaxBy(events, Write()) + MaxBy(events, Read()) != 0 {
      var i :| 0 <= i < |events|
               && events[i].write == MaxBy(events, Write()) && events[i].read == MaxBy(events, Read());
      MaxByBounds(events, Total(), i);
    }
  }

  lemma BareEventsNeedBothInOne(bare: seq<Input>)
    requires forall i :: 0 <= i < |bare| ==> bare[i].uncached == 0
    requires CacheInsidePrompt(MergeAll(Inputs(bare)))
    ensures OneEventHasBoth(bare)
  {
    MergedInputs(bare);
    if MaxBy(bare, Total()) > 0 {
      var i := MaxByIsAttained(bare, Total());
      MaxByBounds(bare, Write(), i);
      MaxByBounds(bare, Read(), i);
    }
  }

  lemma SameCachesShareTheEvent(a: seq<Input>, b: seq<Input>)
    requires SameCacheCounts(a, b) && OneEventHasBoth(a)
    ensures OneEventHasBoth(b)
  {
    SameCachesMergeAlike(a, b);
    if MaxBy(a, Write()) + MaxBy(a, Read()) != 0 {
      var i :| 0 <= i < |a| && a[i].write == MaxBy(a, Write()) && a[i].read == MaxBy(a, Read());
      assert b[i].write == a[i].write && b[i].read == a[i].read;
    }
  }

  lemma LastRaisesTheMax(events: seq<Input>, count: Input -> nat)
    requires events != []
    requires forall i :: 0 <= i < |events| ==> count(events[i]) <= count(events[|events| - 1])
    ensures MaxBy(events, count) == count(events[|events| - 1])
  {
    if MaxBy(events, count) > 0 { var i := MaxByIsAttained(events, count); }
    MaxByBounds(events, count, |events| - 1);
  }

  /** Cumulative input counts meet that condition: of two events that carry
      input fields, the later one repeats or raises both cache counts. */
  lemma {:induction false} CumulativeInputsHaveBoth(events: seq<Input>)
    requires forall i, j :: 0 <= i < j < |events| && events[j] != Input(0, 0, 0) ==>
               events[i].write <= events[j].write && events[i].read <= events[j].read
    ensures OneEventHasBoth(events)
  {
    if events != [] {
      var n := |events| - 1;
      if events[n] != Input(0, 0, 0) {
        LastRaisesTheMax(events, Write());
        LastRaisesTheMax(events, Read());
      } else {
        CumulativeInputsHaveBoth(events[..n]);
        if MaxBy(events, Write()) + MaxBy(events, Read()) != 0 {
          var i :| 0 <= i < n && events[..n][i].write == MaxBy(events[..n], Write())
                   && events[..n][i].read == MaxBy(events[..n], Read());
          assert events[i] == events[..n][i];
        }
      }
    }
  }

  // ---- ... in what Anthropic responses report ----

  /** None of the input counts is negative. */
  predicate CountsUp(m: Object) {
    && IntAt(m, "input_tokens") >= 0 && IntAt(m, "cache_creation_input_tokens") >= 0
    && IntAt(m, "cache_read_input_tokens") >= 0
  }

  predicate AllCountUp(maps: seq<Object>) {
    forall i :: 0 <= i < |maps| ==> CountsUp(maps[i])
  }

  function InputOf(m: Object): Input
    requires CountsUp(m)
  {
    Input(IntAt(m, "input_tokens"), IntAt(m, "cache_creation_input_tokens"), IntAt(m, "cache_read_input_tokens"))
  }

  function InputsOf(maps: seq<Object>): (events: seq<Input>)
    requires AllCountUp(maps)
    ensures |events| == |maps| && forall i :: 0 <= i < |maps| ==> events[i] == InputOf(maps[i])
  {
    if maps == [] then []
    else
      var n := |maps| - 1;
      assert maps == maps[..n] + [maps[n]];
      InputsOf(maps[..n]) + [InputOf(maps[n])]
  }

  /** The usage objects of a response. */
  function UsageObjects(body: string, decode: Decoder): seq<Object> {
    FlatMap(Objects(body, decode), UsageReader())
  }

  function AnthropicUsage(maps: seq<Object>): UsageData {
    MergeAll(FlatMap(maps, UsageParser("anthropic")))
  }

  lemma AnthropicEventIsItsInputs(m: Object)
    requires CountsUp(m)
    ensures ParseUsage(m, "anthropic") == InputUsage(InputOf(m)).(completion := IntAt(m, "output_tokens"))
  {
  }

  lemma MergeOfOneMore(us: seq<UsageData>, u: UsageData)
    ensures MergeAll(us + [u]) == Merge(MergeAll(us), u)
  {
    assert (us + [u])[..|us|] == us;
  }

  predicate SameInputCounts(u: UsageData, v: UsageData) {
    u.prompt == v.prompt && u.cacheWrite == v.cacheWrite && u.cacheRead == v.cacheRead
  }

  lemma AnthropicUsageNext(maps: seq<Object>)
    requires maps != []
    ensures var n := |maps| - 1;
            AnthropicUsage(maps) == Merge(AnthropicUsage(maps[..n]), ParseUsage(maps[n], "anthropic"))
  {
    var n := |maps| - 1;
    FlatMapNext(maps, n, UsageParser("anthropic"));
    assert maps[..n + 1] == maps;
    MergeOfOneMore(FlatMap(maps[..n], UsageParser("anthropic")), ParseUsage(maps[n], "anthropic"));
  }

  lemma MergedInputsNext(events: seq<Input>, i: Input)
    ensures MergeAll(Inputs(events + [i])) == Merge(MergeAll(Inputs(events)), InputUsage(i))
  {
    assert (events + [i])[..|events|] == events;
    MergeOfOneMore(Inputs(events), InputUsage(i));
  }

  /** The input counts a response reports are those of its inputs merged. */
  lemma {:induction false} AnthropicUsageIsItsInputs(maps: seq<Object>)
    requires AllCountUp(maps)
    ensures SameInputCounts(AnthropicUsage(maps), MergeAll(Inputs(InputsOf(maps))))
  {
    if maps != [] {
      var n := |maps| - 1;
      AnthropicUsageIsItsInputs(maps[..n]);
      AnthropicUsageNext(maps);
      AnthropicEventIsItsInputs(maps[n]);
      MergedInputsNext(InputsOf(maps[..n]), InputOf(maps[n]));
    }
  }

  ghost predicate SameCaches(maps: seq<Object>, others: seq<Object>)
    requires AllCountUp(maps)
  {
    AllCountUp(others) && SameCacheCounts(InputsOf(maps), InputsOf(others))
  }

  /** The same usage objects, with nothing uncached. */
  function Bare(maps: seq<Object>): (bare: seq<Object>)
    requires AllCountUp(maps)
    ensures AllCountUp(bare) && SameCaches(maps, bare)
    ensures forall i :: 0 <= i < |bare| ==> InputsOf(bare)[i].uncached == 0
  {
    var bare := seq(|maps|, i requires 0 <= i < |maps| => maps[i]["input_tokens" := JNumber(0.0)]);
    assert forall i :: 0 <= i < |maps| ==>
      && IntAt(bare[i], "cache_creation_input_tokens") == IntAt(maps[i], "cache_creation_input_tokens")
      && IntAt(bare[i], "cache_read_input_tokens") == IntAt(maps[i], "cache_read_input_tokens")
      && IntAt(bare[i], "input_tokens") == 0;
    bare
  }

  /** Taking field maxima keeps the cache counts of a response inside its prompt
      count, whatever its uncached counts, exactly when a single event attains both
      cache maxima. */
  lemma CacheInsidePromptExactlyWhen(maps: seq<Object>)
    requires AllCountUp(maps)
    ensures (forall others :: SameCaches(maps, others) ==> CacheInsidePrompt(AnthropicUsage(others)))
            <==> OneEventHasBoth(InputsOf(maps))
  {
    if OneEventHasBoth(InputsOf(maps)) {
      forall others | SameCaches(maps, others) ensures CacheInsidePrompt(AnthropicUsage(others)) {
        SameCachesShareTheEvent(InputsOf(maps), InputsOf(others));
        BothInOneEventSuffice(InputsOf(others));
        AnthropicUsageIsItsInputs(others);
      }
    }
    if forall others :: SameCaches(maps, others) ==> CacheInsidePrompt(AnthropicUsage(others)) {
      var bare := Bare(maps);
      AnthropicUsageIsItsInputs(bare);
      BareEventsNeedBothInOne(InputsOf(bare));
      SameCachesShareTheEvent(InputsOf(bare), InputsOf(maps));
    }
  }

  /** Cumulative cache counts: of two events that carry input fields, the later one
      repeats or raises both. */
  predicate CachesRise(maps: seq<Object>)
    requires AllCountUp(maps)
  {
    forall i, j :: 0 <= i < j < |maps| && InputOf(maps[j]) != Input(0, 0, 0) ==>
      InputOf(maps[i]).write <= InputOf(maps[j]).write && InputOf(maps[i]).read <= InputOf(maps[j]).read
  }

  /** So every response whose cache counts are cumulative is reported with its cache
      counts inside its prompt count. */
  lemma CumulativeResponsesKeepCacheInsidePrompt(body: string, decode: Decoder)
    requires AllCountUp(UsageObjects(body, decode)) && CachesRise(UsageObjects(body, decode))
    ensures CacheInsidePrompt(Extracted(body, "anthropic", decode))
  {
    var maps := UsageObjects(body, decode);
    CumulativeInputsHaveBoth(InputsOf(maps));
    BothInOneEventSuffice(InputsOf(maps));
    AnthropicUsageIsItsInputs(maps);
  }

  // ---- The text an output filter judges ----

  /** The content of a data line, unless it is empty or the end marker. */
  function LineText(line: string): string {
    var trimmed := Trim(line);
    if !(DATA <= trimmed) then ""
    else
      var payload := Trim(trimmed[|DATA|..]);
      if payload == "" || payload == "[DONE]" then "" else payload + "\n"
  }

  function TextReader(): string -> string { (line: string) => LineText(line) }

  /** The text the data lines of a stream carry. */
  function StreamText(body: string): string {
    FlatMap(Split(body, '\n'), TextReader())
  }

  /** sseText. */
  method SseText(body: string) returns (out: string)
    ensures out == StreamText(body)
  {
    out := "";
    var lines := Split(body, '\n');
    for i := 0 to |lines|
      invariant out == FlatMap(lines[..i], TextReader())
    {
      FlatMapNext(lines, i, TextReader());
      var line := Trim(lines[i]);
      if !(DATA <= line) { continue; }
      var payload := Trim(line[|DATA|..]);
      if payload == "" || payload == "[DONE]" { continue; }
      out := out + payload + "\n";
    }
    assert lines[..|lines|] == lines;
  }

  lemma StreamTextOfJoined(a: string, b: string)
    ensures StreamText(a + "\n" + b) == StreamText(a) + StreamText(b)
  {
    SplitAtSeparator(a, b, '\n');
    FlatMapConcat(Split(a, '\n'), Split(b, '\n'), TextReader());
  }

  lemma LineCarriesItsText(line: string)
    requires '\n' !in line
    ensures StreamText(line) == LineText(line)
  {
    SplitOfPiece(line, '\n');
    FlatMapConcat([], [line], TextReader());
    assert FlatMap([line], TextReader()) == FlatMap([], TextReader()) + TextReader()(line);
  }

  lemma TextAroundALine(a: string, line: string, b: string)
    requires '\n' !in line
    ensures StreamText(a + "\n" + line + "\n" + b) == StreamText(a) + LineText(line) + StreamText(b)
  {
    StreamTextOfJoined(a + "\n" + line, b);
    StreamTextOfJoined(a, line);
    LineCarriesItsText(line);
  }

  /** No event escapes the filter: the payload of every data line but an empty one
      and the end marker is in the judged text, whole and on a line of its own,
      between what comes before it and after it. */
  lemma EveryPayloadIsJudged(a: string, line: string, payload: string, b: string)
    requires '\n' !in line && IsDataLine(line, payload) && payload != "" && payload != "[DONE]"
    ensures StreamText(a + "\n" + line + "\n" + b) == StreamText(a) + (payload + "\n") + StreamText(b)
  {
    TextAroundALine(a, line, b);
    DataLineIsRead(line, payload);
  }

  /** And nothing else is in it: a body without lines has no text, and every other
      line adds none. */
  lemma NothingElseIsJudged(a: string, line: string, b: string)
    requires '\n' !in line && forall payload :: IsDataLine(line, payload) ==> payload == "" || payload == "[DONE]"
    ensures StreamText(a + "\n" + line + "\n" + b) == StreamText(a) + StreamText(b)
    ensures StreamText(line) == ""
  {
    TextAroundALine(a, line, b);
    LineCarriesItsText(line);
    if DATA <= Trim(line) { ReadLineIsADataLine(line); }
  }
}

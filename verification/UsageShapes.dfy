/** What the providers bill for, as each writes it into its responses, and the way
    back: however it is placed and sent, exactly those counts are extracted. */
module UsageShapes {
  import opened Basics
  import opened JsonValues
  import opened Text
  import opened Usage
  import opened Wrappers

  // ---- The shapes ----

  /** The counts of one usage object, shape by shape. */
  datatype Bill =
    | ChatCompletion(prompt: nat, completion: nat, cached: nat)
    | OpenAIResponse(input: nat, output: nat, cached: nat)
    | Claude(uncached: nat, written: nat, read: nat, output: nat)
    | Gemini(prompt: nat, toolUse: nat, candidates: nat, thoughts: nat, cached: nat)
    | OtherProvider(prompt: nat, completion: nat)

  predicate BilledBy(b: Bill, provider: string) {
    match b
    case ChatCompletion(_, _, _) => provider == "openai"
    case OpenAIResponse(_, _, _) => provider == "openai"
    case Claude(_, _, _, _) => provider == "anthropic"
    case Gemini(_, _, _, _, _) => provider == "google"
    case OtherProvider(_, _) => provider !in {"openai", "anthropic", "google"}
  }

  /** The field holds this count; a field that is left out holds zero. */
  predicate Holds(m: Object, field: string, n: nat) {
    if field in m then m[field] == JNumber(n as real) else n == 0
  }

  /** One of the two spellings holds it, and the other is left out. */
  predicate OneHolds(m: Object, a: string, b: string, n: nat) {
    (b !in m && Holds(m, a, n)) || (a !in m && Holds(m, b, n))
  }

  /** The cached count in an object of details. */
  ghost predicate DetailsHold(m: Object, details: string, n: nat) {
    if details in m then exists d: Object :: m[details] == JObject(d) && Holds(d, "cached_tokens", n) else n == 0
  }

  ghost predicate WritesChatCompletion(m: Object, prompt: nat, completion: nat, cached: nat) {
    && "input_tokens" !in m && "output_tokens" !in m && "input_tokens_details" !in m
    && Holds(m, "prompt_tokens", prompt) && Holds(m, "completion_tokens", completion)
    && DetailsHold(m, "prompt_tokens_details", cached)
  }

  ghost predicate WritesOpenAIResponse(m: Object, input: nat, output: nat, cached: nat) {
    && "prompt_tokens" !in m && "completion_tokens" !in m && "prompt_tokens_details" !in m
    && Holds(m, "input_tokens", input) && Holds(m, "output_tokens", output)
    && DetailsHold(m, "input_tokens_details", cached)
  }

  predicate WritesClaude(m: Object, uncached: nat, written: nat, read: nat, output: nat) {
    && Holds(m, "input_tokens", uncached) && Holds(m, "cache_creation_input_tokens", written)
    && Holds(m, "cache_read_input_tokens", read) && Holds(m, "output_tokens", output)
  }

  predicate WritesGemini(m: Object, prompt: nat, toolUse: nat, candidates: nat, thoughts: nat, cached: nat) {
    && OneHolds(m, "promptTokenCount", "prompt_token_count", prompt)
    && OneHolds(m, "toolUsePromptTokenCount", "tool_use_prompt_token_count", toolUse)
    && OneHolds(m, "candidatesTokenCount", "candidates_token_count", candidates)
    && OneHolds(m, "thoughtsTokenCount", "thoughts_token_count", thoughts)
    && OneHolds(m, "cachedContentTokenCount", "cached_content_token_count", cached)
  }

  predicate WritesOther(m: Object, prompt: nat, completion: nat) {
    && OneHolds(m, "prompt_tokens", "input_tokens", prompt)
    && OneHolds(m, "completion_tokens", "output_tokens", completion)
  }

  /** The object holds these counts under the names of its shape, whatever else it
      holds, but nothing under the other shape's names. */
  ghost predicate Writes(m: Object, b: Bill) {
    match b
    case ChatCompletion(prompt, completion, cached) => WritesChatCompletion(m, prompt, completion, cached)
    case OpenAIResponse(input, output, cached) => WritesOpenAIResponse(m, input, output, cached)
    case Claude(uncached, written, read, output) => WritesClaude(m, uncached, written, read, output)
    case Gemini(prompt, toolUse, candidates, thoughts, cached) =>
      WritesGemini(m, prompt, toolUse, candidates, thoughts, cached)
    case OtherProvider(prompt, completion) => WritesOther(m, prompt, completion)
  }

  /** What is to be reported: all input and all output that is billed, cached input
      inside the prompt, reasoning inside the completion. */
  function Due(b: Bill): UsageData {
    match b
    case ChatCompletion(prompt, completion, cached) => UsageData(prompt, completion, cached, 0, true)
    case OpenAIResponse(input, output, cached) => UsageData(input, output, cached, 0, true)
    case Claude(uncached, written, read, output) => UsageData(uncached + written + read, output, read, written, true)
    case Gemini(prompt, toolUse, candidates, thoughts, cached) =>
      UsageData(prompt + toolUse, candidates + thoughts, cached, 0, true)
    case OtherProvider(prompt, completion) => UsageData(prompt, completion, 0, 0, true)
  }

  lemma HeldCountIsRead(m: Object, field: string, n: nat)
    requires Holds(m, field, n)
    ensures IntAt(m, field) == n
  {
  }

  lemma EitherCountIsRead(m: Object, a: string, b: string, n: nat)
    requires OneHolds(m, a, b, n)
    ensures Either(m, a, b) == n
  {
  }

  lemma DetailsAreRead(m: Object, details: string, n: nat)
    requires DetailsHold(m, details, n)
    ensures Cached(m, details) == n
  {
    if details in m {
      var d: Object :| m[details] == JObject(d) && Holds(d, "cached_tokens", n);
      HeldCountIsRead(d, "cached_tokens", n);
    }
  }

  lemma ChatCompletionIsRead(m: Object, prompt: nat, completion: nat, cached: nat)
    requires WritesChatCompletion(m, prompt, completion, cached)
    ensures ParseUsage(m, "openai") == UsageData(prompt, completion, cached, 0, true)
  {
    HeldCountIsRead(m, "prompt_tokens", prompt);
    HeldCountIsRead(m, "completion_tokens", completion);
    DetailsAreRead(m, "prompt_tokens_details", cached);
  }

  lemma OpenAIResponseIsRead(m: Object, input: nat, output: nat, cached: nat)
    requires WritesOpenAIResponse(m, input, output, cached)
    ensures ParseUsage(m, "openai") == UsageData(input, output, cached, 0, true)
  {
    HeldCountIsRead(m, "input_tokens", input);
    HeldCountIsRead(m, "output_tokens", output);
    DetailsAreRead(m, "input_tokens_details", cached);
  }

  lemma ClaudeIsRead(m: Object, uncached: nat, written: nat, read: nat, output: nat)
    requires WritesClaude(m, uncached, written, read, output)
    ensures ParseUsage(m, "anthropic") == UsageData(uncached + written + read, output, read, written, true)
  {
  }

  lemma GeminiPromptIsRead(m: Object, prompt: nat, toolUse: nat)
    requires OneHolds(m, "promptTokenCount", "prompt_token_count", prompt)
    requires OneHolds(m, "toolUsePromptTokenCount", "tool_use_prompt_token_count", toolUse)
    ensures GeminiPrompt(m) == prompt + toolUse
  {
    EitherCountIsRead(m, "promptTokenCount", "prompt_token_count", prompt);
    EitherCountIsRead(m, "toolUsePromptTokenCount", "tool_use_prompt_token_count", toolUse);
  }

  lemma GeminiCompletionIsRead(m: Object, candidates: nat, thoughts: nat)
    requires OneHolds(m, "candidatesTokenCount", "candidates_token_count", candidates)
    requires OneHolds(m, "thoughtsTokenCount", "thoughts_token_count", thoughts)
    ensures GeminiCompletion(m) == candidates + thoughts
  {
    EitherCountIsRead(m, "candidatesTokenCount", "candidates_token_count", candidates);
    EitherCountIsRead(m, "thoughtsTokenCount", "thoughts_token_count", thoughts);
  }

  lemma GeminiCountsAreRead(m: Object, prompt: nat, toolUse: nat, candidates: nat, thoughts: nat, cached: nat)
    requires WritesGemini(m, prompt, toolUse, candidates, thoughts, cached)
    ensures GeminiPrompt(m) == prompt + toolUse && GeminiCompletion(m) == candidates + thoughts
    ensures GeminiCached(m) == cached
  {
    GeminiPromptIsRead(m, prompt, toolUse);
    GeminiCompletionIsRead(m, candidates, thoughts);
    EitherCountIsRead(m, "cachedContentTokenCount", "cached_content_token_count", cached);
  }

  lemma GeminiIsRead(m: Object, b: Bill)
    requires b.Gemini?
    requires GeminiPrompt(m) == b.prompt + b.toolUse && GeminiCompletion(m) == b.candidates + b.thoughts
    requires GeminiCached(m) == b.cached
    ensures ParseUsage(m, "google") == Due(b)
  {
  }

  lemma OtherProviderIsRead(m: Object, prompt: nat, completion: nat, provider: string)
    requires WritesOther(m, prompt, completion) && provider !in {"openai", "anthropic", "google"}
    ensures ParseUsage(m, provider) == UsageData(prompt, completion, 0, 0, true)
  {
    EitherCountIsRead(m, "prompt_tokens", "input_tokens", prompt);
    EitherCountIsRead(m, "completion_tokens", "output_tokens", completion);
  }

  lemma OpenAIBillIsRead(m: Object, b: Bill)
    requires Writes(m, b) && (b.ChatCompletion? || b.OpenAIResponse?)
    ensures ParseUsage(m, "openai") == Due(b)
  {
    if b.ChatCompletion? {
      ChatCompletionIsRead(m, b.prompt, b.completion, b.cached);
    } else {
      OpenAIResponseIsRead(m, b.input, b.output, b.cached);
    }
  }

  lemma GeminiBillIsRead(m: Object, b: Bill)
    requires Writes(m, b) && b.Gemini?
    ensures ParseUsage(m, "google") == Due(b)
  {
    GeminiCountsAreRead(m, b.prompt, b.toolUse, b.candidates, b.thoughts, b.cached);
    GeminiIsRead(m, b);
  }

  /** A usage object of any shape is read as the counts it was written from, each in
      its own field. */
  lemma BillIsRead(m: Object, b: Bill, provider: string)
    requires Writes(m, b) && BilledBy(b, provider)
    ensures ParseUsage(m, provider) == Due(b)
  {
    match b
    case ChatCompletion(_, _, _) => OpenAIBillIsRead(m, b);
    case OpenAIResponse(_, _, _) => OpenAIBillIsRead(m, b);
    case Claude(uncached, written, read, output) => ClaudeIsRead(m, uncached, written, read, output);
    case Gemini(_, _, _, _, _) => GeminiBillIsRead(m, b);
    case OtherProvider(prompt, completion) => OtherProviderIsRead(m, prompt, completion, provider);
  }

  // ---- Where a response has it ----

  datatype Place = TopLevel | Metadata | InResponse | InMessage

  /** The object has this object under the name. */
  predicate Has(outer: Object, name: string, inner: Object) {
    name in outer && outer[name] == JObject(inner)
  }

  ghost predicate HasUsageIn(outer: Object, wrapper: string, u: Object) {
    exists inner: Object :: Has(outer, wrapper, inner) && Has(inner, "usage", u)
  }

  ghost predicate StandsAt(outer: Object, place: Place, u: Object) {
    match place
    case TopLevel => Has(outer, "usage", u)
    case Metadata => Has(outer, "usageMetadata", u)
    case InResponse => HasUsageIn(outer, "response", u)
    case InMessage => HasUsageIn(outer, "message", u)
  }

  function Rank(place: Place): nat {
    match place
    case TopLevel => 0
    case Metadata => 1
    case InResponse => 2
    case InMessage => 3
  }

  /** The usage object of a response is the first of those it has. */
  ghost predicate Carries(outer: Object, u: Object) {
    exists place ::
      StandsAt(outer, place, u) && forall p, v :: Rank(p) < Rank(place) ==> !StandsAt(outer, p, v)
  }

  function At(outer: Object, place: Place): seq<Object> {
    match place
    case TopLevel => Inner(outer, "usage")
    case Metadata => Inner(outer, "usageMetadata")
    case InResponse => InnerUsage(outer, "response")
    case InMessage => InnerUsage(outer, "message")
  }

  lemma InnerExactly(outer: Object, name: string)
    ensures Inner(outer, name) == [] || Inner(outer, name) == [Inner(outer, name)[0]]
    ensures forall v :: Has(outer, name, v) <==> Inner(outer, name) == [v]
  {
  }

  lemma InnerUsageExactly(outer: Object, wrapper: string)
    ensures forall v :: HasUsageIn(outer, wrapper, v) <==> InnerUsage(outer, wrapper) == [v]
  {
    InnerExactly(outer, wrapper);
    if Inner(outer, wrapper) != [] {
      var inner := Inner(outer, wrapper)[0];
      assert Has(outer, wrapper, inner);
      InnerExactly(inner, "usage");
    }
  }

  lemma AtExactly(outer: Object, place: Place)
    ensures |At(outer, place)| <= 1
    ensures forall v :: StandsAt(outer, place, v) <==> At(outer, place) == [v]
    ensures At(outer, place) == [] <==> forall v :: !StandsAt(outer, place, v)
  {
    InnerExactly(outer, "usage");
    InnerExactly(outer, "usageMetadata");
    InnerUsageExactly(outer, "response");
    InnerUsageExactly(outer, "message");
    if At(outer, place) != [] { assert StandsAt(outer, place, At(outer, place)[0]); }
  }

  lemma FirstPlaceCounts(outer: Object, place: Place)
    requires forall p :: Rank(p) < Rank(place) ==> At(outer, p) == []
    requires At(outer, place) != [] || place.InMessage?
    ensures UsageMapIn(outer) == At(outer, place)
  {
    assert forall p: Place :: Rank(p) < Rank(place) ==> At(outer, p) == [];
    assert Rank(TopLevel) < Rank(Metadata) < Rank(InResponse) < Rank(InMessage);
    if !place.TopLevel? { assert At(outer, TopLevel) == []; }
    if place.InResponse? || place.InMessage? { assert At(outer, Metadata) == []; }
    if place.InMessage? { assert At(outer, InResponse) == []; }
  }

  lemma FirstPlace(outer: Object) returns (place: Place)
    ensures forall p :: Rank(p) < Rank(place) ==> At(outer, p) == []
    ensures UsageMapIn(outer) == At(outer, place)
  {
    place := if At(outer, TopLevel) != [] then TopLevel
             else if At(outer, Metadata) != [] then Metadata
             else if At(outer, InResponse) != [] then InResponse
             else InMessage;
    FirstPlaceCounts(outer, place);
  }

  /** The usage object that is found is the one the response carries, and none is
      found where it carries none. */
  lemma UsageIsFoundExactly(outer: Object)
    ensures UsageMapIn(outer) == [] <==> forall u :: !Carries(outer, u)
    ensures forall u :: Carries(outer, u) <==> UsageMapIn(outer) == [u]
  {
    forall p ensures |At(outer, p)| <= 1 && forall v :: StandsAt(outer, p, v) <==> At(outer, p) == [v] {
      AtExactly(outer, p);
    }
    var first := FirstPlace(outer);
    forall u ensures Carries(outer, u) <==> UsageMapIn(outer) == [u] {
      if Carries(outer, u) { CarriedIsAtTheFirst(outer, first, u); }
    }
    if UsageMapIn(outer) != [] { assert Carries(outer, UsageMapIn(outer)[0]); }
  }

  lemma CarriedIsAtTheFirst(outer: Object, first: Place, u: Object)
    requires Carries(outer, u)
    requires forall p :: Rank(p) < Rank(first) ==> At(outer, p) == []
    requires UsageMapIn(outer) == At(outer, first)
    ensures UsageMapIn(outer) == [u]
  {
    var place :| StandsAt(outer, place, u) && forall p, v :: Rank(p) < Rank(place) ==> !StandsAt(outer, p, v);
    AtExactly(outer, place);
    forall p | Rank(p) < Rank(place) ensures At(outer, p) == [] {
      AtExactly(outer, p);
    }
    FirstPlaceCounts(outer, place);
  }

  // ---- What is extracted ----

  /** A decoded object carries the usage object of a bill, or none (None). */
  ghost predicate Reports(outer: Object, bill: Option<Bill>, provider: string) {
    match bill
    case Some(b) => BilledBy(b, provider) && exists u :: Carries(outer, u) && Writes(u, b)
    case None => forall u :: !Carries(outer, u)
  }

  ghost predicate AllReport(outers: seq<Object>, bills: seq<Option<Bill>>, provider: string) {
    |outers| == |bills| && forall i :: 0 <= i < |bills| ==> Reports(outers[i], bills[i], provider)
  }

  function DueOf(bill: Option<Bill>): UsageData {
    if bill.Some? then Due(bill.value) else NO_USAGE
  }

  /** The largest value of each field over the bills. */
  function DueOfAll(bills: seq<Option<Bill>>): UsageData {
    if bills == [] then NO_USAGE else Merge(DueOfAll(bills[..|bills| - 1]), DueOf(bills[|bills| - 1]))
  }

  lemma FoundUsageIsDue(outer: Object, u: Object, b: Bill, provider: string)
    requires UsageMapIn(outer) == [u] && Writes(u, b) && BilledBy(b, provider)
    ensures ObjectsUsage([outer], provider) == Due(b)
  {
    BillIsRead(u, b, provider);
    FlatMapOne(outer, UsageReader());
    FlatMapOne(u, UsageParser(provider));
    MergeOfOneMore([], Due(b));
    assert [] + [Due(b)] == [Due(b)];
  }

  lemma OneObjectsUsage(outer: Object, bill: Option<Bill>, provider: string)
    requires Reports(outer, bill, provider)
    ensures ObjectsUsage([outer], provider) == DueOf(bill)
  {
    UsageIsFoundExactly(outer);
    if bill.Some? {
      var u :| Carries(outer, u) && Writes(u, bill.value);
      FoundUsageIsDue(outer, u, bill.value, provider);
    } else {
      FlatMapOne(outer, UsageReader());
    }
  }

  lemma NothingInNothing()
    ensures UsageMapIn(map[]) == []
  {
  }

  lemma NothingIsDueOfNothing(provider: string)
    ensures ObjectsUsage([], provider) == NO_USAGE && ObjectsUsage([map[]], provider) == NO_USAGE
  {
    assert FlatMap([], UsageReader()) == [];
    FlatMapOne(map[], UsageReader());
    NothingInNothing();
  }

  lemma LastObjectIsMerged(outers: seq<Object>, provider: string)
    requires outers != []
    ensures var n := |outers| - 1;
            ObjectsUsage(outers, provider) == Merge(ObjectsUsage(outers[..n], provider),
                                                    ObjectsUsage([outers[n]], provider))
  {
    var n := |outers| - 1;
    ObjectsUsageConcat(outers[..n], [outers[n]], provider);
    assert outers[..n] + [outers[n]] == outers;
  }

  lemma {:induction false} ObjectsUsageIsDue(outers: seq<Object>, bills: seq<Option<Bill>>, provider: string)
    requires AllReport(outers, bills, provider)
    ensures ObjectsUsage(outers, provider) == DueOfAll(bills)
  {
    if outers == [] {
      NothingIsDueOfNothing(provider);
    } else {
      var n := |outers| - 1;
      ObjectsUsageIsDue(outers[..n], bills[..n], provider);
      OneObjectsUsage(outers[n], bills[n], provider);
      LastObjectIsMerged(outers, provider);
    }
  }

  lemma JsonReportsItsBill(body: string, outer: Object, bill: Option<Bill>, provider: string, decode: Decoder)
    requires Trim(body) != "" && Trim(body)[0] == '{'
    requires decode(Trim(body)) == Some(JObject(outer)) && Reports(outer, bill, provider)
    ensures Extracted(body, provider, decode) == DueOf(bill)
  {
    OneObjectsUsage(outer, bill, provider);
    assert Objects(body, decode) == [outer];
  }

  /** A JSON body, blanks around it or not: exactly the counts it was written from. */
  lemma BodyReportsItsBill(left: string, text: string, right: string, outer: Object, bill: Option<Bill>,
                           provider: string, decode: Decoder)
    requires Blank(left) && Blank(right) && Trimmed(text) && text != "" && text[0] == '{'
    requires decode(text) == Some(JObject(outer)) && Reports(outer, bill, provider)
    ensures Extracted(left + text + right, provider, decode) == DueOf(bill)
  {
    TrimOf(left, text, right);
    JsonReportsItsBill(left + text + right, outer, bill, provider, decode);
  }

  lemma TrimmedTrims(text: string)
    requires Trimmed(text)
    ensures Trim(text) == text
  {
    TrimOf("", text, "");
    assert "" + text + "" == text;
  }

  lemma TextReportsItsBill(text: string, outer: Object, bill: Bill, provider: string, decode: Decoder)
    requires Trimmed(text) && text != "" && text[0] == '{' && decode(text) == Some(JObject(outer))
    requires Reports(outer, Some(bill), provider)
    ensures Extracted(text, provider, decode) == Due(bill)
  {
    TrimmedTrims(text);
    JsonReportsItsBill(text, outer, Some(bill), provider, decode);
  }

  /** An array element as Go takes it: an object, or null for an empty one. */
  predicate IsElement(value: Json, outer: Object) {
    value == JObject(outer) || (value.JNull? && outer == map[])
  }

  predicate AreElements(values: seq<Json>, outers: seq<Object>) {
    |values| == |outers| && forall i :: 0 <= i < |values| ==> IsElement(values[i], outers[i])
  }

  lemma {:induction false} ElementsExactly(values: seq<Json>)
    ensures forall outers :: AreElements(values, outers) ==> AsObjects(values) == Some(outers)
    ensures AsObjects(values).Some? ==> AreElements(values, AsObjects(values).value)
  {
    if values != [] {
      var n := |values| - 1;
      ElementsExactly(values[..n]);
      forall outers | AreElements(values, outers) ensures AsObjects(values) == Some(outers) {
        assert AreElements(values[..n], outers[..n]) && IsElement(values[n], outers[n]);
        assert outers[..n] + [outers[n]] == outers;
      }
    }
  }

  lemma ArrayIsItsElements(left: string, text: string, right: string, values: seq<Json>, decode: Decoder)
    requires Blank(left) && Blank(right) && Trimmed(text) && text != "" && text[0] == '['
    requires decode(text) == Some(JArray(values))
    ensures Objects(left + text + right, decode)
         == if AsObjects(values).Some? then AsObjects(values).value else []
  {
    TrimOf(left, text, right);
  }

  /** A JSON array: of each count the largest over its elements. */
  lemma ArrayReportsItsBills(left: string, text: string, right: string, values: seq<Json>, outers: seq<Object>,
                             bills: seq<Option<Bill>>, provider: string, decode: Decoder)
    requires Blank(left) && Blank(right) && Trimmed(text) && text != "" && text[0] == '['
    requires decode(text) == Some(JArray(values)) && AreElements(values, outers) && AllReport(outers, bills, provider)
    ensures Extracted(left + text + right, provider, decode) == DueOfAll(bills)
  {
    ArrayIsItsElements(left, text, right, values, decode);
    ElementsExactly(values);
    ObjectsUsageIsDue(outers, bills, provider);
  }

  /** A body that starts like JSON and is not an object, or an array of objects and
      nulls, reports nothing: one other element is enough. */
  lemma OtherJsonReportsNothing(left: string, text: string, right: string, provider: string, decode: Decoder)
    requires Blank(left) && Blank(right) && Trimmed(text) && text != ""
    requires || (text[0] == '{' && forall outer :: decode(text) != Some(JObject(outer)))
             || (text[0] == '[' && forall values, outers :: AreElements(values, outers) ==>
                                     decode(text) != Some(JArray(values)))
    ensures Extracted(left + text + right, provider, decode) == NO_USAGE
  {
    TrimOf(left, text, right);
    NothingIsDueOfNothing(provider);
    var parsed := decode(text);
    if parsed.Some? && parsed.value.JArray? { ElementsExactly(parsed.value.a); }
  }

  /** The line is an event that can carry usage: a data line whose payload has "sage"
      in it and decodes to this object. */
  ghost predicate IsEvent(line: string, outer: Object, decode: Decoder) {
    exists before, after ::
      IsDataLine(line, before + "sage" + after) && decode(before + "sage" + after) == Some(JObject(outer))
  }

  lemma EventIsRead(line: string, outer: Object, decode: Decoder)
    requires IsEvent(line, outer, decode)
    ensures LineReader(decode)(line) == [outer]
  {
    var before, after :|
      IsDataLine(line, before + "sage" + after) && decode(before + "sage" + after) == Some(JObject(outer));
    DataLineIsRead(line, before + "sage" + after);
    ContainsExactly(before + "sage" + after, "sage");
  }

  lemma DataLineIsStream(line: string, payload: string)
    requires IsDataLine(line, payload)
    ensures IsStream(line)
  {
    DataLineIsRead(line, payload);
    TrimLeftStart(line);
    if TrimLeft(line) != "" { TrimRightKeepsStart(TrimLeft(line)); }
    assert DATA[0] == 'd';
  }

  lemma LineReports(line: string, provider: string, decode: Decoder)
    requires '\n' !in line
    ensures LinesUsage(Split(line, '\n'), provider, decode) == ObjectsUsage(LineReader(decode)(line), provider)
  {
    SplitOfPiece(line, '\n');
    FlatMapOne(line, LineReader(decode));
  }

  lemma StreamAroundALine(a: string, line: string, b: string, provider: string, decode: Decoder)
    requires '\n' !in line && IsStream(a) && IsStream(b) && IsStream(a + "\n" + line + "\n" + b)
    ensures Extracted(a + "\n" + line + "\n" + b, provider, decode)
         == Merge(Merge(Extracted(a, provider, decode), ObjectsUsage(LineReader(decode)(line), provider)),
                  Extracted(b, provider, decode))
  {
    StreamIsItsLines(a, provider, decode);
    StreamIsItsLines(b, provider, decode);
    StreamIsItsLines(a + "\n" + line + "\n" + b, provider, decode);
    SplitAtSeparator(a + "\n" + line, b, '\n');
    SplitAtSeparator(a, line, '\n');
    LinesUsageConcat(Split(a + "\n" + line, '\n'), Split(b, '\n'), provider, decode);
    LinesUsageConcat(Split(a, '\n'), Split(line, '\n'), provider, decode);
    LineReports(line, provider, decode);
  }

  /** An event, alone or in a stream: its counts are merged into what the rest reports. */
  lemma EventReportsItsBill(a: string, line: string, b: string, outer: Object, bill: Option<Bill>,
                            provider: string, decode: Decoder)
    requires '\n' !in line && IsStream(a) && IsStream(b)
    requires IsEvent(line, outer, decode) && Reports(outer, bill, provider)
    ensures Extracted(line, provider, decode) == DueOf(bill)
    ensures Extracted(a + "\n" + line + "\n" + b, provider, decode)
         == Merge(Merge(Extracted(a, provider, decode), DueOf(bill)), Extracted(b, provider, decode))
  {
    EventIsRead(line, outer, decode);
    OneObjectsUsage(outer, bill, provider);
    var before, after :| IsDataLine(line, before + "sage" + after);
    DataLineIsStream(line, before + "sage" + after);
    StreamIsItsLines(line, provider, decode);
    LineReports(line, provider, decode);
    StreamOfStreams(a, line);
    StreamOfStreams(a + "\n" + line, b);
    StreamAroundALine(a, line, b, provider, decode);
  }

  /** A line that is no event reads as nothing, or as null, which stands for an empty object. */
  lemma NoEventReadsAsNothing(line: string, decode: Decoder)
    requires forall outer :: !IsEvent(line, outer, decode)
    ensures LineReader(decode)(line) == [] || LineReader(decode)(line) == [map[]]
  {
    if LineReader(decode)(line) != [] {
      ReadLineIsADataLine(line);
      var data := Trim(Trim(line)[|DATA|..]);
      ContainsExactly(data, "sage");
      var before, after :| data == before + "sage" + after;
      if decode(data).value.JObject? { assert IsEvent(line, decode(data).value.o, decode); }
    }
  }

  /** Any other line of a stream adds nothing: no data line, "sage" nowhere in its
      payload, or a payload that is no JSON object. */
  lemma OtherLinesReportNothing(a: string, line: string, b: string, provider: string, decode: Decoder)
    requires '\n' !in line && IsStream(a) && IsStream(b) && IsStream(a + "\n" + line + "\n" + b)
    requires forall outer :: !IsEvent(line, outer, decode)
    ensures Extracted(a + "\n" + line + "\n" + b, provider, decode)
         == Merge(Extracted(a, provider, decode), Extracted(b, provider, decode))
  {
    StreamAroundALine(a, line, b, provider, decode);
    NoEventReadsAsNothing(line, decode);
    NothingIsDueOfNothing(provider);
    ObjectsUsageConcat(Objects(a, decode), [], provider);
  }
}

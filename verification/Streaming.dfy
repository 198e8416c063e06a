/** Streams of chunks: rebuilding a response from them, tracking usage on the way, and replaying a cached one. */
module Streaming {
  import opened Wrappers
  import opened Api
  import opened Fallback

  /** Token counts of a chunk; `None` is an absent or unusable field. */
  datatype UsageField = UsageField(prompt: Option<int>, completion: Option<int>, total: Option<int>)

  datatype ChunkChoice = ChunkChoice(content: Option<string>, finishReason: Option<FinishReason>)

  datatype Chunk = Chunk(
    id: Option<string>,
    model: Option<string>,
    choices: seq<ChunkChoice>,
    usage: Option<UsageField>)

  /** One line of a stream; an empty payload behaves like `[DONE]`. */
  datatype Line = NotData | Done | BadJson | Data(chunk: Chunk)

  function ToInt(value: Option<int>, default: int): int {
    match value case Some(n) => n case None => default
  }

  /** Python's `value or default` for a string. */
  function Or(value: Option<string>, default: string): string {
    if value.Some? && value.value != "" then value.value else default
  }

  // ---------- capture_usage ----------

  function CaptureUsage(line: Line, current: Usage): Usage {
    if !line.Data? || line.chunk.usage.None? then current
    else
      var u := line.chunk.usage.value;
      var prompt := ToInt(u.prompt, current.promptTokens);
      var completion := ToInt(u.completion, current.completionTokens);
      MakeUsage(prompt, completion, ToInt(u.total, prompt + completion))
  }

  function CaptureAll(lines: seq<Line>): Usage {
    if lines == [] then NO_USAGE
    else CaptureUsage(lines[|lines| - 1], CaptureAll(lines[..|lines| - 1]))
  }

  // ---------- ChunkAccumulator ----------

  datatype Gathered = Gathered(
    id: string,
    model: string,
    content: string,
    finishReason: FinishReason,
    usage: Usage,
    sawAnyChunk: bool)

  const NOTHING := Gathered("", "", "", Stop, NO_USAGE, false)

  function FeedUsage(usage: Usage, field: Option<UsageField>): Usage {
    match field
    case None => usage
    case Some(u) =>
      MakeUsage(ToInt(u.prompt, usage.promptTokens), ToInt(u.completion, usage.completionTokens),
        ToInt(u.total, usage.totalTokens))
  }

  function FeedLine(g: Gathered, line: Line): Gathered {
    if !line.Data? then g
    else
      var c := line.chunk;
      var choice := if c.choices == [] then ChunkChoice(None, None) else c.choices[0];
      Gathered(
        Or(c.id, g.id),
        Or(c.model, g.model),
        g.content + Or(choice.content, ""),
        if choice.finishReason.Some? then choice.finishReason.value else g.finishReason,
        FeedUsage(g.usage, c.usage),
        true)
  }

  function Gather(g: Gathered, lines: seq<Line>): Gathered {
    if lines == [] then g
    else FeedLine(Gather(g, lines[..|lines| - 1]), lines[|lines| - 1])
  }

  function ToResponse(g: Gathered, created: int): Response {
    Response(if g.id == "" then "chatcmpl-cached" else g.id, created, g.model,
      [Choice(g.content, g.finishReason)], g.usage)
  }

  class ChunkAccumulator {
    var id: string
    var model: string
    var content: string
    var finishReason: FinishReason
    var usage: Usage
    var sawAnyChunk: bool

    function View(): Gathered
      reads this
    {
      Gathered(id, model, content, finishReason, usage, sawAnyChunk)
    }

    constructor ()
      ensures View() == NOTHING
    {
      id, model, content, finishReason, usage, sawAnyChunk := "", "", "", Stop, NO_USAGE, false;
    }

    method Feed(line: Line)
      modifies this
      ensures View() == FeedLine(old(View()), line)
    {
      if line.Data? {
        var chunk := line.chunk;
        sawAnyChunk := true;
        id := Or(chunk.id, id);
        model := Or(chunk.model, model);
        if chunk.choices != [] {
          var choice := chunk.choices[0];
          if choice.content.Some? && choice.content.value != "" {
            content := content + choice.content.value;
          }
          if choice.finishReason.Some? {
            finishReason := choice.finishReason.value;
          }
        }
        if chunk.usage.Some? {
          var u := chunk.usage.value;
          usage := MakeUsage(ToInt(u.prompt, usage.promptTokens), ToInt(u.completion, usage.completionTokens),
            ToInt(u.total, usage.totalTokens));
        }
      }
    }

    method Response(created: int) returns (response: Response)
      ensures response == ToResponse(View(), created)
    {
      var name := id;
      if name == "" {
        name := "chatcmpl-cached";
      }
      response := Api.Response(name, created, model, [Choice(content, finishReason)], usage);
    }
  }

  lemma {:induction false} GatherConcat(g: Gathered, a: seq<Line>, b: seq<Line>)
    ensures Gather(g, a + b) == Gather(Gather(g, a), b)
  {
    if b == [] {
      assert a + b == a;
    } else {
      assert (a + b)[..|a + b| - 1] == a + b[..|b| - 1];
      GatherConcat(g, a, b[..|b| - 1]);
    }
  }

  lemma {:induction false} GatherClamped(lines: seq<Line>)
    ensures Clamped(Gather(NOTHING, lines).usage)
  {
    if lines != [] {
      GatherClamped(lines[..|lines| - 1]);
    }
  }

  // ---------- The gathered fields, read off the lines ----------

  /** The first choice of a chunk that has one. */
  predicate HasChoice(line: Line) {
    line.Data? && line.chunk.choices != []
  }

  /** The last finish reason that a first choice carries, whatever else its chunk carries. */
  function LastFinish(lines: seq<Line>): FinishReason {
    if lines == [] then Stop
    else
      var last := lines[|lines| - 1];
      if HasChoice(last) && last.chunk.choices[0].finishReason.Some? then last.chunk.choices[0].finishReason.value
      else LastFinish(lines[..|lines| - 1])
  }

  /** The contents of all first choices, run together. */
  function AllContent(lines: seq<Line>): string {
    if lines == [] then ""
    else
      var last := lines[|lines| - 1];
      AllContent(lines[..|lines| - 1]) +
      if HasChoice(last) && last.chunk.choices[0].content.Some? then last.chunk.choices[0].content.value else ""
  }

  /** The last text that a chunk has in a field and that is not empty. */
  function LastText(lines: seq<Line>, field: Chunk -> Option<string>): string {
    if lines == [] then ""
    else
      var last := lines[|lines| - 1];
      if last.Data? && field(last.chunk).Some? && field(last.chunk).value != "" then field(last.chunk).value
      else LastText(lines[..|lines| - 1], field)
  }

  const ID := (c: Chunk) => c.id
  const MODEL := (c: Chunk) => c.model

  /** Main result: over every line sequence, what each field of the accumulator ends with. */
  lemma {:induction false} GatheredFields(lines: seq<Line>)
    ensures var g := Gather(NOTHING, lines);
      g.finishReason == LastFinish(lines) && g.content == AllContent(lines)
      && g.id == LastText(lines, ID) && g.model == LastText(lines, MODEL)
      && (g.sawAnyChunk <==> exists i :: 0 <= i < |lines| && lines[i].Data?)
  {
    if lines != [] {
      GatheredFields(lines[..|lines| - 1]);
    }
  }

  /** The response has one choice; a missing id is replaced, nothing else is. */
  lemma ResponseCarries(g: Gathered, created: int)
    ensures var r := ToResponse(g, created);
      r.created == created && r.model == g.model && r.usage == g.usage
      && |r.choices| == 1 && r.choices[0].content == g.content && r.choices[0].finishReason == g.finishReason
      && (g.id != "" ==> r.id == g.id) && (g.id == "" ==> r.id == "chatcmpl-cached")
  {
  }

  // ---------- synthesize_cached_stream ----------

  function SynthesizeCachedStream(r: Response): seq<Line>
    requires r.choices != []
  {
    var choice := r.choices[0];
    [ Data(Chunk(Some(r.id), Some(r.model), [ChunkChoice(None, None)], None)),
      Data(Chunk(Some(r.id), Some(r.model), [ChunkChoice(Some(choice.content), None)], None)),
      Data(Chunk(Some(r.id), Some(r.model), [ChunkChoice(None, Some(choice.finishReason))],
        Some(UsageField(Some(r.usage.promptTokens), Some(r.usage.completionTokens), Some(r.usage.totalTokens))))),
      Done ]
  }

  lemma GatherFour(g: Gathered, a: Line, b: Line, c: Line, d: Line)
    ensures Gather(g, [a, b, c, d]) == FeedLine(FeedLine(FeedLine(FeedLine(g, a), b), c), d)
  {
    assert [a][..0] == [] && [a, b][..1] == [a] && [a, b, c][..2] == [a, b] && [a, b, c, d][..3] == [a, b, c];
    assert Gather(g, [a]) == FeedLine(g, a);
    assert Gather(g, [a, b]) == FeedLine(Gather(g, [a]), b);
    assert Gather(g, [a, b, c]) == FeedLine(Gather(g, [a, b]), c);
  }

  /**
   Replaying a response and rebuilding it gives it back, up to the creation time, exactly when it has an id
   and a single choice; usage counts are never negative here.
   */
  lemma ReplayRebuilds(r: Response, created: int)
    requires r.choices != [] && Clamped(r.usage)
    ensures ToResponse(Gather(NOTHING, SynthesizeCachedStream(r)), created) == r.(created := created)
       <==> r.id != "" && |r.choices| == 1
  {
    var lines := SynthesizeCachedStream(r);
    GatherFour(NOTHING, lines[0], lines[1], lines[2], lines[3]);
    assert lines == [lines[0], lines[1], lines[2], lines[3]];
    var g := Gather(NOTHING, lines);
    assert g.content == "" + "" + r.choices[0].content + "" == r.choices[0].content;
    assert g == Gathered(Or(Some(r.id), ""), r.model, r.choices[0].content, r.choices[0].finishReason, r.usage, true);
    if |r.choices| == 1 {
      assert r.choices == [r.choices[0]];
    }
  }

  /** A replay ends in its only `[DONE]`, each chunk names the response, and live counting finds its counts. */
  lemma ReplayIsWellFormed(r: Response)
    requires r.choices != [] && Clamped(r.usage)
    ensures var lines := SynthesizeCachedStream(r);
      lines != [] && (forall i :: 0 <= i < |lines| ==> (lines[i] == Done <==> i == |lines| - 1))
      && (forall i :: 0 <= i < |lines| - 1 ==>
            lines[i].Data? && lines[i].chunk.id == Some(r.id) && lines[i].chunk.model == Some(r.model)
            && |lines[i].chunk.choices| == 1)
      && CaptureAll(lines) == r.usage
  {
    var lines := SynthesizeCachedStream(r);
    assert lines[..3][..2] == lines[..2] && lines[..2][..1] == lines[..1] && lines[..1][..0] == [];
    assert CaptureAll(lines[..1]) == NO_USAGE;
    assert CaptureAll(lines[..2]) == NO_USAGE;
    assert CaptureAll(lines[..3]) == r.usage;
  }

  /** Main result: whatever lines a response was gathered from, its replay carries the same response. */
  lemma GatheredReplays(lines: seq<Line>, created: int, later: int)
    ensures var r := ToResponse(Gather(NOTHING, lines), created);
      ToResponse(Gather(NOTHING, SynthesizeCachedStream(r)), later) == r.(created := later)
  {
    GatherClamped(lines);
    ReplayRebuilds(ToResponse(Gather(NOTHING, lines), created), later);
  }

  // ---------- The two usage folds ----------

  predicate CarriesUsage(line: Line) {
    line.Data? && line.chunk.usage.Some?
  }

  /** The position after the last line that carries a usage object, or 0 if none does. */
  function LastUsage(lines: seq<Line>): (n: nat)
    ensures n <= |lines|
    ensures n > 0 ==> CarriesUsage(lines[n - 1])
  {
    if lines == [] then 0
    else if CarriesUsage(lines[|lines| - 1]) then |lines|
    else LastUsage(lines[..|lines| - 1])
  }

  /** Main result: over any lines both folds end with the same prompt and completion counts. */
  lemma {:induction false} UsageFoldsAgree(lines: seq<Line>)
    ensures CaptureAll(lines).promptTokens == Gather(NOTHING, lines).usage.promptTokens
    ensures CaptureAll(lines).completionTokens == Gather(NOTHING, lines).usage.completionTokens
  {
    if lines != [] {
      UsageFoldsAgree(lines[..|lines| - 1]);
    }
  }

  /** The last value that a usage object of these lines has in a field, clamped; 0 if none has one. */
  function LastUsable(lines: seq<Line>, field: UsageField -> Option<int>): int {
    if lines == [] then 0
    else
      var last := lines[|lines| - 1];
      if CarriesUsage(last) && field(last.chunk.usage.value).Some?
      then NeverNegative(field(last.chunk.usage.value).value)
      else LastUsable(lines[..|lines| - 1], field)
  }

  const PROMPT := (u: UsageField) => u.prompt
  const COMPLETION := (u: UsageField) => u.completion
  const TOTAL := (u: UsageField) => u.total

  /** The accumulator's counts, read off the lines: each field keeps its last usable value. */
  lemma {:induction false} GatheredCounts(lines: seq<Line>)
    ensures Gather(NOTHING, lines).usage
         == Usage(LastUsable(lines, PROMPT), LastUsable(lines, COMPLETION), LastUsable(lines, TOTAL))
  {
    if lines != [] {
      GatheredCounts(lines[..|lines| - 1]);
      GatherClamped(lines[..|lines| - 1]);
    }
  }

  /** The live total of the last usage object: its own, else the sum of its counts, a missing one taken from before. */
  function LiveTotal(u: UsageField, before: seq<Line>): int {
    NeverNegative(ToInt(u.total,
      ToInt(u.prompt, LastUsable(before, PROMPT)) + ToInt(u.completion, LastUsable(before, COMPLETION))))
  }

  lemma {:induction false} CapturedTotal(lines: seq<Line>)
    ensures var n := LastUsage(lines);
      CaptureAll(lines).totalTokens == if n == 0 then 0 else LiveTotal(lines[n - 1].chunk.usage.value, lines[..n - 1])
  {
    if lines != [] {
      var before, last := lines[..|lines| - 1], lines[|lines| - 1];
      if CarriesUsage(last) {
        UsageFoldsAgree(before);
        GatheredCounts(before);
      } else {
        CapturedTotal(before);
        var n := LastUsage(before);
        if n > 0 {
          assert before[n - 1] == lines[n - 1] && before[..n - 1] == lines[..n - 1];
        }
      }
    }
  }

  /** Nothing after the last usage object changes the gathered total. */
  lemma {:induction false} TotalAfterLastUsage(lines: seq<Line>)
    ensures var n := LastUsage(lines);
      LastUsable(lines, TOTAL) ==
      if n == 0 then 0
      else NeverNegative(ToInt(lines[n - 1].chunk.usage.value.total, LastUsable(lines[..n - 1], TOTAL)))
  {
    if lines != [] {
      var before, last := lines[..|lines| - 1], lines[|lines| - 1];
      if CarriesUsage(last) {
        GatheredCounts(before);
        GatherClamped(before);
      } else {
        TotalAfterLastUsage(before);
        var n := LastUsage(before);
        if n > 0 {
          assert before[n - 1] == lines[n - 1] && before[..n - 1] == lines[..n - 1];
        }
      }
    }
  }

  /**
   The totals agree exactly when there is no usage object, or the last one has a usable total, or the last
   usable total before it equals the clamped sum of its counts, where a count that it lacks is the last
   usable one before it.
   */
  lemma TotalsAgreeWhen(lines: seq<Line>)
    ensures CaptureAll(lines).totalTokens == Gather(NOTHING, lines).usage.totalTokens
       <==> var n := LastUsage(lines);
            n == 0 ||
            var u, before := lines[n - 1].chunk.usage.value, lines[..n - 1];
            u.total.Some?
            || LastUsable(before, TOTAL)
               == NeverNegative(ToInt(u.prompt, LastUsable(before, PROMPT))
                                + ToInt(u.completion, LastUsable(before, COMPLETION)))
  {
    CapturedTotal(lines);
    GatheredCounts(lines);
    TotalAfterLastUsage(lines);
    var n := LastUsage(lines);
    if n > 0 {
      GatheredCounts(lines[..n - 1]);
      GatherClamped(lines[..n - 1]);
    }
  }

  /** The totals do differ: one usage object without a total is enough. */
  lemma TotalsCanDiffer()
    ensures var line := Data(Chunk(None, None, [], Some(UsageField(Some(3), Some(2), None))));
      CaptureAll([line]).totalTokens == 5 && Gather(NOTHING, [line]).usage.totalTokens == 0
  {
    var line := Data(Chunk(None, None, [], Some(UsageField(Some(3), Some(2), None))));
    assert [line][..0] == [];
    assert CaptureAll([line]) == CaptureUsage(line, NO_USAGE);
    assert Gather(NOTHING, [line]) == FeedLine(NOTHING, line);
  }

  // ---------- _stream_response ----------

  datatype ErrorType = ModelNotFound | UpstreamError | TimeoutError | RateLimitError | AuthError

  /** A scheduled ledger row: a request served from the cache or by a provider, or a failed one. */
  datatype Scheduled = FromReplay(record: UsageRecord) | FromStream(record: UsageRecord) | OfFailure(error: ErrorType)

  /** What the client receives: a relayed or replayed line, or the error event. */
  datatype Sent = Relayed(line: Line) | ErrorEvent(error: ErrorType)

  function MidwayError(error: ErrorKind): ErrorType {
    match error
    case TimedOut => TimeoutError
    case RateLimited => RateLimitError
    case _ => UpstreamError
  }

  function SentLines(lines: seq<Line>): (sent: seq<Sent>)
    ensures |sent| == |lines| && forall i :: 0 <= i < |sent| ==> sent[i] == Relayed(lines[i])
  {
    seq(|lines|, i requires 0 <= i < |lines| => Relayed(lines[i]))
  }

  /**
   What a streaming request leaves behind: the ledger rows it schedules, and the response it goes on to cache.
   Only a provider that yields a line matters, and all that matters of it are its lines and its end.
   */
  function StreamOutcome(keyId: int, model: string, cached: Option<Response>, providers: seq<Provider>,
                         sources: seq<Source<Line>>, created: int): (seq<Scheduled>, Option<Response>)
    requires |providers| == |sources|
  {
    if cached.Some? then
      ([FromReplay(BuildUsageRecord(keyId, FromCache, FREE, cached.value.model, cached.value.usage))], None)
    else
      var k := FirstStarted(sources);
      if k == |sources| then ([OfFailure(if providers == [] then ModelNotFound else UpstreamError)], None)
      else
        match sources[k].ending
        case Aborted => ([], None)
        case Broken(error) => ([OfFailure(MidwayError(error))], None)
        case Completed =>
          var p, g := providers[k], Gather(NOTHING, sources[k].lines);
          ([FromStream(BuildUsageRecord(keyId, FromProvider(p.name), p.PricingFor(model), model,
              CaptureAll(sources[k].lines)))],
           if g.sawAnyChunk then Some(ToResponse(g, created)) else None)
  }

  /**
   The one record of an answered streaming request, field by field: a replay is recorded with the counts of
   its response and no cost, a served stream under its provider and the requested model, with the last
   usable counts on its lines and the cost of those.
   */
  lemma StreamRecordSays(keyId: int, model: string, cached: Option<Response>, providers: seq<Provider>,
                         sources: seq<Source<Line>>, created: int)
    requires |providers| == |sources|
    ensures var scheduled := StreamOutcome(keyId, model, cached, providers, sources, created).0;
      (cached.Some? ==>
         |scheduled| == 1 && scheduled[0].FromReplay?
         && var record := scheduled[0].record;
            record.keyId == keyId && record.origin == FromCache && record.model == cached.value.model
            && record.inputTokens == cached.value.usage.promptTokens
            && record.outputTokens == cached.value.usage.completionTokens && record.estimatedCost == 0.0)
      && (cached.None? && |scheduled| == 1 && scheduled[0].FromStream? ==>
            exists k :: 0 <= k < |sources| && sources[k].ending == Completed && sources[k].lines != []
              && RecordsStream(scheduled[0].record, keyId, model, providers[k], sources[k].lines))
  {
    if cached.Some? {
      FreeCostsNothing(cached.value.usage);
    } else {
      var k := FirstStarted(sources);
      if k < |sources| && sources[k].ending.Completed? {
        UsageFoldsAgree(sources[k].lines);
        GatheredCounts(sources[k].lines);
        assert !sources[k].Skipped();
        assert RecordsStream(StreamOutcome(keyId, model, cached, providers, sources, created).0[0].record,
          keyId, model, providers[k], sources[k].lines);
      }
    }
  }

  ghost predicate RecordsStream(record: UsageRecord, keyId: int, model: string, provider: Provider, lines: seq<Line>) {
    var prompt, completion := LastUsable(lines, PROMPT), LastUsable(lines, COMPLETION);
    && record.keyId == keyId && record.origin == FromProvider(provider.name) && record.model == model
    && record.inputTokens == prompt && record.outputTokens == completion
    && (model in provider.modelPricing ==>
          record.estimatedCost == provider.modelPricing[model].inputCost * prompt as real / 1000000.0
            + provider.modelPricing[model].outputCost * completion as real / 1000000.0)
    && (model !in provider.modelPricing ==> record.estimatedCost == 0.0)
  }

  /**
   Serves a streaming request. `cached` is what the cache read gave, `providers` what routing selected, and
   `sources` how each of them streams if it is asked. `crashed` reports an exception that is no provider error.
   */
  method StreamResponse(keyId: int, model: string, cached: Option<Response>, providers: seq<Provider>,
                        sources: seq<Source<Line>>, created: int)
    returns (sent: seq<Sent>, scheduled: seq<Scheduled>, stored: Option<Response>, crashed: bool)
    requires |providers| == |sources|
    requires cached.Some? ==> cached.value.choices != []
    ensures cached.Some? ==>
      sent == SentLines(SynthesizeCachedStream(cached.value)) && stored == None && !crashed
      && scheduled == [FromReplay(BuildUsageRecord(keyId, FromCache, FREE, cached.value.model, cached.value.usage))]
    ensures cached.None? ==>
      crashed == (FirstStarted(sources) < |sources| && sources[FirstStarted(sources)].ending.Aborted?)
    ensures (scheduled, stored) == StreamOutcome(keyId, model, cached, providers, sources, created)
    ensures |scheduled| == if crashed then 0 else 1
    ensures stored.Some? ==> |scheduled| == 1 && scheduled[0].FromStream?
    ensures cached.None? && FirstStarted(sources) < |sources| ==>
      var k := FirstStarted(sources);
      SentLines(sources[k].lines) <= sent
      && |sent| == |sources[k].lines| + (if sources[k].ending.Broken? then 1 else 0)
      && (sources[k].ending.Broken? ==>
            sent[|sent| - 1] == ErrorEvent(MidwayError(sources[k].ending.error))
            && scheduled == [OfFailure(MidwayError(sources[k].ending.error))])
      && (sources[k].ending.Completed? ==>
            scheduled == [FromStream(BuildUsageRecord(keyId, FromProvider(providers[k].name),
              providers[k].PricingFor(model), model, CaptureAll(sources[k].lines)))])
      && stored == if sources[k].ending.Completed? && Gather(NOTHING, sources[k].lines).sawAnyChunk
                   then Some(ToResponse(Gather(NOTHING, sources[k].lines), created)) else None
    ensures cached.None? && FirstStarted(sources) == |sources| ==>
      var error := if providers == [] then ModelNotFound else StartError(LastError(sources));
      sent == [ErrorEvent(error)] && scheduled == [OfFailure(if providers == [] then ModelNotFound else UpstreamError)]
      && stored == None
  {
    sent, scheduled, stored, crashed := [], [], None, false;
    if cached.Some? {
      var lines := SynthesizeCachedStream(cached.value);
      for i := 0 to |lines|
        invariant sent == SentLines(lines[..i])
      {
        sent := sent + [Relayed(lines[i])];
      }
      assert lines[..|lines|] == lines;
      scheduled := [FromReplay(BuildUsageRecord(keyId, FromCache, FREE, cached.value.model, cached.value.usage))];
      return;
    }
    var relayed, end, attempted := StreamChatCompletion(providers, sources);
    ghost var k := FirstStarted(sources);
    ghost var lines := if k < |sources| then sources[k].lines else [];
    var servingProvider: Option<Provider> := None;
    var usage := NO_USAGE;
    var accumulator := new ChunkAccumulator();
    for i := 0 to |relayed|
      invariant |relayed| == |lines|
      invariant forall j :: 0 <= j < |relayed| ==> relayed[j] == (providers[k], lines[j])
      invariant servingProvider == if i == 0 then None else Some(providers[k])
      invariant usage == CaptureAll(lines[..i])
      invariant accumulator.View() == Gather(NOTHING, lines[..i])
      invariant sent == SentLines(lines[..i])
      invariant fresh(accumulator)
    {
      var (provider, line) := relayed[i];
      if servingProvider.None? {
        servingProvider := Some(provider);
      }
      assert lines[..i + 1][..i] == lines[..i];
      usage := CaptureUsage(line, usage);
      accumulator.Feed(line);
      sent := sent + [Relayed(line)];
    }
    assert lines[..|lines|] == lines;
    var success := false;
    match end {
      case NobodyStarted(names, lastError) =>
        if names == [] {
          scheduled, sent := [OfFailure(ModelNotFound)], sent + [ErrorEvent(ModelNotFound)];
        } else {
          scheduled, sent := [OfFailure(UpstreamError)], sent + [ErrorEvent(StartError(lastError))];
        }
      case Ended(Broken(error)) =>
        scheduled, sent := [OfFailure(MidwayError(error))], sent + [ErrorEvent(MidwayError(error))];
      case Ended(Aborted) => crashed := true;
      case Ended(Completed) => success := true;
    }
    if servingProvider.Some? && success {
      var p := servingProvider.value;
      scheduled := [FromStream(BuildUsageRecord(keyId, FromProvider(p.name), p.PricingFor(model), model, usage))];
    }
    if success && accumulator.sawAnyChunk {
      var response := accumulator.Response(created);
      stored := Some(response);
    }
  }

  /** The names under which failures reach the client and the ledger. */
  lemma ErrorsAreNamed()
    ensures MidwayError(TimedOut) == TimeoutError && MidwayError(RateLimited) == RateLimitError
    ensures MidwayError(AuthFailed) == UpstreamError && MidwayError(Upstream) == UpstreamError
    ensures StartError(Some(TimedOut)) == TimeoutError && StartError(Some(RateLimited)) == RateLimitError
    ensures StartError(Some(AuthFailed)) == AuthError && StartError(Some(Upstream)) == UpstreamError
    ensures StartError(None) == UpstreamError
  {
  }

  /** How the client is told why no provider started. */
  function StartError(lastError: Option<ErrorKind>): ErrorType {
    match lastError
    case Some(TimedOut) => TimeoutError
    case Some(RateLimited) => RateLimitError
    case Some(AuthFailed) => AuthError
    case _ => UpstreamError
  }
}

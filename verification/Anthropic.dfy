/** The Anthropic adapter: its whole-response and its streaming translation, and when the two agree. */
module Anthropic {
  import opened Wrappers
  import opened Api
  import opened Streaming

  /** Anthropic's reasons for stopping; a reason the map does not hold counts as `Unmapped`. */
  datatype StopReason = EndTurn | StopSequence | MaxTokens | Unmapped

  function Finish(reason: StopReason): FinishReason {
    match reason
    case EndTurn => Stop
    case StopSequence => Stop
    case MaxTokens => Length
    case Unmapped => Stop
  }

  datatype Block = Text(text: string) | OtherBlock

  /** The body of a finished message. */
  datatype Message = Message(
    id: string,
    model: string,
    content: seq<Block>,
    stopReason: StopReason,
    inputTokens: int,
    outputTokens: int)

  /** A streamed event; `Ignored` is any line or event that the adapter skips. */
  datatype Event =
    | MessageStart(id: Option<string>, model: Option<string>, inputTokens: Option<int>)
    | TextDelta(text: string)
    | MessageDelta(stopReason: StopReason, outputTokens: Option<int>)
    | MessageStop
    | Ignored

  // ---------- _build_response ----------

  function FirstText(content: seq<Block>): string {
    if content == [] then ""
    else if content[0].Text? then content[0].text
    else FirstText(content[1..])
  }

  function BuildResponse(m: Message, created: int): Response {
    Response(m.id, created, m.model, [Choice(FirstText(m.content), Finish(m.stopReason))],
      MakeUsage(m.inputTokens, m.outputTokens, m.inputTokens + m.outputTokens))
  }

  /**
   The whole-response path, field by field: the first text block, `Length` exactly for a message cut off at its
   token limit and `Stop` for any other, and the two counts with their sum.
   */
  lemma WholeResponseSays(m: Message, created: int)
    ensures var r := BuildResponse(m, created);
      r.id == m.id && r.created == created && r.model == m.model && |r.choices| == 1
      && (r.choices[0].finishReason == Length <==> m.stopReason.MaxTokens?)
      && (!m.stopReason.MaxTokens? ==> r.choices[0].finishReason == Stop)
      && r.usage == MakeUsage(m.inputTokens, m.outputTokens, m.inputTokens + m.outputTokens)
  {
  }

  /** The first text block is the one with no text block before it. */
  lemma {:induction false} FirstTextIs(before: seq<Block>, text: string, rest: seq<Block>)
    requires forall b :: b in before ==> b.OtherBlock?
    ensures FirstText(before + [Text(text)] + rest) == text && FirstText(before) == ""
  {
    if before != [] {
      assert before[0] in before;
      assert (before + [Text(text)] + rest)[1..] == before[1..] + [Text(text)] + rest;
      FirstTextIs(before[1..], text, rest);
    }
  }

  // ---------- stream_chat_completion ----------

  /** The variables of the translation loop. */
  datatype Progress = Progress(chunkId: string, model: string, inputTokens: int, doneSent: bool)

  function Given<T>(value: Option<T>, default: T): T {
    match value case Some(v) => v case None => default
  }

  function Plain(id: string, model: string, choice: ChunkChoice): Line {
    Data(Chunk(Some(id), Some(model), [choice], None))
  }

  function Advance(p: Progress, e: Event): Progress {
    match e
    case MessageStart(id, model, inputTokens) =>
      Progress(Given(id, p.chunkId), Given(model, p.model), Given(inputTokens, p.inputTokens), p.doneSent)
    case MessageStop => p.(doneSent := true)
    case _ => p
  }

  function Emit(p: Progress, e: Event): seq<Line> {
    match e
    case MessageStart(_, _, _) =>
      var p' := Advance(p, e);
      [Plain(p'.chunkId, p'.model, ChunkChoice(None, None))]
    case TextDelta(text) => [Plain(p.chunkId, p.model, ChunkChoice(Some(text), None))]
    case MessageDelta(reason, outputTokens) =>
      var output := Given(outputTokens, 0);
      [Data(Chunk(Some(p.chunkId), Some(p.model), [ChunkChoice(None, Some(Finish(reason)))],
         Some(UsageField(Some(p.inputTokens), Some(output), Some(p.inputTokens + output)))))]
    case MessageStop => [Done]
    case Ignored => []
  }

  /** The lines for the events from `p` on, with the closing `[DONE]` if none was sent. */
  function Translated(p: Progress, events: seq<Event>): seq<Line>
    decreases |events|
  {
    if events == [] then (if p.doneSent then [] else [Done])
    else Emit(p, events[0]) + Translated(Advance(p, events[0]), events[1..])
  }

  lemma TranslateOne(p: Progress, events: seq<Event>, i: nat, sent: seq<Line>)
    requires i < |events|
    ensures sent + Translated(p, events[i..])
         == sent + Emit(p, events[i]) + Translated(Advance(p, events[i]), events[i + 1..])
  {
    assert events[i..][1..] == events[i + 1..];
  }

  method StreamChatCompletion(requestModel: string, events: seq<Event>) returns (lines: seq<Line>)
    ensures lines == Translated(Progress("", requestModel, 0, false), events)
  {
    lines := [];
    var chunkId, model, inputTokens, doneSent := "", requestModel, 0, false;
    ghost var all := Translated(Progress("", requestModel, 0, false), events);
    for i := 0 to |events|
      invariant all == lines + Translated(Progress(chunkId, model, inputTokens, doneSent), events[i..])
    {
      var event := events[i];
      ghost var before := Progress(chunkId, model, inputTokens, doneSent);
      ghost var sent := lines;
      TranslateOne(before, events, i, sent);
      match event {
        case MessageStart(id, m, tokens) =>
          chunkId := if id.Some? then id.value else chunkId;
          model := if m.Some? then m.value else model;
          inputTokens := if tokens.Some? then tokens.value else inputTokens;
          lines := lines + [Plain(chunkId, model, ChunkChoice(None, None))];
        case TextDelta(text) =>
          lines := lines + [Plain(chunkId, model, ChunkChoice(Some(text), None))];
        case MessageDelta(reason, tokens) =>
          var outputTokens := if tokens.Some? then tokens.value else 0;
          var usage := UsageField(Some(inputTokens), Some(outputTokens), Some(inputTokens + outputTokens));
          lines := lines +
            [Data(Chunk(Some(chunkId), Some(model), [ChunkChoice(None, Some(Finish(reason)))], Some(usage)))];
        case MessageStop =>
          lines := lines + [Done];
          doneSent := true;
        case Ignored =>
      }
      assert lines == sent + Emit(before, event);
      assert Progress(chunkId, model, inputTokens, doneSent) == Advance(before, event);
    }
    if !doneSent {
      lines := lines + [Done];
    }
  }

  // ---------- How often [DONE] is sent ----------

  function DoneLines(lines: seq<Line>): nat {
    if lines == [] then 0 else (if lines[0].Done? then 1 else 0) + DoneLines(lines[1..])
  }

  function Stops(events: seq<Event>): nat {
    if events == [] then 0 else (if events[0].MessageStop? then 1 else 0) + Stops(events[1..])
  }

  lemma {:induction false} DoneLinesConcat(a: seq<Line>, b: seq<Line>)
    ensures DoneLines(a + b) == DoneLines(a) + DoneLines(b)
  {
    if a == [] {
      assert a + b == b;
    } else {
      assert (a + b)[1..] == a[1..] + b;
      DoneLinesConcat(a[1..], b);
    }
  }

  lemma {:induction false} DoneCount(p: Progress, events: seq<Event>)
    ensures DoneLines(Translated(p, events))
         == Stops(events) + if p.doneSent || Stops(events) > 0 then 0 else 1
    decreases |events|
  {
    if events != [] {
      var e := events[0];
      DoneCount(Advance(p, e), events[1..]);
      DoneLinesConcat(Emit(p, e), Translated(Advance(p, e), events[1..]));
      if Emit(p, e) != [] {
        assert Emit(p, e)[1..] == [];
      }
    }
  }

  /** Main result: as many `[DONE]` lines as the upstream sent stops, and one if it sent none. */
  lemma DoneIsAlwaysSent(requestModel: string, events: seq<Event>)
    ensures DoneLines(Translated(Progress("", requestModel, 0, false), events))
         == if Stops(events) == 0 then 1 else Stops(events)
  {
    DoneCount(Progress("", requestModel, 0, false), events);
  }

  // ---------- What any event list translates to ----------

  lemma GatherOne(g: Gathered, line: Line)
    ensures Gather(g, [line]) == FeedLine(g, line)
  {
    assert [line][..0] == [];
  }

  function Deltas(events: seq<Event>): string {
    if events == [] then ""
    else (if events[0].TextDelta? then events[0].text else "") + Deltas(events[1..])
  }

  /** The lines of some events alone, and the variables of the loop after them. */
  function Emitted(p: Progress, events: seq<Event>): seq<Line>
    decreases |events|
  {
    if events == [] then [] else Emit(p, events[0]) + Emitted(Advance(p, events[0]), events[1..])
  }

  function After(p: Progress, events: seq<Event>): Progress
    decreases |events|
  {
    if events == [] then p else After(Advance(p, events[0]), events[1..])
  }

  lemma {:induction false} TranslatedSplit(p: Progress, a: seq<Event>, b: seq<Event>)
    ensures Translated(p, a + b) == Emitted(p, a) + Translated(After(p, a), b)
    decreases |a|
  {
    if a == [] {
      assert a + b == b;
    } else {
      assert (a + b)[0] == a[0] && (a + b)[1..] == a[1..] + b;
      var p', rest := Advance(p, a[0]), Translated(After(p, a), b);
      TranslatedSplit(p', a[1..], b);
      assert Emit(p, a[0]) + (Emitted(p', a[1..]) + rest) == Emit(p, a[0]) + Emitted(p', a[1..]) + rest;
    }
  }

  lemma {:induction false} AfterSnoc(p: Progress, events: seq<Event>, e: Event)
    ensures After(p, events + [e]) == Advance(After(p, events), e)
    decreases |events|
  {
    if events == [] {
      assert [e][1..] == [];
    } else {
      assert (events + [e])[1..] == events[1..] + [e];
      AfterSnoc(Advance(p, events[0]), events[1..], e);
    }
  }

  /** The last value that an event gives, or the default if none does. */
  function LastGiven<T>(events: seq<Event>, field: Event -> Option<T>, default: T): T {
    if events == [] then default
    else
      var last := events[|events| - 1];
      if field(last).Some? then field(last).value else LastGiven(events[..|events| - 1], field, default)
  }

  const ID := (e: Event) => if e.MessageStart? then e.id else None
  const MODEL := (e: Event) => if e.MessageStart? then e.model else None
  const INPUT := (e: Event) => if e.MessageStart? then e.inputTokens else None

  /** The loop's variables hold what was given last. */
  lemma {:induction false} AfterReads(p: Progress, events: seq<Event>)
    ensures After(p, events)
         == Progress(LastGiven(events, ID, p.chunkId), LastGiven(events, MODEL, p.model),
              LastGiven(events, INPUT, p.inputTokens), p.doneSent || MessageStop in events)
  {
    if events != [] {
      var before, e := events[..|events| - 1], events[|events| - 1];
      AfterReads(p, before);
      AfterSnoc(p, before, e);
      assert before + [e] == events;
      assert MessageStop in events <==> MessageStop in before || e == MessageStop;
    }
  }

  /** Every chunk names the message and the model that were given last, or the requested model. */
  lemma ChunksNameTheirMessage(requestModel: string, before: seq<Event>, e: Event)
    ensures forall line :: line in Emit(After(Progress("", requestModel, 0, false), before), e) && line.Data? ==>
      line.chunk.id == Some(LastGiven(before + [e], ID, "")) &&
      line.chunk.model == Some(LastGiven(before + [e], MODEL, requestModel))
  {
    var p := Progress("", requestModel, 0, false);
    AfterReads(p, before);
    AfterReads(p, before + [e]);
    AfterSnoc(p, before, e);
  }

  /** The last finish reason is kept by whatever follows it, and so are the counts. */
  lemma {:induction false} GatherTail(p: Progress, events: seq<Event>, g: Gathered)
    requires forall e :: e in events ==> !e.MessageDelta?
    ensures Gather(g, Translated(p, events)).finishReason == g.finishReason
    ensures Gather(g, Translated(p, events)).usage == g.usage
    decreases |events|
  {
    if events == [] {
      if !p.doneSent { GatherOne(g, Done); }
    } else {
      var e := events[0];
      assert e in events;
      var lines := Emit(p, e);
      if lines != [] { GatherOne(g, lines[0]); }
      assert lines == [] || lines == [lines[0]];
      GatherConcat(g, lines, Translated(Advance(p, e), events[1..]));
      GatherTail(Advance(p, e), events[1..], Gather(g, lines));
    }
  }

  /**
   Main result: the last message delta of any event list settles how the stream is reported to have ended, and
   its counts: `Length` exactly for a message cut off at its token limit; the input count is the one given last
   before it.
   */
  lemma {:induction false} LastDeltaSettles(requestModel: string, before: seq<Event>, reason: StopReason,
                                            output: Option<int>, rest: seq<Event>)
    requires forall e :: e in rest ==> !e.MessageDelta?
    ensures var events := before + ([MessageDelta(reason, output)] + rest);
      var g := Gather(NOTHING, Translated(Progress("", requestModel, 0, false), events));
      var sent, received := LastGiven(before, INPUT, 0), if output.Some? then output.value else 0;
      (reason.MaxTokens? ==> g.finishReason == Length) && (!reason.MaxTokens? ==> g.finishReason == Stop)
      && g.usage == MakeUsage(sent, received, sent + received)
  {
    var p, delta := Progress("", requestModel, 0, false), MessageDelta(reason, output);
    var p' := After(p, before);
    AfterReads(p, before);
    TranslatedSplit(p, before, [delta] + rest);
    assert ([delta] + rest)[1..] == rest;
    var g := Gather(NOTHING, Emitted(p, before));
    GatherConcat(NOTHING, Emitted(p, before), Translated(p', [delta] + rest));
    GatherConcat(g, Emit(p', delta), Translated(p', rest));
    GatherOne(g, Emit(p', delta)[0]);
    GatherTail(p', rest, Gather(g, Emit(p', delta)));
  }

  /** With no message delta at all it is reported as a plain stop, without counts. */
  lemma NoDeltaIsPlainStop(requestModel: string, events: seq<Event>)
    requires forall e :: e in events ==> !e.MessageDelta?
    ensures var g := Gather(NOTHING, Translated(Progress("", requestModel, 0, false), events));
      g.finishReason == Stop && g.usage == NO_USAGE
  {
    GatherTail(Progress("", requestModel, 0, false), events, NOTHING);
  }

  lemma EmitContent(p: Progress, e: Event, g: Gathered)
    ensures Gather(g, Emit(p, e)).content == g.content + if e.TextDelta? then e.text else ""
  {
    var lines := Emit(p, e);
    if lines != [] {
      assert lines == [lines[0]];
      GatherOne(g, lines[0]);
    }
    assert g.content + "" == g.content;
  }

  lemma Regroup(a: string, b: string, c: string)
    ensures a + b + c == a + (b + c)
  {
  }

  /** The content is all text deltas run together, whatever comes between them. */
  lemma {:induction false} DeltasAreTheContent(p: Progress, events: seq<Event>, g: Gathered)
    ensures Gather(g, Translated(p, events)).content == g.content + Deltas(events)
    decreases |events|
  {
    if events == [] {
      if !p.doneSent { GatherOne(g, Done); }
      assert g.content + "" == g.content;
    } else {
      var e, rest := events[0], events[1..];
      EmitContent(p, e, g);
      GatherConcat(g, Emit(p, e), Translated(Advance(p, e), rest));
      DeltasAreTheContent(Advance(p, e), rest, Gather(g, Emit(p, e)));
      Regroup(g.content, if e.TextDelta? then e.text else "", Deltas(rest));
    }
  }

  // ---------- Streamed and whole agree ----------

  function AllText(content: seq<Block>): string {
    if content == [] then ""
    else (if content[0].Text? then content[0].text else "") + AllText(content[1..])
  }

  /** The events of a message's body: its texts, cut into deltas anywhere, with skipped events in between. */
  ghost predicate StreamsBody(body: seq<Event>, content: seq<Block>) {
    (forall e :: e in body ==> e.TextDelta? || e.Ignored?) && Deltas(body) == AllText(content)
  }

  /** The whole event list of a message. */
  function Wire(m: Message, body: seq<Event>): seq<Event> {
    [MessageStart(Some(m.id), Some(m.model), Some(m.inputTokens))] + body
    + [MessageDelta(m.stopReason, Some(m.outputTokens)), MessageStop]
  }

  lemma {:induction false} TranslateConcat(p: Progress, body: seq<Event>, rest: seq<Event>)
    requires forall e :: e in body ==> e.TextDelta? || e.Ignored?
    ensures Translated(p, body + rest) == BodyLines(p, body) + Translated(p, rest)
  {
    if body == [] {
      assert body + rest == rest;
    } else {
      assert (body + rest)[1..] == body[1..] + rest && (body + rest)[0] == body[0];
      assert body[0] in body;
      assert Advance(p, body[0]) == p;
      TranslateConcat(p, body[1..], rest);
      assert Translated(p, body + rest) == Emit(p, body[0]) + Translated(p, body[1..] + rest);
      assert Emit(p, body[0]) + (BodyLines(p, body[1..]) + Translated(p, rest))
          == Emit(p, body[0]) + BodyLines(p, body[1..]) + Translated(p, rest);
    }
  }

  function BodyLines(p: Progress, body: seq<Event>): seq<Line> {
    if body == [] then [] else Emit(p, body[0]) + BodyLines(p, body[1..])
  }

  lemma DeltaGathers(p: Progress, e: Event, g: Gathered)
    requires e.TextDelta? || e.Ignored?
    requires g.id == p.chunkId && g.model == p.model && g.sawAnyChunk
    ensures Gather(g, Emit(p, e)) == g.(content := g.content + if e.TextDelta? then e.text else "")
  {
    if e.TextDelta? {
      GatherOne(g, Emit(p, e)[0]);
    }
    assert g.content + "" == g.content;
  }

  /** Gathering the lines of a body only adds its deltas to the content. */
  lemma {:induction false} BodyGathers(p: Progress, body: seq<Event>, g: Gathered)
    requires forall e :: e in body ==> e.TextDelta? || e.Ignored?
    requires g.id == p.chunkId && g.model == p.model && g.sawAnyChunk
    ensures Gather(g, BodyLines(p, body)) == g.(content := g.content + Deltas(body))
  {
    if body == [] {
      assert g.content + "" == g.content;
    } else {
      var first, rest := Emit(p, body[0]), body[1..];
      var text := if body[0].TextDelta? then body[0].text else "";
      assert body[0] in body;
      DeltaGathers(p, body[0], g);
      GatherConcat(g, first, BodyLines(p, rest));
      BodyGathers(p, rest, g.(content := g.content + text));
      assert g.content + text + Deltas(rest) == g.content + (text + Deltas(rest));
    }
  }

  lemma LastLines(g: Gathered, line: Line)
    ensures Gather(g, [line, Done]) == FeedLine(g, line)
  {
    GatherOne(g, line);
    GatherOne(FeedLine(g, line), Done);
    GatherConcat(g, [line], [Done]);
    assert [line] + [Done] == [line, Done];
  }

  lemma TailLines(p: Progress, delta: Event)
    requires delta.MessageDelta?
    ensures Translated(p, [delta, MessageStop]) == [Emit(p, delta)[0], Done]
  {
    assert [delta, MessageStop][1..] == [MessageStop] && [MessageStop][1..] == [];
    assert Translated(p, [MessageStop]) == [Done] + [];
  }

  /** The loop's variables once the message has started, and the lines that open and close it. */
  function Started(m: Message): Progress {
    Progress(m.id, m.model, m.inputTokens, false)
  }

  function Opening(m: Message): Line {
    Plain(m.id, m.model, ChunkChoice(None, None))
  }

  function Closing(m: Message): Line {
    Emit(Started(m), MessageDelta(m.stopReason, Some(m.outputTokens)))[0]
  }

  lemma {:induction false} WireLines(m: Message, body: seq<Event>, requestModel: string)
    requires StreamsBody(body, m.content)
    ensures Translated(Progress("", requestModel, 0, false), Wire(m, body))
         == [Opening(m)] + (BodyLines(Started(m), body) + [Closing(m), Done])
  {
    var start := MessageStart(Some(m.id), Some(m.model), Some(m.inputTokens));
    var delta := MessageDelta(m.stopReason, Some(m.outputTokens));
    var wire := Wire(m, body);
    assert wire[0] == start && wire[1..] == body + [delta, MessageStop];
    TranslateConcat(Started(m), body, [delta, MessageStop]);
    TailLines(Started(m), delta);
  }

  lemma {:induction false} WireLinesGather(m: Message, body: seq<Event>)
    requires StreamsBody(body, m.content)
    ensures Gather(NOTHING, [Opening(m)] + (BodyLines(Started(m), body) + [Closing(m), Done]))
         == Gathered(m.id, m.model, AllText(m.content), Finish(m.stopReason),
              MakeUsage(m.inputTokens, m.outputTokens, m.inputTokens + m.outputTokens), true)
  {
    var lines := BodyLines(Started(m), body);
    var g := Gathered(m.id, m.model, "", Stop, NO_USAGE, true);
    GatherOne(NOTHING, Opening(m));
    assert FeedLine(NOTHING, Opening(m)) == g;
    GatherConcat(NOTHING, [Opening(m)], lines + [Closing(m), Done]);
    GatherConcat(g, lines, [Closing(m), Done]);
    BodyGathers(Started(m), body, g);
    var g' := Gathered(m.id, m.model, AllText(m.content), Stop, NO_USAGE, true);
    assert "" + AllText(m.content) == AllText(m.content);
    LastLines(g', Closing(m));
    assert g'.content + "" == g'.content;
  }

  /** What a message's lines gather into: its identity, all its texts, and its clamped counts. */
  lemma {:induction false} WireGathers(m: Message, body: seq<Event>, requestModel: string)
    requires StreamsBody(body, m.content)
    ensures Gather(NOTHING, Translated(Progress("", requestModel, 0, false), Wire(m, body)))
         == Gathered(m.id, m.model, AllText(m.content), Finish(m.stopReason),
              MakeUsage(m.inputTokens, m.outputTokens, m.inputTokens + m.outputTokens), true)
  {
    WireLines(m, body, requestModel);
    WireLinesGather(m, body);
  }

  /** The texts after the first one, all run together. */
  function LaterText(content: seq<Block>): string {
    if content == [] then ""
    else if content[0].Text? then AllText(content[1..])
    else LaterText(content[1..])
  }

  lemma {:induction false} TextSplits(content: seq<Block>)
    ensures AllText(content) == FirstText(content) + LaterText(content)
  {
    if content != [] && !content[0].Text? {
      TextSplits(content[1..]);
      assert "" + AllText(content[1..]) == AllText(content[1..]);
    }
  }

  /**
   Main result: a message that is streamed, cut into deltas in any way, and gathered gives the response that
   the whole message gives, exactly when it has an id and its texts after the first text block are empty.
   The stream carries every text block, the whole-response path only the first.
   */
  lemma StreamedAgreesWithWhole(m: Message, body: seq<Event>, requestModel: string, created: int)
    requires StreamsBody(body, m.content)
    ensures ToResponse(Gather(NOTHING, Translated(Progress("", requestModel, 0, false), Wire(m, body))), created)
            == BuildResponse(m, created)
       <==> m.id != "" && LaterText(m.content) == ""
  {
    WireGathers(m, body, requestModel);
    TextSplits(m.content);
    var lines := Translated(Progress("", requestModel, 0, false), Wire(m, body));
    var streamed := ToResponse(Gather(NOTHING, lines), created);
    var whole := BuildResponse(m, created);
    assert streamed.choices == [Choice(AllText(m.content), Finish(m.stopReason))];
    assert whole.choices == [Choice(FirstText(m.content), Finish(m.stopReason))];
    assert streamed.choices == whole.choices <==> streamed.choices[0].content == whole.choices[0].content;
    if LaterText(m.content) == "" {
      assert AllText(m.content) == FirstText(m.content);
    } else {
      assert |AllText(m.content)| > |FirstText(m.content)|;
    }
  }

  /** They do differ: two text blocks are streamed as one text, and the whole-response path drops the second. */
  lemma TwoBlocksDiffer(requestModel: string, created: int)
    ensures var m := Message("i", "m", [Text("a"), Text("b")], EndTurn, 1, 1);
      var body := [TextDelta("a"), TextDelta("b")];
      StreamsBody(body, m.content)
      && ToResponse(Gather(NOTHING, Translated(Progress("", requestModel, 0, false), Wire(m, body))), created)
         != BuildResponse(m, created)
  {
    var content := [Text("a"), Text("b")];
    var m := Message("i", "m", content, EndTurn, 1, 1);
    var body := [TextDelta("a"), TextDelta("b")];
    assert content[1..] == [Text("b")] && [Text("b")][1..] == [];
    assert body[1..] == [TextDelta("b")] && [TextDelta("b")][1..] == [];
    assert AllText([Text("b")]) == "b" + "" == "b" && Deltas([TextDelta("b")]) == "b" + "" == "b";
    assert LaterText(content) == "b";
    StreamedAgreesWithWhole(m, body, requestModel, created);
  }

  /** In particular a message with one text block is the same either way. */
  lemma OneTextBlockAgrees(m: Message, body: seq<Event>, requestModel: string, created: int)
    requires |m.content| == 1 && m.content[0].Text? && m.id != "" && StreamsBody(body, m.content)
    ensures ToResponse(Gather(NOTHING, Translated(Progress("", requestModel, 0, false), Wire(m, body))), created)
         == BuildResponse(m, created)
  {
    assert m.content[1..] == [];
    StreamedAgreesWithWhole(m, body, requestModel, created);
  }
}

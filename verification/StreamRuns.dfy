/**
 A streaming request of the machine, taken through one provider after another without a break: it leaves
 behind the ledger rows and the cached response that serving it in one go leaves behind.
 */
module StreamRuns {
  import opened Wrappers
  import opened Api
  import opened Fallback
  import opened SingleFlight
  import opened Provenance
  import opened Accounting
  import opened Streaming

  /** The request is about to hear from its current provider. */
  ghost predicate Seeks(w: World, s: nat, index: nat, lastError: Option<ErrorKind>) {
    StreamOpen(w, s) && w.streams[s].pc == Relaying(index, lastError, [])
  }

  /** The lines arrive, one step each. */
  function Fed(w: World, s: nat, lines: seq<Line>): (w': World)
    requires StreamOpen(w, s)
    ensures StreamOpen(w', s)
  {
    if lines == [] then w
    else StreamStep(Fed(w, s, lines[..|lines| - 1]), s, StreamAction.Line(lines[|lines| - 1]))
  }

  lemma {:induction false} FedRelays(w: World, s: nat, index: nat, lastError: Option<ErrorKind>, lines: seq<Line>)
    requires Seeks(w, s, index, lastError)
    ensures Fed(w, s, lines) == StreamMoved(w, s, Relaying(index, lastError, lines))
  {
    var moved := StreamMoved(w, s, Relaying(index, lastError, lines));
    if lines == [] {
      assert moved.streams == w.streams;
    } else {
      var before, last := lines[..|lines| - 1], lines[|lines| - 1];
      FedRelays(w, s, index, lastError, before);
      assert before + [last] == lines;
      assert Fed(w, s, lines).streams == moved.streams;
    }
  }

  /** One provider after the other, each with all its lines and its end, until the request is settled. */
  function Driven(w: World, s: nat, sources: seq<Source<Line>>, created: int): World
    requires StreamOpen(w, s) && |w.streams[s].providers| == |sources|
    decreases |sources| - w.streams[s].pc.index
  {
    var source := sources[w.streams[s].pc.index];
    var fed := Fed(w, s, source.lines);
    FedKeeps(w, s, source.lines);
    var ended := StreamStep(fed, s, End(source.ending, created));
    EndMovesOn(fed, s, source.ending, created);
    if StreamOpen(ended, s) then Driven(ended, s, sources, created) else ended
  }

  lemma {:induction false} FedKeeps(w: World, s: nat, lines: seq<Line>)
    requires StreamOpen(w, s)
    ensures var w' := Fed(w, s, lines);
      w'.streams[s].providers == w.streams[s].providers && w'.streams[s].key == w.streams[s].key
      && w'.streams[s].pc.index == w.streams[s].pc.index
  {
    if lines != [] {
      FedKeeps(w, s, lines[..|lines| - 1]);
    }
  }

  /** An end leaves the request with the next provider, or settled. */
  lemma EndMovesOn(w: World, s: nat, ending: Ending, created: int)
    requires StreamOpen(w, s)
    ensures var w' := StreamStep(w, s, End(ending, created));
      w'.streams[s].providers == w.streams[s].providers && w'.streams[s].key == w.streams[s].key
      && (w'.streams[s].pc.Relaying? ==> w'.streams[s].pc.index == w.streams[s].pc.index + 1)
  {
    StreamStepMovesOne(w, s, End(ending, created));
  }

  /** The ledger rows that a settled streaming request has scheduled. */
  function Rows(k: StreamTask): seq<Scheduled> {
    if StreamLed(k) then [FromStream(StreamRecordOf(k))]
    else if StreamAnswered(k) then [FromReplay(StreamRecordOf(k))]
    else
      match k.pc
      case StreamOver(Cut(_, _, error)) => [OfFailure(MidwayError(error))]
      case StreamOver(NotStarted(attempted, _)) => [OfFailure(if attempted == [] then ModelNotFound else UpstreamError)]
      case _ => []
  }

  /** Where a streaming miss ends up, read off the first source that starts. */
  ghost predicate EndsAt(pc: StreamPc, providers: seq<Provider>, sources: seq<Source<Line>>, created: int)
    requires |providers| == |sources|
  {
    var k := FirstStarted(sources);
    if k == |sources| then pc == StreamOver(NotStarted(Names(providers), LastError(sources)))
    else
      match sources[k].ending
      case Aborted => pc == StreamOver(StreamCrashed)
      case Broken(error) => pc == StreamOver(Cut(providers[k], sources[k].lines, error))
      case Completed =>
        pc == StreamStoring(providers[k], sources[k].lines, created)
        || pc == StreamOver(Whole(providers[k], sources[k].lines, created))
  }

  /** The request is settled with these rows and this response to cache, and its record, if any, is in the log. */
  ghost predicate SettledAs(w: World, w': World, s: nat, outcome: (seq<Scheduled>, Option<Response>))
    requires s < |w'.streams|
  {
    var k := w'.streams[s];
    && (if outcome.1.Some? then k.pc.StreamStoring? else k.pc.StreamOver?)
    && Rows(k) == outcome.0 && Rebuilt(k.pc) == outcome.1
    && w'.log == if StreamAnswered(k) then w.log + [Emitted(ByStream(s), StreamRecordOf(k))] else w.log
  }

  /** The last step, from the lines of the provider that settles the request. */
  lemma {:induction false} EndSettles(w: World, s: nat, sources: seq<Source<Line>>, created: int,
                                      outcome: (seq<Scheduled>, Option<Response>))
    requires StreamOpen(w, s) && |w.streams[s].providers| == |sources|
    requires sources[w.streams[s].pc.index].lines == w.streams[s].pc.lines
    requires FirstStarted(sources) == w.streams[s].pc.index
    requires outcome == StreamOutcome(w.streams[s].key.keyId, w.streams[s].key.request.model, None,
      w.streams[s].providers, sources, created)
    ensures SettledAs(w, StreamStep(w, s, End(sources[w.streams[s].pc.index].ending, created)), s, outcome)
    ensures EndsAt(StreamStep(w, s, End(sources[w.streams[s].pc.index].ending, created)).streams[s].pc,
      w.streams[s].providers, sources, created)
  {
    match sources[w.streams[s].pc.index].ending
    case Completed =>
    case Broken(_) =>
    case Aborted =>
  }

  /** Or it was the last provider and gave nothing either. */
  lemma {:induction false} EndExhausts(w: World, s: nat, sources: seq<Source<Line>>, created: int,
                                       outcome: (seq<Scheduled>, Option<Response>))
    requires StreamOpen(w, s) && |w.streams[s].providers| == |sources| == w.streams[s].pc.index + 1
    requires w.streams[s].pc.lines == [] && FirstStarted(sources) == |sources|
    requires w.streams[s].pc.lastError == LastError(sources[..w.streams[s].pc.index])
    requires outcome == StreamOutcome(w.streams[s].key.keyId, w.streams[s].key.request.model, None,
      w.streams[s].providers, sources, created)
    ensures SettledAs(w, StreamStep(w, s, End(sources[w.streams[s].pc.index].ending, created)), s, outcome)
    ensures EndsAt(StreamStep(w, s, End(sources[w.streams[s].pc.index].ending, created)).streams[s].pc,
      w.streams[s].providers, sources, created)
  {
    assert FirstStarted(sources) > w.streams[s].pc.index && sources[w.streams[s].pc.index].Skipped();
  }

  lemma {:induction false} DrivenFrom(w: World, s: nat, index: nat, lastError: Option<ErrorKind>,
                                      sources: seq<Source<Line>>, created: int)
    requires Seeks(w, s, index, lastError) && |w.streams[s].providers| == |sources|
    requires (forall j :: 0 <= j < index ==> sources[j].Skipped()) && lastError == LastError(sources[..index])
    ensures var k, w' := w.streams[s], Driven(w, s, sources, created);
      |w'.streams| == |w.streams| && EndsAt(w'.streams[s].pc, k.providers, sources, created)
      && SettledAs(w, w', s, StreamOutcome(k.key.keyId, k.key.request.model, None, k.providers, sources, created))
    decreases |sources| - index
  {
    var source, k := sources[index], w.streams[s];
    var outcome := StreamOutcome(k.key.keyId, k.key.request.model, None, k.providers, sources, created);
    var fed := Fed(w, s, source.lines);
    FedRelays(w, s, index, lastError, source.lines);
    var ended := StreamStep(fed, s, End(source.ending, created));
    if source.Skipped() {
      if index + 1 == |sources| {
        FirstStartedUnique(sources, |sources|);
        EndExhausts(fed, s, sources, created, outcome);
      } else {
        var error := if source.ending.Broken? then Some(source.ending.error) else lastError;
        assert sources[..index + 1][..index] == sources[..index];
        assert ended.streams[s].pc == Relaying(index + 1, error, []);
        DrivenFrom(ended, s, index + 1, error, sources, created);
      }
    } else {
      FirstStartedUnique(sources, index);
      EndSettles(fed, s, sources, created, outcome);
    }
  }

  /** The whole of it, from the reply of the cache on; an unreadable entry is discarded before this point. */
  function Run(w: World, s: nat, sources: seq<Source<Line>>, created: int): World
    requires s < |w.streams| && |w.streams[s].providers| == |sources|
    requires w.streams[s].pc.StreamDiscarded? || (w.streams[s].pc.StreamReplied? && !w.streams[s].pc.reply.Unreadable?)
  {
    var begun := StreamStep(w, s, Proceed);
    if StreamOpen(begun, s) then Driven(begun, s, sources, created) else begun
  }

  function CachedIn(pc: StreamPc): Option<Response> {
    match pc
    case StreamReplied(Found(response)) => Some(response)
    case _ => None
  }

  /** Main result: taken step by step, a streaming request leaves behind what serving it in one go leaves behind. */
  lemma RunLeavesTheOutcome(w: World, s: nat, sources: seq<Source<Line>>, created: int)
    requires s < |w.streams| && |w.streams[s].providers| == |sources|
    requires w.streams[s].pc.StreamDiscarded? || (w.streams[s].pc.StreamReplied? && !w.streams[s].pc.reply.Unreadable?)
    ensures var k, w' := w.streams[s], Run(w, s, sources, created);
      |w'.streams| == |w.streams|
      && (CachedIn(k.pc).None? ==> EndsAt(w'.streams[s].pc, k.providers, sources, created))
      && SettledAs(w, w', s,
           StreamOutcome(k.key.keyId, k.key.request.model, CachedIn(k.pc), k.providers, sources, created))
  {
    var begun := StreamStep(w, s, Proceed);
    if CachedIn(w.streams[s].pc).None? && sources != [] {
      assert sources[..0] == [];
      DrivenFrom(begun, s, 0, None, sources, created);
    }
  }
}

/** The two first-success loops over the routed providers: one for whole responses, one for streams. */
module Fallback {
  import opened Wrappers
  import opened Api

  /** The provider errors that the chain skips over. */
  datatype ErrorKind = TimedOut | RateLimited | AuthFailed | Upstream

  /** How one provider call ends; `Crashed` stands for an exception that is not a provider error. */
  datatype Attempt = Answered(response: Response) | Failed(error: ErrorKind) | Crashed

  datatype Failure = NoProvider(attempted: seq<string>, lastError: Option<ErrorKind>) | Unexpected

  datatype ChainResult = Served(provider: Provider, response: Response) | Raised(failure: Failure)

  function Names(providers: seq<Provider>): (names: seq<string>)
    ensures |names| == |providers|
    ensures forall i :: 0 <= i < |names| ==> names[i] == providers[i].name
  {
    seq(|providers|, i requires 0 <= i < |providers| => providers[i].name)
  }

  // ---------- execute_with_fallback, one answer at a time ----------

  datatype Chain = Trying(failures: seq<ErrorKind>) | Finished(result: ChainResult)

  /** The chain after the provider at position `|failures|` has answered. */
  function Next(providers: seq<Provider>, failures: seq<ErrorKind>, attempt: Attempt): Chain
    requires |failures| < |providers|
  {
    match attempt
    case Answered(response) => Finished(Served(providers[|failures|], response))
    case Crashed => Finished(Raised(Unexpected))
    case Failed(error) =>
      if |failures| + 1 == |providers| then Finished(Raised(NoProvider(Names(providers), Some(error))))
      else Trying(failures + [error])
  }

  /** The whole chain, where `answers[i]` is what the provider at position `i` answers if it is asked. */
  function Run(providers: seq<Provider>, failures: seq<ErrorKind>, answers: seq<Attempt>): ChainResult
    requires |failures| < |providers| == |answers|
    decreases |providers| - |failures|
  {
    match Next(providers, failures, answers[|failures|])
    case Finished(result) => result
    case Trying(more) => Run(providers, more, answers)
  }

  /** The position of the first answer that is not a provider error. */
  function FirstNotFailed(answers: seq<Attempt>): (k: nat)
    ensures k <= |answers|
    ensures forall j :: 0 <= j < k ==> answers[j].Failed?
    ensures k < |answers| ==> !answers[k].Failed?
  {
    if answers == [] || !answers[0].Failed? then 0 else 1 + FirstNotFailed(answers[1..])
  }

  /** What the chain must produce, read off from the first answer that is not a provider error. */
  ghost predicate ChosenBy(result: ChainResult, providers: seq<Provider>, answers: seq<Attempt>)
    requires |providers| == |answers|
  {
    var k := FirstNotFailed(answers);
    if k == |answers| then
      result == Raised(NoProvider(Names(providers), if k == 0 then None else Some(answers[k - 1].error)))
    else
      match answers[k]
      case Answered(response) => result == Served(providers[k], response)
      case Crashed => result == Raised(Unexpected)
  }

  lemma FirstNotFailedUnique(answers: seq<Attempt>, k: nat)
    requires k <= |answers|
    requires forall j :: 0 <= j < k ==> answers[j].Failed?
    requires k < |answers| ==> !answers[k].Failed?
    ensures FirstNotFailed(answers) == k
  {
  }

  lemma {:induction false} RunFrom(providers: seq<Provider>, failures: seq<ErrorKind>, answers: seq<Attempt>)
    requires |failures| < |providers| == |answers|
    requires forall j :: 0 <= j < |failures| ==> answers[j].Failed?
    ensures ChosenBy(Run(providers, failures, answers), providers, answers)
    decreases |providers| - |failures|
  {
    var k := |failures|;
    match answers[k]
    case Answered(_) => FirstNotFailedUnique(answers, k);
    case Crashed => FirstNotFailedUnique(answers, k);
    case Failed(error) =>
      if k + 1 == |providers| {
        FirstNotFailedUnique(answers, k + 1);
      } else {
        RunFrom(providers, failures + [error], answers);
      }
  }

  /** Taking the answers one at a time, as an interleaved run does, ends where the loop ends. */
  lemma {:induction false} StepwiseChainIsTheLoop(providers: seq<Provider>, answers: seq<Attempt>)
    requires 0 < |providers| == |answers|
    ensures ChosenBy(Run(providers, [], answers), providers, answers)
  {
    RunFrom(providers, [], answers);
  }

  method ExecuteWithFallback(providers: seq<Provider>, answers: seq<Attempt>)
    returns (result: ChainResult, attempted: seq<string>)
    requires |providers| == |answers|
    ensures ChosenBy(result, providers, answers)
    ensures var k := FirstNotFailed(answers);
      attempted == Names(providers[..if k < |providers| then k + 1 else k])
  {
    attempted := [];
    var lastError: Option<ErrorKind> := None;
    for i := 0 to |providers|
      invariant attempted == Names(providers[..i])
      invariant forall j :: 0 <= j < i ==> answers[j].Failed?
      invariant lastError == if i == 0 then None else Some(answers[i - 1].error)
    {
      attempted := attempted + [providers[i].name];
      match answers[i] {
        case Answered(response) =>
          FirstNotFailedUnique(answers, i);
          return Served(providers[i], response), attempted;
        case Crashed =>
          FirstNotFailedUnique(answers, i);
          return Raised(Unexpected), attempted;
        case Failed(error) =>
          lastError := Some(error);
      }
    }
    FirstNotFailedUnique(answers, |providers|);
    assert providers[..|providers|] == providers;
    result := Raised(NoProvider(attempted, lastError));
  }

  /** The time that the slowest possible chain over `providers` takes. */
  function Timeouts(providers: seq<Provider>): real {
    if providers == [] then 0.0 else providers[0].timeout + Timeouts(providers[1..])
  }

  /** Each provider adds its own timeout, once: a chain that is cut in two takes the time of both parts. */
  lemma {:induction false} TimeoutsAdd(a: seq<Provider>, p: Provider, b: seq<Provider>)
    ensures Timeouts(a + [p] + b) == Timeouts(a) + p.timeout + Timeouts(b)
  {
    if a == [] {
      assert ([] + [p] + b)[1..] == b;
    } else {
      assert (a + [p] + b)[1..] == a[1..] + [p] + b;
      TimeoutsAdd(a[1..], p, b);
    }
  }

  lemma {:induction false} TimeoutsNotNegative(providers: seq<Provider>)
    requires forall p :: p in providers ==> p.timeout >= 0.0
    ensures Timeouts(providers) >= 0.0
  {
    if providers != [] {
      TimeoutsNotNegative(providers[1..]);
    }
  }

  // ---------- stream_chat_completion ----------

  /** How a provider's stream ends after its lines; `Aborted` is an exception that is not a provider error. */
  datatype Ending = Completed | Broken(error: ErrorKind) | Aborted

  datatype Source<L> = Source(lines: seq<L>, ending: Ending) {
    /** No line came and the next provider is tried. */
    predicate Skipped() {
      lines == [] && ending != Aborted
    }
  }

  datatype StreamEnd = Ended(ending: Ending) | NobodyStarted(attempted: seq<string>, lastError: Option<ErrorKind>)

  function FirstStarted<L>(sources: seq<Source<L>>): (k: nat)
    ensures k <= |sources|
    ensures forall j :: 0 <= j < k ==> sources[j].Skipped()
    ensures k < |sources| ==> !sources[k].Skipped()
  {
    if sources == [] || !sources[0].Skipped() then 0 else 1 + FirstStarted(sources[1..])
  }

  lemma FirstStartedUnique<L>(sources: seq<Source<L>>, k: nat)
    requires k <= |sources|
    requires forall j :: 0 <= j < k ==> sources[j].Skipped()
    requires k < |sources| ==> !sources[k].Skipped()
    ensures FirstStarted(sources) == k
  {
  }

  /** The error of the last source that broke before its first line; an empty stream leaves it alone. */
  function LastError<L>(sources: seq<Source<L>>): Option<ErrorKind> {
    if sources == [] then None
    else
      var last := sources[|sources| - 1];
      if last.ending.Broken? then Some(last.ending.error) else LastError(sources[..|sources| - 1])
  }

  /** It is the error of the last source that broke. */
  lemma {:induction false} LastErrorIs<L>(sources: seq<Source<L>>)
    ensures match LastError(sources)
      case None => forall i :: 0 <= i < |sources| ==> !sources[i].ending.Broken?
      case Some(error) =>
        exists i :: 0 <= i < |sources| && sources[i].ending == Broken(error)
          && forall j :: i < j < |sources| ==> !sources[j].ending.Broken?
  {
    if sources != [] {
      var n := |sources| - 1;
      LastErrorIs(sources[..n]);
      if !sources[n].ending.Broken? && LastError(sources[..n]).Some? {
        var error := LastError(sources[..n]).value;
        var i :| 0 <= i < n && sources[..n][i].ending == Broken(error)
          && forall j :: i < j < n ==> !sources[..n][j].ending.Broken?;
        assert sources[i].ending == Broken(error);
        assert forall j :: i < j < n ==> sources[j] == sources[..n][j];
      }
    }
  }

  function Tagged<L>(provider: Provider, lines: seq<L>): (tagged: seq<(Provider, L)>)
    ensures |tagged| == |lines| && forall i :: 0 <= i < |lines| ==> tagged[i] == (provider, lines[i])
  {
    seq(|lines|, i requires 0 <= i < |lines| => (provider, lines[i]))
  }

  /** What a stream must relay and how it must end, read off from the first source that starts. */
  function RelayedBy<L>(providers: seq<Provider>, sources: seq<Source<L>>): (seq<(Provider, L)>, StreamEnd)
    requires |providers| == |sources|
  {
    var k := FirstStarted(sources);
    if k < |sources| then (Tagged(providers[k], sources[k].lines), Ended(sources[k].ending))
    else ([], NobodyStarted(Names(providers), LastError(sources)))
  }

  /**
   Read off the sources: a stream is relayed from the first source that gives a line, or crashes before one,
   and nobody starts exactly when every source ends or breaks without a line.
   */
  lemma RelayedReads<L>(providers: seq<Provider>, sources: seq<Source<L>>)
    requires |providers| == |sources|
    ensures var (relayed, end) := RelayedBy(providers, sources);
      (end.NobodyStarted? <==> forall i :: 0 <= i < |sources| ==> sources[i].lines == [] && !sources[i].ending.Aborted?)
      && (end.NobodyStarted? ==> relayed == [])
      && (end.Ended? ==>
            exists k :: 0 <= k < |sources| && Relays(relayed, providers[k], sources[k])
              && end.ending == sources[k].ending
              && (sources[k].lines != [] || sources[k].ending.Aborted?)
              && forall j :: 0 <= j < k ==> sources[j].lines == [] && !sources[j].ending.Aborted?)
  {
    var k := FirstStarted(sources);
    assert forall j :: 0 <= j < k ==> sources[j].Skipped();
    if k < |sources| {
      assert !sources[k].Skipped();
      assert Relays(RelayedBy(providers, sources).0, providers[k], sources[k]);
    }
  }

  ghost predicate Relays<L>(relayed: seq<(Provider, L)>, provider: Provider, source: Source<L>) {
    |relayed| == |source.lines| && forall i :: 0 <= i < |relayed| ==> relayed[i] == (provider, source.lines[i])
  }

  method Relay<L>(provider: Provider, lines: seq<L>) returns (relayed: seq<(Provider, L)>)
    ensures relayed == Tagged(provider, lines)
  {
    relayed := [];
    for j := 0 to |lines|
      invariant relayed == Tagged(provider, lines[..j])
    {
      relayed := relayed + [(provider, lines[j])];
    }
    assert lines[..|lines|] == lines;
  }

  /** `relayed` holds the lines of one provider only: the first that yields a line, all it yields, to its own end. */
  method StreamChatCompletion<L>(providers: seq<Provider>, sources: seq<Source<L>>)
    returns (relayed: seq<(Provider, L)>, end: StreamEnd, attempted: seq<string>)
    requires |providers| == |sources|
    ensures (relayed, end) == RelayedBy(providers, sources)
    ensures var k := FirstStarted(sources);
      attempted == Names(providers[..if k < |sources| then k + 1 else k])
  {
    relayed, attempted := [], [];
    var lastError: Option<ErrorKind> := None;
    for i := 0 to |providers|
      invariant relayed == [] && attempted == Names(providers[..i])
      invariant forall j :: 0 <= j < i ==> sources[j].Skipped()
      invariant lastError == LastError(sources[..i])
    {
      attempted := attempted + [providers[i].name];
      var source := sources[i];
      if source.lines == [] && source.ending != Aborted {
        assert sources[..i + 1][..i] == sources[..i];
        if source.ending.Broken? {
          lastError := Some(source.ending.error);
        }
      } else {
        FirstStartedUnique(sources, i);
        relayed := Relay(providers[i], source.lines);
        end := Ended(source.ending);
        return;
      }
    }
    FirstStartedUnique(sources, |providers|);
    assert providers[..|providers|] == providers && sources[..|sources|] == sources;
    end := NobodyStarted(attempted, lastError);
  }

  // ---------- The same loop, one source at a time ----------

  datatype StreamChain = Seeking(lastError: Option<ErrorKind>) | Over(end: StreamEnd)

  /** The loop after the source at position `index` has given `lines` and ended. */
  function NextSource<L>(providers: seq<Provider>, index: nat, lastError: Option<ErrorKind>,
                         lines: seq<L>, ending: Ending): StreamChain
    requires index < |providers|
  {
    if lines == [] && ending != Aborted then
      var error := if ending.Broken? then Some(ending.error) else lastError;
      if index + 1 == |providers| then Over(NobodyStarted(Names(providers), error)) else Seeking(error)
    else Over(Ended(ending))
  }

  /** The lines relayed and the end reached from position `index` on. */
  function RunSources<L>(providers: seq<Provider>, index: nat, lastError: Option<ErrorKind>,
                         sources: seq<Source<L>>): (seq<(Provider, L)>, StreamEnd)
    requires index < |providers| == |sources|
    decreases |providers| - index
  {
    match NextSource(providers, index, lastError, sources[index].lines, sources[index].ending)
    case Seeking(error) => RunSources(providers, index + 1, error, sources)
    case Over(end) => (Tagged(providers[index], sources[index].lines), end)
  }

  lemma {:induction false} RunSourcesFrom<L>(providers: seq<Provider>, index: nat, sources: seq<Source<L>>)
    requires index < |providers| == |sources|
    requires forall j :: 0 <= j < index ==> sources[j].Skipped()
    ensures RunSources(providers, index, LastError(sources[..index]), sources) == RelayedBy(providers, sources)
    decreases |providers| - index
  {
    if sources[index].Skipped() {
      assert sources[..index + 1][..index] == sources[..index];
      if index + 1 == |providers| {
        FirstStartedUnique(sources, index + 1);
        assert sources[..index + 1] == sources;
      } else {
        RunSourcesFrom(providers, index + 1, sources);
      }
    } else {
      FirstStartedUnique(sources, index);
    }
  }

  /** Asking the sources one at a time, as an interleaved run does, relays what the loop relays. */
  lemma StepwiseStreamIsTheLoop<L>(providers: seq<Provider>, sources: seq<Source<L>>)
    requires 0 < |providers| == |sources|
    ensures RunSources(providers, 0, None, sources) == RelayedBy(providers, sources)
  {
    assert sources[..0] == [];
    RunSourcesFrom(providers, 0, sources);
  }

  /** Both loops settle on the same provider when every provider starts alike in both. */
  lemma {:induction false} SameProviderChosen<L>(answers: seq<Attempt>, sources: seq<Source<L>>)
    requires |answers| == |sources|
    requires forall i :: 0 <= i < |answers| ==> (answers[i].Failed? <==> sources[i].Skipped())
    ensures FirstNotFailed(answers) == FirstStarted(sources)
  {
    FirstStartedUnique(sources, FirstNotFailed(answers));
  }
}

/** One turn of tool calls: which are answered at once, which are executed, and in
    what batches. */
module ToolTurn {
  import opened Domain
  import opened Transcript
  import opened Compaction

  const COMPACT_TOOL := "compact"
  const TOOL_RESULT_LIMIT := 10_000
  const COMPACTING := "{\"status\":\"ok\",\"message\":\"Compressing...\"}"
  const SKIPPED := "{\"skipped\":true}"

  datatype Tool = Tool(readonly: bool, repeatable: bool)

  /** The registry, and what running a call ends in: its text and its success. */
  datatype Tools = Tools(registry: map<string, Tool>, run: Call -> (string, bool))

  predicate Readonly(tools: Tools, call: Call) {
    call.name in tools.registry && tools.registry[call.name].readonly
  }

  /** Calls that are answered without running: the compact tool, and a tool that
      already succeeded and is not repeatable. */
  predicate Immediate(tools: Tools, succeeded: set<string>, call: Call) {
    || call.name == COMPACT_TOOL
    || (call.name in succeeded && !(call.name in tools.registry && tools.registry[call.name].repeatable))
  }

  function ImmediateResult(call: Call): Message {
    ToolMessage(call.id, call.name, if call.name == COMPACT_TOOL then COMPACTING else SKIPPED)
  }

  function Truncated(text: string): string {
    if |text| > TOOL_RESULT_LIMIT then text[..TOOL_RESULT_LIMIT] else text
  }

  function ExecutedResult(tools: Tools, call: Call): Message {
    ToolMessage(call.id, call.name, Truncated(tools.run(call).0))
  }

  function Results(tools: Tools, calls: seq<Call>): seq<Message> {
    if calls == [] then []
    else Results(tools, calls[..|calls| - 1]) + [ExecutedResult(tools, calls[|calls| - 1])]
  }

  function ToExecute(tools: Tools, succeeded: set<string>, calls: seq<Call>): seq<Call> {
    if calls == [] then []
    else
      var last := calls[|calls| - 1];
      var earlier := ToExecute(tools, succeeded, calls[..|calls| - 1]);
      if Immediate(tools, succeeded, last) then earlier else earlier + [last]
  }

  function AnsweredAtOnce(tools: Tools, succeeded: set<string>, calls: seq<Call>): seq<Message> {
    if calls == [] then []
    else
      var last := calls[|calls| - 1];
      var earlier := AnsweredAtOnce(tools, succeeded, calls[..|calls| - 1]);
      if Immediate(tools, succeeded, last) then earlier + [ImmediateResult(last)] else earlier
  }

  /** Everything a turn appends after its assistant message. */
  function TurnResults(tools: Tools, succeeded: set<string>, calls: seq<Call>): seq<Message> {
    AnsweredAtOnce(tools, succeeded, calls) + Results(tools, ToExecute(tools, succeeded, calls))
  }

  function Successes(tools: Tools, calls: seq<Call>): set<string> {
    if calls == [] then {}
    else
      var last := calls[|calls| - 1];
      Successes(tools, calls[..|calls| - 1]) + (if tools.run(last).1 then {last.name} else {})
  }

  // ---- batches ---------------------------------------------------------------------------

  datatype Batch = Batch(parallel: bool, calls: seq<Call>)

  function Joined(batches: seq<Batch>): seq<Call> {
    if batches == [] then [] else Joined(batches[..|batches| - 1]) + batches[|batches| - 1].calls
  }

  /** A parallel batch holds read-only calls; anything else runs alone. */
  predicate BatchOk(tools: Tools, b: Batch) {
    && b.calls != []
    && if b.parallel then forall i :: 0 <= i < |b.calls| ==> Readonly(tools, b.calls[i])
       else |b.calls| == 1 && !Readonly(tools, b.calls[0])
  }

  /** Good batches, and no two parallel ones that could have been one. */
  predicate GoodBatches(tools: Tools, batches: seq<Batch>) {
    batches == []
    || var before, last := batches[..|batches| - 1], batches[|batches| - 1];
       && GoodBatches(tools, before) && BatchOk(tools, last)
       && (before != [] ==> !(before[|before| - 1].parallel && last.parallel))
  }

  /** Only tools that the registry has as read-only run in parallel, every other call runs
      alone, and no two parallel batches follow each other. */
  lemma {:induction false} BatchesAre(tools: Tools, batches: seq<Batch>, n: nat)
    requires GoodBatches(tools, batches) && n < |batches|
    ensures batches[n].calls != []
    ensures batches[n].parallel ==>
              forall call :: call in batches[n].calls ==>
                call.name in tools.registry && tools.registry[call.name].readonly
    ensures !batches[n].parallel ==>
              && |batches[n].calls| == 1
              && var name := batches[n].calls[0].name;
                 name in tools.registry ==> !tools.registry[name].readonly
    ensures n > 0 && batches[n].parallel ==> !batches[n - 1].parallel
  {
    if n < |batches| - 1 {
      BatchesAre(tools, batches[..|batches| - 1], n);
    }
  }

  lemma JoinedPush(batches: seq<Batch>, b: Batch)
    ensures Joined(batches + [b]) == Joined(batches) + b.calls
  {
    assert (batches + [b])[..|batches|] == batches;
  }

  lemma JoinedNext(batches: seq<Batch>, n: nat)
    requires n < |batches|
    ensures Joined(batches[..n + 1]) == Joined(batches[..n]) + batches[n].calls
  {
    assert batches[..n + 1] == batches[..n] + [batches[n]];
    JoinedPush(batches[..n], batches[n]);
  }

  lemma ExecutedPush(tools: Tools, calls: seq<Call>, call: Call)
    ensures Results(tools, calls + [call]) == Results(tools, calls) + [ExecutedResult(tools, call)]
    ensures Successes(tools, calls + [call])
         == Successes(tools, calls) + (if tools.run(call).1 then {call.name} else {})
  {
    assert (calls + [call])[..|calls|] == calls;
  }

  lemma {:induction false} ExecutedConcat(tools: Tools, xs: seq<Call>, ys: seq<Call>)
    ensures Results(tools, xs + ys) == Results(tools, xs) + Results(tools, ys)
    ensures Successes(tools, xs + ys) == Successes(tools, xs) + Successes(tools, ys)
  {
    if ys == [] {
      assert xs + ys == xs;
    } else {
      var before, last := ys[..|ys| - 1], ys[|ys| - 1];
      ExecutedConcat(tools, xs, before);
      assert xs + ys == (xs + before) + [last];
      ExecutedPush(tools, xs + before, last);
    }
  }

  // ---- running batches ------------------------------------------------------------------------

  /** Results of the first `n` batches. */
  function ResultsUpTo(tools: Tools, batches: seq<Batch>, n: nat): seq<Message>
    requires n <= |batches|
  {
    if n == 0 then [] else ResultsUpTo(tools, batches, n - 1) + Results(tools, batches[n - 1].calls)
  }

  function SuccessesUpTo(tools: Tools, batches: seq<Batch>, n: nat): set<string>
    requires n <= |batches|
  {
    if n == 0 then {} else SuccessesUpTo(tools, batches, n - 1) + Successes(tools, batches[n - 1].calls)
  }

  lemma {:induction false} UpToMeans(tools: Tools, batches: seq<Batch>, n: nat)
    requires n <= |batches|
    ensures ResultsUpTo(tools, batches, n) == Results(tools, Joined(batches[..n]))
    ensures SuccessesUpTo(tools, batches, n) == Successes(tools, Joined(batches[..n]))
  {
    if n > 0 {
      UpToMeans(tools, batches, n - 1);
      JoinedNext(batches, n - 1);
      ExecutedConcat(tools, Joined(batches[..n - 1]), batches[n - 1].calls);
    }
  }

  // ---- one result per call ------------------------------------------------------------------

  lemma {:induction false} ResultBagConcat(xs: seq<Message>, ys: seq<Message>)
    ensures ResultBag(xs + ys) == ResultBag(xs) + ResultBag(ys)
  {
    if ys == [] {
      assert xs + ys == xs;
    } else {
      ResultBagConcat(xs, ys[..|ys| - 1]);
      assert (xs + ys)[..|xs + ys| - 1] == xs + ys[..|ys| - 1];
    }
  }

  lemma BagPush(calls: seq<Call>, call: Call, ms: seq<Message>, m: Message)
    requires m.ToolMessage?
    ensures CallBag(calls + [call]) == CallBag(calls) + multiset{call.id}
    ensures ResultBag(ms + [m]) == ResultBag(ms) + multiset{m.id}
  {
    assert (calls + [call])[..|calls|] == calls;
    assert (ms + [m])[..|ms|] == ms;
  }

  lemma BagMove(a: multiset<Option<nat>>, b: multiset<Option<nat>>, c: multiset<Option<nat>>, x: Option<nat>)
    requires a + b == c
    ensures (a + multiset{x}) + b == c + multiset{x} && a + (b + multiset{x}) == c + multiset{x}
  {
  }

  /** Splitting a turn loses and invents no call. */
  lemma {:induction false} TurnSplits(tools: Tools, succeeded: set<string>, calls: seq<Call>)
    ensures ResultBag(AnsweredAtOnce(tools, succeeded, calls)) + CallBag(ToExecute(tools, succeeded, calls))
         == CallBag(calls)
  {
    if calls != [] {
      var before, last := calls[..|calls| - 1], calls[|calls| - 1];
      TurnSplits(tools, succeeded, before);
      var now, later := AnsweredAtOnce(tools, succeeded, before), ToExecute(tools, succeeded, before);
      BagPush(later, last, now, ImmediateResult(last));
      BagMove(ResultBag(now), CallBag(later), CallBag(before), last.id);
    }
  }

  lemma ToolsPush(ms: seq<Message>, m: Message)
    requires AllTools(ms) && m.ToolMessage?
    ensures AllTools(ms + [m])
  {
    assert (ms + [m])[..|ms|] == ms;
  }

  lemma {:induction false} ToolsConcat(xs: seq<Message>, ys: seq<Message>)
    requires AllTools(xs) && AllTools(ys)
    ensures AllTools(xs + ys)
  {
    if ys == [] {
      assert xs + ys == xs;
    } else {
      ToolsConcat(xs, ys[..|ys| - 1]);
      assert xs + ys == (xs + ys[..|ys| - 1]) + [ys[|ys| - 1]];
      ToolsPush(xs + ys[..|ys| - 1], ys[|ys| - 1]);
    }
  }

  lemma {:induction false} AnsweredAreTools(tools: Tools, succeeded: set<string>, calls: seq<Call>)
    ensures AllTools(AnsweredAtOnce(tools, succeeded, calls))
  {
    if calls != [] {
      var before, last := calls[..|calls| - 1], calls[|calls| - 1];
      AnsweredAreTools(tools, succeeded, before);
      ToolsPush(AnsweredAtOnce(tools, succeeded, before), ImmediateResult(last));
    }
  }

  lemma {:induction false} ResultsAnswer(tools: Tools, calls: seq<Call>)
    ensures AllTools(Results(tools, calls)) && ResultBag(Results(tools, calls)) == CallBag(calls)
  {
    if calls != [] {
      var before, last := calls[..|calls| - 1], calls[|calls| - 1];
      ResultsAnswer(tools, before);
      BagPush(before, last, Results(tools, before), ExecutedResult(tools, last));
      ToolsPush(Results(tools, before), ExecutedResult(tools, last));
    }
  }

  /** Every call of a turn gets exactly one result, with or without an id and however
      often an id is repeated: the results carry the ids of the calls, each as often. */
  lemma TurnIsAnswered(tools: Tools, succeeded: set<string>, calls: seq<Call>)
    ensures Answers(calls, TurnResults(tools, succeeded, calls))
  {
    var now, later := AnsweredAtOnce(tools, succeeded, calls), ToExecute(tools, succeeded, calls);
    TurnSplits(tools, succeeded, calls);
    ResultsAnswer(tools, later);
    ResultBagConcat(now, Results(tools, later));
    AnsweredAreTools(tools, succeeded, calls);
    ToolsConcat(now, Results(tools, later));
  }

  // ---- what each call is answered with -----------------------------------------------------------

  /** The answer to a call: to `compact` that it is being done, to a tool that already
      succeeded and may not be repeated that it is skipped, to any other the first
      10000 characters of what running it gave. */
  predicate IsAnswer(tools: Tools, succeeded: set<string>, call: Call, m: Message) {
    && m.ToolMessage? && m.id == call.id && m.name == call.name
    && if call.name == "compact" then m.content == "{\"status\":\"ok\",\"message\":\"Compressing...\"}"
       else if call.name in succeeded && (call.name in tools.registry ==> !tools.registry[call.name].repeatable) then
         m.content == "{\"skipped\":true}"
       else
         var text := tools.run(call).0;
         m.content <= text && (|m.content| == |text| || |m.content| == 10_000 < |text|)
  }

  /** Where the answer to a call stands: answers without running first, then the results of
      the calls that run, both in call order. */
  function Slot(tools: Tools, succeeded: set<string>, calls: seq<Call>, k: nat): nat
    requires k < |calls|
  {
    if Immediate(tools, succeeded, calls[k]) then |AnsweredAtOnce(tools, succeeded, calls[..k])|
    else |AnsweredAtOnce(tools, succeeded, calls)| + |ToExecute(tools, succeeded, calls[..k])|
  }

  lemma {:induction false} AnsweredAt(tools: Tools, succeeded: set<string>, calls: seq<Call>, k: nat)
    requires k < |calls| && Immediate(tools, succeeded, calls[k])
    ensures
      var answered, slot := AnsweredAtOnce(tools, succeeded, calls), |AnsweredAtOnce(tools, succeeded, calls[..k])|;
      slot < |answered| && answered[slot] == ImmediateResult(calls[k])
  {
    if k < |calls| - 1 {
      AnsweredAt(tools, succeeded, calls[..|calls| - 1], k);
      assert calls[..|calls| - 1][..k] == calls[..k];
    }
  }

  lemma {:induction false} ExecutedAt(tools: Tools, succeeded: set<string>, calls: seq<Call>, k: nat)
    requires k < |calls| && !Immediate(tools, succeeded, calls[k])
    ensures
      var later, slot := ToExecute(tools, succeeded, calls), |ToExecute(tools, succeeded, calls[..k])|;
      slot < |later| && later[slot] == calls[k]
  {
    if k < |calls| - 1 {
      ExecutedAt(tools, succeeded, calls[..|calls| - 1], k);
      assert calls[..|calls| - 1][..k] == calls[..k];
    }
  }

  lemma {:induction false} ResultAt(tools: Tools, calls: seq<Call>, k: nat)
    requires k < |calls|
    ensures k < |Results(tools, calls)| == |calls| && Results(tools, calls)[k] == ExecutedResult(tools, calls[k])
  {
    ResultsLength(tools, calls);
    ResultsLength(tools, calls[..|calls| - 1]);
    if k < |calls| - 1 {
      ResultAt(tools, calls[..|calls| - 1], k);
    }
  }

  lemma {:induction false} ResultsLength(tools: Tools, calls: seq<Call>)
    ensures |Results(tools, calls)| == |calls|
  {
    if calls != [] {
      ResultsLength(tools, calls[..|calls| - 1]);
    }
  }

  lemma {:induction false} SplitLengths(tools: Tools, succeeded: set<string>, calls: seq<Call>)
    ensures |AnsweredAtOnce(tools, succeeded, calls)| + |ToExecute(tools, succeeded, calls)| == |calls|
  {
    if calls != [] {
      SplitLengths(tools, succeeded, calls[..|calls| - 1]);
    }
  }

  /** A turn gives one result for each call, and the one at the call's place is its answer. */
  lemma TurnAnswers(tools: Tools, succeeded: set<string>, calls: seq<Call>, k: nat)
    requires k < |calls|
    ensures
      var results := TurnResults(tools, succeeded, calls);
      && |results| == |calls| && Slot(tools, succeeded, calls, k) < |results|
      && IsAnswer(tools, succeeded, calls[k], results[Slot(tools, succeeded, calls, k)])
  {
    var now, later := AnsweredAtOnce(tools, succeeded, calls), ToExecute(tools, succeeded, calls);
    SplitLengths(tools, succeeded, calls);
    ResultsLength(tools, later);
    if Immediate(tools, succeeded, calls[k]) {
      AnsweredAt(tools, succeeded, calls, k);
    } else {
      ExecutedAt(tools, succeeded, calls, k);
      ResultAt(tools, later, |ToExecute(tools, succeeded, calls[..k])|);
    }
  }

  /** The tools remembered as done are those that a run succeeded with. */
  lemma {:induction false} SuccessesMean(tools: Tools, calls: seq<Call>, name: string)
    ensures name in Successes(tools, calls)
            <==> exists k :: 0 <= k < |calls| && calls[k].name == name && tools.run(calls[k]).1
  {
    if calls != [] {
      SuccessesMean(tools, calls[..|calls| - 1], name);
    }
  }

  /** The calls that run are those that are not answered without running. */
  lemma {:induction false} ExecutedMean(tools: Tools, succeeded: set<string>, calls: seq<Call>, call: Call)
    ensures call in ToExecute(tools, succeeded, calls) <==> call in calls && !Immediate(tools, succeeded, call)
  {
    if calls != [] {
      ExecutedMean(tools, succeeded, calls[..|calls| - 1], call);
      assert call in calls <==> call in calls[..|calls| - 1] || call == calls[|calls| - 1];
    }
  }
}

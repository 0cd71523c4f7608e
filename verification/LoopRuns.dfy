/** Runs of the agent loop: turns, pruning, folding and compression in any order, and
    when every transcript that the model is shown is well formed. */
module LoopRuns {
  import opened Domain
  import opened Transcript
  import opened Repair
  import opened Compaction
  import opened AgentLoop
  import opened ToolTurn

  /** A step of the loop.  Of the calls of a turn that are executed the first `ran` ran;
      none is even looked at if the turn was cancelled before. */
  datatype LoopStep =
    | Say(message: Message)
    | RunTurn(content: string, calls: seq<Call>, ran: Option<nat>)
    | Prune
    | FoldTexts
    | Compress(summary: string)

  /** The transcript, the tools that succeeded, and whether a cancellation cut a turn short. */
  datatype LoopState = LoopState(messages: seq<Message>, succeeded: set<string>, cut: bool)

  /** What the loop can do: once a turn was cut short it only carries out a compression
      that the turn asked for, and ends. */
  predicate CanStep(tools: Tools, st: LoopState, step: LoopStep) {
    && (st.cut ==> step.Compress?)
    && match step
       case Say(m) => !m.ToolMessage? && CallsOf(m) == []
       case RunTurn(_, calls, ran) => ran.Some? ==> ran.value <= |ToExecute(tools, st.succeeded, calls)|
       case Prune => true
       case FoldTexts => true
       case Compress(_) => st.messages != []
  }

  predicate Complete(tools: Tools, succeeded: set<string>, calls: seq<Call>, ran: Option<nat>) {
    ran == Some(|ToExecute(tools, succeeded, calls)|)
  }

  /** The calls of a turn that ran. */
  function Ran(tools: Tools, succeeded: set<string>, calls: seq<Call>, ran: Option<nat>): seq<Call>
    requires ran.Some? ==> ran.value <= |ToExecute(tools, succeeded, calls)|
  {
    if ran.None? then [] else ToExecute(tools, succeeded, calls)[..ran.value]
  }

  /** The results that a turn appends. */
  function Given(tools: Tools, succeeded: set<string>, calls: seq<Call>, ran: Option<nat>): seq<Message>
    requires ran.Some? ==> ran.value <= |ToExecute(tools, succeeded, calls)|
  {
    if ran.None? then []
    else AnsweredAtOnce(tools, succeeded, calls) + Results(tools, Ran(tools, succeeded, calls, ran))
  }

  function Next(tools: Tools, st: LoopState, step: LoopStep): LoopState
    requires CanStep(tools, st, step)
  {
    match step
    case Say(m) => st.(messages := st.messages + [m])
    case RunTurn(content, calls, ran) =>
      LoopState(
        st.messages + ([AssistantMessage(content, calls)] + Given(tools, st.succeeded, calls, ran)),
        st.succeeded + Successes(tools, Ran(tools, st.succeeded, calls, ran)),
        !Complete(tools, st.succeeded, calls, ran))
    case Prune => st.(messages := Microcompact(st.messages))
    case FoldTexts => st.(messages := Collapse(st.messages))
    case Compress(summary) => st.(messages := Compact(st.messages, summary))
  }

  ghost predicate IsLoopRun(tools: Tools, states: seq<LoopState>, steps: seq<LoopStep>) {
    && |states| == |steps| + 1
    && |states[0].messages| == 1 && states[0].messages[0].SystemMessage? && !states[0].cut
    && forall i :: 0 <= i < |steps| ==>
         CanStep(tools, states[i], steps[i]) && states[i + 1] == Next(tools, states[i], steps[i])
  }

  // ---- one turn ----------------------------------------------------------------------------------

  /** A complete turn with new ids extends a well-formed transcript. */
  lemma PushTurn(ms: seq<Message>, t: Turn)
    requires Healthy(ms) && TurnOk(t) && TurnIds(t) !! CallIds(ms)
    ensures Healthy(ms + Messages(t))
  {
    var turns :| GoodTurns(turns) && Flat(turns) == ms;
    FlatPush(turns, t);
    GoodPush(turns, t);
    GoodIsWellFormed(turns + [t]);
  }

  lemma {:induction false} ToolAt(ms: seq<Message>, k: nat)
    requires AllTools(ms) && k < |ms|
    ensures ms[k].ToolMessage?
  {
    if k < |ms| - 1 {
      ToolAt(ms[..|ms| - 1], k);
    }
  }

  /** A list splits in one way only into a front, a message that is no result, and the
      results after it. */
  lemma LastHead(xs: seq<Message>, x: Message, rs: seq<Message>, ys: seq<Message>, y: Message, qs: seq<Message>)
    requires xs + ([x] + rs) == ys + ([y] + qs)
    requires !x.ToolMessage? && !y.ToolMessage? && AllTools(rs) && AllTools(qs)
    ensures xs == ys && x == y && rs == qs
  {
    var all := xs + ([x] + rs);
    assert all[|xs|] == x && all[|ys|] == y;
    if |xs| < |ys| {
      assert all[|ys|] == rs[|ys| - |xs| - 1];
      ToolAt(rs, |ys| - |xs| - 1);
    } else if |ys| < |xs| {
      assert all[|xs|] == qs[|xs| - |ys| - 1];
      ToolAt(qs, |xs| - |ys| - 1);
    } else {
      assert all[..|xs|] == xs && all[..|ys|] == ys;
      assert all[|xs| + 1..] == rs && all[|ys| + 1..] == qs;
    }
  }

  /** The last turn of a well-formed transcript is complete, under new ids. */
  lemma LastTurn(ms: seq<Message>, t: Turn)
    requires WellFormed(ms + Messages(t)) && !t.head.ToolMessage? && AllTools(t.results)
    ensures TurnOk(t) && TurnIds(t) !! CallIds(ms)
  {
    var turns: seq<Turn> :| GoodTurns(turns) && Flat(turns) == ms + Messages(t);
    assert turns != [];
    var before, last := turns[..|turns| - 1], turns[|turns| - 1];
    LastHead(Flat(before), last.head, last.results, ms, t.head, t.results);
  }

  lemma TurnIff(ms: seq<Message>, t: Turn)
    requires Healthy(ms) && !t.head.ToolMessage? && AllTools(t.results)
    ensures Healthy(ms + Messages(t)) <==> TurnOk(t) && TurnIds(t) !! CallIds(ms)
  {
    if Healthy(ms + Messages(t)) {
      LastTurn(ms, t);
    } else if TurnOk(t) && TurnIds(t) !! CallIds(ms) {
      PushTurn(ms, t);
    }
  }

  lemma GivenAreTools(tools: Tools, succeeded: set<string>, calls: seq<Call>, ran: Option<nat>)
    requires ran.Some? ==> ran.value <= |ToExecute(tools, succeeded, calls)|
    ensures AllTools(Given(tools, succeeded, calls, ran))
  {
    AnsweredAreTools(tools, succeeded, calls);
    ResultsAnswer(tools, Ran(tools, succeeded, calls, ran));
    if ran.Some? {
      ToolsConcat(AnsweredAtOnce(tools, succeeded, calls), Results(tools, Ran(tools, succeeded, calls, ran)));
    }
  }

  /** The calls of a turn are all answered exactly when none is left out. */
  lemma GivenAnswersIff(tools: Tools, succeeded: set<string>, calls: seq<Call>, ran: Option<nat>)
    requires ran.Some? ==> ran.value <= |ToExecute(tools, succeeded, calls)|
    ensures Answers(calls, Given(tools, succeeded, calls, ran))
            <==> calls == [] || Complete(tools, succeeded, calls, ran)
  {
    GivenAreTools(tools, succeeded, calls, ran);
    if ran.None? {
      CallBagIds(calls, 0);
    } else {
      var now, later := AnsweredAtOnce(tools, succeeded, calls), ToExecute(tools, succeeded, calls);
      TurnSplits(tools, succeeded, calls);
      ResultBagConcat(now, Results(tools, later[..ran.value]));
      BagCancel(ResultBag(now), ResultBag(Results(tools, later[..ran.value])), CallBag(later));
      RanIff(tools, later, ran.value);
    }
  }

  lemma BagCancel(a: multiset<Option<nat>>, b: multiset<Option<nat>>, c: multiset<Option<nat>>)
    ensures a + b == a + c <==> b == c
  {
    if a + b == a + c {
      forall x
        ensures b[x] == c[x]
      {
        assert (a + b)[x] == (a + c)[x];
      }
    }
  }

  lemma RanIff(tools: Tools, calls: seq<Call>, n: nat)
    requires n <= |calls|
    ensures ResultBag(Results(tools, calls[..n])) == CallBag(calls) <==> n == |calls|
  {
    ResultsAnswer(tools, calls[..n]);
    CallBagIds(calls[..n], 0);
    CallBagIds(calls, 0);
    assert calls[..|calls|] == calls;
  }

  /** A turn keeps the transcript well formed if and only if its calls all carry ids that
      are new to it and no cancellation leaves one of them out. */
  lemma TurnKeepsHealthyIff(tools: Tools, st: LoopState, content: string, calls: seq<Call>, ran: Option<nat>)
    requires Healthy(st.messages) && CanStep(tools, st, RunTurn(content, calls, ran))
    ensures Healthy(Next(tools, st, RunTurn(content, calls, ran)).messages)
            <==> && AllNamed(calls) && Ids(calls) !! CallIds(st.messages)
                 && (calls == [] || Complete(tools, st.succeeded, calls, ran))
  {
    var t := Turn(AssistantMessage(content, calls), Given(tools, st.succeeded, calls, ran));
    GivenAreTools(tools, st.succeeded, calls, ran);
    GivenAnswersIff(tools, st.succeeded, calls, ran);
    TurnIff(st.messages, t);
  }

  // ---- every run ---------------------------------------------------------------------------------

  /** The calls of a turn all carry ids, and ids that are new to the transcript. */
  ghost predicate NewIds(st: LoopState, step: LoopStep) {
    step.RunTurn? ==> AllNamed(step.calls) && Ids(step.calls) !! CallIds(st.messages)
  }

  lemma MessageKeepsHealthy(ms: seq<Message>, m: Message)
    requires Healthy(ms) && !m.ToolMessage? && CallsOf(m) == []
    ensures Healthy(ms + [m])
  {
    PushTurn(ms, Turn(m, []));
    assert Messages(Turn(m, [])) == [m];
  }

  lemma StepKeepsHealthyIff(tools: Tools, st: LoopState, step: LoopStep)
    requires Healthy(st.messages) && CanStep(tools, st, step) && !Next(tools, st, step).cut
    ensures Healthy(Next(tools, st, step).messages) <==> NewIds(st, step)
  {
    var ms := st.messages;
    match step
    case Say(m) =>
      MessageKeepsHealthy(ms, m);
    case RunTurn(content, calls, ran) =>
      TurnKeepsHealthyIff(tools, st, content, calls, ran);
    case Prune =>
      EditsShorten(ms);
      EditsKeepHealthy(ms, Microcompact(ms));
    case FoldTexts =>
      EditsShorten(ms);
      EditsKeepHealthy(ms, Collapse(ms));
    case Compress(summary) =>
      CompactTheorem(ms, summary);
  }

  lemma FirstMessage(m: Message)
    requires m.SystemMessage?
    ensures Healthy([m])
  {
    PlainOnly(m);
    GoodIsWellFormed([Turn(m, [])]);
  }

  /** Every transcript up to `i` that the model may be shown is well formed. */
  ghost predicate ShownHealthy(states: seq<LoopState>, i: nat)
    requires i < |states|
  {
    forall j :: 0 <= j <= i && !states[j].cut ==> Healthy(states[j].messages)
  }

  /** Every turn before `i` that was not cut short used new ids. */
  ghost predicate AllNewIds(states: seq<LoopState>, steps: seq<LoopStep>, i: nat)
    requires i <= |steps| < |states|
  {
    forall j :: 0 <= j < i && !states[j + 1].cut ==> NewIds(states[j], steps[j])
  }

  lemma ShownGrows(states: seq<LoopState>, i: nat)
    requires i + 1 < |states|
    ensures ShownHealthy(states, i + 1)
            <==> ShownHealthy(states, i) && (states[i + 1].cut || Healthy(states[i + 1].messages))
  {
  }

  lemma NewIdsGrow(states: seq<LoopState>, steps: seq<LoopStep>, i: nat)
    requires i < |steps| < |states|
    ensures AllNewIds(states, steps, i + 1)
            <==> AllNewIds(states, steps, i) && (states[i + 1].cut || NewIds(states[i], steps[i]))
  {
  }

  lemma ShownNext(tools: Tools, states: seq<LoopState>, steps: seq<LoopStep>, i: nat)
    requires IsLoopRun(tools, states, steps) && i < |steps|
    requires ShownHealthy(states, i) && !states[i + 1].cut
    ensures Healthy(states[i + 1].messages) <==> NewIds(states[i], steps[i])
  {
    StepKeepsHealthyIff(tools, states[i], steps[i]);
  }

  lemma ShownFirst(tools: Tools, states: seq<LoopState>, steps: seq<LoopStep>)
    requires IsLoopRun(tools, states, steps)
    ensures ShownHealthy(states, 0)
  {
    var m := states[0].messages[0];
    FirstMessage(m);
    assert states[0].messages == [m];
  }

  /** However turns, pruning, folding, compression and cancellation interleave, every
      transcript that the model may be shown is well formed if and only if the model
      gave the calls of every turn ids that are new to the transcript. */
  lemma {:induction false} LoopTheorem(tools: Tools, states: seq<LoopState>, steps: seq<LoopStep>, i: nat)
    requires IsLoopRun(tools, states, steps) && i < |states|
    ensures ShownHealthy(states, i) <==> AllNewIds(states, steps, i)
  {
    if i == 0 {
      ShownFirst(tools, states, steps);
    } else {
      LoopTheorem(tools, states, steps, i - 1);
      ShownGrows(states, i - 1);
      NewIdsGrow(states, steps, i - 1);
      if ShownHealthy(states, i - 1) && !states[i].cut {
        ShownNext(tools, states, steps, i - 1);
      }
    }
  }

  // ---- tools that may not be repeated --------------------------------------------------------------

  lemma {:induction false} SucceededGrows(tools: Tools, states: seq<LoopState>, steps: seq<LoopStep>, i: nat, k: nat)
    requires IsLoopRun(tools, states, steps) && i <= k < |states|
    ensures states[i].succeeded <= states[k].succeeded
  {
    if i < k {
      SucceededGrows(tools, states, steps, i, k - 1);
      NextGrows(tools, states, steps, k - 1);
    }
  }

  lemma NextGrows(tools: Tools, states: seq<LoopState>, steps: seq<LoopStep>, i: nat)
    requires IsLoopRun(tools, states, steps) && i < |steps|
    ensures states[i].succeeded <= states[i + 1].succeeded
  {
    assert CanStep(tools, states[i], steps[i]) && states[i + 1] == Next(tools, states[i], steps[i]);
    StepRemembers(tools, states[i], steps[i]);
  }

  lemma StepRemembers(tools: Tools, st: LoopState, step: LoopStep)
    requires CanStep(tools, st, step)
    ensures st.succeeded <= Next(tools, st, step).succeeded
  {
  }

  /** Which calls the turn that is step `i` ran. */
  function RanIn(tools: Tools, st: LoopState, step: LoopStep): seq<Call>
    requires CanStep(tools, st, step)
  {
    if step.RunTurn? then Ran(tools, st.succeeded, step.calls, step.ran) else []
  }

  lemma RanWasDue(tools: Tools, st: LoopState, step: LoopStep, call: Call)
    requires CanStep(tools, st, step) && call in RanIn(tools, st, step)
    ensures !Immediate(tools, st.succeeded, call)
  {
    var due := ToExecute(tools, st.succeeded, step.calls);
    assert call in due by {
      var k :| 0 <= k < |RanIn(tools, st, step)| && RanIn(tools, st, step)[k] == call;
      assert due[k] == call;
    }
    ExecutedMean(tools, st.succeeded, step.calls, call);
  }

  lemma RanIsRemembered(tools: Tools, st: LoopState, step: LoopStep, call: Call)
    requires CanStep(tools, st, step) && call in RanIn(tools, st, step) && tools.run(call).1
    ensures call.name in Next(tools, st, step).succeeded
  {
    var ran := RanIn(tools, st, step);
    var k :| 0 <= k < |ran| && ran[k] == call;
    SuccessesMean(tools, ran, call.name);
  }

  /** A tool that succeeded in one turn runs in a later one only if the registry allows
      it to be repeated; the compact tool is never run. */
  lemma OnlyRepeatableAgain(tools: Tools, states: seq<LoopState>, steps: seq<LoopStep>, i: nat, k: nat,
      first: Call, again: Call)
    requires IsLoopRun(tools, states, steps) && i < k < |steps|
    requires CanStep(tools, states[i], steps[i]) && CanStep(tools, states[k], steps[k])
    requires first in RanIn(tools, states[i], steps[i]) && tools.run(first).1
    requires again in RanIn(tools, states[k], steps[k]) && again.name == first.name
    ensures again.name != "compact"
    ensures again.name in tools.registry && tools.registry[again.name].repeatable
  {
    RanIsRemembered(tools, states[i], steps[i], first);
    assert states[i + 1] == Next(tools, states[i], steps[i]);
    SucceededGrows(tools, states, steps, i + 1, k);
    RanWasDue(tools, states[k], steps[k], again);
  }

  // ---- inputs that fail it -----------------------------------------------------------------------

  function NoTools(): Tools { Tools(map[], (call: Call) => ("", false)) }

  const OPENING := LoopState([SystemMessage("")], {}, false)

  /** One call, under the first id; it runs unless the turn is cancelled before. */
  function OneCall(ran: Option<nat>): LoopStep { RunTurn("", [Call(Some(0), "read")], ran) }

  lemma OneCallFacts()
    ensures
      var calls := [Call(Some(0), "read")];
      && ToExecute(NoTools(), {}, calls) == calls && Ids(calls) == {0} && AllNamed(calls)
      && Successes(NoTools(), calls) == {}
  {
    assert [Call(Some(0), "read")][..0] == [];
  }

  lemma HeadIsCalled(ms: seq<Message>, head: Message, rs: seq<Message>)
    ensures Ids(CallsOf(head)) <= CallIds(ms + ([head] + rs))
  {
    assert [head][..0] == [];
    CallIdsConcat([head], rs);
    CallIdsConcat(ms, [head] + rs);
  }

  lemma OneCallRuns(st: LoopState)
    requires st.succeeded == {} && !st.cut
    ensures CanStep(NoTools(), st, OneCall(Some(1)))
    ensures
      var next := Next(NoTools(), st, OneCall(Some(1)));
      next.succeeded == {} && !next.cut && 0 in CallIds(next.messages)
  {
    var step := OneCall(Some(1));
    OneCallFacts();
    HeadIsCalled(st.messages, AssistantMessage("", step.calls), Given(NoTools(), {}, step.calls, step.ran));
  }

  lemma TwoSteps(tools: Tools, a: LoopState, b: LoopState, c: LoopState, x: LoopStep, y: LoopStep)
    requires |a.messages| == 1 && a.messages[0].SystemMessage? && !a.cut
    requires CanStep(tools, a, x) && b == Next(tools, a, x)
    requires CanStep(tools, b, y) && c == Next(tools, b, y)
    ensures IsLoopRun(tools, [a, b, c], [x, y])
  {
  }

  /** The turn keeps the transcript well formed the first time, and not the second. */
  lemma OneCallBreaksIff(st: LoopState)
    requires st.succeeded == {} && !st.cut && Healthy(st.messages)
    ensures CanStep(NoTools(), st, OneCall(Some(1)))
    ensures Healthy(Next(NoTools(), st, OneCall(Some(1))).messages) <==> 0 !in CallIds(st.messages)
  {
    OneCallRuns(st);
    OneCallFacts();
    StepKeepsHealthyIff(NoTools(), st, OneCall(Some(1)));
  }

  lemma OpeningFacts()
    ensures Healthy(OPENING.messages) && CallIds(OPENING.messages) == {}
  {
    FirstMessage(OPENING.messages[0]);
    assert OPENING.messages[..0] == [];
  }

  /** A model that uses an id twice: the second turn spoils the transcript. */
  lemma RepeatedIdBreaks() returns (first: LoopState, second: LoopState)
    ensures IsLoopRun(NoTools(), [OPENING, first, second], [OneCall(Some(1)), OneCall(Some(1))])
    ensures !second.cut && Healthy(first.messages) && !Healthy(second.messages)
  {
    var turn := OneCall(Some(1));
    OpeningFacts();
    OneCallRuns(OPENING);
    OneCallBreaksIff(OPENING);
    first := Next(NoTools(), OPENING, turn);
    OneCallRuns(first);
    OneCallBreaksIff(first);
    second := Next(NoTools(), first, turn);
    TwoSteps(NoTools(), OPENING, first, second, turn, turn);
  }

  /** A turn cancelled before its call ran leaves the call unanswered. */
  lemma CancelledTurnBreaks()
    ensures CanStep(NoTools(), OPENING, OneCall(None))
    ensures Healthy(OPENING.messages) && !Healthy(Next(NoTools(), OPENING, OneCall(None)).messages)
  {
    FirstMessage(OPENING.messages[0]);
    TurnKeepsHealthyIff(NoTools(), OPENING, "", [Call(Some(0), "read")], None);
  }
}

/** The agent loop's in-place list work, method by method, each tied to the list
    function it computes. */
module LoopMachine {
  import opened Domain
  import opened Transcript
  import opened Compaction
  import AgentLoop
  import opened ToolTurn

  datatype Insert = Insert(at: nat, stub: Message)

  /** Insertions applied from the last to the first. */
  function InsertAll(ms: seq<Message>, inserts: seq<Insert>): seq<Message>
    decreases |inserts|
  {
    if inserts == [] then ms
    else
      var last := inserts[|inserts| - 1];
      if last.at > |ms| then ms
      else InsertAll(ms[..last.at] + [last.stub] + ms[last.at..], inserts[..|inserts| - 1])
  }

  predicate UpTo(inserts: seq<Insert>, n: nat) {
    inserts == [] || (inserts[|inserts| - 1].at <= n && UpTo(inserts[..|inserts| - 1], n))
  }

  lemma {:induction false} UpToMore(inserts: seq<Insert>, n: nat, m: nat)
    requires UpTo(inserts, n) && n <= m
    ensures UpTo(inserts, m)
  {
    if inserts != [] {
      UpToMore(inserts[..|inserts| - 1], n, m);
    }
  }

  /** Insertions into a prefix leave what follows it alone. */
  lemma {:induction false} InsertIntoPrefix(front: seq<Message>, back: seq<Message>, inserts: seq<Insert>)
    requires UpTo(inserts, |front|)
    ensures InsertAll(front + back, inserts) == InsertAll(front, inserts) + back
    decreases |inserts|
  {
    if inserts != [] {
      var last := inserts[|inserts| - 1];
      var wider := front[..last.at] + [last.stub] + front[last.at..];
      assert (front + back)[..last.at] + [last.stub] + (front + back)[last.at..] == wider + back;
      UpToMore(inserts[..|inserts| - 1], |front|, |wider|);
      InsertIntoPrefix(wider, back, inserts[..|inserts| - 1]);
    }
  }

  /** A last insertion at the very end appends. */
  lemma InsertAtEnd(ms: seq<Message>, inserts: seq<Insert>, stub: Message)
    requires UpTo(inserts, |ms|)
    ensures InsertAll(ms, inserts + [Insert(|ms|, stub)]) == InsertAll(ms, inserts) + [stub]
    ensures UpTo(inserts + [Insert(|ms|, stub)], |ms|)
  {
    var more := inserts + [Insert(|ms|, stub)];
    assert more[..|inserts|] == inserts;
    assert ms[..|ms|] + [stub] + ms[|ms|..] == ms + [stub];
    InsertIntoPrefix(ms, [stub], inserts);
  }

  /** The insertions planned for these messages, and the ids answered by then. */
  ghost predicate Planned(ms: seq<Message>, answered: set<nat>, inserts: seq<Insert>, known: set<nat>) {
    && UpTo(inserts, |ms|) && known == answered + CallIds(ms)
    && InsertAll(ms, inserts) == AddStubs(ms, answered)
  }

  /** The insertions for the calls of one message, as far as they are planned. */
  ghost predicate PlannedUpTo(front: seq<Message>, planned: seq<Insert>, known: set<nat>, calls: seq<Call>,
                              inserts: seq<Insert>, now: set<nat>)
  {
    && UpTo(inserts, |front|) && now == known + Ids(calls)
    && InsertAll(front, inserts) == InsertAll(front, planned) + Stubs(calls, known)
  }

  lemma PlanNext(front: seq<Message>, planned: seq<Insert>, known: set<nat>, calls: seq<Call>, call: Call,
                 inserts: seq<Insert>, now: set<nat>)
    requires PlannedUpTo(front, planned, known, calls, inserts, now)
    ensures
      if call.id.Some? && call.id.value !in now then
        PlannedUpTo(front, planned, known, calls + [call],
                    inserts + [Insert(|front|, Stub(call))], now + {call.id.value})
      else PlannedUpTo(front, planned, known, calls + [call], inserts, now)
  {
    assert (calls + [call])[..|calls|] == calls;
    if call.id.Some? && call.id.value !in now {
      InsertAtEnd(front, inserts, Stub(call));
      Assoc(InsertAll(front, planned), Stubs(calls, known), [Stub(call)]);
    }
  }

  lemma NextFront(ms: seq<Message>, i: nat)
    requires i < |ms|
    ensures ms[..i] + [ms[i]] == ms[..i + 1]
  {
  }

  lemma AllInFront(ms: seq<Message>)
    ensures ms[..|ms|] == ms
  {
  }

  /** What is left to plan for one more message: its stubs. */
  lemma MessageNeeds(ms: seq<Message>, m: Message, answered: set<nat>, inserts: seq<Insert>, known: set<nat>)
    requires Planned(ms, answered, inserts, known)
    ensures UpTo(inserts, |ms| + 1)
    ensures InsertAll(ms + [m], inserts) + Stubs(CallsOf(m), known) == AddStubs(ms + [m], answered)
    ensures known + Ids(CallsOf(m)) == answered + CallIds(ms + [m])
  {
    assert (ms + [m])[..|ms|] == ms;
    UpToMore(inserts, |ms|, |ms| + 1);
    InsertIntoPrefix(ms, [m], inserts);
    Assoc(AddStubs(ms, answered), [m], Stubs(CallsOf(m), known));
  }

  /** The list after the walk has passed its first `seen` messages. */
  function Popped(ms: seq<Message>, ids: set<nat>, seen: nat): seq<Message>
    requires seen <= |ms|
  {
    DropOrphans(ms[..seen], ids) + ms[seen..]
  }

  lemma PopNext(ms: seq<Message>, ids: set<nat>, seen: nat)
    requires seen < |ms|
    ensures
      var now, i := Popped(ms, ids, seen), |DropOrphans(ms[..seen], ids)|;
      && i < |now| && now[i] == ms[seen]
      && Popped(ms, ids, seen + 1) == (if IsOrphan(ms[seen], ids) then now[..i] + now[i + 1..] else now)
      && |DropOrphans(ms[..seen + 1], ids)| == i + (if IsOrphan(ms[seen], ids) then 0 else 1)
  {
    assert ms[..seen + 1][..seen] == ms[..seen];
  }

  // ---- pruning ------------------------------------------------------------------------------

  /** Where the tool results are, oldest first. */
  function ToolPositions(ms: seq<Message>): seq<nat> {
    if ms == [] then []
    else
      var earlier := ToolPositions(ms[..|ms| - 1]);
      if ms[|ms| - 1].ToolMessage? then earlier + [|ms| - 1] else earlier
  }

  lemma {:induction false} PositionAt(ms: seq<Message>, j: nat)
    requires j < |ToolPositions(ms)|
    ensures
      var at := ToolPositions(ms)[j];
      at < |ms| && ms[at].ToolMessage? && AgentLoop.CountTools(ms[..at]) == j
  {
    var before := ms[..|ms| - 1];
    PositionCount(before);
    if j < |ToolPositions(before)| {
      PositionAt(before, j);
      assert before[..ToolPositions(ms)[j]] == ms[..ToolPositions(ms)[j]];
    }
  }

  lemma {:induction false} PositionCount(ms: seq<Message>)
    ensures |ToolPositions(ms)| == AgentLoop.CountTools(ms)
  {
    if ms != [] {
      PositionCount(ms[..|ms| - 1]);
    }
  }

  lemma {:induction false} CountPrefix(ms: seq<Message>, i: nat)
    requires i < |ms|
    ensures AgentLoop.CountTools(ms[..i + 1]) == AgentLoop.CountTools(ms[..i]) + (if ms[i].ToolMessage? then 1 else 0)
    ensures AgentLoop.CountTools(ms[..i + 1]) <= AgentLoop.CountTools(ms)
  {
    assert ms[..i + 1][..i] == ms[..i];
    if i + 1 == |ms| {
      assert ms[..i + 1] == ms;
    } else {
      var before := ms[..|ms| - 1];
      CountPrefix(before, i);
      assert before[..i + 1] == ms[..i + 1] && before[..i] == ms[..i];
    }
  }

  /** A long text gives way to the placeholder. */
  function Cleared(m: Message): Message {
    if |m.content| > AgentLoop.CLEAR_ABOVE then AgentLoop.WithContent(m, AgentLoop.CLEARED) else m
  }

  /** The first `j` tool results cleared. */
  function ClearFirst(ms: seq<Message>, j: nat): (r: seq<Message>)
    requires j <= |ToolPositions(ms)|
    ensures |r| == |ms|
  {
    if j == 0 then ms
    else
      PositionAt(ms, j - 1);
      var at := ToolPositions(ms)[j - 1];
      ClearFirst(ms, j - 1)[at := Cleared(ms[at])]
  }

  lemma {:induction false} ClearedAt(ms: seq<Message>, j: nat, i: nat)
    requires j <= |ToolPositions(ms)| && i < |ms|
    ensures ClearFirst(ms, j)[i]
         == if ms[i].ToolMessage? && AgentLoop.CountTools(ms[..i]) < j then Cleared(ms[i]) else ms[i]
    decreases j
  {
    if j > 0 {
      ClearedAt(ms, j - 1, i);
      PositionAt(ms, j - 1);
      if ms[i].ToolMessage? {
        PositionOf(ms, i);
      }
    }
  }

  lemma {:induction false} PositionOf(ms: seq<Message>, i: nat)
    requires i < |ms| && ms[i].ToolMessage?
    ensures
      var j := AgentLoop.CountTools(ms[..i]);
      j < |ToolPositions(ms)| && ToolPositions(ms)[j] == i
  {
    var before := ms[..|ms| - 1];
    PositionCount(before);
    if i < |before| {
      PositionOf(before, i);
      assert before[..i] == ms[..i];
    }
  }

  /** Clearing all but the most recent results is what pruning means. */
  lemma ClearedAllButRecent(ms: seq<Message>, j: nat)
    requires j <= |ToolPositions(ms)|
    requires j == if |ToolPositions(ms)| >= AgentLoop.KEEP_RECENT then |ToolPositions(ms)| - AgentLoop.KEEP_RECENT
      else 0
    ensures ClearFirst(ms, j) == AgentLoop.Microcompact(ms)
  {
    forall i | 0 <= i < |ms|
      ensures ClearFirst(ms, j)[i] == AgentLoop.Pruned(ms, i)
    {
      ClearedAt(ms, j, i);
      PositionCount(ms);
      CountPrefix(ms, i);
    }
  }

  class Loop {
    var messages: seq<Message>
    var succeeded: set<string>

    // ---- repair -------------------------------------------------------------------------

    method CollectCallIds() returns (ids: set<nat>)
      ensures ids == CallIds(messages)
    {
      ids := {};
      var i := 0;
      while i < |messages|
        invariant 0 <= i <= |messages|
        invariant ids == CallIds(messages[..i])
      {
        assert messages[..i + 1][..i] == messages[..i];
        var calls := CallsOf(messages[i]);
        ghost var before := ids;
        var j := 0;
        while j < |calls|
          invariant 0 <= j <= |calls|
          invariant ids == before + Ids(calls[..j])
        {
          assert calls[..j + 1][..j] == calls[..j];
          if calls[j].id.Some? {
            ids := ids + {calls[j].id.value};
          }
          j := j + 1;
        }
        assert calls[..|calls|] == calls;
        i := i + 1;
      }
      assert messages[..|messages|] == messages;
    }

    method CollectResultIds() returns (ids: set<nat>)
      ensures ids == ResultIds(messages)
    {
      ids := {};
      var i := 0;
      while i < |messages|
        invariant 0 <= i <= |messages|
        invariant ids == ResultIds(messages[..i])
      {
        assert messages[..i + 1][..i] == messages[..i];
        if messages[i].ToolMessage? && messages[i].id.Some? {
          ids := ids + {messages[i].id.value};
        }
        i := i + 1;
      }
      assert messages[..|messages|] == messages;
    }

    /** Walk the list and pop orphans where they stand. */
    method PopOrphans(ids: set<nat>)
      modifies this`messages
      ensures messages == DropOrphans(old(messages), ids)
    {
      var i := 0;
      ghost var seen := 0;
      while i < |messages|
        invariant 0 <= i <= |messages| && seen <= |old(messages)|
        invariant messages == Popped(old(messages), ids, seen)
        invariant i == |DropOrphans(old(messages)[..seen], ids)|
        decreases |old(messages)| - seen
      {
        i := PopOrPass(ids, i, old(messages), seen);
        seen := seen + 1;
      }
      assert old(messages)[..seen] == old(messages);
      assert messages[..i] == messages;
    }

    /** Pop the message if it is an orphan, else pass it. */
    method PopOrPass(ids: set<nat>, i: nat, ghost was: seq<Message>, ghost seen: nat) returns (next: nat)
      requires seen < |was| && messages == Popped(was, ids, seen) && i == |DropOrphans(was[..seen], ids)|
      modifies this`messages
      ensures messages == Popped(was, ids, seen + 1) && next == |DropOrphans(was[..seen + 1], ids)|
    {
      PopNext(was, ids, seen);
      next := i;
      if IsOrphan(messages[i], ids) {
        messages := messages[..i] + messages[i + 1..];
      } else {
        next := i + 1;
      }
    }

    /** Add the insertions that one message's calls need. */
    static method PlanCalls(calls: seq<Call>, at: nat, planned: seq<Insert>, known: set<nat>, ghost front: seq<Message>)
      returns (inserts: seq<Insert>, now: set<nat>)
      requires UpTo(planned, at) && at == |front|
      ensures UpTo(inserts, at) && now == known + Ids(calls)
      ensures InsertAll(front, inserts) == InsertAll(front, planned) + Stubs(calls, known)
    {
      inserts, now := planned, known;
      var j := 0;
      while j < |calls|
        invariant 0 <= j <= |calls|
        invariant PlannedUpTo(front, planned, known, calls[..j], inserts, now)
      {
        assert calls[..j + 1] == calls[..j] + [calls[j]];
        PlanNext(front, planned, known, calls[..j], calls[j], inserts, now);
        if calls[j].id.Some? && calls[j].id.value !in now {
          inserts := inserts + [Insert(at, Stub(calls[j]))];
          now := now + {calls[j].id.value};
        }
        j := j + 1;
      }
      assert calls[..|calls|] == calls;
    }

    static method PlanMessage(m: Message, at: nat, planned: seq<Insert>, before: set<nat>,
                              ghost front: seq<Message>, ghost answered: set<nat>)
      returns (inserts: seq<Insert>, known: set<nat>)
      requires Planned(front, answered, planned, before) && at == |front| + 1
      ensures Planned(front + [m], answered, inserts, known)
    {
      MessageNeeds(front, m, answered, planned, before);
      inserts, known := PlanCalls(CallsOf(m), at, planned, before, front + [m]);
    }

    /** The insertions that the calls without a result need. */
    method PlanStubs(answered: set<nat>) returns (inserts: seq<Insert>)
      ensures UpTo(inserts, |messages|)
      ensures InsertAll(messages, inserts) == AddStubs(messages, answered)
    {
      inserts := [];
      var known := answered;
      var idx := 0;
      ghost var front: seq<Message> := [];
      while idx < |messages|
        invariant 0 <= idx <= |messages| && front == messages[..idx]
        invariant Planned(front, answered, inserts, known)
      {
        inserts, known := PlanMessage(messages[idx], idx + 1, inserts, known, front, answered);
        NextFront(messages, idx);
        front := front + [messages[idx]];
        idx := idx + 1;
      }
      AllInFront(messages);
    }

    method InsertStubs(inserts: seq<Insert>)
      requires UpTo(inserts, |messages|)
      modifies this`messages
      ensures messages == InsertAll(old(messages), inserts)
    {
      var k := |inserts|;
      assert inserts[..k] == inserts;
      while k > 0
        invariant 0 <= k <= |inserts| && UpTo(inserts[..k], |messages|)
        invariant InsertAll(messages, inserts[..k]) == InsertAll(old(messages), inserts)
      {
        assert inserts[..k][..k - 1] == inserts[..k - 1];
        UpToMore(inserts[..k - 1], |messages|, |messages| + 1);
        k := k - 1;
        messages := messages[..inserts[k].at] + [inserts[k].stub] + messages[inserts[k].at..];
      }
    }

    /** Repair orphaned calls and results in place. */
    method FixToolPairs()
      modifies this`messages
      ensures messages == Fix(old(messages))
    {
      var called := CollectCallIds();
      PopOrphans(called);
      var answered := CollectResultIds();
      var inserts := PlanStubs(answered);
      InsertStubs(inserts);
    }

    // ---- compression ----------------------------------------------------------------------

    /** Walk from the last message back while the budget lasts. */
    static method FindBudgetCut(body: seq<Message>) returns (cut: nat)
      ensures cut == AgentLoop.BudgetCut(body)
    {
      var accumulated := 0;
      cut := |body|;
      assert body[|body|..] == [];
      while cut > 0 && accumulated + AgentLoop.Tokens(body[cut - 1]) <= AgentLoop.TAIL_TOKEN_BUDGET
        invariant 0 <= cut <= |body|
        invariant accumulated == AgentLoop.TokenSum(body[cut..]) <= AgentLoop.TAIL_TOKEN_BUDGET
      {
        assert body[cut - 1..][1..] == body[cut..];
        accumulated := accumulated + AgentLoop.Tokens(body[cut - 1]);
        cut := cut - 1;
      }
      assert cut > 0 ==> body[cut - 1..][1..] == body[cut..];
      assert AgentLoop.CutFrom(body, cut) == cut;
      AgentLoop.BudgetCutIsUnique(body, cut, AgentLoop.BudgetCut(body));
    }

    /** Move a cut past the results it would separate from their call. */
    static method SkipResults(body: seq<Message>, from: nat) returns (cut: nat)
      requires 0 < from <= |body|
      ensures cut == |body| - |DropLeading(body[from..])|
    {
      cut := from;
      while 0 < cut < |body| && body[cut].ToolMessage?
        invariant from <= cut <= |body|
        invariant |DropLeading(body[cut..])| == |DropLeading(body[from..])|
        decreases |body| - cut
      {
        assert body[cut..][1..] == body[cut + 1..];
        cut := cut + 1;
      }
    }

    /** Where the tail to keep starts. */
    static method FindTail(body: seq<Message>) returns (cut: nat)
      ensures cut == AgentLoop.TailStart(body)
      ensures
        var budget := AgentLoop.BudgetCut(body);
        if budget > 0 then cut <= |body| && body[cut..] == DropLeading(body[budget..])
        else cut == if |body| > 2 then |body| / 2 else 0
    {
      cut := FindBudgetCut(body);
      AgentLoop.SuffixAfter(body, cut);
      if cut > 0 {
        cut := SkipResults(body, cut);
      } else if |body| > 2 {
        cut := if |body| / 2 > 1 then |body| / 2 else 1;
      }
    }

    method AutoCompact(summary: string)
      requires messages != []
      modifies this`messages
      ensures messages == AgentLoop.Compact(old(messages), summary)
      ensures AgentLoop.Healthy(old(messages)) ==>
                && AgentLoop.Healthy(messages)
                && AgentLoop.Compacts(old(messages), summary, AgentLoop.BudgetCut(old(messages)[1..]), messages)
    {
      if AgentLoop.Healthy(messages) {
        AgentLoop.CompactTheorem(messages, summary);
      }
      var system, body := messages[0], messages[1..];
      var cut := FindTail(body);
      if cut == 0 {
        return;
      }
      messages := [];
      messages := messages + [system];
      messages := messages + [UserMessage(summary)];
      assert messages == [system, UserMessage(summary)];
      messages := messages + body[cut..];
      FixToolPairs();
    }

    // ---- pruning and folding ------------------------------------------------------------------

    /** Indices of the tool results, oldest first. */
    method ToolIndices() returns (tools: seq<nat>)
      ensures tools == ToolPositions(messages)
    {
      tools := [];
      var i := 0;
      while i < |messages|
        invariant 0 <= i <= |messages| && tools == ToolPositions(messages[..i])
      {
        assert messages[..i + 1][..i] == messages[..i];
        if messages[i].ToolMessage? {
          tools := tools + [i];
        }
        i := i + 1;
      }
      assert messages[..|messages|] == messages;
    }

    /** Clear long results, all but the most recent. */
    method Microcompact()
      modifies this`messages
      ensures messages == AgentLoop.Microcompact(old(messages))
    {
      var tools := ToolIndices();
      var j := 0;
      while j < |tools| - AgentLoop.KEEP_RECENT
        invariant 0 <= j <= |tools| && (j > 0 ==> j <= |tools| - AgentLoop.KEEP_RECENT)
        invariant messages == ClearFirst(old(messages), j)
      {
        PositionAt(old(messages), j);
        ClearedAt(old(messages), j, tools[j]);
        var m := messages[tools[j]];
        if |m.content| > AgentLoop.CLEAR_ABOVE {
          messages := messages[tools[j] := AgentLoop.WithContent(m, AgentLoop.CLEARED)];
        }
        j := j + 1;
      }
      ClearedAllButRecent(old(messages), j);
    }

    /** Fold long texts, all but the first message and the most recent ones. */
    method ContextCollapse()
      modifies this`messages
      ensures messages == AgentLoop.Collapse(old(messages))
    {
      if |messages| <= AgentLoop.COLLAPSE_PRESERVE_RECENT + 1 {
        return;
      }
      var i := 1;
      var end := |messages| - AgentLoop.COLLAPSE_PRESERVE_RECENT;
      while i < end
        invariant 1 <= i <= end && |messages| == |old(messages)|
        invariant forall k :: 1 <= k < i ==> messages[k] == AgentLoop.Folded(old(messages)[k])
        invariant forall k :: 0 <= k < |messages| && !(1 <= k < i) ==> messages[k] == old(messages)[k]
      {
        var m := messages[i];
        if |m.content| > AgentLoop.COLLAPSE_TEXT_MIN && m.content != AgentLoop.CLEARED {
          messages := messages[i := AgentLoop.WithContent(m, AgentLoop.Fold(m.content))];
        }
        i := i + 1;
      }
    }

    // ---- tool calls ------------------------------------------------------------------------------

    /** Split calls into batches: runs of read-only calls, and single other calls. */
    static method SplitBatches(tools: Tools, calls: seq<Call>) returns (batches: seq<Batch>)
      ensures Joined(batches) == calls && GoodBatches(tools, batches)
    {
      batches := [];
      var reading: seq<Call> := [];
      var i := 0;
      while i < |calls|
        invariant 0 <= i <= |calls| && Splits(tools, batches, reading, calls[..i])
      {
        assert calls[..i + 1] == calls[..i] + [calls[i]];
        batches, reading := AddCall(tools, batches, reading, calls[i], calls[..i]);
        i := i + 1;
      }
      assert calls[..|calls|] == calls;
      batches := Flush(tools, batches, reading, calls);
    }

    static method AddCall(tools: Tools, batches: seq<Batch>, reading: seq<Call>, call: Call, ghost done: seq<Call>)
      returns (batches': seq<Batch>, reading': seq<Call>)
      requires Splits(tools, batches, reading, done)
      ensures Splits(tools, batches', reading', done + [call])
    {
      if Readonly(tools, call) {
        SplitRead(tools, batches, reading, done, call);
        batches', reading' := batches, reading + [call];
      } else {
        SplitWrite(tools, batches, reading, done, call);
        batches', reading' := batches, [];
        if reading != [] {
          batches' := batches' + [Batch(true, reading)];
        }
        batches' := batches' + [Batch(false, [call])];
      }
    }

    static method Flush(tools: Tools, batches: seq<Batch>, reading: seq<Call>, ghost done: seq<Call>)
      returns (batches': seq<Batch>)
      requires Splits(tools, batches, reading, done)
      ensures Joined(batches') == done && GoodBatches(tools, batches')
    {
      SplitEnd(tools, batches, reading, done);
      batches' := batches;
      if reading != [] {
        batches' := batches' + [Batch(true, reading)];
      }
    }

    method Finalize(tools: Tools, call: Call, outcome: (string, bool))
      modifies this
      ensures messages == old(messages) + [ToolMessage(call.id, call.name, Truncated(outcome.0))]
      ensures succeeded == old(succeeded) + (if outcome.1 then {call.name} else {})
    {
      if outcome.1 {
        succeeded := succeeded + {call.name};
      }
      messages := messages + [ToolMessage(call.id, call.name, Truncated(outcome.0))];
    }

    /** Run a batch; its results are appended in call order. */
    method ExecuteBatch(tools: Tools, calls: seq<Call>)
      modifies this
      ensures messages == old(messages) + Results(tools, calls)
      ensures succeeded == old(succeeded) + Successes(tools, calls)
    {
      var outcomes := seq(|calls|, i requires 0 <= i < |calls| => tools.run(calls[i]));
      var i := 0;
      while i < |calls|
        invariant 0 <= i <= |calls|
        invariant messages == old(messages) + Results(tools, calls[..i])
        invariant succeeded == old(succeeded) + Successes(tools, calls[..i])
      {
        Finalize(tools, calls[i], outcomes[i]);
        ExecutedNext(tools, calls, i, old(messages));
        i := i + 1;
      }
      assert calls[..|calls|] == calls;
    }

    /** Run the batches in order until a cancellation is seen; `started` is how many
        batches run, all of them if nothing is cancelled. */
    method BatchExecute(tools: Tools, calls: seq<Call>, cancelledAfter: Option<nat>)
      returns (ghost batches: seq<Batch>, ghost started: nat)
      modifies this
      ensures Joined(batches) == calls && GoodBatches(tools, batches)
      ensures started == if cancelledAfter.Some? && cancelledAfter.value < |batches| then cancelledAfter.value
        else |batches|
      ensures messages == old(messages) + ResultsUpTo(tools, batches, started)
      ensures succeeded == old(succeeded) + SuccessesUpTo(tools, batches, started)
    {
      var plan := SplitBatches(tools, calls);
      var ran := RunBatches(tools, plan, cancelledAfter);
      batches, started := plan, ran;
    }

    method RunBatches(tools: Tools, plan: seq<Batch>, cancelledAfter: Option<nat>) returns (i: nat)
      modifies this
      ensures i == if cancelledAfter.Some? && cancelledAfter.value < |plan| then cancelledAfter.value else |plan|
      ensures messages == old(messages) + ResultsUpTo(tools, plan, i)
      ensures succeeded == old(succeeded) + SuccessesUpTo(tools, plan, i)
    {
      i := 0;
      while i < |plan| && !(cancelledAfter.Some? && cancelledAfter.value <= i)
        invariant 0 <= i <= |plan| && (cancelledAfter.Some? ==> i <= cancelledAfter.value)
        invariant messages == old(messages) + ResultsUpTo(tools, plan, i)
        invariant succeeded == old(succeeded) + SuccessesUpTo(tools, plan, i)
      {
        ExecuteBatch(tools, plan[i].calls);
        Assoc(old(messages), ResultsUpTo(tools, plan, i), Results(tools, plan[i].calls));
        i := i + 1;
      }
    }

    /** Run the calls that a cancellation leaves time for: a prefix of them, all if there
        is none. */
    method ExecuteSome(tools: Tools, calls: seq<Call>, cancelledAfter: Option<nat>)
      returns (ghost executed: seq<Call>)
      modifies this
      ensures executed <= calls && (cancelledAfter.None? ==> executed == calls)
      ensures messages == old(messages) + Results(tools, executed)
      ensures succeeded == old(succeeded) + Successes(tools, executed)
    {
      ghost var batches, started;
      batches, started := BatchExecute(tools, calls, cancelledAfter);
      UpToMeans(tools, batches, started);
      executed := Joined(batches[..started]);
      JoinedPrefix(batches, started);
      assert started == |batches| ==> batches[..started] == batches;
    }

    /** Answer the calls that are not run; the others are returned in order. */
    method AnswerAtOnce(tools: Tools, calls: seq<Call>) returns (toExecute: seq<Call>)
      modifies this`messages
      ensures messages == old(messages) + AnsweredAtOnce(tools, succeeded, calls)
      ensures toExecute == ToExecute(tools, succeeded, calls)
    {
      toExecute := [];
      var i := 0;
      while i < |calls|
        invariant 0 <= i <= |calls|
        invariant messages == old(messages) + AnsweredAtOnce(tools, succeeded, calls[..i])
        invariant toExecute == ToExecute(tools, succeeded, calls[..i])
      {
        assert calls[..i + 1][..i] == calls[..i];
        if Immediate(tools, succeeded, calls[i]) {
          messages := messages + [ImmediateResult(calls[i])];
        } else {
          toExecute := toExecute + [calls[i]];
        }
        i := i + 1;
      }
      assert calls[..|calls|] == calls;
    }

    /** Answer a turn's calls: none if the turn was cancelled before it began; otherwise
        those that are not run, and of the others as many as a cancellation leaves time
        for.  Without a cancellation every call gets its result. */
    method ProcessToolCalls(tools: Tools, calls: seq<Call>, cancelled: bool, cancelledAfter: Option<nat>)
      returns (ghost executed: seq<Call>)
      modifies this
      ensures executed <= ToExecute(tools, old(succeeded), calls)
      ensures succeeded == old(succeeded) + Successes(tools, executed)
      ensures messages == if cancelled then old(messages)
                          else old(messages) + (AnsweredAtOnce(tools, old(succeeded), calls) + Results(tools, executed))
      ensures !cancelled && cancelledAfter.None? ==>
                messages == old(messages) + TurnResults(tools, old(succeeded), calls)
    {
      executed := [];
      if cancelled {
        return;
      }
      var toExecute := AnswerAtOnce(tools, calls);
      if |toExecute| == 1 {
        ExecuteBatch(tools, toExecute);
        executed := toExecute;
      } else {
        executed := ExecuteSome(tools, toExecute, cancelledAfter);
      }
      Assoc(old(messages), AnsweredAtOnce(tools, old(succeeded), calls), Results(tools, executed));
    }
  }

  lemma {:induction false} JoinedPrefix(batches: seq<Batch>, n: nat)
    requires n <= |batches|
    ensures Joined(batches[..n]) <= Joined(batches)
  {
    if n == |batches| {
      assert batches[..n] == batches;
    } else {
      JoinedPrefix(batches[..|batches| - 1], n);
      assert batches[..|batches| - 1][..n] == batches[..n];
    }
  }

  lemma ExecutedNext(tools: Tools, calls: seq<Call>, i: nat, ms: seq<Message>)
    requires i < |calls|
    ensures ms + Results(tools, calls[..i + 1]) == ms + Results(tools, calls[..i]) + [ExecutedResult(tools, calls[i])]
    ensures Successes(tools, calls[..i + 1])
         == Successes(tools, calls[..i]) + (if tools.run(calls[i]).1 then {calls[i].name} else {})
  {
    assert calls[..i + 1] == calls[..i] + [calls[i]];
    ExecutedPush(tools, calls[..i], calls[i]);
    Assoc(ms, Results(tools, calls[..i]), [ExecutedResult(tools, calls[i])]);
  }

  ghost predicate AllReadonly(tools: Tools, calls: seq<Call>) {
    forall k :: 0 <= k < |calls| ==> Readonly(tools, calls[k])
  }

  /** The batches so far, and read-only calls still to be batched, make up `done`. */
  ghost predicate Splits(tools: Tools, batches: seq<Batch>, reading: seq<Call>, done: seq<Call>) {
    && Joined(batches) + reading == done
    && GoodBatches(tools, batches) && AllReadonly(tools, reading)
    && (batches != [] ==> !batches[|batches| - 1].parallel)
  }

  function Flushed(batches: seq<Batch>, reading: seq<Call>): seq<Batch> {
    if reading == [] then batches else batches + [Batch(true, reading)]
  }

  lemma SplitEnd(tools: Tools, batches: seq<Batch>, reading: seq<Call>, done: seq<Call>)
    requires Splits(tools, batches, reading, done)
    ensures Joined(Flushed(batches, reading)) == done && GoodBatches(tools, Flushed(batches, reading))
  {
    if reading != [] {
      PushBatch(tools, batches, Batch(true, reading));
    }
  }

  lemma SplitRead(tools: Tools, batches: seq<Batch>, reading: seq<Call>, done: seq<Call>, call: Call)
    requires Splits(tools, batches, reading, done) && Readonly(tools, call)
    ensures Splits(tools, batches, reading + [call], done + [call])
  {
    assert Joined(batches) + (reading + [call]) == done + [call];
  }

  lemma SplitWrite(tools: Tools, batches: seq<Batch>, reading: seq<Call>, done: seq<Call>, call: Call)
    requires Splits(tools, batches, reading, done) && !Readonly(tools, call)
    ensures Splits(tools, Flushed(batches, reading) + [Batch(false, [call])], [], done + [call])
  {
    SplitEnd(tools, batches, reading, done);
    PushBatch(tools, Flushed(batches, reading), Batch(false, [call]));
  }

  lemma PushBatch(tools: Tools, batches: seq<Batch>, b: Batch)
    requires GoodBatches(tools, batches) && BatchOk(tools, b)
    requires b.parallel && batches != [] ==> !batches[|batches| - 1].parallel
    ensures GoodBatches(tools, batches + [b]) && Joined(batches + [b]) == Joined(batches) + b.calls
  {
    JoinedPush(batches, b);
    assert (batches + [b])[..|batches|] == batches;
  }
}

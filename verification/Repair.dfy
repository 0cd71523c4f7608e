/** What the repair of tool calls and results guarantees, for every message list. */
module Repair {
  import opened Domain
  import opened Transcript

  lemma {:induction false} CallIdsConcat(xs: seq<Message>, ys: seq<Message>)
    ensures CallIds(xs + ys) == CallIds(xs) + CallIds(ys)
  {
    if ys == [] {
      assert xs + ys == xs;
    } else {
      CallIdsConcat(xs, ys[..|ys| - 1]);
      assert (xs + ys)[..|xs + ys| - 1] == xs + ys[..|ys| - 1];
    }
  }

  lemma {:induction false} ResultIdsConcat(xs: seq<Message>, ys: seq<Message>)
    ensures ResultIds(xs + ys) == ResultIds(xs) + ResultIds(ys)
  {
    if ys == [] {
      assert xs + ys == xs;
    } else {
      ResultIdsConcat(xs, ys[..|ys| - 1]);
      assert (xs + ys)[..|xs + ys| - 1] == xs + ys[..|ys| - 1];
    }
  }

  lemma {:induction false} ConversationConcat(xs: seq<Message>, ys: seq<Message>)
    ensures Conversation(xs + ys) == Conversation(xs) + Conversation(ys)
  {
    if ys == [] {
      assert xs + ys == xs;
    } else {
      ConversationConcat(xs, ys[..|ys| - 1]);
      assert (xs + ys)[..|xs + ys| - 1] == xs + ys[..|ys| - 1];
    }
  }

  lemma {:induction false} DropConcat(xs: seq<Message>, ys: seq<Message>, ids: set<nat>)
    ensures DropOrphans(xs + ys, ids) == DropOrphans(xs, ids) + DropOrphans(ys, ids)
  {
    if ys == [] {
      assert xs + ys == xs;
    } else {
      DropConcat(xs, ys[..|ys| - 1], ids);
      assert (xs + ys)[..|xs + ys| - 1] == xs + ys[..|ys| - 1];
    }
  }

  /** Dropping removes orphans only: calls and conversation stay. */
  lemma {:induction false} DropFacts(ms: seq<Message>, ids: set<nat>)
    ensures CallIds(DropOrphans(ms, ids)) == CallIds(ms)
    ensures Conversation(DropOrphans(ms, ids)) == Conversation(ms)
    ensures OrphanFree(DropOrphans(ms, ids), ids)
  {
    if ms != [] {
      var before, last := ms[..|ms| - 1], ms[|ms| - 1];
      DropFacts(before, ids);
      var kept := DropOrphans(before, ids);
      if IsOrphan(last, ids) {
        assert DropOrphans(ms, ids) == kept;
      } else {
        CallIdsConcat(kept, [last]);
        ConversationConcat(kept, [last]);
        assert OrphanFree(kept + [last], ids);
      }
    }
  }

  lemma {:induction false} DropNothing(ms: seq<Message>, ids: set<nat>)
    requires OrphanFree(ms, ids)
    ensures DropOrphans(ms, ids) == ms
  {
    if ms != [] {
      DropNothing(ms[..|ms| - 1], ids);
    }
  }

  lemma {:induction false} DropAll(ms: seq<Message>, ids: set<nat>)
    requires forall k :: 0 <= k < |ms| ==> IsOrphan(ms[k], ids)
    ensures DropOrphans(ms, ids) == []
  {
    if ms != [] {
      DropAll(ms[..|ms| - 1], ids);
    }
  }

  lemma {:induction false} StubFacts(calls: seq<Call>, known: set<nat>)
    ensures ResultIds(Stubs(calls, known)) == Ids(calls) - known
    ensures Answering(Stubs(calls, known), Ids(calls) - known)
  {
    if calls != [] {
      var before, last := calls[..|calls| - 1], calls[|calls| - 1];
      StubFacts(before, known);
      var stubs := Stubs(before, known);
      if last.id.Some? && last.id.value !in known + Ids(before) {
        ResultIdsConcat(stubs, [Stub(last)]);
        assert Answering(stubs + [Stub(last)], Ids(calls) - known);
      } else {
        assert Stubs(calls, known) == stubs;
        assert Ids(calls) - known == Ids(before) - known;
      }
    }
  }

  lemma {:induction false} ToolsOnly(ms: seq<Message>)
    requires forall k :: 0 <= k < |ms| ==> ms[k].ToolMessage?
    ensures CallIds(ms) == {} && Conversation(ms) == []
  {
    if ms != [] {
      ToolsOnly(ms[..|ms| - 1]);
    }
  }

  lemma BlockFacts(m: Message, known: set<nat>)
    ensures CallIds(Block(m, known)) == Ids(CallsOf(m))
    ensures Conversation(Block(m, known)) == Conversation([m])
    ensures ResultIds(Block(m, known)) == ResultIds([m]) + (Ids(CallsOf(m)) - known)
  {
    var stubs := Stubs(CallsOf(m), known);
    StubFacts(CallsOf(m), known);
    ToolsOnly(stubs);
    CallIdsConcat([m], stubs);
    ConversationConcat([m], stubs);
    ResultIdsConcat([m], stubs);
    assert [m][..0] == [];
  }

  /** Stubs touch neither calls nor conversation. */
  lemma {:induction false} AddStubsFacts(ms: seq<Message>, known: set<nat>)
    ensures CallIds(AddStubs(ms, known)) == CallIds(ms)
    ensures Conversation(AddStubs(ms, known)) == Conversation(ms)
  {
    if ms != [] {
      var before, last := ms[..|ms| - 1], ms[|ms| - 1];
      AddStubsFacts(before, known);
      var wider := known + CallIds(before);
      BlockFacts(last, wider);
      CallIdsConcat(AddStubs(before, known), Block(last, wider));
      ConversationConcat(AddStubs(before, known), Block(last, wider));
      ConversationOne(last);
    }
  }

  /** Stubs answer exactly the calls that were not. */
  lemma {:induction false} AddStubsResults(ms: seq<Message>, known: set<nat>)
    ensures ResultIds(AddStubs(ms, known)) == ResultIds(ms) + (CallIds(ms) - known)
  {
    if ms != [] {
      var before, last := ms[..|ms| - 1], ms[|ms| - 1];
      AddStubsResults(before, known);
      var wider := known + CallIds(before);
      BlockFacts(last, wider);
      ResultIdsConcat(AddStubs(before, known), Block(last, wider));
      ResultIdsOne(last);
    }
  }

  lemma ConversationOne(m: Message)
    ensures Conversation([m]) == if m.ToolMessage? then [] else [m]
  {
    assert [m][..0] == [];
  }

  lemma ResultIdsOne(m: Message)
    ensures ResultIds([m]) == if m.ToolMessage? then Known(m.id) else {}
  {
    assert [m][..0] == [];
  }

  lemma {:induction false} NoStubs(calls: seq<Call>, known: set<nat>)
    requires Ids(calls) <= known
    ensures Stubs(calls, known) == []
  {
    if calls != [] {
      NoStubs(calls[..|calls| - 1], known);
    }
  }

  lemma BlockAlone(m: Message, known: set<nat>)
    requires Ids(CallsOf(m)) <= known
    ensures Block(m, known) == [m]
  {
    NoStubs(CallsOf(m), known);
  }

  lemma {:induction false} AddsNothingInLength(ms: seq<Message>, known: set<nat>)
    requires CallIds(ms) <= known
    ensures |AddStubs(ms, known)| == |ms|
  {
    if ms != [] {
      var before, last := ms[..|ms| - 1], ms[|ms| - 1];
      AddsNothingInLength(before, known);
      BlockAlone(last, known + CallIds(before));
    }
  }

  lemma PrefixIds(ms: seq<Message>, n: nat)
    requires n <= |ms|
    ensures CallIds(ms[..n]) <= CallIds(ms)
  {
    CallIdsConcat(ms[..n], ms[n..]);
    assert ms[..n] + ms[n..] == ms;
  }

  lemma AddStubsAt(ms: seq<Message>, known: set<nat>, k: nat)
    requires CallIds(ms) <= known && k < |ms|
    ensures k < |AddStubs(ms, known)| && AddStubs(ms, known)[k] == ms[k]
  {
    PrefixIds(ms, k);
    AddsNothingInLength(ms[..k], known);
    AddStubsPrefix(ms, known, k + 1);
    assert ms[..k + 1][..k] == ms[..k];
    var block := Block(ms[k], known + CallIds(ms[..k]));
    assert AddStubs(ms[..k], known) + block <= AddStubs(ms, known);
    assert (AddStubs(ms[..k], known) + block)[k] == ms[k];
  }

  /** Nothing is added when every call is answered. */
  lemma AddNothing(ms: seq<Message>, known: set<nat>)
    requires CallIds(ms) <= known
    ensures AddStubs(ms, known) == ms
  {
    AddsNothingInLength(ms, known);
    forall k | 0 <= k < |ms|
      ensures AddStubs(ms, known)[k] == ms[k]
    {
      AddStubsAt(ms, known, k);
    }
  }

  /** Without orphans, the results answer calls only. */
  lemma {:induction false} ResultsAnswerCalls(ms: seq<Message>, ids: set<nat>)
    requires OrphanFree(ms, ids)
    ensures ResultIds(ms) <= ids
  {
    if ms != [] {
      ResultsAnswerCalls(ms[..|ms| - 1], ids);
    }
  }

  lemma {:induction false} AddStubsOrphanFree(ms: seq<Message>, known: set<nat>, ids: set<nat>)
    requires CallIds(ms) <= ids
    requires OrphanFree(ms, ids)
    ensures OrphanFree(AddStubs(ms, known), ids)
  {
    if ms != [] {
      var before, last := ms[..|ms| - 1], ms[|ms| - 1];
      AddStubsOrphanFree(before, known, ids);
      StubFacts(CallsOf(last), known + CallIds(before));
    }
  }

  // ---- what the repair guarantees, for every list ----------------------------------------

  /** Every result left answers some call, every call is answered, the conversation
      itself is untouched, and repairing again changes nothing. */
  lemma FixTheorem(ms: seq<Message>)
    ensures forall k :: 0 <= k < |Fix(ms)| && Fix(ms)[k].ToolMessage? ==>
              Fix(ms)[k].id.Some? && Fix(ms)[k].id.value in CallIds(Fix(ms))
    ensures CallIds(Fix(ms)) == CallIds(ms) == ResultIds(Fix(ms))
    ensures Conversation(Fix(ms)) == Conversation(ms)
    ensures Fix(Fix(ms)) == Fix(ms)
  {
    var ids := CallIds(ms);
    var kept := DropOrphans(ms, ids);
    DropFacts(ms, ids);
    AddStubsFacts(kept, ResultIds(kept));
    AddStubsResults(kept, ResultIds(kept));
    ResultsAnswerCalls(kept, ids);
    AddStubsOrphanFree(kept, ResultIds(kept), ids);
    var fixed := Fix(ms);
    DropNothing(fixed, ids);
    AddNothing(fixed, ResultIds(fixed));
  }

  /** A list whose results are all called for and whose calls are all answered is
      left alone. */
  lemma FixNothing(ms: seq<Message>)
    requires OrphanFree(ms, CallIds(ms))
    requires CallIds(ms) <= ResultIds(ms)
    ensures Fix(ms) == ms
  {
    DropNothing(ms, CallIds(ms));
    AddNothing(ms, ResultIds(ms));
  }

  // ---- where everything is -------------------------------------------------------------------

  /** Call `j` has an id that neither a result nor an earlier call covers. */
  predicate IsMissing(calls: seq<Call>, j: nat, known: set<nat>)
    requires j < |calls|
  {
    calls[j].id.Some? && calls[j].id.value !in known && forall k :: 0 <= k < j ==> calls[k].id != calls[j].id
  }

  /** How many of the first `j` calls are missing. */
  function CountMissing(calls: seq<Call>, known: set<nat>, j: nat): nat
    requires j <= |calls|
  {
    if j == 0 then 0
    else CountMissing(calls, known, j - 1) + (if IsMissing(calls, j - 1, known) then 1 else 0)
  }

  function Missing(m: Message, known: set<nat>): nat {
    CountMissing(CallsOf(m), known, |CallsOf(m)|)
  }

  /** Where the `i`-th message stands once every earlier one is followed by its stubs. */
  function Place(ms: seq<Message>, known: set<nat>, i: nat): nat
    requires i <= |ms|
  {
    if i == 0 then 0 else Place(ms, known, i - 1) + 1 + Missing(ms[i - 1], known + CallIds(ms[..i - 1]))
  }

  lemma {:induction false} IdsMeans(calls: seq<Call>, j: nat, id: nat)
    requires j <= |calls|
    ensures id in Ids(calls[..j]) <==> exists k :: 0 <= k < j && calls[k].id == Some(id)
  {
    if j > 0 {
      IdsMeans(calls, j - 1, id);
      assert calls[..j][..j - 1] == calls[..j - 1];
    }
  }

  lemma StubsStep(calls: seq<Call>, known: set<nat>, j: nat)
    requires j < |calls|
    ensures Stubs(calls[..j + 1], known)
         == Stubs(calls[..j], known) + (if IsMissing(calls, j, known) then [Stub(calls[j])] else [])
  {
    assert calls[..j + 1][..j] == calls[..j];
    if calls[j].id.Some? {
      IdsMeans(calls, j, calls[j].id.value);
    }
  }

  lemma {:induction false} StubCount(calls: seq<Call>, known: set<nat>, j: nat)
    requires j <= |calls|
    ensures |Stubs(calls[..j], known)| == CountMissing(calls, known, j)
  {
    if j > 0 {
      StubCount(calls, known, j - 1);
      StubsStep(calls, known, j - 1);
    }
  }

  lemma {:induction false} StubsGrow(calls: seq<Call>, known: set<nat>, j: nat, k: nat)
    requires j <= k <= |calls|
    ensures Stubs(calls[..j], known) <= Stubs(calls[..k], known)
  {
    if j < k {
      StubsGrow(calls, known, j, k - 1);
      StubsStep(calls, known, k - 1);
    }
  }

  lemma StubAt(calls: seq<Call>, known: set<nat>, j: nat)
    requires j < |calls| && IsMissing(calls, j, known)
    ensures
      var n := CountMissing(calls, known, j);
      n < |Stubs(calls, known)| && Stubs(calls, known)[n] == Stub(calls[j])
  {
    StubCount(calls, known, j);
    StubsStep(calls, known, j);
    StubsGrow(calls, known, j + 1, |calls|);
    assert calls[..|calls|] == calls;
  }

  lemma BlockLength(m: Message, known: set<nat>)
    ensures |Block(m, known)| == 1 + Missing(m, known)
  {
    StubCount(CallsOf(m), known, |CallsOf(m)|);
    assert CallsOf(m)[..|CallsOf(m)|] == CallsOf(m);
  }

  lemma {:induction false} PlaceIs(ms: seq<Message>, known: set<nat>, i: nat)
    requires i <= |ms|
    ensures |AddStubs(ms[..i], known)| == Place(ms, known, i)
  {
    if i > 0 {
      PlaceIs(ms, known, i - 1);
      assert ms[..i][..i - 1] == ms[..i - 1];
      BlockLength(ms[i - 1], known + CallIds(ms[..i - 1]));
    }
  }

  lemma BlockStarts(ms: seq<Message>, known: set<nat>, i: nat)
    requires i < |ms|
    ensures AddStubs(ms[..i], known) + Block(ms[i], known + CallIds(ms[..i])) <= AddStubs(ms, known)
  {
    AddStubsPrefix(ms, known, i + 1);
    assert ms[..i + 1][..i] == ms[..i];
  }

  /** The kept messages stand in order in the repaired list, and between one and the
      next there are as many places as its calls have stubs. */
  lemma KeptPlacement(ms: seq<Message>, i: nat)
    requires i < |DropOrphans(ms, CallIds(ms))|
    ensures
      var kept := DropOrphans(ms, CallIds(ms));
      var place := Place(kept, ResultIds(kept), i);
      && place < |Fix(ms)| == Place(kept, ResultIds(kept), |kept|) && Fix(ms)[place] == kept[i]
  {
    var kept := DropOrphans(ms, CallIds(ms));
    var known := ResultIds(kept);
    BlockStarts(kept, known, i);
    PlaceIs(kept, known, i);
    PlaceIs(kept, known, |kept|);
    assert kept[..|kept|] == kept;
    var front, block := AddStubs(kept[..i], known), Block(kept[i], known + CallIds(kept[..i]));
    assert (front + block)[|front|] == kept[i];
  }

  /** The repaired list, what of the list it keeps, and which ids it takes as answered. */
  ghost predicate Repairs(ms: seq<Message>, kept: seq<Message>, known: set<nat>, fixed: seq<Message>) {
    kept == DropOrphans(ms, CallIds(ms)) && known == ResultIds(kept) && fixed == Fix(ms)
  }

  lemma RepairAddsStubs(ms: seq<Message>, kept: seq<Message>, known: set<nat>, fixed: seq<Message>)
    requires Repairs(ms, kept, known, fixed)
    ensures fixed == AddStubs(kept, known)
  {
  }

  /** The stub of a call stands behind the call's own message and the stubs of the
      message's earlier calls, and before the next kept message. */
  lemma StubPlacement(ms: seq<Message>, kept: seq<Message>, known: set<nat>, fixed: seq<Message>, i: nat, j: nat)
    requires Repairs(ms, kept, known, fixed) && i < |kept|
    requires j < |CallsOf(kept[i])| && IsMissing(CallsOf(kept[i]), j, known + CallIds(kept[..i]))
    ensures
      var place := Place(kept, known, i) + (1 + CountMissing(CallsOf(kept[i]), known + CallIds(kept[..i]), j));
      && place < Place(kept, known, i + 1) <= |fixed|
      && fixed[place] == ToolMessage(CallsOf(kept[i])[j].id, CallsOf(kept[i])[j].name,
                                     "[Result from earlier context \U{2014} see summary above]")
  {
    RepairAddsStubs(ms, kept, known, fixed);
    StubFollows(kept, known, fixed, i, j);
  }

  lemma StubFollows(kept: seq<Message>, known: set<nat>, fixed: seq<Message>, i: nat, j: nat)
    requires i < |kept| && fixed == AddStubs(kept, known)
    requires j < |CallsOf(kept[i])| && IsMissing(CallsOf(kept[i]), j, known + CallIds(kept[..i]))
    ensures
      var place := Place(kept, known, i) + (1 + CountMissing(CallsOf(kept[i]), known + CallIds(kept[..i]), j));
      && place < Place(kept, known, i + 1) <= |fixed|
      && fixed[place] == Stub(CallsOf(kept[i])[j])
  {
    PlacedAt(kept, known, i);
    PlaceNext(kept, known, i);
    StubStands(fixed, Place(kept, known, i), kept[i], known + CallIds(kept[..i]), j);
  }

  lemma PlaceNext(ms: seq<Message>, known: set<nat>, i: nat)
    requires i < |ms|
    ensures Place(ms, known, i + 1) == Place(ms, known, i) + (1 + Missing(ms[i], known + CallIds(ms[..i])))
  {
  }

  /** The messages of `block` stand in `all` from a place on. */
  ghost predicate StandsAt(all: seq<Message>, place: nat, block: seq<Message>) {
    place + |block| <= |all| && forall n :: 0 <= n < |block| ==> all[place + n] == block[n]
  }

  lemma StubStands(all: seq<Message>, at: nat, m: Message, known: set<nat>, j: nat)
    requires j < |CallsOf(m)| && IsMissing(CallsOf(m), j, known) && StandsAt(all, at, Block(m, known))
    ensures
      var place := at + (1 + CountMissing(CallsOf(m), known, j));
      && place < at + (1 + Missing(m, known)) <= |all|
      && all[place] == Stub(CallsOf(m)[j])
  {
    StubInBlock(m, known, j);
  }

  lemma PlacedAt(ms: seq<Message>, known: set<nat>, i: nat)
    requires i < |ms|
    ensures StandsAt(AddStubs(ms, known), Place(ms, known, i), Block(ms[i], known + CallIds(ms[..i])))
  {
    BlockStarts(ms, known, i);
    PlaceIs(ms, known, i);
    BlockPlaces(AddStubs(ms[..i], known), Block(ms[i], known + CallIds(ms[..i])), AddStubs(ms, known));
  }

  lemma StubInBlock(m: Message, known: set<nat>, j: nat)
    requires j < |CallsOf(m)| && IsMissing(CallsOf(m), j, known)
    ensures
      var n := CountMissing(CallsOf(m), known, j);
      && |Block(m, known)| == 1 + Missing(m, known) && 1 + n < |Block(m, known)|
      && Block(m, known)[1 + n] == Stub(CallsOf(m)[j])
  {
    BlockLength(m, known);
    StubAt(CallsOf(m), known, j);
  }

  lemma BlockPlaces(front: seq<Message>, block: seq<Message>, all: seq<Message>)
    requires front + block <= all
    ensures StandsAt(all, |front|, block)
  {
    forall n | 0 <= n < |block|
      ensures all[|front| + n] == block[n]
    {
      assert (front + block)[|front| + n] == block[n];
    }
  }

  lemma {:induction false} AddStubsPrefix(ms: seq<Message>, known: set<nat>, i: nat)
    requires i <= |ms|
    ensures AddStubs(ms[..i], known) <= AddStubs(ms, known)
  {
    if i == |ms| {
      assert ms[..i] == ms;
    } else {
      AddStubsPrefix(ms[..|ms| - 1], known, i);
      assert ms[..|ms| - 1][..i] == ms[..i];
    }
  }
}

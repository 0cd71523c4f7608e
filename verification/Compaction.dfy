/** Cutting a well-formed transcript and repairing the rest keeps it well formed:
    every call answered before the conversation goes on, no result without its call. */
module Compaction {
  import opened Domain
  import opened Transcript
  import opened Repair

  // ---- well-formed transcripts ----------------------------------------------------------

  /** A message and the results of its calls. */
  datatype Turn = Turn(head: Message, results: seq<Message>)

  predicate AllTools(ms: seq<Message>) {
    ms == [] || (AllTools(ms[..|ms| - 1]) && ms[|ms| - 1].ToolMessage?)
  }

  /** Exactly one result for each call, in any order. */
  ghost predicate Answers(calls: seq<Call>, results: seq<Message>) {
    AllTools(results) && ResultBag(results) == CallBag(calls)
  }

  predicate AllNamed(calls: seq<Call>) {
    calls == [] || (AllNamed(calls[..|calls| - 1]) && calls[|calls| - 1].id.Some?)
  }

  ghost predicate TurnOk(t: Turn) {
    !t.head.ToolMessage? && AllNamed(CallsOf(t.head)) && Answers(CallsOf(t.head), t.results)
  }

  function TurnIds(t: Turn): set<nat> { Ids(CallsOf(t.head)) }

  function Messages(t: Turn): seq<Message> { [t.head] + t.results }

  function Flat(turns: seq<Turn>): seq<Message> {
    if turns == [] then [] else Flat(turns[..|turns| - 1]) + Messages(turns[|turns| - 1])
  }

  /** Complete turns, each with new call ids. */
  ghost predicate GoodTurns(turns: seq<Turn>) {
    turns == []
    || var before, last := turns[..|turns| - 1], turns[|turns| - 1];
       GoodTurns(before) && TurnOk(last) && TurnIds(last) !! CallIds(Flat(before))
  }

  ghost predicate WellFormed(ms: seq<Message>) {
    exists turns :: GoodTurns(turns) && Flat(turns) == ms
  }

  // ---- facts about turns --------------------------------------------------------------------

  lemma {:induction false} CallBagIds(calls: seq<Call>, id: nat)
    ensures Some(id) in CallBag(calls) <==> id in Ids(calls)
    ensures |CallBag(calls)| == |calls| && (AllNamed(calls) ==> None !in CallBag(calls))
  {
    if calls != [] {
      CallBagIds(calls[..|calls| - 1], id);
    }
  }

  lemma {:induction false} ResultBagIds(results: seq<Message>, id: nat)
    ensures Some(id) in ResultBag(results) <==> id in ResultIds(results)
  {
    if results != [] {
      ResultBagIds(results[..|results| - 1], id);
    }
  }

  lemma {:induction false} ResultBagAt(results: seq<Message>, k: nat)
    requires AllTools(results) && k < |results|
    ensures results[k].ToolMessage? && results[k].id in ResultBag(results)
  {
    if k < |results| - 1 {
      ResultBagAt(results[..|results| - 1], k);
    }
  }

  /** What one result per call means for the ids. */
  lemma AnswersFacts(calls: seq<Call>, results: seq<Message>)
    requires AllNamed(calls) && Answers(calls, results)
    ensures Answering(results, Ids(calls)) && Ids(calls) <= ResultIds(results)
  {
    forall k | 0 <= k < |results|
      ensures results[k].ToolMessage? && results[k].id.Some? && results[k].id.value in Ids(calls)
    {
      ResultBagAt(results, k);
      CallBagIds(calls, if results[k].id.Some? then results[k].id.value else 0);
    }
    forall id | id in Ids(calls)
      ensures id in ResultIds(results)
    {
      CallBagIds(calls, id);
      ResultBagIds(results, id);
    }
  }

  lemma TurnFacts(t: Turn)
    requires TurnOk(t)
    ensures CallIds(Messages(t)) == TurnIds(t)
    ensures OrphanFree(Messages(t), TurnIds(t)) && TurnIds(t) <= ResultIds(Messages(t))
  {
    assert [t.head][..0] == [];
    AnswersFacts(CallsOf(t.head), t.results);
    ToolsOnly(t.results);
    CallIdsConcat([t.head], t.results);
    ResultIdsConcat([t.head], t.results);
  }

  lemma OrphanFreeConcat(xs: seq<Message>, ys: seq<Message>, ids: set<nat>, more: set<nat>)
    requires OrphanFree(xs, ids) && OrphanFree(ys, more)
    ensures OrphanFree(xs + ys, ids + more)
  {
  }

  /** Complete turns need no repair. */
  lemma {:induction false} TurnsArePaired(turns: seq<Turn>)
    requires GoodTurns(turns)
    ensures OrphanFree(Flat(turns), CallIds(Flat(turns)))
    ensures CallIds(Flat(turns)) <= ResultIds(Flat(turns))
  {
    if turns != [] {
      var before, last := turns[..|turns| - 1], turns[|turns| - 1];
      TurnsArePaired(before);
      TurnFacts(last);
      CallIdsConcat(Flat(before), Messages(last));
      ResultIdsConcat(Flat(before), Messages(last));
      OrphanFreeConcat(Flat(before), Messages(last), CallIds(Flat(before)), TurnIds(last));
    }
  }

  lemma FlatPush(turns: seq<Turn>, t: Turn)
    ensures Flat(turns + [t]) == Flat(turns) + Messages(t)
  {
    assert (turns + [t])[..|turns|] == turns;
  }

  lemma GoodPush(turns: seq<Turn>, t: Turn)
    requires GoodTurns(turns) && TurnOk(t) && TurnIds(t) !! CallIds(Flat(turns))
    ensures GoodTurns(turns + [t])
    ensures CallIds(Flat(turns + [t])) == CallIds(Flat(turns)) + TurnIds(t)
  {
    GoodIsPushed(turns, t);
    IdsPush(turns, t);
  }

  /** Good turns read off the list: each is complete, and no two call the same id. */
  ghost predicate Apart(turns: seq<Turn>) {
    && (forall i :: 0 <= i < |turns| ==> TurnOk(turns[i]))
    && (forall i, j :: 0 <= i < j < |turns| ==> TurnIds(turns[i]) !! TurnIds(turns[j]))
  }

  lemma IdsPush(turns: seq<Turn>, t: Turn)
    requires TurnOk(t)
    ensures CallIds(Flat(turns + [t])) == CallIds(Flat(turns)) + TurnIds(t)
  {
    FlatPush(turns, t);
    TurnFacts(t);
    CallIdsConcat(Flat(turns), Messages(t));
  }

  lemma {:induction false} CalledIn(turns: seq<Turn>, id: nat)
    requires Apart(turns)
    ensures id in CallIds(Flat(turns)) <==> exists i :: 0 <= i < |turns| && id in TurnIds(turns[i])
  {
    if turns != [] {
      var before, last := turns[..|turns| - 1], turns[|turns| - 1];
      assert turns == before + [last];
      ApartPush(before, last);
      CalledIn(before, id);
      IdsPush(before, last);
      InLast(before, last, id);
    }
  }

  lemma InLast(turns: seq<Turn>, t: Turn, id: nat)
    ensures (exists i :: 0 <= i < |turns + [t]| && id in TurnIds((turns + [t])[i]))
            <==> id in TurnIds(t) || exists i :: 0 <= i < |turns| && id in TurnIds(turns[i])
  {
    var all := turns + [t];
    assert all[|turns|] == t;
    assert forall i :: 0 <= i < |turns| ==> all[i] == turns[i];
  }

  lemma ApartPush(turns: seq<Turn>, t: Turn)
    ensures Apart(turns + [t])
            <==> Apart(turns) && TurnOk(t) && forall i :: 0 <= i < |turns| ==> TurnIds(turns[i]) !! TurnIds(t)
  {
    var all := turns + [t];
    assert all[|turns|] == t;
    assert forall i :: 0 <= i < |turns| ==> all[i] == turns[i];
  }

  lemma GoodIsPushed(turns: seq<Turn>, t: Turn)
    ensures GoodTurns(turns + [t]) <==> GoodTurns(turns) && TurnOk(t) && TurnIds(t) !! CallIds(Flat(turns))
  {
    assert (turns + [t])[..|turns|] == turns;
  }

  lemma {:induction false} GoodMeansApart(turns: seq<Turn>)
    ensures GoodTurns(turns) <==> Apart(turns)
  {
    if turns != [] {
      var before, last := turns[..|turns| - 1], turns[|turns| - 1];
      assert turns == before + [last];
      GoodMeansApart(before);
      GoodIsPushed(before, last);
      ApartPush(before, last);
      if Apart(before) {
        LastApart(before, last);
      }
    }
  }

  lemma LastApart(turns: seq<Turn>, t: Turn)
    requires Apart(turns)
    ensures TurnIds(t) !! CallIds(Flat(turns)) <==> forall i :: 0 <= i < |turns| ==> TurnIds(turns[i]) !! TurnIds(t)
  {
    forall id
      ensures id in CallIds(Flat(turns)) <==> exists i :: 0 <= i < |turns| && id in TurnIds(turns[i])
    {
      CalledIn(turns, id);
    }
  }

  lemma SuffixApart(turns: seq<Turn>, j: nat, rest: seq<Turn>)
    requires Apart(turns) && j <= |turns| && rest == turns[j..]
    ensures Apart(rest)
    ensures j > 0 ==> forall i :: 0 <= i < |rest| ==> TurnIds(rest[i]) !! TurnIds(turns[j - 1])
  {
    assert forall i :: 0 <= i < |rest| ==> rest[i] == turns[j + i];
  }

  lemma SuffixIsGood(turns: seq<Turn>, j: nat)
    requires GoodTurns(turns) && j <= |turns|
    ensures GoodTurns(turns[j..])
  {
    GoodMeansApart(turns);
    SuffixApart(turns, j, turns[j..]);
    GoodMeansApart(turns[j..]);
  }

  /** No later turn calls what a turn called. */
  lemma TurnIsApart(turns: seq<Turn>, j: nat)
    requires GoodTurns(turns) && 0 < j <= |turns|
    ensures TurnIds(turns[j - 1]) !! CallIds(Flat(turns[j..]))
  {
    GoodMeansApart(turns);
    SuffixApart(turns, j, turns[j..]);
    LastApart(turns[j..], turns[j - 1]);
  }

  /** Where a cut falls: it splits off the results of at most one turn. */
  lemma {:induction false} CutTurns(turns: seq<Turn>, cut: nat) returns (lead: seq<Message>, j: nat)
    requires GoodTurns(turns) && cut <= |Flat(turns)|
    ensures j <= |turns| && Flat(turns)[cut..] == lead + Flat(turns[j..])
    ensures lead == [] || (j > 0 && Answering(lead, TurnIds(turns[j - 1])))
  {
    if turns == [] {
      lead, j := [], 0;
    } else {
      var before, last := turns[..|turns| - 1], turns[|turns| - 1];
      assert turns == before + [last];
      if cut <= |Flat(before)| {
        lead, j := CutTurns(before, cut);
        CutFront(before, last, cut, lead, j);
      } else {
        lead, j := Messages(last)[cut - |Flat(before)|..], |turns|;
        CutBack(before, last, cut);
        SuffixAnswers(last, cut - |Flat(before)|);
      }
    }
  }

  lemma CutFront(before: seq<Turn>, last: Turn, cut: nat, lead: seq<Message>, j: nat)
    requires cut <= |Flat(before)| && j <= |before| && Flat(before)[cut..] == lead + Flat(before[j..])
    ensures Flat(before + [last])[cut..] == lead + Flat((before + [last])[j..])
  {
    assert (before + [last])[j..] == before[j..] + [last];
    FlatPush(before, last);
    FlatPush(before[j..], last);
    CutJoined(Flat(before), Messages(last), cut);
    Assoc(lead, Flat(before[j..]), Messages(last));
  }

  lemma CutJoined(front: seq<Message>, block: seq<Message>, cut: nat)
    requires cut <= |front|
    ensures (front + block)[cut..] == front[cut..] + block
  {
  }

  lemma CutBack(before: seq<Turn>, last: Turn, cut: nat)
    requires |Flat(before)| <= cut <= |Flat(before)| + |Messages(last)|
    ensures Flat(before + [last])[cut..]
      == Messages(last)[cut - |Flat(before)|..] + Flat((before + [last])[|before| + 1..])
  {
    assert (before + [last])[|before| + 1..] == [];
    FlatPush(before, last);
    var front, block := Flat(before), Messages(last);
    assert (front + block)[cut..] == block[cut - |front|..];
  }

  lemma SuffixAnswers(t: Turn, from: nat)
    requires TurnOk(t) && 1 <= from <= |Messages(t)|
    ensures Answering(Messages(t)[from..], TurnIds(t))
  {
    AnswersFacts(CallsOf(t.head), t.results);
    assert Messages(t)[from..] == t.results[from - 1..];
  }

  // ---- leading results ------------------------------------------------------------------------

  function DropLeading(ms: seq<Message>): seq<Message> {
    if ms == [] || !ms[0].ToolMessage? then ms else DropLeading(ms[1..])
  }

  lemma {:induction false} DropLeadingOf(lead: seq<Message>, tail: seq<Message>)
    requires forall k :: 0 <= k < |lead| ==> lead[k].ToolMessage?
    requires tail == [] || !tail[0].ToolMessage?
    ensures DropLeading(lead + tail) == tail
  {
    if lead == [] {
      assert lead + tail == tail;
    } else {
      DropLeadingOf(lead[1..], tail);
      assert (lead + tail)[1..] == lead[1..] + tail;
    }
  }

  lemma {:induction false} FlatStarts(turns: seq<Turn>)
    requires GoodTurns(turns)
    ensures Flat(turns) == [] || !Flat(turns)[0].ToolMessage?
  {
    if turns != [] {
      FlatStarts(turns[..|turns| - 1]);
    }
  }

  /** The results a cut splits off answer no call that is left. */
  lemma SplitResultsAreOrphans(turns: seq<Turn>, j: nat, lead: seq<Message>)
    requires GoodTurns(turns) && 0 < j <= |turns| && Answering(lead, TurnIds(turns[j - 1]))
    ensures forall k :: 0 <= k < |lead| ==> IsOrphan(lead[k], CallIds(Flat(turns[j..])))
  {
    TurnIsApart(turns, j);
  }

  // ---- repairing what is left --------------------------------------------------------------------

  /** Messages that neither call nor answer. */
  ghost predicate Plain(ms: seq<Message>) {
    forall k :: 0 <= k < |ms| ==> !ms[k].ToolMessage? && CallsOf(ms[k]) == []
  }

  lemma {:induction false} PlainFacts(ms: seq<Message>)
    requires Plain(ms)
    ensures CallIds(ms) == {}
  {
    if ms != [] {
      PlainFacts(ms[..|ms| - 1]);
    }
  }

  lemma DropLead(front: seq<Message>, lead: seq<Message>, tail: seq<Message>, ids: set<nat>)
    requires OrphanFree(front, ids) && OrphanFree(tail, ids)
    requires forall k :: 0 <= k < |lead| ==> IsOrphan(lead[k], ids)
    ensures DropOrphans(front + (lead + tail), ids) == front + tail
  {
    var a, b, c := DropOrphans(front, ids), DropOrphans(lead, ids), DropOrphans(tail, ids);
    DropConcat(front, lead + tail, ids);
    DropConcat(lead, tail, ids);
    assert a == front by { DropNothing(front, ids); }
    assert b == [] by { DropAll(lead, ids); }
    assert c == tail by { DropNothing(tail, ids); }
    assert b + c == tail;
  }

  lemma LeadCallIds(front: seq<Message>, lead: seq<Message>, tail: seq<Message>)
    requires Plain(front) && forall k :: 0 <= k < |lead| ==> lead[k].ToolMessage?
    ensures CallIds(front + (lead + tail)) == CallIds(tail)
  {
    PlainFacts(front);
    ToolsOnly(lead);
    CallIdsConcat(lead, tail);
    CallIdsConcat(front, lead + tail);
  }

  /** Orphans between plain messages and a paired list go, and nothing else. */
  lemma FixDropsLead(front: seq<Message>, lead: seq<Message>, tail: seq<Message>)
    requires Plain(front) && OrphanFree(tail, CallIds(tail)) && CallIds(tail) <= ResultIds(tail)
    requires forall k :: 0 <= k < |lead| ==> IsOrphan(lead[k], CallIds(tail))
    ensures Fix(front + (lead + tail)) == front + tail
  {
    LeadCallIds(front, lead, tail);
    DropLead(front, lead, tail, CallIds(tail));
    PlainFacts(front);
    CallIdsConcat(front, tail);
    ResultIdsConcat(front, tail);
    AddNothing(front + tail, ResultIds(front + tail));
  }

  /** Behind plain messages, repairing any suffix of a well-formed transcript drops
      exactly its leading results, adds no stub, and leaves a well-formed list. */
  lemma RepairedSuffix(front: seq<Message>, ms: seq<Message>, cut: nat)
    requires Plain(front) && WellFormed(ms) && cut <= |ms|
    ensures Fix(front + ms[cut..]) == front + DropLeading(ms[cut..])
    ensures WellFormed(front + DropLeading(ms[cut..]))
  {
    var turns :| GoodTurns(turns) && Flat(turns) == ms;
    var lead, j := CutTurns(turns, cut);
    RepairedTurns(front, turns, j, lead);
  }

  lemma LeadIsOrphaned(turns: seq<Turn>, j: nat, lead: seq<Message>)
    requires GoodTurns(turns) && j <= |turns|
    requires lead == [] || (j > 0 && Answering(lead, TurnIds(turns[j - 1])))
    ensures forall k :: 0 <= k < |lead| ==> IsOrphan(lead[k], CallIds(Flat(turns[j..])))
  {
    if lead != [] {
      SplitResultsAreOrphans(turns, j, lead);
    }
  }

  lemma RepairedTurns(front: seq<Message>, turns: seq<Turn>, j: nat, lead: seq<Message>)
    requires Plain(front) && GoodTurns(turns) && j <= |turns|
    requires lead == [] || (j > 0 && Answering(lead, TurnIds(turns[j - 1])))
    ensures
      var suffix := lead + Flat(turns[j..]);
      Fix(front + suffix) == front + DropLeading(suffix) && WellFormed(front + DropLeading(suffix))
  {
    var tail := Flat(turns[j..]);
    LeadIsOrphaned(turns, j, lead);
    assert Fix(front + (lead + tail)) == front + tail by {
      SuffixIsGood(turns, j);
      TurnsArePaired(turns[j..]);
      FixDropsLead(front, lead, tail);
    }
    assert DropLeading(lead + tail) == tail by {
      SuffixIsGood(turns, j);
      FlatStarts(turns[j..]);
      DropLeadingOf(lead, tail);
    }
    SuffixIsGood(turns, j);
    PlainFront(front, turns[j..]);
  }

  lemma Assoc(a: seq<Message>, b: seq<Message>, c: seq<Message>)
    ensures a + b + c == a + (b + c)
  {
  }

  /** A plain message is a turn of its own. */
  lemma {:induction false} PlainFirst(m: Message, turns: seq<Turn>) returns (all: seq<Turn>)
    requires !m.ToolMessage? && CallsOf(m) == [] && GoodTurns(turns)
    ensures GoodTurns(all) && Flat(all) == [m] + Flat(turns)
  {
    if turns == [] {
      PlainOnly(m);
      all := [Turn(m, [])];
    } else {
      var before, last := turns[..|turns| - 1], turns[|turns| - 1];
      all := PlainFirst(m, before);
      PlainFirstLast(m, all, before, last);
      all := all + [last];
    }
  }

  lemma PlainOnly(m: Message)
    requires !m.ToolMessage? && CallsOf(m) == []
    ensures GoodTurns([Turn(m, [])]) && Flat([Turn(m, [])]) == [m] + []
  {
    GoodPush([], Turn(m, []));
    FlatPush([], Turn(m, []));
    assert [] + [Turn(m, [])] == [Turn(m, [])];
  }

  lemma PlainFirstLast(m: Message, all: seq<Turn>, before: seq<Turn>, last: Turn)
    requires CallsOf(m) == [] && TurnOk(last) && TurnIds(last) !! CallIds(Flat(before))
    requires GoodTurns(all) && Flat(all) == [m] + Flat(before)
    ensures GoodTurns(all + [last]) && Flat(all + [last]) == [m] + (Flat(before) + Messages(last))
  {
    assert [m][..0] == [];
    CallIdsConcat([m], Flat(before));
    GoodPush(all, last);
    FlatPush(all, last);
    Assoc([m], Flat(before), Messages(last));
  }

  lemma GoodIsWellFormed(turns: seq<Turn>)
    requires GoodTurns(turns)
    ensures WellFormed(Flat(turns))
  {
  }

  lemma {:induction false} PlainTurns(front: seq<Message>, turns: seq<Turn>) returns (all: seq<Turn>)
    requires Plain(front) && GoodTurns(turns)
    ensures GoodTurns(all) && Flat(all) == front + Flat(turns)
    decreases |front|
  {
    if front == [] {
      all := turns;
    } else {
      var before, m := front[..|front| - 1], front[|front| - 1];
      all := PlainFirst(m, turns);
      all := PlainTurns(before, all);
      FrontJoins(front, Flat(turns));
    }
  }

  lemma FrontJoins(front: seq<Message>, rest: seq<Message>)
    requires front != []
    ensures front[..|front| - 1] + ([front[|front| - 1]] + rest) == front + rest
  {
  }

  lemma PlainFront(front: seq<Message>, turns: seq<Turn>)
    requires Plain(front) && GoodTurns(turns)
    ensures WellFormed(front + Flat(turns))
  {
    var all := PlainTurns(front, turns);
    GoodIsWellFormed(all);
  }
}

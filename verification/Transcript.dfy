/** Message lists of the agent loop, and the repair of tool calls and results that
    a compression may have separated. */
module Transcript {
  import opened Domain

  /** A missing or empty call id is None. */
  datatype Call = Call(id: Option<nat>, name: string)

  datatype Message =
    | SystemMessage(content: string)
    | UserMessage(content: string)
    | AssistantMessage(content: string, calls: seq<Call>)
    | ToolMessage(id: Option<nat>, name: string, content: string)

  const STUB_TEXT := "[Result from earlier context \U{2014} see summary above]"

  function CallsOf(m: Message): seq<Call> {
    if m.AssistantMessage? then m.calls else []
  }

  function Known(id: Option<nat>): set<nat> {
    if id.Some? then {id.value} else {}
  }

  function Ids(calls: seq<Call>): set<nat> {
    if calls == [] then {} else Ids(calls[..|calls| - 1]) + Known(calls[|calls| - 1].id)
  }

  function CallIds(ms: seq<Message>): set<nat> {
    if ms == [] then {} else CallIds(ms[..|ms| - 1]) + Ids(CallsOf(ms[|ms| - 1]))
  }

  function ResultIds(ms: seq<Message>): set<nat> {
    if ms == [] then {}
    else
      var last := ms[|ms| - 1];
      ResultIds(ms[..|ms| - 1]) + (if last.ToolMessage? then Known(last.id) else {})
  }

  predicate IsOrphan(m: Message, ids: set<nat>) {
    m.ToolMessage? && (m.id.None? || m.id.value !in ids)
  }

  ghost predicate OrphanFree(ms: seq<Message>, ids: set<nat>) {
    forall k :: 0 <= k < |ms| ==> !IsOrphan(ms[k], ids)
  }

  /** The list without tool results that answer none of these calls. */
  function DropOrphans(ms: seq<Message>, ids: set<nat>): seq<Message> {
    if ms == [] then []
    else
      var last := ms[|ms| - 1];
      var earlier := DropOrphans(ms[..|ms| - 1], ids);
      if IsOrphan(last, ids) then earlier else earlier + [last]
  }

  function Stub(call: Call): Message {
    ToolMessage(call.id, call.name, STUB_TEXT)
  }

  /** Stubs for the calls, in call order, whose id is not yet answered. */
  function Stubs(calls: seq<Call>, known: set<nat>): seq<Message> {
    if calls == [] then []
    else
      var before, last := calls[..|calls| - 1], calls[|calls| - 1];
      var earlier := Stubs(before, known);
      if last.id.Some? && last.id.value !in known + Ids(before) then earlier + [Stub(last)] else earlier
  }

  /** A message followed by the stubs its calls need. */
  function Block(m: Message, known: set<nat>): seq<Message> {
    [m] + Stubs(CallsOf(m), known)
  }

  function AddStubs(ms: seq<Message>, known: set<nat>): seq<Message> {
    if ms == [] then []
    else
      var before, last := ms[..|ms| - 1], ms[|ms| - 1];
      AddStubs(before, known) + Block(last, known + CallIds(before))
  }

  function Fix(ms: seq<Message>): seq<Message> {
    var kept := DropOrphans(ms, CallIds(ms));
    AddStubs(kept, ResultIds(kept))
  }

  /** Everything but tool results. */
  function Conversation(ms: seq<Message>): seq<Message> {
    if ms == [] then []
    else
      var last := ms[|ms| - 1];
      var earlier := Conversation(ms[..|ms| - 1]);
      if last.ToolMessage? then earlier else earlier + [last]
  }

  /** Results that answer some of these ids only. */
  ghost predicate Answering(ms: seq<Message>, ids: set<nat>) {
    forall k :: 0 <= k < |ms| ==> ms[k].ToolMessage? && ms[k].id.Some? && ms[k].id.value in ids
  }

  function CallBag(calls: seq<Call>): multiset<Option<nat>> {
    if calls == [] then multiset{} else CallBag(calls[..|calls| - 1]) + multiset{calls[|calls| - 1].id}
  }

  function ResultBag(ms: seq<Message>): multiset<Option<nat>> {
    if ms == [] then multiset{}
    else
      var last := ms[|ms| - 1];
      ResultBag(ms[..|ms| - 1]) + (if last.ToolMessage? then multiset{last.id} else multiset{})
  }
}

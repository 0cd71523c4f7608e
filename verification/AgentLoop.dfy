/** The agent loop's transcript maintenance: pruning, folding, compression, and
    the turns in between. */
module AgentLoop {
  import opened Transcript
  import opened Repair
  import opened Compaction

  const TAIL_TOKEN_BUDGET := 20_000
  const KEEP_RECENT := 3
  const CLEAR_ABOVE := 100
  const CLEARED := "[cleared]"
  const COLLAPSE_PRESERVE_RECENT := 6
  const COLLAPSE_TEXT_MIN := 2400
  const COLLAPSE_HEAD := 900
  const COLLAPSE_TAIL := 500

  // ---- the token-budget cut ---------------------------------------------------------------

  function Tokens(m: Message): (n: nat)
    ensures 4 * (n - 10) <= |m.content| < 4 * (n - 9)
  {
    |m.content| / 4 + 10
  }

  function TokenSum(ms: seq<Message>): nat {
    if ms == [] then 0 else Tokens(ms[0]) + TokenSum(ms[1..])
  }

  /** `cut` starts the longest suffix that fits the budget. */
  ghost predicate IsBudgetCut(body: seq<Message>, cut: nat) {
    && cut <= |body|
    && forall j :: 0 <= j <= |body| ==> (TokenSum(body[j..]) <= 20_000 <==> j >= cut)
  }

  lemma {:induction false} TokenSumSuffix(body: seq<Message>, i: nat, j: nat)
    requires i <= j <= |body|
    ensures TokenSum(body[j..]) <= TokenSum(body[i..])
    decreases j - i
  {
    if i < j {
      TokenSumSuffix(body, i + 1, j);
      assert body[i..][1..] == body[i + 1..];
    }
  }

  lemma BudgetCutIsUnique(body: seq<Message>, cut: nat, other: nat)
    requires IsBudgetCut(body, cut) && IsBudgetCut(body, other)
    ensures cut == other
  {
    assert TokenSum(body[cut..]) <= TAIL_TOKEN_BUDGET && TokenSum(body[other..]) <= TAIL_TOKEN_BUDGET;
  }

  /** Walk backwards while the next message still fits. */
  function CutFrom(body: seq<Message>, i: nat): (cut: nat)
    requires i <= |body| && TokenSum(body[i..]) <= TAIL_TOKEN_BUDGET
    ensures IsBudgetCut(body, cut)
  {
    if i == 0 || TokenSum(body[i - 1..]) > TAIL_TOKEN_BUDGET then
      assert IsBudgetCut(body, i) by {
        forall j | 0 <= j <= |body|
          ensures TokenSum(body[j..]) <= TAIL_TOKEN_BUDGET <==> j >= i
        {
          if j >= i { TokenSumSuffix(body, i, j); } else { TokenSumSuffix(body, j, i - 1); }
        }
      }
      i
    else CutFrom(body, i - 1)
  }

  function BudgetCut(body: seq<Message>): (cut: nat)
    ensures IsBudgetCut(body, cut)
  {
    assert body[|body|..] == [];
    CutFrom(body, |body|)
  }

  // ---- compression -----------------------------------------------------------------------------

  /** Where the kept tail starts: at the budget cut, past results it would split
      off; if everything fits, at the middle, unless there is too little to cut. */
  function TailStart(body: seq<Message>): (cut: nat)
    ensures cut <= |body|
    ensures cut == 0 <==> BudgetCut(body) == 0 && |body| <= 2
  {
    var cut := BudgetCut(body);
    DropLeadingShrinks(body[cut..]);
    if cut > 0 then |body| - |DropLeading(body[cut..])|
    else if |body| > 2 then |body| / 2
    else 0
  }

  lemma {:induction false} DropLeadingShrinks(ms: seq<Message>)
    ensures |DropLeading(ms)| <= |ms|
    ensures ms[|ms| - |DropLeading(ms)|..] == DropLeading(ms)
  {
    if ms != [] && ms[0].ToolMessage? {
      DropLeadingShrinks(ms[1..]);
      var n := |DropLeading(ms)|;
      assert ms[|ms| - n..] == ms[1..][|ms| - 1 - n..];
    }
  }

  function Compact(ms: seq<Message>, summary: string): seq<Message>
    requires ms != []
  {
    var body := ms[1..];
    var cut := TailStart(body);
    if cut == 0 then ms else Fix([ms[0], UserMessage(summary)] + body[cut..])
  }

  ghost predicate Healthy(ms: seq<Message>) {
    ms != [] && ms[0].SystemMessage? && WellFormed(ms)
  }

  /** What compression leaves: the system message, the summary and a tail without its
      leading results.  The tail is the longest one within the budget; if that is all
      there is, the second half; and if there is next to nothing, all stays as it is. */
  ghost predicate Compacts(ms: seq<Message>, summary: string, cut: nat, compacted: seq<Message>)
    requires ms != []
  {
    var body := ms[1..];
    && IsBudgetCut(body, cut)
    && compacted == if cut > 0 then [ms[0], UserMessage(summary)] + DropLeading(body[cut..])
                    else if |body| > 2 then [ms[0], UserMessage(summary)] + DropLeading(body[|body| / 2..])
                    else ms
  }

  /** Compression keeps a transcript well formed, adds no stub, and never makes it
      longer; the tail it keeps is the one after the cut, less leading results. */
  lemma CompactTheorem(ms: seq<Message>, summary: string)
    requires Healthy(ms)
    ensures Healthy(Compact(ms, summary)) && |Compact(ms, summary)| <= |ms|
    ensures Compacts(ms, summary, BudgetCut(ms[1..]), Compact(ms, summary))
  {
    var body := ms[1..];
    if TailStart(body) > 0 {
      CompactedTail(ms, summary);
    }
    if BudgetCut(body) > 0 {
      BudgetTail(body);
    }
  }

  /** Whatever the list, well formed or not: what compression changes it also repairs, and of
      the conversation it keeps the system message, the summary and the tail. */
  lemma CompactRepairs(ms: seq<Message>, summary: string)
    requires ms != [] && !ms[0].ToolMessage?
    ensures
      var body, now := ms[1..], Compact(ms, summary);
      if BudgetCut(body) == 0 && |body| <= 2 then now == ms
      else
        var tail := body[if BudgetCut(body) > 0 then BudgetCut(body) else |body| / 2..];
        && OrphanFree(now, CallIds(now)) && CallIds(now) <= ResultIds(now)
        && Conversation(now) == [ms[0], UserMessage(summary)] + Conversation(tail)
  {
    var body, now := ms[1..], Compact(ms, summary);
    var cut := TailStart(body);
    if cut > 0 {
      var front := [ms[0], UserMessage(summary)];
      FixTheorem(front + body[cut..]);
      ConversationConcat(front, body[cut..]);
      PlainTalk(ms[0], UserMessage(summary));
      SuffixAfter(body, BudgetCut(body));
      LeadingIsNoTalk(body[BudgetCut(body)..]);
    }
  }

  lemma PlainTalk(m: Message, n: Message)
    requires !m.ToolMessage? && !n.ToolMessage?
    ensures Conversation([m, n]) == [m, n]
  {
    assert [m][..0] == [] && [m, n][..1] == [m];
    assert Conversation([m]) == [m];
  }

  lemma {:induction false} LeadingIsNoTalk(ms: seq<Message>)
    ensures Conversation(DropLeading(ms)) == Conversation(ms)
  {
    if ms != [] && ms[0].ToolMessage? {
      LeadingIsNoTalk(ms[1..]);
      assert ms == [ms[0]] + ms[1..];
      ConversationConcat([ms[0]], ms[1..]);
      assert [ms[0]][..0] == [];
    }
  }

  lemma CompactedTail(ms: seq<Message>, summary: string)
    requires Healthy(ms) && TailStart(ms[1..]) > 0
    ensures
      var tail := DropLeading(ms[1..][TailStart(ms[1..])..]);
      && Compact(ms, summary) == [ms[0], UserMessage(summary)] + tail && 2 + |tail| <= |ms|
      && Healthy(Compact(ms, summary))
  {
    var cut := TailStart(ms[1..]);
    assert ms[1 + cut..] == ms[1..][cut..];
    RepairedSuffix([ms[0], UserMessage(summary)], ms, 1 + cut);
    DropLeadingShrinks(ms[1 + cut..]);
  }

  lemma {:induction false} NoLeadingLeft(ms: seq<Message>)
    ensures DropLeading(ms) == [] || !DropLeading(ms)[0].ToolMessage?
  {
    if ms != [] && ms[0].ToolMessage? {
      NoLeadingLeft(ms[1..]);
    }
  }

  lemma SuffixOfSuffix(body: seq<Message>, cut: nat, n: nat)
    requires cut <= |body| && n <= |body| - cut
    ensures body[|body| - n..] == body[cut..][|body[cut..]| - n..]
  {
  }

  lemma SuffixAfter(body: seq<Message>, cut: nat)
    requires cut <= |body|
    ensures |DropLeading(body[cut..])| <= |body|
    ensures body[|body| - |DropLeading(body[cut..])|..] == DropLeading(body[cut..])
  {
    DropLeadingShrinks(body[cut..]);
    SuffixOfSuffix(body, cut, |DropLeading(body[cut..])|);
  }

  lemma BudgetTail(body: seq<Message>)
    requires BudgetCut(body) > 0
    ensures DropLeading(body[TailStart(body)..]) == DropLeading(body[BudgetCut(body)..])
  {
    var tail := body[BudgetCut(body)..];
    DropLeadingShrinks(tail);
    NoLeadingLeft(tail);
    SuffixOfSuffix(body, BudgetCut(body), |DropLeading(tail)|);
  }

  // ---- content edits -------------------------------------------------------------------------------

  function WithContent(m: Message, content: string): Message {
    match m
    case SystemMessage(_) => SystemMessage(content)
    case UserMessage(_) => UserMessage(content)
    case AssistantMessage(_, calls) => AssistantMessage(content, calls)
    case ToolMessage(id, name, _) => ToolMessage(id, name, content)
  }

  function CountTools(ms: seq<Message>): nat {
    if ms == [] then 0
    else CountTools(ms[..|ms| - 1]) + (if ms[|ms| - 1].ToolMessage? then 1 else 0)
  }

  /** A long tool result with enough results after it is cleared. */
  function Pruned(ms: seq<Message>, i: nat): Message
    requires i < |ms|
  {
    if ms[i].ToolMessage? && CountTools(ms) - CountTools(ms[..i + 1]) >= KEEP_RECENT
      && |ms[i].content| > CLEAR_ABOVE then
      WithContent(ms[i], CLEARED)
    else ms[i]
  }

  function Microcompact(ms: seq<Message>): seq<Message> {
    seq(|ms|, i requires 0 <= i < |ms| => Pruned(ms, i))
  }

  function Decimal(n: nat): string {
    var digit := ['0', '1', '2', '3', '4', '5', '6', '7', '8', '9'][n % 10];
    if n < 10 then [digit] else Decimal(n / 10) + [digit]
  }

  /** Head and tail of a long text around a count of what is gone. */
  function Fold(text: string): string
    requires |text| > COLLAPSE_TEXT_MIN
  {
    text[..COLLAPSE_HEAD]
    + "\n\n...[" + Decimal(|text| - COLLAPSE_HEAD - COLLAPSE_TAIL) + " chars collapsed]...\n\n"
    + text[|text| - COLLAPSE_TAIL..]
  }

  function Folded(m: Message): Message {
    if |m.content| <= COLLAPSE_TEXT_MIN || m.content == CLEARED then m
    else WithContent(m, Fold(m.content))
  }

  /** Fold all but the first message and the most recent ones. */
  function Collapse(ms: seq<Message>): seq<Message> {
    if |ms| <= COLLAPSE_PRESERVE_RECENT + 1 then ms
    else
      seq(|ms|, i requires 0 <= i < |ms| =>
        if 1 <= i < |ms| - COLLAPSE_PRESERVE_RECENT then Folded(ms[i]) else ms[i])
  }

  lemma {:induction false} DecimalIsShort(n: nat)
    ensures |Decimal(n)| <= n + 1
  {
    if n >= 10 {
      DecimalIsShort(n / 10);
    }
  }

  lemma FoldShrinks(text: string)
    requires |text| > COLLAPSE_TEXT_MIN
    ensures |Fold(text)| < |text|
  {
    var gone := |text| - COLLAPSE_HEAD - COLLAPSE_TAIL;
    assert gone >= 1000;
    DecimalIsShort(gone / 10);
  }

  /** Same messages but for their text, and no text longer than it was. */
  ghost predicate Shortens(ms: seq<Message>, ms': seq<Message>) {
    && |ms'| == |ms|
    && forall k :: 0 <= k < |ms| ==> ms'[k] == WithContent(ms[k], ms'[k].content) && |ms'[k].content| <= |ms[k].content|
  }

  /** Pruning and folding only shorten texts. */
  lemma EditsShorten(ms: seq<Message>)
    ensures Shortens(ms, Microcompact(ms)) && Shortens(ms, Collapse(ms))
  {
    forall k | 0 <= k < |ms|
      ensures Folded(ms[k]) == WithContent(ms[k], Folded(ms[k]).content)
      ensures |Folded(ms[k]).content| <= |ms[k].content|
    {
      if |ms[k].content| > COLLAPSE_TEXT_MIN {
        FoldShrinks(ms[k].content);
      }
    }
  }

  /** The tool results behind message `k`. */
  ghost function LaterTools(ms: seq<Message>, k: nat): set<nat> {
    set j: nat | k < j < |ms| && ms[j].ToolMessage?
  }

  lemma LaterPush(ms: seq<Message>, m: Message, k: nat)
    requires k < |ms|
    ensures |LaterTools(ms + [m], k)| == |LaterTools(ms, k)| + (if m.ToolMessage? then 1 else 0)
  {
    var all := ms + [m];
    assert forall j :: 0 <= j < |ms| ==> all[j] == ms[j];
    assert all[|ms|] == m && |ms| !in LaterTools(ms, k);
    assert LaterTools(all, k) == LaterTools(ms, k) + (if m.ToolMessage? then {|ms|} else {});
  }

  lemma {:induction false} LaterToolsCount(ms: seq<Message>, k: nat)
    requires k < |ms|
    ensures |LaterTools(ms, k)| == CountTools(ms) - CountTools(ms[..k + 1])
  {
    var before, last := ms[..|ms| - 1], ms[|ms| - 1];
    if k == |before| {
      assert LaterTools(ms, k) == {};
      assert ms[..k + 1] == ms;
    } else {
      assert ms == before + [last] && before[..k + 1] == ms[..k + 1];
      LaterToolsCount(before, k);
      LaterPush(before, last, k);
    }
  }

  /** Pruning clears a tool result if and only if it is longer than 100 characters and at
      least three tool results follow it; nothing else changes. */
  lemma PruningClearsIff(ms: seq<Message>, k: nat)
    requires k < |ms|
    ensures |Microcompact(ms)| == |ms|
    ensures Microcompact(ms)[k]
         == if ms[k].ToolMessage? && |ms[k].content| > 100 && |LaterTools(ms, k)| >= 3
            then ToolMessage(ms[k].id, ms[k].name, "[cleared]") else ms[k]
  {
    LaterToolsCount(ms, k);
  }

  // ---- what a folded text says ------------------------------------------------------------------

  predicate IsDigit(c: char) { '0' <= c <= '9' }

  /** The number a text of digits denotes. */
  function ValueOf(digits: string): nat
    requires forall i :: 0 <= i < |digits| ==> IsDigit(digits[i])
  {
    if digits == [] then 0
    else
      assert IsDigit(digits[|digits| - 1]);
      10 * ValueOf(digits[..|digits| - 1]) + (digits[|digits| - 1] as int - '0' as int)
  }

  lemma {:induction false} DecimalReadsBack(n: nat)
    ensures forall i :: 0 <= i < |Decimal(n)| ==> IsDigit(Decimal(n)[i])
    ensures ValueOf(Decimal(n)) == n
  {
    if n >= 10 {
      DecimalReadsBack(n / 10);
      assert Decimal(n)[..|Decimal(n)| - 1] == Decimal(n / 10);
    } else {
      assert Decimal(n)[..0] == [];
    }
  }

  /** The first 900 characters, how many are gone in decimal digits, and the last 500. */
  ghost predicate IsFolded(text: string, folded: string, digits: string) {
    && |text| > 2400
    && folded == text[..900] + "\n\n...[" + digits + " chars collapsed]...\n\n" + text[|text| - 500..]
    && (forall i :: 0 <= i < |digits| ==> IsDigit(digits[i]))
    && 900 + ValueOf(digits) + 500 == |text|
  }

  lemma FoldIs(text: string)
    requires |text| > 2400
    ensures IsFolded(text, Fold(text), Decimal(|text| - 1400))
  {
    DecimalReadsBack(|text| - 1400);
  }

  lemma FoldedIs(m: Message) returns (digits: string)
    ensures if |m.content| > 2400
            then Folded(m) == WithContent(m, Folded(m).content) && IsFolded(m.content, Folded(m).content, digits)
            else Folded(m) == m
  {
    digits := "";
    if |m.content| > 2400 {
      digits := Decimal(|m.content| - 1400);
      FoldIs(m.content);
    }
  }

  lemma CollapseAt(ms: seq<Message>, k: nat)
    requires k < |ms|
    ensures |Collapse(ms)| == |ms|
    ensures Collapse(ms)[k] == if 1 <= k < |ms| - 6 then Folded(ms[k]) else ms[k]
  {
  }

  /** Folding changes a message if and only if it is longer than 2400 characters and is
      neither the first nor one of the last six; only its text, and only to its fold. */
  lemma FoldingFoldsIff(ms: seq<Message>, k: nat) returns (digits: string)
    requires k < |ms|
    ensures |Collapse(ms)| == |ms|
    ensures
      var m := Collapse(ms)[k];
      if 1 <= k < |ms| - 6 && |ms[k].content| > 2400
      then m == WithContent(ms[k], m.content) && IsFolded(ms[k].content, m.content, digits) else m == ms[k]
  {
    CollapseAt(ms, k);
    digits := FoldedIs(ms[k]);
  }

  lemma {:induction false} ShortenedIds(ms: seq<Message>, ms': seq<Message>)
    requires Shortens(ms, ms')
    ensures ResultBag(ms') == ResultBag(ms) && CallIds(ms') == CallIds(ms)
    ensures AllTools(ms') <==> AllTools(ms)
  {
    if ms != [] {
      ShortenedIds(ms[..|ms| - 1], ms'[..|ms| - 1]);
    }
  }

  lemma ShortenedTurn(t: Turn, ms: seq<Message>) returns (t': Turn)
    requires TurnOk(t) && Shortens(Messages(t), ms)
    ensures TurnOk(t') && Messages(t') == ms && TurnIds(t') == TurnIds(t)
  {
    ShortensParts([t.head], t.results, ms);
    t' := Turn(ms[0], ms[1..]);
    assert ms[..1][0] == ms[0] && [t.head][0] == t.head;
    ShortenedHead(t.head, ms[..1]);
    ShortenedIds(t.results, ms[1..]);
    Rejoin(ms, 1);
    assert ms[..1] == [ms[0]];
  }

  lemma ShortenedHead(m: Message, ms: seq<Message>)
    requires Shortens([m], ms) && !m.ToolMessage?
    ensures |ms| == 1 && !ms[0].ToolMessage? && CallsOf(ms[0]) == CallsOf(m)
  {
    assert ms[0] == WithContent([m][0], ms[0].content);
  }

  /** Shortened texts leave the turns as they were. */
  lemma {:induction false} ShortenedTurns(turns: seq<Turn>, ms: seq<Message>) returns (turns': seq<Turn>)
    requires GoodTurns(turns) && Shortens(Flat(turns), ms)
    ensures GoodTurns(turns') && Flat(turns') == ms
  {
    if turns == [] {
      turns' := [];
    } else {
      var before, last := turns[..|turns| - 1], turns[|turns| - 1];
      var n := |Flat(before)|;
      ShortensParts(Flat(before), Messages(last), ms);
      var more := ShortenedTurns(before, ms[..n]);
      var t := ShortenedLast(before, last, more, ms[n..]);
      turns' := more + [t];
      Rejoin(ms, n);
    }
  }

  lemma Rejoin(ms: seq<Message>, n: nat)
    requires n <= |ms|
    ensures ms[..n] + ms[n..] == ms
  {
  }

  lemma ShortenedLast(before: seq<Turn>, last: Turn, more: seq<Turn>, block: seq<Message>) returns (t: Turn)
    requires TurnOk(last) && TurnIds(last) !! CallIds(Flat(before)) && Shortens(Messages(last), block)
    requires GoodTurns(more) && Shortens(Flat(before), Flat(more))
    ensures GoodTurns(more + [t]) && Flat(more + [t]) == Flat(more) + block
  {
    t := ShortenedTurn(last, block);
    ShortenedIds(Flat(before), Flat(more));
    GoodPush(more, t);
    FlatPush(more, t);
  }

  lemma ShortensParts(front: seq<Message>, block: seq<Message>, ms: seq<Message>)
    requires Shortens(front + block, ms)
    ensures Shortens(front, ms[..|front|]) && Shortens(block, ms[|front|..])
  {
    var n := |front|;
    assert forall k :: 0 <= k < n ==> front[k] == (front + block)[k];
    forall k | 0 <= k < |block|
      ensures ms[n..][k] == WithContent(block[k], ms[n..][k].content)
      ensures |ms[n..][k].content| <= |block[k].content|
    {
      assert block[k] == (front + block)[n + k] && ms[n..][k] == ms[n + k];
    }
  }

  lemma EditsKeepHealthy(ms: seq<Message>, ms': seq<Message>)
    requires Healthy(ms) && Shortens(ms, ms')
    ensures Healthy(ms')
  {
    var turns :| GoodTurns(turns) && Flat(turns) == ms;
    var turns' := ShortenedTurns(turns, ms');
    GoodIsWellFormed(turns');
    assert ms'[0] == WithContent(ms[0], ms'[0].content);
  }
}

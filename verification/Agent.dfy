/** The tool loop of an AI request and the selection of its history. */
module Agent {
  import opened Wrappers

  const MAX_ANSWER_CHARS := 50_000

  /** One tool call of a completion; a missing fingerprint or outcome is a rejected or failed call. */
  datatype ToolCall = ToolCall(id: nat, isFunction: bool, fingerprint: Option<nat>, outcome: Option<string>)

  const MAX_SAFE_INTEGER := 9_007_199_254_740_991
  const DEFAULT_PROVIDER := "openrouter"

  /** Token counts, cost, models and provider of one completion, or of all so far. */
  datatype Usage = Usage(prompt: nat, completion: nat, total: nat, cost: Option<nat>, models: seq<nat>, provider: Option<string>)

  /** What the provider returns to one request; `content` is trimmed. */
  datatype Completion = Unavailable | Completion(calls: seq<ToolCall>, content: string, usage: Usage)

  datatype Entry =
    | System
    | History(index: int)
    | Question
    | Calls(calls: seq<ToolCall>)
    | Reply(id: nat, content: string)

  datatype Failure = ProviderFailure | InvalidCompletion | ToolFailure

  datatype Answer = Answer(content: string, toolCalls: nat, usage: Usage)

  // ----- What a successful run is -----

  function AllCalls(rounds: seq<Completion>): seq<ToolCall> {
    if rounds == [] then []
    else
      var last := rounds[|rounds| - 1];
      AllCalls(rounds[..|rounds| - 1]) + if last.Completion? then last.calls else []
  }

  function AddCost(left: Option<nat>, right: Option<nat>): Option<nat> {
    if right.None? then left else Some((if left.Some? then left.value else 0) + right.value)
  }

  predicate SafeUsage(u: Usage) {
    u.prompt <= MAX_SAFE_INTEGER && u.completion <= MAX_SAFE_INTEGER && u.total <= MAX_SAFE_INTEGER &&
    (u.cost.Some? ==> u.cost.value <= MAX_SAFE_INTEGER)
  }

  /** addUsage: the totals, unless one of them leaves the range of safe integers. */
  function AddUsage(u: Usage, next: Usage): Option<Usage> {
    var sum := Usage(u.prompt + next.prompt, u.completion + next.completion, u.total + next.total,
                     AddCost(u.cost, next.cost), u.models + next.models,
                     Some(if next.provider.Some? then next.provider.value else DEFAULT_PROVIDER));
    if SafeUsage(sum) then Some(sum) else None
  }

  /** The totals over all rounds, if every one of them could be added. */
  function UsageOf(rounds: seq<Completion>): Option<Usage> {
    if rounds == [] then Some(Usage(0, 0, 0, None, [], None))
    else
      match (UsageOf(rounds[..|rounds| - 1]), rounds[|rounds| - 1])
      case (Some(sum), Completion(_, _, usage)) => AddUsage(sum, usage)
      case _ => None
  }

  lemma {:induction false} UsageLost(completions: seq<Completion>, m: nat, n: nat)
    requires m <= n <= |completions| && UsageOf(completions[..m]).None?
    ensures UsageOf(completions[..n]).None?
  {
    if m < n {
      UsageLost(completions, m, n - 1);
      assert completions[..n][..n - 1] == completions[..n - 1];
    }
  }

  /** The plain sums of a run's rounds, whatever their size; a missing cost is nothing. */
  datatype Sums = Sums(prompt: nat, completion: nat, total: nat, cost: nat)

  function SumsOf(rounds: seq<Completion>): Sums {
    if rounds == [] then Sums(0, 0, 0, 0)
    else
      var rest := SumsOf(rounds[..|rounds| - 1]);
      match rounds[|rounds| - 1]
      case Unavailable => rest
      case Completion(_, _, u) =>
        Sums(rest.prompt + u.prompt, rest.completion + u.completion, rest.total + u.total,
             rest.cost + if u.cost.Some? then u.cost.value else 0)
  }

  predicate Safe(s: Sums) {
    s.prompt <= MAX_SAFE_INTEGER && s.completion <= MAX_SAFE_INTEGER && s.total <= MAX_SAFE_INTEGER && s.cost <= MAX_SAFE_INTEGER
  }

  /** No sum ever left the safe integers. */
  predicate AllSafe(rounds: seq<Completion>) {
    forall n :: 0 < n <= |rounds| ==> Safe(SumsOf(rounds[..n]))
  }

  /** The totals are the plain sums, and there are totals exactly when no sum ever left the safe integers. */
  lemma {:induction false} TotalsAreSums(rounds: seq<Completion>)
    requires forall i :: 0 <= i < |rounds| ==> rounds[i].Completion?
    ensures UsageOf(rounds).Some? <==> AllSafe(rounds)
    ensures UsageOf(rounds).Some? ==> SumsIn(UsageOf(rounds).value) == SumsOf(rounds)
  {
    if rounds != [] {
      hide AllSafe, UsageOf, SumsOf, SumsIn, Safe;
      TotalsAreSums(rounds[..|rounds| - 1]);
      OneMoreSafe(rounds);
      OneMoreTotal(rounds);
    }
  }

  function SumsIn(u: Usage): Sums {
    Sums(u.prompt, u.completion, u.total, if u.cost.Some? then u.cost.value else 0)
  }

  lemma OneMoreSafe(rounds: seq<Completion>)
    requires rounds != []
    ensures AllSafe(rounds) <==> AllSafe(rounds[..|rounds| - 1]) && Safe(SumsOf(rounds))
  {
    hide SumsOf, Safe;
    var n := |rounds| - 1;
    assert rounds[..n + 1] == rounds;
    assert forall k :: 0 < k <= n ==> rounds[..n][..k] == rounds[..k];
  }

  lemma OneMoreTotal(rounds: seq<Completion>)
    requires rounds != [] && rounds[|rounds| - 1].Completion?
    requires var u := UsageOf(rounds[..|rounds| - 1]); u.Some? ==> SumsIn(u.value) == SumsOf(rounds[..|rounds| - 1])
    ensures UsageOf(rounds).Some? <==> UsageOf(rounds[..|rounds| - 1]).Some? && Safe(SumsOf(rounds))
    ensures UsageOf(rounds).Some? ==> SumsIn(UsageOf(rounds).value) == SumsOf(rounds)
  {
  }

  /** The totals name the models of all rounds in order and the provider of the last one. */
  lemma {:induction false} TotalsNameModels(rounds: seq<Completion>)
    requires UsageOf(rounds).Some? && forall i :: 0 <= i < |rounds| ==> rounds[i].Completion? && |rounds[i].usage.models| == 1
    ensures var u := UsageOf(rounds).value;
            && |u.models| == |rounds| && (forall i :: 0 <= i < |rounds| ==> u.models[i] == rounds[i].usage.models[0])
            && (rounds != [] ==>
                  var last := rounds[|rounds| - 1].usage.provider;
                  u.provider == if last.Some? then last else Some("openrouter"))
  {
    if rounds != [] {
      TotalsNameModels(rounds[..|rounds| - 1]);
    }
  }

  predicate Executable(call: ToolCall) {
    call.isFunction && call.fingerprint.Some? && call.outcome.Some?
  }

  /** Every call can be executed, and no two have the same fingerprint. */
  predicate Executed(calls: seq<ToolCall>) {
    && (forall i :: 0 <= i < |calls| ==> Executable(calls[i]))
    && (forall i, j :: 0 <= i < j < |calls| ==> calls[i].fingerprint != calls[j].fingerprint)
  }

  predicate ToolRounds(rounds: seq<Completion>) {
    forall i :: 0 <= i < |rounds| ==> rounds[i].Completion? && rounds[i].calls != []
  }

  /** After `n` rounds of tools, few enough and all distinct, the provider answers within the limits. */
  predicate AnswersAfter(completions: seq<Completion>, n: nat, max: nat) {
    && n <= max && n < |completions| && ToolRounds(completions[..n])
    && Executed(AllCalls(completions[..n])) && |AllCalls(completions[..n])| <= max
    && completions[n].Completion? && completions[n].calls == [] && 0 < |completions[n].content| <= MAX_ANSWER_CHARS
    && UsageOf(completions[..n + 1]).Some?
  }

  predicate AllExecutable(calls: seq<ToolCall>) {
    forall i :: 0 <= i < |calls| ==> Executable(calls[i])
  }

  function Replies(calls: seq<ToolCall>): (r: seq<Entry>)
    requires AllExecutable(calls)
    ensures |r| == |calls|
    ensures forall i :: 0 <= i < |calls| ==> Executable(calls[i]) && r[i] == Reply(calls[i].id, calls[i].outcome.value)
  {
    if calls == [] then []
    else
      assert Executable(calls[|calls| - 1]);
      Replies(calls[..|calls| - 1]) + [Reply(calls[|calls| - 1].id, calls[|calls| - 1].outcome.value)]
  }

  function Prints(calls: seq<ToolCall>): set<nat> {
    set c | c in calls && c.fingerprint.Some? :: c.fingerprint.value
  }

  /** The conversation sent to the provider: each round of calls is followed by its replies, one for each call, in order. */
  function Transcript(start: seq<Entry>, rounds: seq<Completion>): seq<Entry>
    requires ToolRounds(rounds) && Executed(AllCalls(rounds))
  {
    if rounds == [] then start
    else
      var prior, last := rounds[..|rounds| - 1], rounds[|rounds| - 1];
      Shorter(rounds);
      Transcript(start, prior) + [Calls(last.calls)] + Replies(last.calls)
  }

  lemma Shorter(rounds: seq<Completion>)
    requires rounds != [] && ToolRounds(rounds) && Executed(AllCalls(rounds))
    ensures var prior := rounds[..|rounds| - 1];
            ToolRounds(prior) && Executed(AllCalls(prior)) && AllCalls(rounds) == AllCalls(prior) + rounds[|rounds| - 1].calls
    ensures AllExecutable(rounds[|rounds| - 1].calls)
  {
    var prior, last := rounds[..|rounds| - 1], rounds[|rounds| - 1];
    var all := AllCalls(rounds);
    assert all == AllCalls(prior) + last.calls;
    assert forall i :: 0 <= i < |AllCalls(prior)| ==> AllCalls(prior)[i] == all[i];
    assert forall i :: 0 <= i < |last.calls| ==> last.calls[i] == all[|AllCalls(prior)| + i];
  }

  lemma MoreRounds(rounds: seq<Completion>, c: Completion)
    ensures AllCalls(rounds + [c]) == AllCalls(rounds) + if c.Completion? then c.calls else []
  {
    assert (rounds + [c])[..|rounds|] == rounds;
  }

  /** More rounds only add calls, so an unexecutable or repeated call is never repaired. */
  lemma {:induction false} EarlierCalls(completions: seq<Completion>, m: nat, n: nat)
    requires m <= n <= |completions|
    ensures AllCalls(completions[..m]) <= AllCalls(completions[..n])
  {
    if m < n {
      EarlierCalls(completions, m, n - 1);
      assert completions[..n] == completions[..n - 1] + [completions[n - 1]];
      MoreRounds(completions[..n - 1], completions[n - 1]);
    }
  }

  /** Number of replies to the calls with this id. */
  function CountReplies(entries: seq<Entry>, id: nat): nat {
    if entries == [] then 0
    else
      var last := entries[|entries| - 1];
      CountReplies(entries[..|entries| - 1], id) + if last.Reply? && last.id == id then 1 else 0
  }

  function CountCalls(calls: seq<ToolCall>, id: nat): nat {
    if calls == [] then 0
    else CountCalls(calls[..|calls| - 1], id) + if calls[|calls| - 1].id == id then 1 else 0
  }

  lemma {:induction false} CountJoin(a: seq<Entry>, b: seq<Entry>, id: nat)
    ensures CountReplies(a + b, id) == CountReplies(a, id) + CountReplies(b, id)
  {
    if b == [] {
      assert a + b == a;
    } else {
      CountJoin(a, b[..|b| - 1], id);
      assert (a + b)[..|a + b| - 1] == a + b[..|b| - 1];
    }
  }

  lemma {:induction false} CallsJoin(a: seq<ToolCall>, b: seq<ToolCall>, id: nat)
    ensures CountCalls(a + b, id) == CountCalls(a, id) + CountCalls(b, id)
  {
    if b == [] {
      assert a + b == a;
    } else {
      CallsJoin(a, b[..|b| - 1], id);
      assert (a + b)[..|a + b| - 1] == a + b[..|b| - 1];
    }
  }

  lemma {:induction false} RepliesCount(calls: seq<ToolCall>, id: nat)
    requires AllExecutable(calls)
    ensures CountReplies(Replies(calls), id) == CountCalls(calls, id)
  {
    if calls != [] {
      RepliesCount(calls[..|calls| - 1], id);
      var last := calls[|calls| - 1];
      assert Executable(last);
      CountJoin(Replies(calls[..|calls| - 1]), [Reply(last.id, last.outcome.value)], id);
      assert CountReplies([Reply(last.id, last.outcome.value)], id) == if last.id == id then 1 else 0;
    }
  }

  /** Every tool call gets exactly one reply: the transcript has as many replies to an id as the rounds have calls with it. */
  lemma {:induction false} OneReplyPerCall(start: seq<Entry>, rounds: seq<Completion>, id: nat)
    requires ToolRounds(rounds) && Executed(AllCalls(rounds))
    ensures CountReplies(Transcript(start, rounds), id) == CountReplies(start, id) + CountCalls(AllCalls(rounds), id)
  {
    if rounds != [] {
      var prior, last := rounds[..|rounds| - 1], rounds[|rounds| - 1];
      Shorter(rounds);
      OneReplyPerCall(start, prior, id);
      CountJoin(Transcript(start, prior) + [Calls(last.calls)], Replies(last.calls), id);
      CountJoin(Transcript(start, prior), [Calls(last.calls)], id);
      assert CountReplies([Calls(last.calls)], id) == 0;
      RepliesCount(last.calls, id);
      CallsJoin(AllCalls(prior), last.calls, id);
    }
  }

  // ----- runAgent -----

  /** The next call either continues the executed ones or makes every longer list unacceptable. */
  lemma NextCall(executed: seq<ToolCall>, call: ToolCall, all: seq<ToolCall>)
    requires Executed(executed) && executed + [call] <= all
    ensures Executed(executed + [call]) <==> Executable(call) && call.fingerprint.value !in Prints(executed)
    ensures !Executed(executed + [call]) ==> !Executed(all)
    ensures Executable(call) ==> Prints(executed + [call]) == Prints(executed) + {call.fingerprint.value}
  {
    var more := executed + [call];
    assert forall i :: 0 <= i < |more| ==> all[i] == more[i];
    assert forall i :: 0 <= i < |executed| ==> more[i] == executed[i];
    assert more[|executed|] == call;
    if Executable(call) && call.fingerprint.value in Prints(executed) {
      var c :| c in executed && c.fingerprint == call.fingerprint;
      var i :| 0 <= i < |executed| && executed[i] == c;
      assert more[i].fingerprint == more[|executed|].fingerprint;
    }
  }

  /** Runs the calls of one round; `executed` are those executed so far, in order. */
  method RunRound(calls: seq<ToolCall>, before: seq<ToolCall>, seenBefore: set<nat>, max: nat)
    returns (ok: bool, executed: seq<ToolCall>, seen: set<nat>, replies: seq<Entry>)
    requires Executed(before) && |before| <= max && seenBefore == Prints(before)
    ensures Executed(executed) && |executed| <= max
    ensures ok <==> Executed(before + calls) && |before + calls| <= max
    ensures ok ==> executed == before + calls && seen == Prints(executed) && AllExecutable(calls) && replies == Replies(calls)
  {
    hide Executed, Prints;
    executed, seen, replies := before, seenBefore, [];
    var k := 0;
    assert before + calls[..0] == before && calls[..0] == [];
    while k < |calls|
      invariant 0 <= k <= |calls| && executed == before + calls[..k] && Executed(executed) && |executed| <= max
      invariant AllExecutable(calls[..k]) && replies == Replies(calls[..k]) && seen == Prints(executed)
    {
      var call := calls[k];
      assert calls[..k + 1] == calls[..k] + [call] && calls[..k + 1][..k] == calls[..k];
      assert before + calls[..k + 1] == executed + [call];
      assert executed + [call] <= before + calls;
      NextCall(executed, call, before + calls);
      if !call.isFunction || call.fingerprint.None? { return false, executed, seen, replies; }
      if call.fingerprint.value in seen { return false, executed, seen, replies; }
      seen := seen + {call.fingerprint.value};
      if |executed| + 1 > max { return false, executed, seen, replies; }
      if call.outcome.None? { return false, executed, seen, replies; }
      executed := executed + [call];
      replies := replies + [Reply(call.id, call.outcome.value)];
      k := k + 1;
    }
    assert calls[..k] == calls;
    return true, executed, seen, replies;
  }

  /**
    runAgent against any sequence of completions. It answers exactly when some round of at most
    `max` does, with all its tools executed once; whatever happens, it never executes a fingerprint
    twice or more than `max` tools.
  */
  method RunAgent(completions: seq<Completion>, history: nat, max: nat)
    returns (r: Result<Answer, Failure>, executed: seq<ToolCall>, messages: seq<Entry>)
    requires |completions| == max + 1
    ensures Executed(executed) && |executed| <= max
    ensures r.Ok? <==> exists n: nat :: AnswersAfter(completions, n, max)
    ensures r.Ok? ==> exists n: nat ::
              && AnswersAfter(completions, n, max)
              && r.value == Answer(completions[n].content, |AllCalls(completions[..n])|, UsageOf(completions[..n + 1]).value)
              && executed == AllCalls(completions[..n])
              && messages == Transcript([System] + seq(history, i => History(i)) + [Question], completions[..n])
  {
    hide *;
    var start := [System] + seq(history, i => History(i)) + [Question];
    messages, executed := start, [];
    var seen: set<nat> := {};
    var usage := Usage(0, 0, 0, None, [], None);
    var iteration := 0;
    NoRounds(start, completions);
    while iteration <= max
      invariant 0 <= iteration <= max
      invariant ToolRounds(completions[..iteration]) && Executed(executed) && |executed| <= max
      invariant executed == AllCalls(completions[..iteration])
      invariant messages == Transcript(start, completions[..iteration])
      invariant seen == Prints(executed) && UsageOf(completions[..iteration]) == Some(usage)
      decreases max + 1 - iteration
    {
      var completion := completions[iteration];
      NextRound(completions, iteration);
      if completion.Unavailable? {
        NoAnswerLater(completions, iteration, max);
        return Err(ProviderFailure), executed, messages;
      }
      var sum := AddUsage(usage, completion.usage);
      if sum.None? {
        NoAnswerLater(completions, iteration, max);
        return Err(InvalidCompletion), executed, messages;
      }
      usage := sum.value;
      if completion.calls == [] {
        AnswersHere(completions, iteration, max);
        if |completion.content| == 0 || |completion.content| > MAX_ANSWER_CHARS {
          NoAnswerLater(completions, iteration, max);
          return Err(InvalidCompletion), executed, messages;
        }
        return Ok(Answer(completion.content, |executed|, usage)), executed, messages;
      }
      AnswersHere(completions, iteration, max);
      if iteration == max {
        NoAnswerLater(completions, iteration, max);
        return Err(InvalidCompletion), executed, messages;
      }
      var ok, replies;
      ok, executed, seen, replies := RunRound(completion.calls, executed, seen, max);
      if !ok {
        NoAnswerLater(completions, iteration, max);
        return Err(ToolFailure), executed, messages;
      }
      NextTranscript(start, completions, iteration);
      messages := messages + [Calls(completion.calls)] + replies;
      iteration := iteration + 1;
    }
    assert false;
  }

  lemma NoRounds(start: seq<Entry>, completions: seq<Completion>)
    ensures ToolRounds(completions[..0]) && AllCalls(completions[..0]) == [] && Executed([]) && Prints([]) == {}
    ensures Transcript(start, completions[..0]) == start && UsageOf(completions[..0]) == Some(Usage(0, 0, 0, None, [], None))
  {
  }

  lemma NextRound(completions: seq<Completion>, n: nat)
    requires n < |completions| && UsageOf(completions[..n]).Some?
    ensures var c := completions[n];
            && AllCalls(completions[..n + 1]) == AllCalls(completions[..n]) + (if c.Completion? then c.calls else [])
            && UsageOf(completions[..n + 1]) == (if c.Completion? then AddUsage(UsageOf(completions[..n]).value, c.usage) else None)
            && (ToolRounds(completions[..n + 1]) <==> ToolRounds(completions[..n]) && c.Completion? && c.calls != [])
  {
    hide ToolRounds, AddUsage;
    assert completions[..n + 1][..n] == completions[..n];
    assert completions[..n + 1][n] == completions[n];
    NextToolRound(completions, n);
  }

  lemma NextToolRound(completions: seq<Completion>, n: nat)
    requires n < |completions|
    ensures ToolRounds(completions[..n + 1])
            <==> ToolRounds(completions[..n]) && completions[n].Completion? && completions[n].calls != []
  {
    assert forall i :: 0 <= i < n ==> completions[..n + 1][i] == completions[..n][i];
    assert completions[..n + 1][n] == completions[n];
  }

  lemma NextTranscript(start: seq<Entry>, completions: seq<Completion>, n: nat)
    requires n < |completions| && ToolRounds(completions[..n]) && ToolRounds(completions[..n + 1])
    requires Executed(AllCalls(completions[..n])) && Executed(AllCalls(completions[..n + 1]))
    ensures completions[n].Completion? && AllExecutable(completions[n].calls)
    ensures Transcript(start, completions[..n + 1]) ==
            Transcript(start, completions[..n]) + [Calls(completions[n].calls)] + Replies(completions[n].calls)
  {
    assert completions[..n + 1][..n] == completions[..n];
    assert completions[..n + 1][n] == completions[n];
    Shorter(completions[..n + 1]);
  }

  /** After rounds of tools that all ran, the next completion is the answer or there is none yet. */
  lemma AnswersHere(completions: seq<Completion>, n: nat, max: nat)
    requires n <= max && n < |completions| && ToolRounds(completions[..n])
    requires Executed(AllCalls(completions[..n])) && |AllCalls(completions[..n])| <= max
    requires UsageOf(completions[..n + 1]).Some? && completions[n].Completion?
    ensures AnswersAfter(completions, n, max) <==>
            completions[n].calls == [] && 0 < |completions[n].content| <= MAX_ANSWER_CHARS
  {
  }

  /** Tool rounds up to a round that is neither an answer nor an acceptable tool round: no number of rounds answers. */
  lemma NoAnswerLater(completions: seq<Completion>, n: nat, max: nat)
    requires n < |completions| == max + 1 && ToolRounds(completions[..n])
    requires AnswersAfter(completions, n, max) ==> completions[n].Unavailable? || UsageOf(completions[..n + 1]).None?
    requires n == max || completions[n].Unavailable? || UsageOf(completions[..n + 1]).None? || completions[n].calls == [] ||
             !Executed(AllCalls(completions[..n + 1])) || |AllCalls(completions[..n + 1])| > max
    ensures forall m: nat :: !AnswersAfter(completions, m, max)
  {
    forall m: nat ensures !AnswersAfter(completions, m, max) {
      if m < n {
        assert completions[..n][m] == completions[m];
      } else if n < m <= |completions| {
        assert completions[..m][n] == completions[n];
        EarlierCalls(completions, n + 1, m);
        LongerList(AllCalls(completions[..n + 1]), AllCalls(completions[..m]));
        if UsageOf(completions[..n + 1]).None? && m < |completions| {
          UsageLost(completions, n + 1, m + 1);
        }
      }
    }
  }

  lemma LongerList(early: seq<ToolCall>, late: seq<ToolCall>)
    requires early <= late
    ensures !Executed(early) ==> !Executed(late)
  {
    assert forall i :: 0 <= i < |early| ==> early[i] == late[i];
  }

  // ----- contextHistory -----

  datatype Row = Row(valid: bool, content: string)

  function Chars(rows: seq<Row>): nat {
    if rows == [] then 0 else Chars(rows[..|rows| - 1]) + |rows[|rows| - 1].content|
  }

  lemma {:induction false} CharsGrow(rows: seq<Row>, m: nat, n: nat)
    requires m <= n <= |rows|
    ensures Chars(rows[..m]) <= Chars(rows[..n])
  {
    if m < n {
      CharsGrow(rows, m, n - 1);
      assert rows[..n][..n - 1] == rows[..n - 1];
    }
  }

  lemma NoChars(rows: seq<Row>)
    ensures rows[..0] == [] && Chars(rows[..0]) == 0
  {
  }

  lemma MoreChars(rows: seq<Row>, n: nat)
    requires n < |rows|
    ensures rows[..n + 1] == rows[..n] + [rows[n]] && Chars(rows[..n + 1]) == Chars(rows[..n]) + |rows[n].content|
  {
    assert rows[..n + 1][..n] == rows[..n];
  }

  function Reversed(rows: seq<Row>): (r: seq<Row>)
    ensures |r| == |rows| && forall i :: 0 <= i < |rows| ==> r[i] == rows[|rows| - 1 - i]
  {
    if rows == [] then [] else [rows[|rows| - 1]] + Reversed(rows[..|rows| - 1])
  }

  /**
    `rows` are the stored messages, newest first. The result is the longest newest run that fits,
    oldest first; a row it has to look at must be valid.
  */
  method ContextHistory(rows: seq<Row>, maxChars: nat) returns (r: Option<seq<Row>>)
    ensures r.None? <==> exists i :: 0 <= i < |rows| && !rows[i].valid && Chars(rows[..i]) <= maxChars
    ensures r.Some? ==> exists k ::
              && 0 <= k <= |rows| && r.value == Reversed(rows[..k]) && Chars(rows[..k]) <= maxChars
              && (k < |rows| ==> Chars(rows[..k + 1]) > maxChars)
  {
    hide Chars, Reversed;
    var characters, selected: seq<Row>, i := 0, [], 0;
    NoChars(rows);
    while i < |rows|
      invariant 0 <= i <= |rows| && selected == rows[..i] && characters == Chars(rows[..i]) <= maxChars
      invariant forall j :: 0 <= j < i ==> rows[j].valid
    {
      if !rows[i].valid { return None; }
      MoreChars(rows, i);
      if characters + |rows[i].content| > maxChars {
        forall j | i < j < |rows| ensures Chars(rows[..j]) > maxChars { CharsGrow(rows, i + 1, j); }
        break;
      }
      selected := selected + [rows[i]];
      characters := characters + |rows[i].content|;
      i := i + 1;
    }
    r := Some(Reversed(selected));
    assert selected == rows[..i];
  }
}

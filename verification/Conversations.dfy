/**
  AI conversations under their request lease: requests create or acquire a conversation, commit one
  exchange and clean up, while leases expire and conversations are deleted beside them.
*/
module Conversations {
  import opened Wrappers

  datatype Conversation = Conversation(messageCount: int, active: Option<nat>, expiresAt: int)

  datatype Role = User | Assistant

  datatype Message = Message(conversation: nat, request: nat, role: Role, content: nat)

  datatype UsageRow = UsageRow(conversation: nat, assistant: nat)

  /** What a request handler knows: its conversation, and whether it created it. */
  datatype Request = Request(conversation: nat, created: bool)

  /** `max` is the limit of messages in one conversation. */
  datatype State = State(
    now: int,
    conversations: map<nat, Conversation>,
    messages: seq<Message>,
    usage: map<nat, UsageRow>,
    requests: map<nat, Request>)

  datatype Action =
    | Tick(until: int)
    | Create(request: nat, id: nat, expiresAt: int)
    | Acquire(request: nat, id: nat, at: int, expiresAt: int)
    | Persist(request: nat, question: nat, answer: nat)
    | Finish(request: nat)
    | Delete(id: nat, at: int)

  predicate Free(c: Conversation, at: int) {
    c.active.None? || c.expiresAt <= at
  }

  /** Request ids and conversation ids are fresh. */
  function Created(s: State, request: nat, id: nat, expiresAt: int): State {
    if request in s.requests || id in s.conversations || (exists r :: r in s.requests && s.requests[r].conversation == id) then s
    else
      s.(conversations := s.conversations[id := Conversation(0, Some(request), expiresAt)],
         requests := s.requests[request := Request(id, true)])
  }

  /** acquireConversation; `at` may be an older clock reading. */
  function Acquired(s: State, request: nat, id: nat, at: int, expiresAt: int, max: nat): State {
    if request in s.requests || id !in s.conversations || at > s.now then s
    else if s.conversations[id].messageCount > max - 2 || !Free(s.conversations[id], at) then s
    else
      s.(conversations := s.conversations[id := s.conversations[id].(active := Some(request), expiresAt := expiresAt)],
         requests := s.requests[request := Request(id, false)])
  }

  /** The transaction of persistExchange; it aborts unless the request still holds the conversation. */
  function Persisted(s: State, request: nat, question: nat, answer: nat, max: nat): State {
    if request !in s.requests || request in s.usage then s
    else
      var id := s.requests[request].conversation;
      if id !in s.conversations || s.conversations[id].active != Some(request) || s.conversations[id].messageCount > max - 2 then s
      else
        var c := s.conversations[id];
        s.(conversations := s.conversations[id := c.(messageCount := c.messageCount + 2, active := None)],
           messages := s.messages + [Message(id, request, User, question), Message(id, request, Assistant, answer)],
           usage := s.usage[request := UsageRow(id, answer)])
  }

  /** The finally block of chat. */
  function Finished(s: State, request: nat): State {
    if request !in s.requests || s.requests[request].conversation !in s.conversations then s
    else
      var id := s.requests[request].conversation;
      var c := s.conversations[id];
      if c.active != Some(request) then s
      else if !s.requests[request].created then s.(conversations := s.conversations[id := c.(active := None)])
      else if c.messageCount == 0 then s.(conversations := s.conversations - {id})
      else s
  }

  function Without(messages: seq<Message>, id: nat): seq<Message> {
    if messages == [] then []
    else
      var last := messages[|messages| - 1];
      Without(messages[..|messages| - 1], id) + if last.conversation == id then [] else [last]
  }

  function Deleted(s: State, id: nat, at: int): State {
    if id !in s.conversations || at > s.now || !Free(s.conversations[id], at) then s
    else s.(conversations := s.conversations - {id}, messages := Without(s.messages, id))
  }

  function Step(s: State, action: Action, max: nat): State {
    match action
    case Tick(until) => if until >= s.now then s.(now := until) else s
    case Create(request, id, expiresAt) => Created(s, request, id, expiresAt)
    case Acquire(request, id, at, expiresAt) => Acquired(s, request, id, at, expiresAt, max)
    case Persist(request, question, answer) => Persisted(s, request, question, answer, max)
    case Finish(request) => Finished(s, request)
    case Delete(id, at) => Deleted(s, id, at)
  }

  function Run(trace: seq<Action>, now: int, max: nat): State {
    if trace == [] then State(now, map[], [], map[], map[]) else Step(Run(trace[..|trace| - 1], now, max), trace[|trace| - 1], max)
  }

  // ----- The invariant -----

  /** The messages of one conversation. */
  function Of(messages: seq<Message>, id: nat): seq<Message> {
    if messages == [] then []
    else
      var last := messages[|messages| - 1];
      Of(messages[..|messages| - 1], id) + if last.conversation == id then [last] else []
  }

  predicate OncePerRequest(messages: seq<Message>) {
    forall i, j :: 0 <= i < j < |messages| && messages[i].role == messages[j].role ==> messages[i].request != messages[j].request
  }

  predicate ConversationOk(s: State, id: nat, max: nat)
    requires id in s.conversations
  {
    var c := s.conversations[id];
    && c.messageCount == |Of(s.messages, id)| && c.messageCount % 2 == 0 && 0 <= c.messageCount <= max
    && (c.active.Some? ==>
          c.active.value in s.requests && s.requests[c.active.value].conversation == id && c.active.value !in s.usage)
  }

  /** A message belongs to a conversation and to a request that has a usage row for it. */
  predicate MessageOk(s: State, m: Message) {
    && m.conversation in s.conversations && m.request in s.usage && s.usage[m.request].conversation == m.conversation
    && (m.role == Assistant ==> m.content == s.usage[m.request].assistant)
  }

  /** The exchange of a usage row is stored as long as its conversation exists. */
  predicate UsageOk(s: State, request: nat)
    requires request in s.usage
  {
    && request in s.requests && s.requests[request].conversation == s.usage[request].conversation
    && (s.usage[request].conversation in s.conversations ==>
          Message(s.usage[request].conversation, request, Assistant, s.usage[request].assistant) in s.messages)
  }

  predicate Inv(s: State, max: nat) {
    && (forall id :: id in s.conversations ==> ConversationOk(s, id, max))
    && (forall m :: m in s.messages ==> MessageOk(s, m))
    && (forall request :: request in s.usage ==> UsageOk(s, request))
    && OncePerRequest(s.messages)
  }

  lemma {:induction false} OfWithout(messages: seq<Message>, id: nat, other: nat)
    requires other != id
    ensures Of(Without(messages, id), other) == Of(messages, other)
  {
    if messages != [] {
      var rest, last := messages[..|messages| - 1], messages[|messages| - 1];
      OfWithout(rest, id, other);
      var kept := Without(rest, id);
      if last.conversation != id {
        assert (kept + [last])[..|kept|] == kept;
      } else {
        assert kept + [] == kept;
        assert Of(rest, other) + [] == Of(rest, other);
      }
    }
  }

  lemma {:induction false} WithoutKeeps(messages: seq<Message>, id: nat)
    ensures forall m :: m in Without(messages, id) <==> m in messages && m.conversation != id
    ensures OncePerRequest(messages) ==> OncePerRequest(Without(messages, id))
  {
    if messages != [] {
      var rest, last := messages[..|messages| - 1], messages[|messages| - 1];
      WithoutKeeps(rest, id);
      assert messages == rest + [last];
      if OncePerRequest(messages) {
        var kept := Without(messages, id);
        forall i, j | 0 <= i < j < |kept| && kept[i].role == kept[j].role ensures kept[i].request != kept[j].request {
          if j == |kept| - 1 && last.conversation != id {
            assert kept[i] == Without(rest, id)[i];
            assert kept[i] in rest;
          }
        }
      }
    }
  }

  lemma OfExchange(messages: seq<Message>, a: Message, b: Message, id: nat)
    requires a.conversation == b.conversation
    ensures Of(messages + [a, b], id) == Of(messages, id) + if a.conversation == id then [a, b] else []
  {
    var all := messages + [a, b];
    assert all[..|all| - 1] == messages + [a];
    assert (messages + [a])[..|messages|] == messages;
    assert Of(messages, id) + [a] + [b] == Of(messages, id) + [a, b];
  }

  lemma PersistKeepsInv(s: State, request: nat, question: nat, answer: nat, max: nat)
    requires Inv(s, max)
    ensures Inv(Persisted(s, request, question, answer, max), max)
  {
    hide Of;
    var t := Persisted(s, request, question, answer, max);
    if t != s {
      var id := s.requests[request].conversation;
      forall other | other in t.conversations ensures ConversationOk(t, other, max) {
        assert ConversationOk(s, other, max);
        OfExchange(s.messages, t.messages[|s.messages|], t.messages[|s.messages| + 1], other);
      }
      forall m | m in t.messages ensures MessageOk(t, m) { if m in s.messages { assert MessageOk(s, m); } }
      forall r | r in t.usage ensures UsageOk(t, r) { if r in s.usage { assert UsageOk(s, r); } }
      forall i, j | 0 <= i < j < |t.messages| && t.messages[i].role == t.messages[j].role
        ensures t.messages[i].request != t.messages[j].request
      {
        if j >= |s.messages| {
          if i < |s.messages| { assert MessageOk(s, s.messages[i]); }
        }
      }
    }
  }

  lemma DeleteKeepsInv(s: State, id: nat, at: int, max: nat)
    requires Inv(s, max)
    ensures Inv(Deleted(s, id, at), max)
  {
    hide Of;
    var t := Deleted(s, id, at);
    if t != s {
      WithoutKeeps(s.messages, id);
      forall other | other in t.conversations ensures ConversationOk(t, other, max) {
        assert ConversationOk(s, other, max);
        OfWithout(s.messages, id, other);
      }
      forall m | m in t.messages ensures MessageOk(t, m) { assert MessageOk(s, m); }
      forall r | r in t.usage ensures UsageOk(t, r) { assert UsageOk(s, r); }
    }
  }

  lemma {:induction false} NoneOf(messages: seq<Message>, id: nat)
    requires Of(messages, id) == []
    ensures forall m :: m in messages ==> m.conversation != id
  {
    if messages != [] {
      assert messages == messages[..|messages| - 1] + [messages[|messages| - 1]];
      NoneOf(messages[..|messages| - 1], id);
    }
  }

  lemma LeaseStepKeepsInv(s: State, action: Action, max: nat)
    requires Inv(s, max) && (action.Tick? || action.Create? || action.Acquire? || action.Finish?)
    ensures Inv(Step(s, action, max), max)
  {
    hide Of;
    var t := Step(s, action, max);
    if action.Finish? && action.request in s.requests && s.requests[action.request].conversation in s.conversations {
      var id := s.requests[action.request].conversation;
      assert ConversationOk(s, id, max);
      if s.conversations[id].messageCount == 0 { NoneOf(s.messages, id); }
    }
    if action.Create? && t != s {
      NoMessagesYet(s, action.id, max);
    }
    forall id | id in t.conversations ensures ConversationOk(t, id, max) {
      if id in s.conversations { assert ConversationOk(s, id, max); }
    }
    forall m | m in t.messages ensures MessageOk(t, m) { assert MessageOk(s, m); }
    forall r | r in t.usage ensures UsageOk(t, r) { assert UsageOk(s, r); }
  }

  lemma NoMessagesYet(s: State, id: nat, max: nat)
    requires Inv(s, max) && id !in s.conversations
    ensures Of(s.messages, id) == []
  {
    forall m | m in s.messages ensures m.conversation != id { assert MessageOk(s, m); }
    AllOther(s.messages, id);
  }

  lemma {:induction false} AllOther(messages: seq<Message>, id: nat)
    requires forall m :: m in messages ==> m.conversation != id
    ensures Of(messages, id) == []
  {
    if messages != [] {
      AllOther(messages[..|messages| - 1], id);
    }
  }

  lemma {:induction false} RunKeepsInv(trace: seq<Action>, now: int, max: nat)
    ensures Inv(Run(trace, now, max), max)
  {
    if trace != [] {
      hide Inv, Created, Acquired, Persisted, Finished, Deleted;
      var s, action := Run(trace[..|trace| - 1], now, max), trace[|trace| - 1];
      RunKeepsInv(trace[..|trace| - 1], now, max);
      match action
      case Persist(request, question, answer) => PersistKeepsInv(s, request, question, answer, max);
      case Delete(id, at) => DeleteKeepsInv(s, id, at, max);
      case _ => LeaseStepKeepsInv(s, action, max);
    }
  }

  // ----- The guarantees -----

  /** In every interleaving the stored count is the number of stored messages; it is even and within the limit. */
  lemma CountIsStoredMessages(trace: seq<Action>, now: int, max: nat, id: nat)
    requires id in Run(trace, now, max).conversations
    ensures var s := Run(trace, now, max);
            && s.conversations[id].messageCount == |Of(s.messages, id)|
            && s.conversations[id].messageCount % 2 == 0 && s.conversations[id].messageCount <= max
  {
    hide Run;
    RunKeepsInv(trace, now, max);
    assert ConversationOk(Run(trace, now, max), id, max);
  }

  /** Every message has its conversation and its request's usage row, and no request stores two of a kind. */
  lemma MessagesBelong(trace: seq<Action>, now: int, max: nat, i: nat, j: nat)
    requires var messages := Run(trace, now, max).messages; i < |messages| && j < |messages|
    ensures var s := Run(trace, now, max);
            && s.messages[i].conversation in s.conversations && s.messages[i].request in s.usage
            && (s.messages[i].request == s.messages[j].request && s.messages[i].role == s.messages[j].role ==> i == j)
            && (s.messages[i].request == s.messages[j].request ==> s.messages[i].conversation == s.messages[j].conversation)
  {
    hide Run;
    RunKeepsInv(trace, now, max);
    var s := Run(trace, now, max);
    assert MessageOk(s, s.messages[i]) && MessageOk(s, s.messages[j]);
  }

  /** recoverCommitted: what it finds for a request is the answer that request committed. */
  function Recovered(s: State, request: nat): Option<nat> {
    if request !in s.usage || s.usage[request].conversation !in s.conversations then None
    else if Message(s.usage[request].conversation, request, Assistant, s.usage[request].assistant) in s.messages then
      Some(s.usage[request].assistant)
    else None
  }

  /** After a lost acknowledgement the answer is recovered exactly when it was committed and its conversation still exists. */
  lemma CommittedAnswerIsRecovered(trace: seq<Action>, now: int, max: nat, request: nat)
    ensures var s := Run(trace, now, max);
            && (Recovered(s, request).Some? <==> request in s.usage && s.usage[request].conversation in s.conversations)
            && (Recovered(s, request).Some? ==>
                  var row := s.usage[request];
                  Recovered(s, request) == Some(row.assistant) &&
                  Message(row.conversation, request, Assistant, row.assistant) in s.messages)
  {
    hide Run;
    RunKeepsInv(trace, now, max);
    var s := Run(trace, now, max);
    if request in s.usage { assert UsageOk(s, request); }
  }

  lemma StepKeepsUsage(s: State, action: Action, max: nat, request: nat)
    requires request in s.usage
    ensures request in Step(s, action, max).usage && Step(s, action, max).usage[request] == s.usage[request]
  {
    hide Without;
  }

  /** A request commits at most one exchange: its usage row, once written, never changes, and Persist does nothing more. */
  lemma {:induction false} CommitsOnce(trace: seq<Action>, more: seq<Action>, now: int, max: nat, request: nat)
    requires request in Run(trace, now, max).usage
    ensures request in Run(trace + more, now, max).usage
    ensures Run(trace + more, now, max).usage[request] == Run(trace, now, max).usage[request]
    ensures forall question, answer ::
              Persisted(Run(trace + more, now, max), request, question, answer, max) == Run(trace + more, now, max)
  {
    hide Step;
    if more == [] {
      assert trace + more == trace;
    } else {
      var last := |more| - 1;
      CommitsOnce(trace, more[..last], now, max, request);
      assert (trace + more)[..|trace + more| - 1] == trace + more[..last];
      StepKeepsUsage(Run(trace + more[..last], now, max), more[last], max, request);
    }
  }

  // ----- What requests achieve -----

  /** The question and the answer of a request, next to each other and in this order. */
  predicate HasExchange(messages: seq<Message>, id: nat, request: nat, question: nat, answer: nat) {
    exists k :: 0 <= k < |messages| - 1 &&
      messages[k] == Message(id, request, User, question) && messages[k + 1] == Message(id, request, Assistant, answer)
  }

  lemma {:induction false} WithoutKeepsExchange(messages: seq<Message>, other: nat, id: nat, request: nat, question: nat, answer: nat)
    requires other != id && HasExchange(messages, id, request, question, answer)
    ensures HasExchange(Without(messages, other), id, request, question, answer)
  {
    var k :| 0 <= k < |messages| - 1 &&
             messages[k] == Message(id, request, User, question) && messages[k + 1] == Message(id, request, Assistant, answer);
    var n := |messages| - 1;
    var kept := Without(messages[..n], other);
    if k + 1 < n {
      assert messages[..n][k] == messages[k] && messages[..n][k + 1] == messages[k + 1];
      WithoutKeepsExchange(messages[..n], other, id, request, question, answer);
      var j :| 0 <= j < |kept| - 1 &&
               kept[j] == Message(id, request, User, question) && kept[j + 1] == Message(id, request, Assistant, answer);
      var all := Without(messages, other);
      assert all[j] == kept[j] && all[j + 1] == kept[j + 1];
    } else {
      assert messages[..n][n - 1] == messages[k];
      assert kept == Without(messages[..n][..n - 1], other) + [messages[k]];
      var all, j := Without(messages, other), |kept| - 1;
      assert all == kept + [messages[n]] && kept[j] == messages[k];
      assert all[j] == messages[k] && all[j + 1] == messages[n] && j < |all| - 1;
    }
  }

  /** The effective transaction of a request. */
  predicate Commits(trace: seq<Action>, now: int, max: nat, i: nat, request: nat)
    requires i < |trace|
  {
    trace[i].Persist? && trace[i].request == request &&
    request !in Run(trace[..i], now, max).usage && request in Run(trace[..i + 1], now, max).usage
  }

  lemma StepKeepsExchange(s: State, action: Action, max: nat, id: nat, request: nat, question: nat, answer: nat)
    requires HasExchange(s.messages, id, request, question, answer) && id in Step(s, action, max).conversations
    ensures HasExchange(Step(s, action, max).messages, id, request, question, answer)
  {
    var k :| 0 <= k < |s.messages| - 1 && s.messages[k] == Message(id, request, User, question) &&
             s.messages[k + 1] == Message(id, request, Assistant, answer);
    if action.Delete? && Step(s, action, max) != s {
      WithoutKeepsExchange(s.messages, action.id, id, request, question, answer);
    }
    hide Without;
    assert !action.Delete? ==> |Step(s, action, max).messages| >= |s.messages| &&
                               Step(s, action, max).messages[k] == s.messages[k] &&
                               Step(s, action, max).messages[k + 1] == s.messages[k + 1];
  }

  lemma PersistStores(s: State, request: nat, question: nat, answer: nat, max: nat)
    requires request !in s.usage && request in Persisted(s, request, question, answer, max).usage
    ensures var t := Persisted(s, request, question, answer, max);
            && request in s.requests && t.usage == s.usage[request := UsageRow(s.requests[request].conversation, answer)]
            && HasExchange(t.messages, s.requests[request].conversation, request, question, answer)
  {
    var t := Persisted(s, request, question, answer, max);
    assert t.messages[|s.messages|] == Message(s.requests[request].conversation, request, User, question);
    assert t.messages[|s.messages| + 1] == Message(s.requests[request].conversation, request, Assistant, answer);
  }

  lemma OnlyPersistUses(s: State, action: Action, max: nat, request: nat)
    requires request !in s.usage && request in Step(s, action, max).usage
    ensures action.Persist? && action.request == request
  {
    hide Without;
  }

  lemma ConversationsDoNotReturn(s: State, action: Action, max: nat, request: nat)
    requires Inv(s, max) && request in s.usage && s.usage[request].conversation in Step(s, action, max).conversations
    ensures s.usage[request].conversation in s.conversations
  {
    assert UsageOk(s, request);
    hide Without, Inv;
  }

  /**
    The usage row of a request comes from one transaction of that request. As long as the
    conversation exists, it holds that transaction's question and, right after it, its answer.
  */
  lemma {:induction false} ExchangeIsStored(trace: seq<Action>, now: int, max: nat, request: nat)
    requires request in Run(trace, now, max).usage
    ensures var s := Run(trace, now, max);
            exists i :: 0 <= i < |trace| && Commits(trace, now, max, i, request) && trace[i].Persist? &&
              trace[i].answer == s.usage[request].assistant &&
              (s.usage[request].conversation in s.conversations ==>
                 HasExchange(s.messages, s.usage[request].conversation, request, trace[i].question, trace[i].answer))
  {
    hide Step, HasExchange, Inv;
    if trace != [] {
      var n := |trace| - 1;
      var s, t := Run(trace[..n], now, max), Run(trace, now, max);
      assert trace[..n + 1] == trace;
      if request in s.usage {
        ExchangeIsStored(trace[..n], now, max, request);
        StepKeepsUsage(s, trace[n], max, request);
        var i :| 0 <= i < n && Commits(trace[..n], now, max, i, request) && trace[i].Persist? &&
                 trace[i].answer == s.usage[request].assistant &&
                 (s.usage[request].conversation in s.conversations ==>
                    HasExchange(s.messages, s.usage[request].conversation, request, trace[i].question, trace[i].answer));
        assert trace[..n][..i] == trace[..i] && trace[..n][..i + 1] == trace[..i + 1];
        assert Commits(trace, now, max, i, request);
        if t.usage[request].conversation in t.conversations {
          RunKeepsInv(trace[..n], now, max);
          ConversationsDoNotReturn(s, trace[n], max, request);
          StepKeepsExchange(s, trace[n], max, s.usage[request].conversation, request, trace[i].question, trace[i].answer);
        }
      } else {
        OnlyPersistUses(s, trace[n], max, request);
        LastCommits(s, t, trace[n], max, request);
        assert Commits(trace, now, max, n, request);
      }
    }
  }

  lemma LastCommits(s: State, t: State, action: Action, max: nat, request: nat)
    requires action.Persist? && action.request == request && t == Step(s, action, max)
    requires request !in s.usage && request in t.usage
    ensures t.usage[request].assistant == action.answer
    ensures HasExchange(t.messages, t.usage[request].conversation, request, action.question, action.answer)
  {
    PersistStores(s, request, action.question, action.answer, max);
    hide HasExchange;
  }

  /** A request acquires a conversation exactly when it is free and has room for one more exchange, and then holds it. */
  lemma AcquiresExactly(s: State, request: nat, id: nat, at: int, expiresAt: int, max: nat)
    requires request !in s.requests && at <= s.now && id in s.conversations
    ensures var c, t := s.conversations[id], Step(s, Acquire(request, id, at, expiresAt), max);
            if (c.active.None? || c.expiresAt <= at) && c.messageCount + 2 <= max then
              t == s.(conversations := s.conversations[id := Conversation(c.messageCount, Some(request), expiresAt)],
                      requests := s.requests[request := Request(id, false)])
            else t == s
  {
  }

  /** The transaction commits exactly when its request still holds a conversation with room, and hands it back. */
  lemma PersistsExactly(s: State, request: nat, question: nat, answer: nat, max: nat)
    requires request in s.requests && request !in s.usage
    ensures var id, t := s.requests[request].conversation, Step(s, Persist(request, question, answer), max);
            && (request in t.usage <==>
                  id in s.conversations && s.conversations[id].active == Some(request) && s.conversations[id].messageCount + 2 <= max)
            && (request !in t.usage ==> t == s)
            && (request in t.usage ==>
                  && t.conversations.Keys == s.conversations.Keys
                  && t.conversations[id] == s.conversations[id].(messageCount := s.conversations[id].messageCount + 2, active := None)
                  && (forall x :: x in s.conversations && x != id ==> t.conversations[x] == s.conversations[x])
                  && t.requests == s.requests && |t.messages| == |s.messages| + 2 && t.messages[..|s.messages|] == s.messages)
  {
  }

  /** A conversation is deleted exactly when nobody holds it, with all its messages and with no other's. */
  lemma DeletesExactly(s: State, id: nat, at: int, max: nat)
    requires id in s.conversations && at <= s.now
    ensures var c, t := s.conversations[id], Step(s, Delete(id, at), max);
            if c.active.None? || c.expiresAt <= at then
              && t.conversations == s.conversations - {id} && t.usage == s.usage
              && (forall m :: m in t.messages <==> m in s.messages && m.conversation != id)
              && (forall other :: other != id ==> Of(t.messages, other) == Of(s.messages, other))
            else t == s
  {
    WithoutKeeps(s.messages, id);
    forall other | other != id ensures Of(Without(s.messages, id), other) == Of(s.messages, other) {
      OfWithout(s.messages, id, other);
    }
  }

  /** A request that still holds a conversation it created has not stored anything in it. */
  predicate CreatorOk(s: State) {
    forall id :: id in s.conversations && s.conversations[id].active.Some? ==>
      var r := s.conversations[id].active.value;
      r in s.requests && s.requests[r].conversation == id && (s.requests[r].created ==> s.conversations[id].messageCount == 0)
  }

  lemma StepKeepsCreator(s: State, action: Action, max: nat)
    requires CreatorOk(s)
    ensures CreatorOk(Step(s, action, max))
  {
    hide Without;
  }

  lemma {:induction false} RunKeepsCreator(trace: seq<Action>, now: int, max: nat)
    ensures CreatorOk(Run(trace, now, max))
  {
    if trace != [] {
      hide Step;
      RunKeepsCreator(trace[..|trace| - 1], now, max);
      StepKeepsCreator(Run(trace[..|trace| - 1], now, max), trace[|trace| - 1], max);
    }
  }

  /** After its finally block a request holds no conversation; one that it created in vain is gone. */
  lemma FinishReleases(trace: seq<Action>, now: int, max: nat, request: nat, id: nat)
    ensures var s, t := Run(trace, now, max), Step(Run(trace, now, max), Finish(request), max);
            && (id in t.conversations ==> t.conversations[id].active != Some(request))
            && (id in s.conversations && s.conversations[id].active != Some(request) ==>
                  id in t.conversations && t.conversations[id] == s.conversations[id])
            && (id in s.conversations && s.conversations[id].active == Some(request) ==>
                  request in s.requests && (id in t.conversations <==> !s.requests[request].created))
            && t.messages == s.messages && t.usage == s.usage
  {
    hide Run;
    RunKeepsCreator(trace, now, max);
  }

  /** Undisturbed, a new conversation ends with its first exchange and is free. */
  lemma ExchangeSucceeds(s: State, request: nat, id: nat, expiresAt: int, question: nat, answer: nat, max: nat)
    requires request !in s.requests && request !in s.usage && id !in s.conversations && max >= 2
    requires forall r :: r in s.requests ==> s.requests[r].conversation != id
    ensures var a := Step(Step(s, Create(request, id, expiresAt), max), Persist(request, question, answer), max);
            var t := Step(a, Finish(request), max);
            && t.conversations == s.conversations[id := Conversation(2, None, expiresAt)]
            && t.messages == s.messages + [Message(id, request, User, question), Message(id, request, Assistant, answer)]
            && t.usage == s.usage[request := UsageRow(id, answer)]
  {
    var a := Step(Step(s, Create(request, id, expiresAt), max), Persist(request, question, answer), max);
    assert a.conversations == s.conversations[id := Conversation(0, Some(request), expiresAt)][id := Conversation(2, None, expiresAt)];
  }
}

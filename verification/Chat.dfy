/** The chat bus: what each store call does to one conversation, and the SQLite store that does it. */
module Chat {
  import opened Wrappers

  datatype ChatStatus = Open | AwaitingAgent | Streaming | Ended

  datatype Role = User | Assistant

  datatype Message = Message(seqNo: nat, role: Role, content: string, done: bool, createdAt: int)

  // A conversation with its messages, which are keyed by sequence number.
  datatype Conversation = Conversation(
    status: ChatStatus,
    createdAt: int,
    updatedAt: int,
    msgCount: nat,
    proposedJobId: Option<string>,
    messages: map<nat, Message>)

  function NewConversation(now: int): Conversation
  {
    Conversation(Open, now, now, 0, None, map[])
  }

  // ---- one conversation --------------------------------------------------

  function UserTurn(c: Conversation, content: string, now: int): Conversation
  {
    var m := Message(c.msgCount, User, content, true, now);
    c.(messages := c.messages[c.msgCount := m], msgCount := c.msgCount + 1, status := AwaitingAgent, updatedAt := now)
  }

  function ClaimedBy(c: Conversation, now: int): Conversation
  {
    c.(status := Streaming, updatedAt := now)
  }

  function AssistantTurn(c: Conversation, now: int): Conversation
  {
    var m := Message(c.msgCount, Assistant, "", false, now);
    c.(messages := c.messages[c.msgCount := m], msgCount := c.msgCount + 1, updatedAt := now)
  }

  function WithChunk(c: Conversation, seqNo: nat, text: string): Conversation
  {
    if seqNo in c.messages then
      c.(messages := c.messages[seqNo := c.messages[seqNo].(content := c.messages[seqNo].content + text)])
    else c
  }

  function FinishedTurn(c: Conversation, seqNo: nat, status: ChatStatus, proposed: Option<string>, now: int): Conversation
  {
    c.(messages := if seqNo in c.messages then c.messages[seqNo := c.messages[seqNo].(done := true)] else c.messages,
       status := status, updatedAt := now, proposedJobId := if proposed.Some? then proposed else c.proposedJobId)
  }

  // The records field by field.
  lemma RecordsAre(c: Conversation, seqNo: nat, text: string, status: ChatStatus, proposed: Option<string>, now: int)
    ensures NewConversation(now) == Conversation(Open, now, now, 0, None, map[])
    ensures UserTurn(c, text, now)
         == Conversation(AwaitingAgent, c.createdAt, now, c.msgCount + 1, c.proposedJobId,
                         c.messages[c.msgCount := Message(c.msgCount, User, text, true, now)])
    ensures ClaimedBy(c, now) == Conversation(Streaming, c.createdAt, now, c.msgCount, c.proposedJobId, c.messages)
    ensures AssistantTurn(c, now)
         == Conversation(c.status, c.createdAt, now, c.msgCount + 1, c.proposedJobId,
                         c.messages[c.msgCount := Message(c.msgCount, Assistant, "", false, now)])
    ensures seqNo in c.messages ==>
              var m := c.messages[seqNo];
              && WithChunk(c, seqNo, text) == Conversation(c.status, c.createdAt, c.updatedAt, c.msgCount, c.proposedJobId,
                                                           c.messages[seqNo := Message(m.seqNo, m.role, m.content + text, m.done, m.createdAt)])
              && FinishedTurn(c, seqNo, status, proposed, now)
              == Conversation(status, c.createdAt, now, c.msgCount, if proposed == None then c.proposedJobId else proposed,
                              c.messages[seqNo := Message(m.seqNo, m.role, m.content, true, m.createdAt)])
    ensures seqNo !in c.messages ==>
              && WithChunk(c, seqNo, text) == c
              && FinishedTurn(c, seqNo, status, proposed, now)
              == Conversation(status, c.createdAt, now, c.msgCount, if proposed == None then c.proposedJobId else proposed, c.messages)
  {
  }

  // `ORDER BY seq`, once the keys are 0, 1, … without a gap.
  function MessagesBelow(c: Conversation, n: nat): (r: seq<Message>)
    requires forall k :: 0 <= k < n ==> k in c.messages
    ensures |r| == n && forall k :: 0 <= k < n ==> r[k] == c.messages[k]
  {
    seq(n, k requires 0 <= k < n => c.messages[k])
  }

  // Sequence numbers are handed out without gap or repeat.
  ghost predicate WellFormed(c: Conversation)
  {
    && (forall k: nat :: k in c.messages <==> k < c.msgCount)
    && (forall k :: k in c.messages ==> c.messages[k].seqNo == k)
  }

  // ---- the store ---------------------------------------------------------

  class SqliteChatStore {
    var conversations: map<string, Conversation>
    // Messages under an id that no conversation has; they all carry number 0.
    var orphans: map<string, Message>

    ghost predicate Valid()
      reads this
    {
      && (forall id :: id in conversations ==> WellFormed(conversations[id]))
      && (forall id :: id in orphans ==> id !in conversations && orphans[id].seqNo == 0)
    }

    constructor ()
      ensures Valid() && conversations == map[] && orphans == map[]
    {
      conversations, orphans := map[], map[];
    }

    // The id is a new uuid.
    method CreateConversation(id: string, now: int)
      requires Valid() && id !in conversations && id !in orphans
      modifies this
      ensures Valid() && conversations == old(conversations)[id := NewConversation(now)] && orphans == old(orphans)
    {
      conversations := conversations[id := NewConversation(now)];
    }

    method ListMessages(id: string) returns (messages: seq<Message>)
      requires Valid()
      ensures messages == if id in conversations then MessagesBelow(conversations[id], conversations[id].msgCount)
                          else if id in orphans then [orphans[id]] else []
    {
      messages := if id in conversations then MessagesBelow(conversations[id], conversations[id].msgCount)
                  else if id in orphans then [orphans[id]] else [];
    }

    method AppendUserMessage(id: string, content: string, now: int) returns (m: Option<Message>)
      requires Valid()
      modifies this
      ensures Valid()
      ensures if id in old(conversations) && old(conversations)[id].status != Streaming
              then conversations == old(conversations)[id := UserTurn(old(conversations)[id], content, now)]
                   && m == Some(Message(old(conversations)[id].msgCount, User, content, true, now))
                   && m.value.seqNo in conversations[id].messages && conversations[id].messages[m.value.seqNo] == m.value
                   && conversations[id].status == AwaitingAgent && conversations[id].msgCount == m.value.seqNo + 1
              else conversations == old(conversations) && m == None
      ensures orphans == old(orphans)
    {
      if id !in conversations || conversations[id].status == Streaming {
        return None;
      }
      var n := conversations[id].msgCount;
      conversations := conversations[id := UserTurn(conversations[id], content, now)];
      m := Some(Message(n, User, content, true, now));
    }

    // The waiting conversation updated longest ago.
    method ClaimConversation(now: int) returns (claimed: Option<string>)
      requires Valid()
      modifies this
      ensures Valid() && orphans == old(orphans)
      ensures claimed.None? ==>
                conversations == old(conversations) && forall id :: id in conversations ==> conversations[id].status != AwaitingAgent
      ensures claimed.Some? ==>
                && claimed.value in old(conversations) && old(conversations)[claimed.value].status == AwaitingAgent
                && (forall id :: id in old(conversations) && old(conversations)[id].status == AwaitingAgent ==>
                      old(conversations)[claimed.value].updatedAt <= old(conversations)[id].updatedAt)
                && conversations == old(conversations)[claimed.value := ClaimedBy(old(conversations)[claimed.value], now)]
                && conversations[claimed.value].status == Streaming
    {
      var waiting := set id | id in conversations && conversations[id].status == AwaitingAgent;
      if waiting == {} {
        assert forall id :: id in conversations && conversations[id].status == AwaitingAgent ==> id in waiting;
        return None;
      }
      var id := Oldest(waiting);
      conversations := conversations[id := ClaimedBy(conversations[id], now)];
      claimed := Some(id);
    }

    method Oldest(waiting: set<string>) returns (id: string)
      requires waiting != {} && forall w :: w in waiting ==> w in conversations
      ensures id in waiting && forall w :: w in waiting ==> conversations[id].updatedAt <= conversations[w].updatedAt
    {
      id :| id in waiting;
      var rest := waiting - {id};
      while rest != {}
        invariant id in waiting && rest <= waiting
        invariant forall w :: w in waiting && w !in rest ==> conversations[id].updatedAt <= conversations[w].updatedAt
        decreases |rest|
      {
        var w :| w in rest;
        if conversations[w].updatedAt < conversations[id].updatedAt {
          id := w;
        }
        rest := rest - {w};
      }
    }

    // An empty message under the next number. Under an id that no conversation has the number is 0,
    // and a second message there violates the primary key: nothing is stored.
    method StartAssistantMessage(id: string, now: int) returns (m: Option<Message>)
      requires Valid()
      modifies this
      ensures Valid()
      ensures if id in old(conversations) then
                && conversations == old(conversations)[id := AssistantTurn(old(conversations)[id], now)] && orphans == old(orphans)
                && m == Some(Message(old(conversations)[id].msgCount, Assistant, "", false, now))
                && m.value.seqNo in conversations[id].messages && conversations[id].messages[m.value.seqNo] == m.value
                && conversations[id].status == old(conversations)[id].status && conversations[id].msgCount == m.value.seqNo + 1
              else if id in old(orphans) then conversations == old(conversations) && orphans == old(orphans) && m == None
              else
                && conversations == old(conversations) && m == Some(Message(0, Assistant, "", false, now))
                && orphans == old(orphans)[id := Message(0, Assistant, "", false, now)]
    {
      var n := if id in conversations then conversations[id].msgCount else 0;
      var message := Message(n, Assistant, "", false, now);
      if id in conversations {
        conversations := conversations[id := AssistantTurn(conversations[id], now)];
      } else if id in orphans {
        return None;
      } else {
        orphans := orphans[id := message];
      }
      m := Some(message);
    }

    // The text goes to the message with that number, if there is one.
    method AppendChunk(id: string, seqNo: nat, text: string)
      requires Valid()
      modifies this
      ensures Valid()
      ensures conversations == if id in old(conversations) then old(conversations)[id := WithChunk(old(conversations)[id], seqNo, text)]
                               else old(conversations)
      ensures orphans == if id in old(orphans) && seqNo == 0
                         then old(orphans)[id := old(orphans)[id].(content := old(orphans)[id].content + text)]
                         else old(orphans)
    {
      if id in conversations {
        conversations := conversations[id := WithChunk(conversations[id], seqNo, text)];
      } else if id in orphans && seqNo == 0 {
        orphans := orphans[id := orphans[id].(content := orphans[id].content + text)];
      }
    }

    // Two updates: the message with that number is done, and the conversation, if there is one, has
    // the status.
    method FinishTurn(id: string, seqNo: nat, status: ChatStatus, proposed: Option<string>, now: int) returns (c: Option<Conversation>)
      requires Valid()
      modifies this
      ensures Valid()
      ensures if id in old(conversations) then
                && conversations == old(conversations)[id := FinishedTurn(old(conversations)[id], seqNo, status, proposed, now)]
                && c == Some(conversations[id]) && c.value.status == status
                && (seqNo in c.value.messages ==> c.value.messages[seqNo].done)
              else conversations == old(conversations) && c == None
      ensures orphans == if id in old(orphans) && seqNo == 0 then old(orphans)[id := old(orphans)[id].(done := true)] else old(orphans)
    {
      if id !in conversations {
        if id in orphans && seqNo == 0 {
          orphans := orphans[id := orphans[id].(done := true)];
        }
        return None;
      }
      conversations := conversations[id := FinishedTurn(conversations[id], seqNo, status, proposed, now)];
      c := Some(conversations[id]);
    }
  }

  // ---- the agent's turn --------------------------------------------------

  function Concat(texts: seq<string>): string
  {
    if texts == [] then "" else Concat(texts[..|texts| - 1]) + texts[|texts| - 1]
  }

  // The texts one after the other.
  lemma {:induction false} ConcatIs(a: seq<string>, b: seq<string>)
    ensures Concat(a + b) == Concat(a) + Concat(b)
    ensures |a| == 1 ==> Concat(a) == a[0]
  {
    if b == [] {
      assert a + b == a && Concat(a) + "" == Concat(a);
    } else {
      var init := b[..|b| - 1];
      ConcatIs(a, init);
      assert (a + b)[..|a + b| - 1] == a + init;
      assert Concat(a) + (Concat(init) + b[|b| - 1]) == (Concat(a) + Concat(init)) + b[|b| - 1];
    }
  }

  // What the model run streams, and whether it raises or proposes a job.
  datatype Streamed = Streamed(chunks: seq<string>, raised: Option<string>, proposed: Option<string>)

  function StreamedText(run: Streamed): string
  {
    Concat(run.chunks) + if run.raised.Some? then "\n\n_(agent error: " + run.raised.value + ")_" else ""
  }

  // One turn with a single agent: the oldest waiting conversation gets one finished assistant
  // message, numbered after all the prompt held, with all that was streamed, in order.
  method ProcessOne(store: SqliteChatStore, run: Streamed, now: int) returns (done: Option<string>, prompt: seq<Message>)
    requires store.Valid()
    modifies store
    ensures store.Valid() && store.orphans == old(store.orphans)
    ensures done.None? ==> store.conversations == old(store.conversations)
    ensures done.Some? ==>
              && done.value in old(store.conversations) && old(store.conversations)[done.value].status == AwaitingAgent
              && var was := old(store.conversations)[done.value];
                 && prompt == MessagesBelow(was, was.msgCount)
                 && store.conversations == old(store.conversations)[done.value := Answered(was, StreamedText(run), run, now)]
  {
    hide WellFormed, WithText, FinishedTurn, AssistantTurn, ClaimedBy, Answered, StreamedText, MessagesBelow;
    done, prompt := None, [];
    ghost var before := store.conversations;
    var claimed := store.ClaimConversation(now);
    if claimed.None? {
      return;
    }
    var id := claimed.value;
    ghost var was := before[id];
    ClaimShowsAll(was, now);
    prompt := store.ListMessages(id);
    var begun := store.StartAssistantMessage(id, now);
    var m := begun.value;
    ghost var started := store.conversations[id];
    StartedIs(was, started, now);
    Stream(store, id, m.seqNo, run, started);
    FinishedIs(was, started, m.seqNo, StreamedText(run), run, now);
    var c := store.FinishTurn(id, m.seqNo, Open, if run.raised.Some? then None else run.proposed, now);
    done := Some(id);
  }

  // All that is streamed is appended, and a note after an error.
  method Stream(store: SqliteChatStore, id: string, seqNo: nat, run: Streamed, ghost started: Conversation)
    requires store.Valid() && id in store.conversations && store.conversations[id] == WithText(started, seqNo, "")
    modifies store
    ensures store.Valid() && store.orphans == old(store.orphans)
    ensures store.conversations == old(store.conversations)[id := WithText(started, seqNo, StreamedText(run))]
  {
    hide WellFormed, WithText, WithChunk;
    ghost var before := store.conversations;
    for i := 0 to |run.chunks|
      invariant store.Valid() && store.orphans == old(store.orphans)
      invariant store.conversations == before[id := WithText(started, seqNo, Concat(run.chunks[..i]))]
    {
      assert run.chunks[..i + 1][..i] == run.chunks[..i];
      ChunkAdds(started, seqNo, Concat(run.chunks[..i]), run.chunks[i]);
      store.AppendChunk(id, seqNo, run.chunks[i]);
    }
    assert run.chunks[..|run.chunks|] == run.chunks;
    if run.raised.Some? {
      ChunkAdds(started, seqNo, Concat(run.chunks), "\n\n_(agent error: " + run.raised.value + ")_");
      store.AppendChunk(id, seqNo, "\n\n_(agent error: " + run.raised.value + ")_");
    } else {
      assert Concat(run.chunks) + "" == Concat(run.chunks);
    }
  }

  lemma ClaimShowsAll(c: Conversation, now: int)
    requires WellFormed(c)
    ensures ClaimedBy(c, now).msgCount == c.msgCount && WellFormed(ClaimedBy(c, now))
    ensures MessagesBelow(ClaimedBy(c, now), c.msgCount) == MessagesBelow(c, c.msgCount)
  {
  }

  function WithText(c: Conversation, seqNo: nat, text: string): Conversation
  {
    if seqNo in c.messages then c.(messages := c.messages[seqNo := c.messages[seqNo].(content := text)]) else c
  }

  function Answered(was: Conversation, text: string, run: Streamed, now: int): Conversation
  {
    was.(messages := was.messages[was.msgCount := Message(was.msgCount, Assistant, text, true, now)], msgCount := was.msgCount + 1,
         status := Open, updatedAt := now,
         proposedJobId := if run.raised.None? && run.proposed.Some? then run.proposed else was.proposedJobId)
  }

  lemma StartedIs(was: Conversation, started: Conversation, now: int)
    requires started == AssistantTurn(ClaimedBy(was, now), now)
    ensures was.msgCount in started.messages && WithText(started, was.msgCount, "") == started
  {
    assert started.messages[was.msgCount := started.messages[was.msgCount].(content := "")] == started.messages;
  }

  lemma ChunkAdds(c: Conversation, seqNo: nat, before: string, text: string)
    ensures WithChunk(WithText(c, seqNo, before), seqNo, text) == WithText(c, seqNo, before + text)
  {
  }

  lemma FinishedIs(was: Conversation, started: Conversation, seqNo: nat, text: string, run: Streamed, now: int)
    requires started == AssistantTurn(ClaimedBy(was, now), now) && seqNo == was.msgCount
    ensures FinishedTurn(WithText(started, seqNo, text), seqNo, Open, if run.raised.Some? then None else run.proposed, now)
         == Answered(was, text, run, now)
  {
    var m := Message(seqNo, Assistant, "", false, now);
    assert started.messages[seqNo] == m;
    assert WithText(started, seqNo, text).messages == was.messages[seqNo := m.(content := text)];
    assert was.messages[seqNo := m.(content := text)][seqNo := m.(content := text, done := true)]
        == was.messages[seqNo := m.(content := text, done := true)];
  }
}

/**
 The DynamoDB chat store where it differs from the SQLite one: content kept as a list of chunks, and
 a user turn written in three requests.
 */
module DynamoChat {
  import opened Chat

  // ---- chunks ------------------------------------------------------------

  // What both stores hold of one message: the text, and the list it is joined from.
  datatype Copies = Copies(content: string, chunks: seq<string>)

  predicate Same(m: Copies)
  {
    Concat(m.chunks) == m.content
  }

  // `content || text` against `list_append(chunks, [text])`.
  function Append(m: Copies, text: string): Copies
  {
    Copies(m.content + text, m.chunks + [text])
  }

  function AppendAll(m: Copies, texts: seq<string>): Copies
  {
    if texts == [] then m else Append(AppendAll(m, texts[..|texts| - 1]), texts[|texts| - 1])
  }

  // Whatever is streamed, the joined list is the concatenated text, also after a user turn, which
  // is a list of one.
  lemma {:induction false} ChunksAgree(m: Copies, texts: seq<string>)
    requires Same(m)
    ensures Same(AppendAll(m, texts))
    ensures AppendAll(m, texts).content == m.content + Concat(texts)
  {
    if texts == [] {
      assert m.content + "" == m.content;
    } else {
      var init, last := texts[..|texts| - 1], texts[|texts| - 1];
      ChunksAgree(m, init);
      var c := AppendAll(m, init).chunks;
      assert (c + [last])[..|c|] == c;
      Join(m.content, Concat(init), last);
    }
  }

  lemma Join(a: string, b: string, c: string)
    ensures (a + b) + c == a + (b + c)
  {
  }

  // ---- one conversation, request by request ------------------------------

  // A user turn between its first and its last request: what it will say, and whether its message
  // is there yet.
  datatype Turn = Turn(content: string, placed: bool)

  // The agent: its prompt is what the listing showed, number by number.
  datatype Agent =
    | Away
    | HasClaim
    | HasPrompt(prompt: map<nat, string>)
    | Writes(prompt: map<nat, string>, own: nat)

  // How many numbers were given out, the chunks stored under each, the text each is meant to have,
  // and the user turns under way.
  datatype Talk = Talk(
    status: ChatStatus,
    count: nat,
    stored: map<nat, seq<string>>,
    meant: map<nat, string>,
    turns: map<nat, Turn>,
    agent: Agent)

  const SILENCE := Talk(Open, 0, map[], map[], map[], Away)

  datatype Request =
    | Count(content: string)
    | Place(n: nat)
    | Fill(n: nat)
    | Claim
    | Read
    | Begin
    | Chunk(text: string)
    | Finish
    | Stop

  // Only the first request of a user turn is guarded by the status; the agent that claimed goes on.
  predicate CanSend(t: Talk, r: Request)
  {
    match r
    case Count(_) => t.status != Streaming
    case Place(n) => n in t.turns && !t.turns[n].placed
    case Fill(n) => n in t.turns && t.turns[n].placed
    case Claim => t.status == AwaitingAgent
    case Read => t.agent.HasClaim?
    case Begin => t.agent.HasPrompt?
    case Chunk(_) => t.agent.Writes?
    case Finish => t.agent.Writes?
    case Stop => !t.agent.Away?
  }

  // No user turn is between its requests, save such as say nothing and are placed.
  predicate Settled(t: Talk)
  {
    forall k :: k in t.turns ==> t.turns[k].placed && t.turns[k].content == ""
  }

  function Listing(t: Talk): map<nat, string>
  {
    map k | k in t.stored :: Concat(t.stored[k])
  }

  function Send(t: Talk, r: Request): Talk
    requires CanSend(t, r)
  {
    match r
    case Count(content) =>
      t.(status := AwaitingAgent, count := t.count + 1, meant := t.meant[t.count := content],
         turns := t.turns[t.count := Turn(content, false)])
    case Place(n) => t.(stored := t.stored[n := []], turns := t.turns[n := t.turns[n].(placed := true)])
    case Fill(n) => t.(stored := t.stored[n := [t.turns[n].content]], turns := t.turns - {n})
    case Claim => t.(status := Streaming, agent := HasClaim)
    case Read => t.(agent := HasPrompt(Listing(t)))
    case Begin =>
      t.(count := t.count + 1, stored := t.stored[t.count := []], meant := t.meant[t.count := ""],
         agent := Writes(t.agent.prompt, t.count))
    case Chunk(text) =>
      var own := t.agent.own;
      var chunks := if own in t.stored then t.stored[own] else [];
      var text0 := if own in t.meant then t.meant[own] else "";
      t.(stored := t.stored[own := chunks + [text]], meant := t.meant[own := text0 + text])
    case Finish => t.(status := Open, agent := Away)
    case Stop => t.(agent := Away)
  }

  ghost predicate IsRun(t: Talk, requests: seq<Request>)
    decreases |requests|
  {
    requests == [] || (CanSend(t, requests[0]) && IsRun(Send(t, requests[0]), requests[1..]))
  }

  ghost function After(t: Talk, requests: seq<Request>): Talk
    requires IsRun(t, requests)
    decreases |requests|
  {
    if requests == [] then t else After(Send(t, requests[0]), requests[1..])
  }

  // ---- what every run keeps ----------------------------------------------

  // Below n, every number is shown, with the text it is meant to have.
  ghost predicate Complete(shown: map<nat, string>, meant: map<nat, string>, n: nat)
  {
    forall k: nat :: k < n ==> k in shown && k in meant && shown[k] == meant[k]
  }

  ghost predicate MessagesOk(t: Talk)
  {
    && (forall k: nat :: k in t.meant <==> k < t.count)
    && (forall k :: k in t.stored ==> k < t.count)
    && (forall k :: k in t.turns ==> k < t.count && t.meant[k] == t.turns[k].content && (k in t.stored <==> t.turns[k].placed))
    && (forall k :: k in t.turns && t.turns[k].placed ==> t.stored[k] == [])
    && (forall k: nat :: k < t.count && k !in t.turns ==> k in t.stored && Concat(t.stored[k]) == t.meant[k])
  }

  // While an agent is at work the status keeps new turns out, and its message is the last.
  ghost predicate AgentOk(t: Talk)
  {
    && (!t.agent.Away? ==> t.status == Streaming)
    && (t.agent.Writes? ==> t.agent.own + 1 == t.count && t.agent.own !in t.turns)
  }

  lemma JoinedChunks(chunks: seq<string>, text: string)
    ensures Concat([]) == "" && Concat([text]) == text && Concat(chunks + [text]) == Concat(chunks) + text
  {
    assert [text][..0] == [] && (chunks + [text])[..|chunks|] == chunks;
  }

  // What is filled in is what the other store holds as text: a list of one.
  lemma FillIsACopy(t: Talk, n: nat)
    requires CanSend(t, Fill(n))
    ensures Same(Copies(t.turns[n].content, Send(t, Fill(n)).stored[n]))
  {
    JoinedChunks([], t.turns[n].content);
  }

  lemma ListingCompleteIffSettled(t: Talk)
    requires MessagesOk(t)
    ensures Complete(Listing(t), t.meant, t.count) <==> Settled(t)
  {
    JoinedChunks([], "");
    var shown := Listing(t);
    if Settled(t) {
      forall k: nat | k < t.count ensures k in shown && shown[k] == t.meant[k] {
        if k in t.turns {
          assert t.stored[k] == [];
        }
      }
    }
    if Complete(shown, t.meant, t.count) {
      forall k | k in t.turns ensures t.turns[k].placed && t.turns[k].content == "" {
        assert k in shown;
      }
    }
  }

  lemma CountKeepsMessages(t: Talk, content: string)
    requires MessagesOk(t) && CanSend(t, Count(content))
    ensures MessagesOk(Send(t, Count(content)))
  {
    hide Concat, Settled, Listing;
  }

  lemma PlaceKeepsMessages(t: Talk, n: nat)
    requires MessagesOk(t) && CanSend(t, Place(n))
    ensures MessagesOk(Send(t, Place(n)))
  {
    hide Concat, Settled, Listing;
  }

  lemma FillKeepsMessages(t: Talk, n: nat)
    requires MessagesOk(t) && CanSend(t, Fill(n))
    ensures MessagesOk(Send(t, Fill(n)))
  {
    hide Concat, Settled, Listing;
    JoinedChunks([], t.turns[n].content);
  }

  lemma AgentKeepsMessages(t: Talk, r: Request)
    requires MessagesOk(t) && AgentOk(t) && CanSend(t, r) && (r.Begin? || r.Chunk?)
    ensures MessagesOk(Send(t, r))
  {
    hide Concat, Complete, Settled, Listing;
    if r.Begin? {
      JoinedChunks([], "");
    } else {
      JoinedChunks(t.stored[t.agent.own], r.text);
    }
  }

  lemma RestKeepsMessages(t: Talk, r: Request)
    requires MessagesOk(t) && CanSend(t, r) && (r.Claim? || r.Read? || r.Finish? || r.Stop?)
    ensures MessagesOk(Send(t, r))
  {
    hide Concat, Complete, Settled, Listing;
  }

  lemma SendKeepsMessages(t: Talk, r: Request)
    requires MessagesOk(t) && AgentOk(t) && CanSend(t, r)
    ensures MessagesOk(Send(t, r))
  {
    hide MessagesOk, AgentOk, CanSend, Send;
    match r
    case Count(content) => CountKeepsMessages(t, content);
    case Place(n) => PlaceKeepsMessages(t, n);
    case Fill(n) => FillKeepsMessages(t, n);
    case Begin => AgentKeepsMessages(t, r);
    case Chunk(_) => AgentKeepsMessages(t, r);
    case _ => RestKeepsMessages(t, r);
  }

  lemma SendKeepsAgent(t: Talk, r: Request)
    requires MessagesOk(t) && AgentOk(t) && CanSend(t, r)
    ensures AgentOk(Send(t, r))
  {
    hide Concat, Settled, Listing;
  }

  lemma {:induction false} RunKeeps(t: Talk, requests: seq<Request>)
    requires MessagesOk(t) && AgentOk(t) && IsRun(t, requests)
    ensures MessagesOk(After(t, requests)) && AgentOk(After(t, requests))
    decreases |requests|
  {
    hide MessagesOk, AgentOk, CanSend, Send;
    if requests != [] {
      SendKeepsMessages(t, requests[0]);
      SendKeepsAgent(t, requests[0]);
      RunKeeps(Send(t, requests[0]), requests[1..]);
    }
  }

  // In every run a listing is complete exactly when no user turn is under way but such as say
  // nothing and are placed.
  lemma CompleteIffNoTurnUnderWay(requests: seq<Request>)
    requires IsRun(SILENCE, requests)
    ensures var t := After(SILENCE, requests); Complete(Listing(t), t.meant, t.count) <==> Settled(t)
  {
    RunKeeps(SILENCE, requests);
    ListingCompleteIffSettled(After(SILENCE, requests));
  }

  lemma SilenceIsOk()
    ensures MessagesOk(SILENCE) && AgentOk(SILENCE)
  {
  }

  // ---- the prompt of an agent --------------------------------------------

  predicate AtWork(t: Talk)
  {
    t.agent.HasPrompt? || t.agent.Writes?
  }

  // The messages an agent answers: all that were numbered before its own.
  function Before(t: Talk): nat
    requires AtWork(t)
  {
    if t.agent.Writes? then t.agent.own else t.count
  }

  lemma {:induction false} RunOfPrefix(t: Talk, requests: seq<Request>, n: nat)
    requires IsRun(t, requests) && n <= |requests|
    ensures IsRun(t, requests[..n])
    ensures n < |requests| ==> CanSend(After(t, requests[..n]), requests[n])
                               && IsRun(t, requests[..n + 1])
                               && After(t, requests[..n + 1]) == Send(After(t, requests[..n]), requests[n])
    decreases n
  {
    hide CanSend, Send;
    if n == 0 {
      assert requests[..0] == [];
      if requests != [] {
        assert requests[..1][1..] == [];
      }
    } else {
      assert requests[..n][1..] == requests[1..][..n - 1];
      RunOfPrefix(Send(t, requests[0]), requests[1..], n - 1);
      if n < |requests| {
        assert requests[..n + 1][1..] == requests[1..][..n];
      }
    }
  }

  // Any request but a listing keeps what the prompt of an agent at work is missing.
  lemma PromptStays(t: Talk, r: Request)
    requires MessagesOk(t) && AgentOk(t) && CanSend(t, r) && !r.Read? && AtWork(Send(t, r))
    ensures AtWork(t) && Before(Send(t, r)) == Before(t) && Send(t, r).agent.prompt == t.agent.prompt
    ensures Complete(Send(t, r).agent.prompt, Send(t, r).meant, Before(t)) <==> Complete(t.agent.prompt, t.meant, Before(t))
  {
    hide Concat, Settled, Listing;
  }

  // In every run the prompt of an agent at work holds every message before its own, with the text
  // it is meant to have, exactly when no user turn was under way at the agent's listing, the last
  // one of the run. The status keeps new turns out meanwhile, but not the rest of a turn that was
  // counted before.
  lemma {:induction false} PromptCompleteIffSettled(requests: seq<Request>) returns (i: nat)
    requires IsRun(SILENCE, requests) && AtWork(After(SILENCE, requests))
    ensures i < |requests| && requests[i] == Read && forall k :: i < k < |requests| ==> requests[k] != Read
    ensures IsRun(SILENCE, requests[..i])
    ensures var t := After(SILENCE, requests);
            Complete(t.agent.prompt, t.meant, Before(t)) <==> Settled(After(SILENCE, requests[..i]))
    decreases |requests|
  {
    hide MessagesOk, AgentOk, CanSend, Send, Settled, Complete;
    assert requests != [];
    var n := |requests| - 1;
    var init := requests[..n];
    RunOfPrefix(SILENCE, requests, n);
    assert requests[..n + 1] == requests;
    var t := After(SILENCE, init);
    SilenceIsOk();
    RunKeeps(SILENCE, init);
    if requests[n] == Read {
      i := n;
      ReadShowsListing(t);
    } else {
      PromptStays(t, requests[n]);
      i := PromptCompleteIffSettled(init);
      assert init[..i] == requests[..i];
    }
  }

  lemma ReadShowsListing(t: Talk)
    requires MessagesOk(t) && CanSend(t, Read)
    ensures var t' := Send(t, Read);
            AtWork(t') && (Complete(t'.agent.prompt, t'.meant, Before(t')) <==> Settled(t))
  {
    hide Complete, Settled, Listing;
    ListingCompleteIffSettled(t);
  }

  // Four requests are enough for an agent that answers a message it has not seen.
  lemma PromptCanMissAMessage(content: string)
    ensures var requests := [Count(content), Claim, Read, Begin];
            && IsRun(SILENCE, requests)
            && var t := After(SILENCE, requests);
               t.agent == Writes(map[], 1) && 0 in t.meant && t.meant[0] == content && !Complete(t.agent.prompt, t.meant, 1)
  {
    var requests := [Count(content), Claim, Read, Begin];
    var t1 := Send(SILENCE, Count(content));
    var t2 := Send(t1, Claim);
    var t3 := Send(t2, Read);
    var t4 := Send(t3, Begin);
    assert requests[1..] == [Claim, Read, Begin] && requests[1..][1..] == [Read, Begin];
    assert [Read, Begin][1..] == [Begin] && [Begin][1..] == [];
    assert 0 in t1.turns && !Settled(t2);
    assert Listing(t2) == map[];
    assert IsRun(t4, []) && After(t4, []) == t4;
    assert IsRun(t3, [Begin]) && After(t3, [Begin]) == t4;
    assert IsRun(t2, [Read, Begin]) && After(t2, [Read, Begin]) == t4;
    assert IsRun(t1, [Claim, Read, Begin]) && After(t1, [Claim, Read, Begin]) == t4;
    assert 0 !in t4.agent.prompt;
  }
}

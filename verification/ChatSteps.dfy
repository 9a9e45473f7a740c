/**
 The chat bus under many users and agents: store calls interleave, an agent reads the messages and
 opens its own in two calls, and any agent may stop anywhere.
 */
module ChatSteps {
  import opened Wrappers
  import opened Chat

  // Where an agent is in its turn: the conversation it claimed, what its prompt holds, and the
  // number of the message it writes.
  datatype Agent =
    | Free
    | HasClaim(id: string)
    | HasPrompt(id: string, prompt: seq<Message>)
    | Writes(id: string, prompt: seq<Message>, seqNo: nat)

  datatype World = World(chats: map<string, Conversation>, agents: map<nat, Agent>)

  const EMPTY := World(map[], map[])

  function At(w: World, i: nat): Agent
  {
    if i in w.agents then w.agents[i] else Free
  }

  datatype Action =
    | Create(id: string, now: int)
    | Say(id: string, content: string, now: int)
    | Claim(i: nat, id: string, now: int)
    | Read(i: nat)
    | Begin(i: nat, now: int)
    | Chunk(i: nat, text: string)
    | Finish(i: nat, proposed: Option<string>, now: int)
    | Stop(i: nat)

  predicate Enabled(w: World, a: Action)
  {
    match a
    case Create(id, _) => id !in w.chats
    case Say(id, _, _) => id in w.chats && w.chats[id].status != Streaming
    case Claim(i, id, _) => At(w, i).Free? && id in w.chats && w.chats[id].status == AwaitingAgent
    case Read(i) => At(w, i).HasClaim?
    case Begin(i, _) => At(w, i).HasPrompt?
    case Chunk(i, _) => At(w, i).Writes?
    case Finish(i, _, _) => At(w, i).Writes?
    case Stop(i) => !At(w, i).Free?
  }

  function Put(w: World, id: string, c: Conversation, i: nat, p: Agent): World
  {
    World(w.chats[id := c], w.agents[i := p])
  }

  ghost function Apply(w: World, a: Action): World
    requires Enabled(w, a) && Inv(w)
  {
    match a
    case Create(id, now) => w.(chats := w.chats[id := NewConversation(now)])
    case Say(id, content, now) => w.(chats := w.chats[id := UserTurn(w.chats[id], content, now)])
    case Claim(i, id, now) => Put(w, id, ClaimedBy(w.chats[id], now), i, HasClaim(id))
    case Read(i) =>
      var id := At(w, i).id;
      w.(agents := w.agents[i := HasPrompt(id, MessagesBelow(w.chats[id], w.chats[id].msgCount))])
    case Begin(i, now) =>
      var p := At(w, i);
      Put(w, p.id, AssistantTurn(w.chats[p.id], now), i, Writes(p.id, p.prompt, w.chats[p.id].msgCount))
    case Chunk(i, text) =>
      var p := At(w, i);
      Put(w, p.id, WithChunk(w.chats[p.id], p.seqNo, text), i, p)
    case Finish(i, proposed, now) =>
      var p := At(w, i);
      Put(w, p.id, FinishedTurn(w.chats[p.id], p.seqNo, Open, proposed, now), i, Free)
    case Stop(i) => w.(agents := w.agents[i := Free])
  }

  // ---- the invariant -----------------------------------------------------

  // An unfinished message is the last one, the assistant's, and only there while STREAMING.
  ghost predicate ChatOk(c: Conversation)
  {
    && WellFormed(c)
    && forall k :: k in c.messages && !c.messages[k].done ==>
         k + 1 == c.msgCount && c.messages[k].role == Assistant && c.status == Streaming
  }

  predicate AllDone(c: Conversation)
  {
    forall k :: k in c.messages ==> c.messages[k].done
  }

  // What an agent in its turn knows of its conversation.
  ghost predicate AgentOk(p: Agent, c: Conversation)
    requires !p.Free?
  {
    && c.status == Streaming
    && match p
       case HasClaim(_) => AllDone(c)
       case HasPrompt(_, prompt) => AllDone(c) && HoldsBelow(c, c.msgCount, prompt)
       case Writes(_, prompt, seqNo) =>
         seqNo + 1 == c.msgCount && seqNo in c.messages && !c.messages[seqNo].done && HoldsBelow(c, seqNo, prompt)
  }

  // The prompt is the messages numbered below n, all of them and in order.
  ghost predicate HoldsBelow(c: Conversation, n: nat, prompt: seq<Message>)
  {
    |prompt| == n && forall k :: 0 <= k < n ==> k in c.messages && prompt[k] == c.messages[k]
  }

  ghost predicate Inv(w: World)
  {
    && (forall id :: id in w.chats ==> ChatOk(w.chats[id]))
    && (forall i :: i in w.agents && !w.agents[i].Free? ==>
          w.agents[i].id in w.chats && AgentOk(w.agents[i], w.chats[w.agents[i].id]))
    && (forall i, k :: i in w.agents && k in w.agents && i != k && !w.agents[i].Free? && !w.agents[k].Free? ==>
          w.agents[i].id != w.agents[k].id)
  }

  lemma FrameTurn(w: World, id: string, c: Conversation, i: nat, p: Agent)
    requires Inv(w) && ChatOk(c)
    requires forall k :: k in w.agents && k != i && !w.agents[k].Free? ==> w.agents[k].id != id
    requires !p.Free? ==> p.id == id && AgentOk(p, c)
    ensures Inv(Put(w, id, c, i, p))
  {
    hide ChatOk, AgentOk;
  }

  lemma FrameChat(w: World, id: string, c: Conversation)
    requires Inv(w) && ChatOk(c)
    requires forall k :: k in w.agents && !w.agents[k].Free? ==> w.agents[k].id != id
    ensures Inv(w.(chats := w.chats[id := c]))
  {
    hide ChatOk, AgentOk;
  }

  lemma NoAgent(w: World, id: string)
    requires Inv(w) && id in w.chats && w.chats[id].status != Streaming
    ensures forall k :: k in w.agents && !w.agents[k].Free? ==> w.agents[k].id != id
  {
    hide ChatOk;
  }

  lemma LocalSteps(c: Conversation, content: string, now: int)
    requires ChatOk(c) && c.status != Streaming
    ensures ChatOk(UserTurn(c, content, now)) && ChatOk(ClaimedBy(c, now)) && AllDone(ClaimedBy(c, now)) && ChatOk(NewConversation(now))
  {
  }

  lemma LocalBegin(p: Agent, c: Conversation, now: int)
    requires ChatOk(c) && p.HasPrompt? && AgentOk(p, c)
    ensures ChatOk(AssistantTurn(c, now)) && AgentOk(Writes(p.id, p.prompt, c.msgCount), AssistantTurn(c, now))
  {
  }

  lemma LocalWrite(p: Agent, c: Conversation, text: string, proposed: Option<string>, now: int)
    requires ChatOk(c) && p.Writes? && AgentOk(p, c)
    ensures ChatOk(WithChunk(c, p.seqNo, text)) && AgentOk(p, WithChunk(c, p.seqNo, text))
    ensures ChatOk(FinishedTurn(c, p.seqNo, Open, proposed, now))
  {
  }

  lemma EmptyIsOk(now: int)
    ensures ChatOk(NewConversation(now))
  {
  }

  lemma StepKeepsInv(w: World, a: Action)
    requires Inv(w) && Enabled(w, a)
    ensures Inv(Apply(w, a))
  {
    hide ChatOk, AgentOk, UserTurn, ClaimedBy, AssistantTurn, WithChunk, FinishedTurn;
    match a
    case Create(id, now) =>
      EmptyIsOk(now);
      FrameChat(w, id, NewConversation(now));
    case Say(id, content, now) =>
      NoAgent(w, id);
      LocalSteps(w.chats[id], content, now);
      FrameChat(w, id, UserTurn(w.chats[id], content, now));
    case Claim(i, id, now) =>
      NoAgent(w, id);
      LocalSteps(w.chats[id], "", now);
      ClaimIsOk(w.chats[id], id, now);
      FrameTurn(w, id, ClaimedBy(w.chats[id], now), i, HasClaim(id));
    case Read(i) => KeepRead(w, i);
    case Begin(i, now) =>
      LocalBegin(At(w, i), w.chats[At(w, i).id], now);
      FrameTurn(w, At(w, i).id, AssistantTurn(w.chats[At(w, i).id], now), i,
                Writes(At(w, i).id, At(w, i).prompt, w.chats[At(w, i).id].msgCount));
    case Chunk(i, text) =>
      LocalWrite(At(w, i), w.chats[At(w, i).id], text, None, 0);
      FrameTurn(w, At(w, i).id, WithChunk(w.chats[At(w, i).id], At(w, i).seqNo, text), i, At(w, i));
    case Finish(i, proposed, now) =>
      LocalWrite(At(w, i), w.chats[At(w, i).id], "", proposed, now);
      FrameTurn(w, At(w, i).id, FinishedTurn(w.chats[At(w, i).id], At(w, i).seqNo, Open, proposed, now), i, Free);
    case Stop(i) =>
  }

  lemma ClaimIsOk(c: Conversation, id: string, now: int)
    requires ChatOk(c) && c.status != Streaming
    ensures AgentOk(HasClaim(id), ClaimedBy(c, now))
  {
  }

  lemma KeepRead(w: World, i: nat)
    requires Inv(w) && At(w, i).HasClaim?
    ensures Inv(Apply(w, Read(i)))
  {
    var id := At(w, i).id;
    var c := w.chats[id];
    assert AgentOk(HasPrompt(id, MessagesBelow(c, c.msgCount)), c);
    hide ChatOk, AgentOk;
    FrameTurn(w, id, c, i, HasPrompt(id, MessagesBelow(c, c.msgCount)));
    assert w.chats[id := c] == w.chats;
  }

  // ---- runs --------------------------------------------------------------

  ghost predicate IsRun(w: World, actions: seq<Action>)
    requires Inv(w)
    decreases |actions|
  {
    actions == [] || (Enabled(w, actions[0]) && (StepKeepsInv(w, actions[0]); IsRun(Apply(w, actions[0]), actions[1..])))
  }

  ghost function After(w: World, actions: seq<Action>): World
    requires Inv(w) && IsRun(w, actions)
    decreases |actions|
  {
    if actions == [] then w
    else
      StepKeepsInv(w, actions[0]);
      After(Apply(w, actions[0]), actions[1..])
  }

  ghost predicate Reachable(w: World)
  {
    exists actions :: IsRun(EMPTY, actions) && After(EMPTY, actions) == w
  }

  lemma {:induction false} RunKeepsInv(w: World, actions: seq<Action>)
    requires Inv(w) && IsRun(w, actions)
    ensures Inv(After(w, actions))
    decreases |actions|
  {
    if actions != [] {
      StepKeepsInv(w, actions[0]);
      hide Inv, Enabled, Apply;
      RunKeepsInv(Apply(w, actions[0]), actions[1..]);
    }
  }

  lemma ReachableInv(w: World)
    requires Reachable(w)
    ensures Inv(w)
  {
    var actions :| IsRun(EMPTY, actions) && After(EMPTY, actions) == w;
    RunKeepsInv(EMPTY, actions);
  }

  // In every run: the numbers of a conversation are 0 to its count without a gap, and an unfinished
  // message is the only one, the last, and only there while the conversation streams.
  lemma NumbersAndUnfinished(w: World, id: string)
    requires Reachable(w) && id in w.chats
    ensures var c := w.chats[id];
            && (forall k: nat :: k in c.messages <==> k < c.msgCount)
            && (forall j, k :: j in c.messages && k in c.messages && !c.messages[j].done && !c.messages[k].done ==> j == k)
            && (c.status != Streaming ==> AllDone(c))
  {
    ReachableInv(w);
    assert ChatOk(w.chats[id]);
  }

  // In every run: when an agent opens its message, and as long as it writes, its prompt holds every
  // message of the conversation numbered before its own, as they still are.
  lemma PromptIsComplete(w: World, i: nat)
    requires Reachable(w) && At(w, i).Writes?
    ensures At(w, i).id in w.chats && HoldsBelow(w.chats[At(w, i).id], At(w, i).seqNo, At(w, i).prompt)
    ensures At(w, i).seqNo + 1 == w.chats[At(w, i).id].msgCount
  {
    ReachableInv(w);
    assert AgentOk(At(w, i), w.chats[At(w, i).id]);
  }

  // Two agents never work on one conversation.
  lemma OneAgentEach(w: World, i: nat, k: nat)
    requires Reachable(w) && i != k && !At(w, i).Free? && !At(w, k).Free?
    ensures At(w, i).id != At(w, k).id
  {
    ReachableInv(w);
  }

  // ---- the store does these steps ----------------------------------------

  lemma OneMoreStep(w: World, actions: seq<Action>, a: Action)
    requires Inv(w) && IsRun(w, actions) && Inv(After(w, actions)) && Enabled(After(w, actions), a)
    ensures IsRun(w, actions + [a]) && After(w, actions + [a]) == Apply(After(w, actions), a)
    decreases |actions|
  {
    hide Inv, Enabled, Apply;
    if actions == [] {
      assert [] + [a] == [a] && [a][1..] == [];
      StepKeepsInv(w, a);
    } else {
      StepKeepsInv(w, actions[0]);
      assert (actions + [a])[1..] == actions[1..] + [a];
      OneMoreStep(Apply(w, actions[0]), actions[1..], a);
    }
  }

  // What users and agents ask of the store. An agent asks one call after the other; what it holds
  // between them is its own.
  datatype Call =
    | CallCreate(id: string, now: int)
    | CallSay(id: string, content: string, now: int)
    | CallClaim(i: nat, now: int)
    | CallList(i: nat)
    | CallStart(i: nat, now: int)
    | CallAppend(i: nat, text: string)
    | CallFinish(i: nat, proposed: Option<string>, now: int)
    | CallStop(i: nat)

  // Any sequence of calls on one store, from any number of users and agents: what it does to the
  // conversations is a run of the steps, and a call that is refused, or that an agent has no place
  // for, is none.
  method Drive(calls: seq<Call>) returns (store: SqliteChatStore, ghost actions: seq<Action>, agents: map<nat, Agent>)
    ensures fresh(store) && store.Valid() && IsRun(EMPTY, actions)
    ensures After(EMPTY, actions) == World(store.conversations, agents)
  {
    hide Inv, Enabled, Apply, IsRun, After;
    store := new SqliteChatStore();
    actions, agents := [], map[];
    ghost var w := EMPTY;
    NothingDone();
    for n := 0 to |calls|
      invariant fresh(store) && store.Valid() && store.orphans == map[]
      invariant Inv(w) && w == World(store.conversations, agents) && IsRun(EMPTY, actions) && After(EMPTY, actions) == w
    {
      ghost var step: Option<Action>;
      agents, step := Perform(store, agents, calls[n]);
      if step.Some? {
        OneMoreStep(EMPTY, actions, step.value);
        StepKeepsInv(w, step.value);
        actions := actions + [step.value];
        w := Apply(w, step.value);
      }
    }
  }

  lemma NothingDone()
    ensures Inv(EMPTY) && IsRun(EMPTY, []) && After(EMPTY, []) == EMPTY
  {
  }

  function AgentAt(agents: map<nat, Agent>, i: nat): Agent
  {
    if i in agents then agents[i] else Free
  }

  // One call, and the step it is, if any.
  method Perform(store: SqliteChatStore, agents: map<nat, Agent>, call: Call)
    returns (agents': map<nat, Agent>, ghost step: Option<Action>)
    requires store.Valid() && store.orphans == map[] && Inv(World(store.conversations, agents))
    modifies store
    ensures store.Valid() && store.orphans == map[]
    ensures var w := World(old(store.conversations), agents);
            if step.None? then World(store.conversations, agents') == w
            else Enabled(w, step.value) && World(store.conversations, agents') == Apply(w, step.value)
  {
    hide Inv, WellFormed, UserTurn, ClaimedBy, AssistantTurn, WithChunk, FinishedTurn, MessagesBelow;
    ghost var w := World(store.conversations, agents);
    agents', step := agents, None;
    match call
    case CallCreate(id, now) =>
      if id !in store.conversations {
        store.CreateConversation(id, now);
        step := Some(Create(id, now));
      }
    case CallSay(id, content, now) =>
      var m := store.AppendUserMessage(id, content, now);
      if m.Some? {
        step := Some(Say(id, content, now));
      }
    case CallClaim(i, now) =>
      if AgentAt(agents, i).Free? {
        var claimed := store.ClaimConversation(now);
        if claimed.Some? {
          agents' := agents[i := HasClaim(claimed.value)];
          step := Some(Claim(i, claimed.value, now));
        }
      }
    case CallList(i) =>
      if AgentAt(agents, i).HasClaim? {
        HolderKnows(w, i);
        var id := agents[i].id;
        var messages := store.ListMessages(id);
        agents' := agents[i := HasPrompt(id, messages)];
        step := Some(Read(i));
      }
    case CallStart(i, now) =>
      if AgentAt(agents, i).HasPrompt? {
        HolderKnows(w, i);
        var id := agents[i].id;
        var m := store.StartAssistantMessage(id, now);
        agents' := agents[i := Writes(id, agents[i].prompt, m.value.seqNo)];
        step := Some(Begin(i, now));
      }
    case CallAppend(i, text) =>
      if AgentAt(agents, i).Writes? {
        HolderKnows(w, i);
        store.AppendChunk(agents[i].id, agents[i].seqNo, text);
        assert agents[i := agents[i]] == agents;
        step := Some(Chunk(i, text));
      }
    case CallFinish(i, proposed, now) =>
      if AgentAt(agents, i).Writes? {
        HolderKnows(w, i);
        var c := store.FinishTurn(agents[i].id, agents[i].seqNo, Open, proposed, now);
        agents' := agents[i := Free];
        step := Some(Finish(i, proposed, now));
      }
    case CallStop(i) =>
      if !AgentAt(agents, i).Free? {
        agents' := agents[i := Free];
        step := Some(Stop(i));
      }
  }

  lemma HolderKnows(w: World, i: nat)
    requires Inv(w) && !At(w, i).Free?
    ensures i in w.agents && w.agents[i].id in w.chats && WellFormed(w.chats[w.agents[i].id])
  {
  }
}

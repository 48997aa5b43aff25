/**
 * `process_message` (app/api/router.py): load the conversation, detect, store
 * the user's turn, engage when it is a scam, store the reply, reload, then
 * extract intelligence and compute metrics from what was stored.
 *
 * The services' collaborators (pattern matching, language-model calls) are
 * function values bundled in `Services`; whether each request to a remote
 * store goes through is given in `RequestLinks`; one clock value `now` serves
 * the whole request.
 */
module Router {
  import opened Wrappers
  import opened Schemas
  import opened StoreSpec
  import opened Store
  import Detection
  import Agent
  import Extractor
  import Metrics

  /** Everything the pipeline consults besides the store. */
  datatype Services = Services(
    keywordMatches: string -> Detection.KeywordMatches,
    urlsIn: string -> seq<string>,
    classify: (string, string) -> Result<Detection.ClassifierReply>,
    strategy: (Agent.StrategyPrompt, string) -> Result<Agent.StrategyReply>,
    writeReply: (string, AgentState, string, seq<HistoryItem>) -> Result<string>,
    findall: string -> Extractor.RegexMatches,
    extract: string -> Result<Extractor.ExtractorReply>)

  /** How the remote requests of one store operation go: the read and the write. */
  datatype Net = Net(read: Link, write: Link)

  /** The remote requests of one message, in the order the pipeline makes them. */
  datatype RequestLinks = RequestLinks(load: Link, appendUser: Net, update: Net, appendReply: Net, reload: Link)

  datatype MessageResponse = MessageResponse(
    scamDetected: bool, metrics: EngagementMetrics, intelligence: Intelligence, reply: string)

  /** The endpoint's answer, or the HTTP 500 every failure inside the pipeline becomes. */
  datatype Outcome = Answered(response: MessageResponse) | ServerError

  /** The agent's part of the pipeline: the strategy, the new state and the reply, or the neutral reply. */
  datatype Engagement = Engagement(newState: Option<AgentState>, reply: string)

  function Engage(conv: Conversation, history: seq<HistoryItem>, message: string, scam: bool, svc: Services): (e: Engagement)
    ensures !scam ==> e == Engagement(None, Agent.NeutralLine)
    ensures scam ==> e.newState.Some? && e.newState.value.scamConfirmed
    ensures scam ==>
      var choice := Agent.SelectedStrategy(Some(conv), conv.agentState, svc.strategy);
      && e.newState == Some(Agent.UpdateAgentState(conv.agentState, choice, true))
      && e.reply == Agent.GenerateReply(message, history, StrategyLabel(choice.strategy), e.newState.value, svc.writeReply)
    ensures scam && ValidAgentState(conv.agentState) ==> ValidAgentState(e.newState.value)
  {
    if scam then
      var choice := Agent.SelectedStrategy(Some(conv), conv.agentState, svc.strategy);
      var newState := Agent.UpdateAgentState(conv.agentState, choice, true);
      Engagement(Some(newState), Agent.GenerateReply(message, history, StrategyLabel(choice.strategy), newState, svc.writeReply))
    else Engagement(None, Agent.NeutralReply(message))
  }

  /** The response built from the reloaded conversation. */
  function Respond(reloaded: Option<Conversation>, scam: bool, reply: string, svc: Services): (out: Outcome)
    ensures reloaded.None? <==> out == ServerError
    ensures reloaded.Some? ==>
      out.response.scamDetected == scam && out.response.reply == reply
      && out.response.metrics.turns == |reloaded.value.turns|
      && out.response.metrics == Metrics.CalculateMetrics(reloaded)
      && out.response.intelligence == Extractor.ExtractSpec(HistoryOf(reloaded.value.turns), svc.findall, svc.extract)
  {
    match reloaded
    case None => ServerError
    case Some(c) =>
      var full := HistoryOf(c.turns);
      Answered(MessageResponse(scam, Metrics.CalculateMetrics(Some(c)),
                               Extractor.ExtractSpec(full, svc.findall, svc.extract), reply))
  }

  /** Loading: the stored conversation, or a fresh one for an unknown id (not stored). */
  function LoadSpec(f: FacadeState, settings: Settings, id: string, now: int, link: Link): (FacadeState, Conversation) {
    var (g, loaded) := FacadeGet(f, settings, id, link);
    (g, loaded.GetOr(NewConversation(id, [], now)))
  }

  /** The agent's turn: the state update on a scam, then the reply stored as the assistant's turn. */
  function EngageSpec(
    f: FacadeState, settings: Settings, now: int, svc: Services, links: RequestLinks,
    id: string, message: string, conv: Conversation, scam: bool): (FacadeState, string)
  {
    var e := Engage(conv, HistoryOf(conv.turns), message, scam, svc);
    (StoreEngagement(f, settings, now, links, id, e), e.reply)
  }

  /** What the agent's turn stores: the new state, if any, then the reply as the assistant's turn. */
  function StoreEngagement(f: FacadeState, settings: Settings, now: int, links: RequestLinks, id: string, e: Engagement)
    : FacadeState
  {
    var g := if e.newState.Some?
      then FacadeUpdate(f, settings, id, e.newState.value, now, links.update.read, links.update.write).0
      else f;
    FacadeAppend(g, settings, id, Turn(Assistant, e.reply, now), now, links.appendReply.read, links.appendReply.write).0
  }

  /** The verdict detection gives on `message` after `history`. */
  function Verdict(svc: Services, message: string, history: seq<HistoryItem>): bool {
    Detection.DetectVerdict(svc.keywordMatches(message), svc.urlsIn(message), message, history, svc.classify).isScam
  }

  /** The user's turn and the agent's turn: the state after both appends, the verdict and the reply. */
  function ConverseSpec(
    f: FacadeState, settings: Settings, now: int, svc: Services, links: RequestLinks,
    id: string, message: string, conv: Conversation): (FacadeState, bool, string)
  {
    var scam := Verdict(svc, message, HistoryOf(conv.turns));
    var f2 := FacadeAppend(f, settings, id, Turn(User, message, now), now, links.appendUser.read, links.appendUser.write).0;
    var (f3, reply) := EngageSpec(f2, settings, now, svc, links, id, message, conv, scam);
    (f3, scam, reply)
  }

  /** The whole request as a function of the facade's state. */
  function Process(f: FacadeState, settings: Settings, now: int, svc: Services, links: RequestLinks, req: MessageRequest)
    : (FacadeState, Outcome)
  {
    var id := req.conversationId;
    var (f1, conv) := LoadSpec(f, settings, id, now, links.load);
    AnswerSpec(f1, settings, now, svc, links, id, req.message, conv)
  }

  /** Everything after loading: both turns, then the reload and the response. */
  function AnswerSpec(
    f: FacadeState, settings: Settings, now: int, svc: Services, links: RequestLinks,
    id: string, message: string, conv: Conversation): (FacadeState, Outcome)
  {
    var (f3, scam, reply) := ConverseSpec(f, settings, now, svc, links, id, message, conv);
    FinishSpec(f3, settings, id, links.reload, scam, reply, svc)
  }

  /** Reloading after both appends, and answering from what was reloaded. */
  function FinishSpec(f: FacadeState, settings: Settings, id: string, link: Link, scam: bool, reply: string, svc: Services)
    : (FacadeState, Outcome)
  {
    var (g, reloaded) := FacadeGet(f, settings, id, link);
    (g, Respond(reloaded, scam, reply, svc))
  }

  method Load(store: MemoryStore, settings: Settings, ttl: int, now: int, id: string, link: Link)
    returns (conv: Conversation)
    requires store.Valid()
    modifies store.Repr
    ensures store.Valid() && !store.View().Unset? && fresh(store.Repr - old(store.Repr))
    ensures (store.View(), conv) == LoadSpec(old(store.View()), settings, id, now, link)
  {
    var loaded := store.Get(settings, ttl, id, link);
    conv := if loaded.Some? then loaded.value else NewConversation(id, [], now);
  }

  /** Detection on the prior history, then the user's turn is stored. */
  method Intake(
    store: MemoryStore, settings: Settings, ttl: int, now: int, svc: Services, net: Net,
    id: string, message: string, conv: Conversation)
    returns (scam: bool)
    requires store.Valid() && !store.View().Unset?
    modifies store.Repr
    ensures store.Valid() && !store.View().Unset? && store.Repr == old(store.Repr)
    ensures scam == Verdict(svc, message, HistoryOf(conv.turns))
    ensures store.View() == FacadeAppend(old(store.View()), settings, id, Turn(User, message, now), now, net.read, net.write).0
  {
    var verdict := Detection.Detect(svc.keywordMatches(message), svc.urlsIn(message), message, HistoryOf(conv.turns), svc.classify);
    scam := verdict.isScam;
    var _ := store.AppendTurn(settings, ttl, id, Turn(User, message, now), now, net.read, net.write);
  }

  /** The agent's decisions for one message; nothing is stored here. */
  method AgentTurn(conv: Conversation, message: string, scam: bool, svc: Services) returns (e: Engagement)
    ensures e == Engage(conv, HistoryOf(conv.turns), message, scam, svc)
  {
    if scam {
      var choice := Agent.SelectStrategy(Some(conv), conv.agentState, svc.strategy);
      var newState := Agent.UpdateAgentState(conv.agentState, choice, scam);
      var reply := Agent.GenerateReply(message, HistoryOf(conv.turns), StrategyLabel(choice.strategy), newState, svc.writeReply);
      e := Engagement(Some(newState), reply);
    } else {
      e := Engagement(None, Agent.NeutralReply(message));
    }
  }

  method EngageAndReply(
    store: MemoryStore, settings: Settings, ttl: int, now: int, svc: Services, links: RequestLinks,
    id: string, message: string, conv: Conversation, scam: bool)
    returns (reply: string)
    requires store.Valid() && !store.View().Unset?
    modifies store.Repr
    ensures store.Valid() && !store.View().Unset? && store.Repr == old(store.Repr)
    ensures (store.View(), reply) == EngageSpec(old(store.View()), settings, now, svc, links, id, message, conv, scam)
  {
    var e := AgentTurn(conv, message, scam, svc);
    if e.newState.Some? {
      var _ := store.UpdateAgentState(settings, ttl, id, e.newState.value, now, links.update.read, links.update.write);
    }
    reply := e.reply;
    var _ := store.AppendTurn(settings, ttl, id, Turn(Assistant, reply, now), now, links.appendReply.read, links.appendReply.write);
  }

  /** Detection and the user's turn, then the agent's turn. */
  method Converse(
    store: MemoryStore, settings: Settings, ttl: int, now: int, svc: Services, links: RequestLinks,
    id: string, message: string, conv: Conversation)
    returns (scam: bool, reply: string)
    requires store.Valid() && !store.View().Unset?
    modifies store.Repr
    ensures store.Valid() && !store.View().Unset? && store.Repr == old(store.Repr)
    ensures (store.View(), scam, reply) == ConverseSpec(old(store.View()), settings, now, svc, links, id, message, conv)
  {
    scam := Intake(store, settings, ttl, now, svc, links.appendUser, id, message, conv);
    reply := EngageAndReply(store, settings, ttl, now, svc, links, id, message, conv, scam);
  }

  /** `process_message`, step by step over the store object. */
  method ProcessMessage(
    store: MemoryStore, settings: Settings, ttl: int, now: int,
    svc: Services, links: RequestLinks, req: MessageRequest)
    returns (out: Outcome)
    requires store.Valid()
    modifies store.Repr
    ensures store.Valid() && fresh(store.Repr - old(store.Repr))
    ensures (store.View(), out) == Process(old(store.View()), settings, now, svc, links, req)
  {
    var conv := Load(store, settings, ttl, now, req.conversationId, links.load);
    out := Answer(store, settings, ttl, now, svc, links, req.conversationId, req.message, conv);
  }

  method Answer(
    store: MemoryStore, settings: Settings, ttl: int, now: int, svc: Services, links: RequestLinks,
    id: string, message: string, conv: Conversation)
    returns (out: Outcome)
    requires store.Valid() && !store.View().Unset?
    modifies store.Repr
    ensures store.Valid() && !store.View().Unset? && store.Repr == old(store.Repr)
    ensures (store.View(), out) == AnswerSpec(old(store.View()), settings, now, svc, links, id, message, conv)
  {
    var scam, reply := Converse(store, settings, ttl, now, svc, links, id, message, conv);
    out := Finish(store, settings, ttl, svc, id, links.reload, scam, reply);
  }

  method Finish(
    store: MemoryStore, settings: Settings, ttl: int, svc: Services,
    id: string, link: Link, scam: bool, reply: string)
    returns (out: Outcome)
    requires store.Valid() && !store.View().Unset?
    modifies store.Repr
    ensures store.Valid() && !store.View().Unset? && store.Repr == old(store.Repr)
    ensures (store.View(), out) == FinishSpec(old(store.View()), settings, id, link, scam, reply, svc)
  {
    var reloaded := store.Get(settings, ttl, id, link);
    if reloaded.None? {
      return ServerError;
    }
    var c := reloaded.value;
    var intel := Extractor.Extract(HistoryOf(c.turns), svc.findall, svc.extract);
    out := Answered(MessageResponse(scam, Metrics.CalculateMetrics(Some(c)), intel, reply));
  }

  /** The conversation a request starts from: the stored one, or a fresh one for an unknown id. */
  function Prior(t: Table, id: string, now: int): (c: Conversation)
    ensures id !in t ==> c == NewConversation(id, [], now) && c.agentState == DefaultAgentState()
    ensures id in t ==> c == t[id]
  {
    if id in t then t[id] else NewConversation(id, [], now)
  }

  /** The agent's turn stored in a local table. */
  function LocalEngagement(t: Table, now: int, id: string, e: Engagement): Table {
    var t3 := if e.newState.Some? then LocalUpdate(t, id, e.newState.value, now).0 else t;
    LocalAppend(t3, id, Turn(Assistant, e.reply, now), now)
  }

  /** The request run against a local table: the final table, the verdict and the reply. */
  function LocalRun(t: Table, now: int, svc: Services, req: MessageRequest): (Table, bool, string) {
    var id := req.conversationId;
    var prior := Prior(t, id, now);
    var scam := Verdict(svc, req.message, HistoryOf(prior.turns));
    var t2 := LocalAppend(t, id, Turn(User, req.message, now), now);
    var e := Engage(prior, HistoryOf(prior.turns), req.message, scam, svc);
    var t3 := if e.newState.Some? then LocalUpdate(t2, id, e.newState.value, now).0 else t2;
    (LocalAppend(t3, id, Turn(Assistant, e.reply, now), now), scam, e.reply)
  }

  /** `LocalRun` is the user's append followed by the agent's turn. */
  lemma LocalRunIsEngagement(t: Table, now: int, svc: Services, req: MessageRequest)
    ensures
      var id := req.conversationId;
      var prior := Prior(t, id, now);
      var scam := Verdict(svc, req.message, HistoryOf(prior.turns));
      var e := Engage(prior, HistoryOf(prior.turns), req.message, scam, svc);
      LocalRun(t, now, svc, req) == (LocalEngagement(LocalAppend(t, id, Turn(User, req.message, now), now), now, id, e), scam, e.reply)
  {
  }

  /** On a local table, storing the agent's turn through the facade is `LocalEngagement`. */
  lemma LocalStoreEngagement(t: Table, settings: Settings, now: int, links: RequestLinks, id: string, e: Engagement)
    ensures StoreEngagement(LocalView(t), settings, now, links, id, e) == LocalView(LocalEngagement(t, now, id, e))
  {
    if e.newState.Some? {
      assert FacadeUpdate(LocalView(t), settings, id, e.newState.value, now, links.update.read, links.update.write).0
        == LocalView(LocalUpdate(t, id, e.newState.value, now).0);
    }
  }

  /** On a local table, both turns of a request are the local appends and update. */
  lemma LocalConverse(
    t: Table, settings: Settings, now: int, svc: Services, links: RequestLinks, id: string, message: string, prior: Conversation)
    ensures
      var scam := Verdict(svc, message, HistoryOf(prior.turns));
      var e := Engage(prior, HistoryOf(prior.turns), message, scam, svc);
      var t2 := LocalAppend(t, id, Turn(User, message, now), now);
      ConverseSpec(LocalView(t), settings, now, svc, links, id, message, prior)
        == (LocalView(LocalEngagement(t2, now, id, e)), scam, e.reply)
  {
    var scam := Verdict(svc, message, HistoryOf(prior.turns));
    var e := Engage(prior, HistoryOf(prior.turns), message, scam, svc);
    var t2 := LocalAppend(t, id, Turn(User, message, now), now);
    assert FacadeAppend(LocalView(t), settings, id, Turn(User, message, now), now, links.appendUser.read, links.appendUser.write).0
      == LocalView(t2);
    LocalStoreEngagement(t2, settings, now, links, id, e);
  }

  /** With the local table the whole request is `LocalRun`, answered from the final record. */
  lemma LocalProcess(
    f: FacadeState, t: Table, settings: Settings, now: int, svc: Services, links: RequestLinks, req: MessageRequest)
    requires Ready(f, settings) == LocalView(t)
    ensures var (t4, scam, reply) := LocalRun(t, now, svc, req);
      req.conversationId in t4
      && Process(f, settings, now, svc, links, req) == (LocalView(t4), Respond(Some(t4[req.conversationId]), scam, reply, svc))
  {
    var id := req.conversationId;
    var prior := Prior(t, id, now);
    assert LoadSpec(f, settings, id, now, links.load) == (LocalView(t), prior);
    LocalConverse(t, settings, now, svc, links, id, req.message, prior);
    LocalRunIsEngagement(t, now, svc, req);
    var (t4, scam, reply) := LocalRun(t, now, svc, req);
    assert FinishSpec(LocalView(t4), settings, id, links.reload, scam, reply, svc)
      == (LocalView(t4), Respond(Some(t4[id]), scam, reply, svc));
  }

  /**
   * With the local table, a request leaves the conversation with exactly two
   * more turns: the user's message, then the reply. The verdict is the one
   * detection gives on the history before the message, and every other
   * conversation is left alone.
   */
  lemma LocalRunAppendsTwoTurns(t: Table, now: int, svc: Services, req: MessageRequest)
    ensures var (t4, scam, reply) := LocalRun(t, now, svc, req);
      var id := req.conversationId;
      var prior := Prior(t, id, now);
      id in t4
      && t4[id].turns == prior.turns + [Turn(User, req.message, now), Turn(Assistant, reply, now)]
      && scam == Detection.DetectVerdict(
           svc.keywordMatches(req.message), svc.urlsIn(req.message), req.message, HistoryOf(prior.turns), svc.classify).isScam
      && (forall other :: other != id ==> Lookup(t4, other) == Lookup(t, other))
  {
    var id := req.conversationId;
    var prior := Prior(t, id, now);
    var scam := Verdict(svc, req.message, HistoryOf(prior.turns));
    var e := Engage(prior, HistoryOf(prior.turns), req.message, scam, svc);
    var t2 := LocalAppend(t, id, Turn(User, req.message, now), now);
    assert t2[id].turns == prior.turns + [Turn(User, req.message, now)];
    LocalRunIsEngagement(t, now, svc, req);
    LocalEngagementEffect(t2, now, id, e);
    forall other | other != id
      ensures Lookup(LocalEngagement(t2, now, id, e), other) == Lookup(t, other)
    {
      LocalEngagementOthers(t2, now, id, e, other);
    }
    assert prior.turns + [Turn(User, req.message, now)] + [Turn(Assistant, e.reply, now)]
      == prior.turns + [Turn(User, req.message, now), Turn(Assistant, e.reply, now)];
  }

  /** With the local table, the stored state moves exactly as the agent's update says, and only on a scam. */
  lemma LocalRunState(t: Table, now: int, svc: Services, req: MessageRequest)
    ensures var (t4, scam, reply) := LocalRun(t, now, svc, req);
      var id := req.conversationId;
      var prior := Prior(t, id, now);
      id in t4
      && (!scam ==> t4[id].agentState == prior.agentState && reply == Agent.NeutralLine)
      && (scam ==>
            t4[id].agentState.scamConfirmed
            && t4[id].agentState
               == Agent.UpdateAgentState(prior.agentState, Agent.SelectedStrategy(Some(prior), prior.agentState, svc.strategy), true))
  {
    var id := req.conversationId;
    var prior := Prior(t, id, now);
    var t2 := LocalAppend(t, id, Turn(User, req.message, now), now);
    assert id in t2 && t2[id].agentState == prior.agentState;
  }

  /** The agent's turn on a local table: one more turn at the end, and the new state if there is one. */
  lemma LocalEngagementEffect(t: Table, now: int, id: string, e: Engagement)
    requires id in t
    ensures var t4 := LocalEngagement(t, now, id, e);
      id in t4
      && t4[id].turns == t[id].turns + [Turn(Assistant, e.reply, now)]
      && t4[id].agentState == (if e.newState.Some? then e.newState.value else t[id].agentState)
  {
    var t3 := if e.newState.Some? then LocalUpdate(t, id, e.newState.value, now).0 else t;
    assert id in t3 && t3[id].turns == t[id].turns;
  }

  /** The agent's turn on a local table touches no other conversation. */
  lemma LocalEngagementOthers(t: Table, now: int, id: string, e: Engagement, other: string)
    requires other != id
    ensures Lookup(LocalEngagement(t, now, id, e), other) == Lookup(t, other)
  {
  }

  /**
   * Detection and the reply writer see the history before the current message:
   * the stored record ends with the user's turn, and what they are given is
   * that record's history without its last item.
   */
  lemma ReplyHistoryExcludesCurrentMessage(t: Table, now: int, svc: Services, req: MessageRequest)
    ensures var id := req.conversationId;
      var prior := Prior(t, id, now);
      var (_, scam, reply) := LocalRun(t, now, svc, req);
      var h := HistoryOf(LocalAppend(t, id, Turn(User, req.message, now), now)[id].turns);
      && |h| >= 1 && h[|h| - 1] == HistoryItem(Some("user"), Some(req.message))
      && scam == Verdict(svc, req.message, h[..|h| - 1])
      && reply == Engage(prior, h[..|h| - 1], req.message, scam, svc).reply
  {
    var id := req.conversationId;
    var prior := Prior(t, id, now);
    var stored := LocalAppend(t, id, Turn(User, req.message, now), now)[id];
    assert stored.turns == prior.turns + [Turn(User, req.message, now)];
    var h := HistoryOf(stored.turns);
    assert h[..|h| - 1] == HistoryOf(prior.turns);
  }

  /**
   * With every request to the server going through, a message adds exactly
   * two turns to the server's record, the user's then the reply, and the
   * answer counts them.
   */
  lemma RemoteRunAppendsTwoTurns(st: RemoteState, settings: Settings, now: int, svc: Services, req: MessageRequest)
    requires RemoteConsistent(st)
    ensures var links := RequestLinks(Up, Net(Up, Up), Net(Up, Up), Net(Up, Up), Up);
      var id := req.conversationId;
      var prior := Lookup(st.server, RemoteKey(id)).GetOr(NewConversation(id, [], now));
      var r := Process(RemoteView(st), settings, now, svc, links, req);
      && r.0.RemoteView? && RemoteKey(id) in r.0.remote.server
      && r.1.Answered?
      && r.0.remote.server[RemoteKey(id)].turns
         == prior.turns + [Turn(User, req.message, now), Turn(Assistant, r.1.response.reply, now)]
      && r.1.response.metrics.turns == |prior.turns| + 2
  {
    var links := RequestLinks(Up, Net(Up, Up), Net(Up, Up), Net(Up, Up), Up);
    var id := req.conversationId;
    var prior := Lookup(st.server, RemoteKey(id)).GetOr(NewConversation(id, [], now));
    RemoteProcessUnfold(st, settings, now, svc, links, req, prior);
    RemoteConverseUp(st, settings, now, svc, links, id, req.message, prior);
    var c := ConverseSpec(RemoteView(st), settings, now, svc, links, id, req.message, prior);
    RemoteFinishUp(c.0.remote, settings, id, c.1, c.2, svc);
  }

  /** On the remote backend with the load going through, the request is the conversation step on the record read. */
  lemma RemoteProcessUnfold(
    st: RemoteState, settings: Settings, now: int, svc: Services, links: RequestLinks, req: MessageRequest, prior: Conversation)
    requires RemoteConsistent(st) && links.load == Up
    requires prior == Lookup(st.server, RemoteKey(req.conversationId)).GetOr(NewConversation(req.conversationId, [], now))
    ensures var c := ConverseSpec(RemoteView(st), settings, now, svc, links, req.conversationId, req.message, prior);
      Process(RemoteView(st), settings, now, svc, links, req) == FinishSpec(c.0, settings, req.conversationId, links.reload, c.1, c.2, svc)
  {
    RemoteGetFindsIdInvariant(st, req.conversationId, Up, now);
    assert LoadSpec(RemoteView(st), settings, req.conversationId, now, Up) == (RemoteView(st), prior);
  }

  /** With the server reachable, the final reload returns the server's record and the answer is computed from it. */
  lemma RemoteFinishUp(st: RemoteState, settings: Settings, id: string, scam: bool, reply: string, svc: Services)
    requires RemoteKey(id) in st.server
    ensures FinishSpec(RemoteView(st), settings, id, Up, scam, reply, svc)
      == (RemoteView(st), Respond(Some(st.server[RemoteKey(id)]), scam, reply, svc))
  {
  }

  /** With the server reachable, the user's turn and then the reply are added to the end of the server's record. */
  lemma RemoteConverseUp(
    st: RemoteState, settings: Settings, now: int, svc: Services, links: RequestLinks, id: string, message: string, prior: Conversation)
    requires RemoteConsistent(st)
    requires prior == Lookup(st.server, RemoteKey(id)).GetOr(NewConversation(id, [], now))
    requires links.appendUser == Net(Up, Up) && links.update == Net(Up, Up) && links.appendReply == Net(Up, Up)
    ensures var r := ConverseSpec(RemoteView(st), settings, now, svc, links, id, message, prior);
      && r.0.RemoteView? && RemoteKey(id) in r.0.remote.server
      && r.0.remote.server[RemoteKey(id)].turns == prior.turns + [Turn(User, message, now), Turn(Assistant, r.2, now)]
  {
    ConverseSpecUnfold(st, settings, now, svc, links, id, message, prior);
    var e := Engage(prior, HistoryOf(prior.turns), message, Verdict(svc, message, HistoryOf(prior.turns)), svc);
    RemoteTwoTurnsUp(st, settings, now, links, id, Turn(User, message, now), e, prior);
  }

  /** With the server reachable, the user's turn and then the agent's are added to the end of the server's record. */
  lemma RemoteTwoTurnsUp(
    st: RemoteState, settings: Settings, now: int, links: RequestLinks, id: string, user: Turn, e: Engagement, prior: Conversation)
    requires RemoteConsistent(st)
    requires prior == Lookup(st.server, RemoteKey(id)).GetOr(NewConversation(id, [], now))
    requires links.update == Net(Up, Up) && links.appendReply == Net(Up, Up)
    ensures var g := StoreEngagement(RemoteView(RemoteAppend(st, id, user, now, Up, Up).0), settings, now, links, id, e);
      && g.RemoteView? && RemoteKey(id) in g.remote.server
      && g.remote.server[RemoteKey(id)].turns == prior.turns + [user, Turn(Assistant, e.reply, now)]
  {
    RemoteAppendUserUp(st, id, user, now, prior);
    RemoteStoreEngagementUp(RemoteAppend(st, id, user, now, Up, Up).0, settings, now, links, id, e);
    assert prior.turns + [user] + [Turn(Assistant, e.reply, now)] == prior.turns + [user, Turn(Assistant, e.reply, now)];
  }

  /** With the server reachable, the user's turn goes to the end of the server's record for the conversation. */
  lemma RemoteAppendUserUp(st: RemoteState, id: string, user: Turn, now: int, prior: Conversation)
    requires RemoteConsistent(st)
    requires prior == Lookup(st.server, RemoteKey(id)).GetOr(NewConversation(id, [], now))
    ensures var st2 := RemoteAppend(st, id, user, now, Up, Up).0;
      RemoteConsistent(st2) && RemoteKey(id) in st2.server && st2.server[RemoteKey(id)].turns == prior.turns + [user]
  {
    RemoteGetFindsIdInvariant(st, id, Up, now);
  }

  /** On the remote backend, the conversation step is the user's append followed by the agent's turn. */
  lemma ConverseSpecUnfold(
    st: RemoteState, settings: Settings, now: int, svc: Services, links: RequestLinks, id: string, message: string, prior: Conversation)
    ensures var st2 := RemoteAppend(st, id, Turn(User, message, now), now, links.appendUser.read, links.appendUser.write).0;
      var scam := Verdict(svc, message, HistoryOf(prior.turns));
      var e := Engage(prior, HistoryOf(prior.turns), message, scam, svc);
      ConverseSpec(RemoteView(st), settings, now, svc, links, id, message, prior)
        == (StoreEngagement(RemoteView(st2), settings, now, links, id, e), scam, e.reply)
  {
  }

  /** With the server reachable, the agent's turn adds the reply to the end of the server's record. */
  lemma RemoteStoreEngagementUp(st: RemoteState, settings: Settings, now: int, links: RequestLinks, id: string, e: Engagement)
    requires RemoteConsistent(st) && RemoteKey(id) in st.server
    requires links.update == Net(Up, Up) && links.appendReply == Net(Up, Up)
    ensures var g := StoreEngagement(RemoteView(st), settings, now, links, id, e);
      && g.RemoteView? && RemoteConsistent(g.remote) && RemoteKey(id) in g.remote.server
      && g.remote.server[RemoteKey(id)].turns == st.server[RemoteKey(id)].turns + [Turn(Assistant, e.reply, now)]
  {
    var key := RemoteKey(id);
    var st3 := if e.newState.Some? then RemoteUpdate(st, id, e.newState.value, now, Up, Up).0 else st;
    RemoteGetFindsIdInvariant(st, id, Up, now);
    assert RemoteConsistent(st3) && key in st3.server && st3.server[key].turns == st.server[key].turns;
    RemoteGetFindsIdInvariant(st3, id, Up, now);
    assert StoreEngagement(RemoteView(st), settings, now, links, id, e)
      == RemoteView(RemoteAppend(st3, id, Turn(Assistant, e.reply, now), now, Up, Up).0);
  }

  /** When the final reload fails, the request ends in HTTP 500 even though both turns may have been stored. */
  lemma ReloadFailureIsServerError(
    st: RemoteState, settings: Settings, now: int, svc: Services, links: RequestLinks, req: MessageRequest)
    requires links.reload == Broken
    ensures Process(RemoteView(st), settings, now, svc, links, req).1 == ServerError
  {
  }
}

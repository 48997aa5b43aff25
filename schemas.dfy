/**
 * The records the service passes around (app/models/schemas.py), with their
 * defaults and the bounds the schema validator enforces.
 *
 * Trust and curiosity levels are held in hundredths: 0 stands for 0.0 and 100 for 1.0.
 * Every change the agent makes to them is a multiple of 0.01, so this is exact.
 * Timestamps are integer microseconds.
 */
module Schemas {
  import opened Wrappers

  const LevelMax: int := 100

  predicate ValidLevel(x: int) {
    0 <= x <= LevelMax
  }

  datatype AgentState = AgentState(trust: int, curiosity: int, strategy: string, scamConfirmed: bool)

  /** Trust and curiosity both lie in [0, 1]; the strategy label is not constrained. */
  predicate ValidAgentState(s: AgentState) {
    ValidLevel(s.trust) && ValidLevel(s.curiosity)
  }

  /** A fresh conversation's state: trust 0.5, curiosity 0.7, strategy "neutral", scam not confirmed. */
  function DefaultAgentState(): (s: AgentState)
    ensures ValidAgentState(s)
    ensures s.trust == 50 && s.curiosity == 70 && s.strategy == "neutral" && !s.scamConfirmed
  {
    AgentState(50, 70, "neutral", false)
  }

  /** A turn's role can only be "user" or "assistant". */
  datatype Role = User | Assistant

  function RoleName(r: Role): string {
    match r
    case User => "user"
    case Assistant => "assistant"
  }

  datatype Turn = Turn(role: Role, content: string, timestamp: int)

  datatype Conversation = Conversation(
    id: string,
    turns: seq<Turn>,
    agentState: AgentState,
    startedAt: int,
    lastUpdated: int)

  /** A conversation built with only its id and turns given: default state, both timestamps "now". */
  function NewConversation(id: string, turns: seq<Turn>, now: int): (c: Conversation)
    ensures c.id == id && c.turns == turns && c.agentState == DefaultAgentState()
    ensures c.startedAt == now && c.lastUpdated == now
  {
    Conversation(id, turns, DefaultAgentState(), now, now)
  }

  datatype Intelligence = Intelligence(
    upiIds: seq<string>,
    bankAccounts: seq<string>,
    urls: seq<string>,
    phones: seq<string>,
    ifscCodes: seq<string>)

  function EmptyIntelligence(): (r: Intelligence)
    ensures r.upiIds == [] && r.bankAccounts == [] && r.urls == [] && r.phones == [] && r.ifscCodes == []
  {
    Intelligence([], [], [], [], [])
  }

  datatype DetectionResult = DetectionResult(isScam: bool, confidence: real)

  /** The validator refuses a detection confidence outside [0, 1]. */
  predicate ValidDetection(d: DetectionResult) {
    0.0 <= d.confidence <= 1.0
  }

  /** The six strategies a StrategyChoice may carry. */
  datatype Strategy =
    | AskPaymentDetails
    | AskLinkAgain
    | DelayResponse
    | RequestConfirmation
    | ExpressConcern
    | Neutral

  function StrategyLabel(s: Strategy): string {
    match s
    case AskPaymentDetails => "ask_payment_details"
    case AskLinkAgain => "ask_link_again"
    case DelayResponse => "delay_response"
    case RequestConfirmation => "request_confirmation"
    case ExpressConcern => "express_concern"
    case Neutral => "neutral"
  }

  /** Building a StrategyChoice from a label: it succeeds exactly for the six allowed labels. */
  function ParseStrategy(name: string): (r: Option<Strategy>)
    ensures r.Some? ==> StrategyLabel(r.value) == name
    ensures r.None? ==> forall s: Strategy :: StrategyLabel(s) != name
  {
    if name == "ask_payment_details" then Some(AskPaymentDetails)
    else if name == "ask_link_again" then Some(AskLinkAgain)
    else if name == "delay_response" then Some(DelayResponse)
    else if name == "request_confirmation" then Some(RequestConfirmation)
    else if name == "express_concern" then Some(ExpressConcern)
    else if name == "neutral" then Some(Neutral)
    else None
  }

  lemma ParseStrategyLabel(s: Strategy)
    ensures ParseStrategy(StrategyLabel(s)) == Some(s)
  {
  }

  /** No two strategies share a label. */
  lemma StrategyLabelInjective(s: Strategy)
    ensures forall t: Strategy :: StrategyLabel(t) == StrategyLabel(s) ==> t == s
  {
    forall t: Strategy | StrategyLabel(t) == StrategyLabel(s)
      ensures t == s
    {
      ParseStrategyLabel(t);
      ParseStrategyLabel(s);
    }
  }

  datatype StrategyChoice = StrategyChoice(strategy: Strategy, reasoning: string)

  datatype EngagementMetrics = EngagementMetrics(turns: int, durationSeconds: int)

  predicate ValidMetrics(m: EngagementMetrics) {
    m.turns >= 0 && m.durationSeconds >= 0
  }

  datatype MessageRequest = MessageRequest(conversationId: string, message: string)

  /** The validator demands a non-empty conversation id and a non-empty message. */
  predicate ValidRequest(r: MessageRequest) {
    |r.conversationId| >= 1 && |r.message| >= 1
  }

  /** One entry of the plain history handed to the services: keys "role" and "content", either may be absent. */
  datatype HistoryItem = HistoryItem(role: Option<string>, content: Option<string>)

  /** The history the router builds from stored turns: both keys always present. */
  function HistoryOf(turns: seq<Turn>): (h: seq<HistoryItem>)
    ensures |h| == |turns|
    ensures forall i :: 0 <= i < |turns| ==>
      h[i] == HistoryItem(Some(RoleName(turns[i].role)), Some(turns[i].content))
  {
    seq(|turns|, i requires 0 <= i < |turns| => HistoryItem(Some(RoleName(turns[i].role)), Some(turns[i].content)))
  }
}

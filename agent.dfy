/**
 * The honeypot agent (app/agents/honeypot_agent.py): its engagement-state
 * transition, strategy selection with its fallback, reply clean-up and the
 * canned replies. The language-model calls are function parameters returning
 * `Result`s; the prompt texts they are given are not modelled.
 */
module Agent {
  import opened Wrappers
  import opened Text
  import opened Schemas
  import History

  function MinInt(a: int, b: int): int {
    if a <= b then a else b
  }

  function MaxInt(a: int, b: int): int {
    if a <= b then b else a
  }

  // ---------------------------------------------------------------------------
  // Engagement state
  // ---------------------------------------------------------------------------

  /** The trust change (in hundredths) a strategy asks for before clamping. */
  function TrustDelta(strategy: Strategy): int {
    match strategy
    case DelayResponse => -5
    case RequestConfirmation => -3
    case AskPaymentDetails => 2
    case AskLinkAgain => 2
    case ExpressConcern => 0
    case Neutral => 0
  }

  /** The new trust level: lowered with a floor of 0, raised with a ceiling of 1.0, or left alone. */
  function NextTrust(trust: int, strategy: Strategy): int {
    match strategy
    case DelayResponse => MaxInt(0, trust - 5)
    case RequestConfirmation => MaxInt(0, trust - 3)
    case AskPaymentDetails => MinInt(LevelMax, trust + 2)
    case AskLinkAgain => MinInt(LevelMax, trust + 2)
    case ExpressConcern => trust
    case Neutral => trust
  }

  /**
   * `update_agent_state`. Curiosity rises by 0.1 (capped at 1.0) only on the
   * first detection; trust moves by the strategy's delta, clamped to [0, 1];
   * the confirmation flag is never cleared.
   */
  function UpdateAgentState(current: AgentState, choice: StrategyChoice, scamDetected: bool): (s: AgentState)
    ensures ValidAgentState(current) ==> ValidAgentState(s)
    ensures s.strategy == StrategyLabel(choice.strategy)
    ensures s.scamConfirmed <==> current.scamConfirmed || scamDetected
    ensures s.curiosity != current.curiosity ==> scamDetected && !current.scamConfirmed
    ensures ValidLevel(current.curiosity) ==> current.curiosity <= s.curiosity <= current.curiosity + 10
    ensures ValidLevel(current.trust) ==> current.trust - 5 <= s.trust <= current.trust + 2
    ensures ValidLevel(current.trust) && 5 <= current.trust <= LevelMax - 2 ==>
      s.trust == current.trust + TrustDelta(choice.strategy)
    ensures ValidLevel(current.trust) ==>
      s.trust == MaxInt(0, MinInt(LevelMax, current.trust + TrustDelta(choice.strategy)))
    ensures scamDetected && !current.scamConfirmed ==> s.curiosity == MinInt(LevelMax, current.curiosity + 10)
  {
    var curiosity := if scamDetected && !current.scamConfirmed
      then MinInt(LevelMax, current.curiosity + 10) else current.curiosity;
    AgentState(
      NextTrust(current.trust, choice.strategy),
      curiosity,
      StrategyLabel(choice.strategy),
      current.scamConfirmed || scamDetected)
  }

  /** Trust 0.50 becomes 0.45, 0.47, 0.52 or stays 0.50 depending on the strategy. */
  lemma TrustExamples(reasoning: string)
    ensures UpdateAgentState(DefaultAgentState(), StrategyChoice(DelayResponse, reasoning), false).trust == 45
    ensures UpdateAgentState(DefaultAgentState(), StrategyChoice(RequestConfirmation, reasoning), false).trust == 47
    ensures UpdateAgentState(DefaultAgentState(), StrategyChoice(AskPaymentDetails, reasoning), true).trust == 52
    ensures UpdateAgentState(DefaultAgentState(), StrategyChoice(AskLinkAgain, reasoning), true).trust == 52
    ensures UpdateAgentState(DefaultAgentState(), StrategyChoice(ExpressConcern, reasoning), true).trust == 50
  {
  }

  /** One interaction as the router feeds it to the agent. */
  datatype Step = Step(choice: StrategyChoice, scamDetected: bool)

  /** The state after a sequence of updates, each applied to the previous result. */
  function ApplySteps(s: AgentState, steps: seq<Step>): AgentState
    decreases |steps|
  {
    if steps == [] then s
    else ApplySteps(UpdateAgentState(s, steps[0].choice, steps[0].scamDetected), steps[1..])
  }

  lemma {:induction false} ApplyStepsKeepsValid(s: AgentState, steps: seq<Step>)
    requires ValidAgentState(s)
    ensures ValidAgentState(ApplySteps(s, steps))
    decreases |steps|
  {
    if steps != [] {
      ApplyStepsKeepsValid(UpdateAgentState(s, steps[0].choice, steps[0].scamDetected), steps[1..]);
    }
  }

  /**
   * Along any chain of updates curiosity rises once, by 0.1 capped at 1.0, when the
   * chain confirms the scam for the first time, and otherwise stays where it was.
   */
  lemma {:induction false} CuriosityRisesAtMostOnce(s: AgentState, steps: seq<Step>)
    ensures var f := ApplySteps(s, steps);
      f.curiosity == if !s.scamConfirmed && f.scamConfirmed then MinInt(LevelMax, s.curiosity + 10) else s.curiosity
    decreases |steps|
  {
    if steps != [] {
      var next := UpdateAgentState(s, steps[0].choice, steps[0].scamDetected);
      CuriosityRisesAtMostOnce(next, steps[1..]);
      ConfirmationIsMonotone(next, steps[1..]);
    }
  }

  /** The confirmation flag at the end of a chain is the old flag or any detection along it. */
  lemma {:induction false} ConfirmationIsMonotone(s: AgentState, steps: seq<Step>)
    ensures ApplySteps(s, steps).scamConfirmed <==>
      s.scamConfirmed || exists i :: 0 <= i < |steps| && steps[i].scamDetected
    decreases |steps|
  {
    if steps != [] {
      var next := UpdateAgentState(s, steps[0].choice, steps[0].scamDetected);
      ConfirmationIsMonotone(next, steps[1..]);
      if exists i :: 0 <= i < |steps[1..]| && steps[1..][i].scamDetected {
        var i :| 0 <= i < |steps[1..]| && steps[1..][i].scamDetected;
        assert steps[i + 1].scamDetected;
      }
      if exists i :: 0 <= i < |steps| && steps[i].scamDetected {
        var i :| 0 <= i < |steps| && steps[i].scamDetected;
        if i > 0 {
          assert steps[1..][i - 1].scamDetected;
        }
      }
    }
  }

  // ---------------------------------------------------------------------------
  // Strategy selection
  // ---------------------------------------------------------------------------

  /** What the strategy prompt is filled with. */
  datatype StrategyPrompt = StrategyPrompt(trust: int, curiosity: int, previousStrategy: string, turnCount: nat)

  /** The collaborator's JSON answer; either key may be absent. */
  datatype StrategyReply = StrategyReply(strategy: Option<string>, reasoning: Option<string>)

  function FallbackChoice(): StrategyChoice {
    StrategyChoice(Neutral, "Fallback to neutral")
  }

  /** Whether `name` is one of the six labels a StrategyChoice accepts. */
  ghost predicate IsStrategyLabel(name: string) {
    exists s: Strategy :: StrategyLabel(s) == name
  }

  /**
   * Turning the collaborator's answer into a StrategyChoice: a missing label
   * reads as "neutral", a missing reasoning as "", and a failed call or a label
   * outside the six allowed ends in the neutral fallback.
   */
  function ChooseStrategy(reply: Result<StrategyReply>): (c: StrategyChoice)
    ensures reply.Err? ==> c == FallbackChoice()
    ensures reply.Ok? && IsStrategyLabel(reply.value.strategy.GetOr("neutral")) ==>
      StrategyLabel(c.strategy) == reply.value.strategy.GetOr("neutral") && c.reasoning == reply.value.reasoning.GetOr("")
    ensures reply.Ok? && !IsStrategyLabel(reply.value.strategy.GetOr("neutral")) ==> c == FallbackChoice()
  {
    match reply
    case Err => FallbackChoice()
    case Ok(answer) =>
      match ParseStrategy(answer.strategy.GetOr("neutral"))
      case None => FallbackChoice()
      case Some(s) => StrategyChoice(s, answer.reasoning.GetOr(""))
  }

  /** An answer without a "strategy" key selects the neutral strategy with the given reasoning. */
  lemma MissingLabelIsNeutral(reasoning: Option<string>)
    ensures ChooseStrategy(Ok(StrategyReply(None, reasoning))) == StrategyChoice(Neutral, reasoning.GetOr(""))
  {
  }

  /** An unknown label is not accepted: the fallback is chosen. */
  lemma UnknownLabelFallsBack(reasoning: Option<string>)
    ensures ChooseStrategy(Ok(StrategyReply(Some("bribe"), reasoning))) == FallbackChoice()
  {
    assert !IsStrategyLabel("bribe") by {
      forall s: Strategy ensures StrategyLabel(s) != "bribe" {
        assert StrategyLabel(s)[0] != 'b';
      }
    }
  }

  /** The number of turns shown in the prompt: 0 without a conversation. */
  function TurnCount(conversation: Option<Conversation>): (n: nat)
    ensures conversation.None? ==> n == 0
    ensures conversation.Some? ==> n == |conversation.value.turns|
  {
    match conversation
    case None => 0
    case Some(c) => |c.turns|
  }

  /** The last four turns, as "role: content" lines; empty without a conversation. */
  function RecentItems(conversation: Option<Conversation>): (items: seq<HistoryItem>)
    ensures |items| <= 4
    ensures conversation.None? ==> items == []
    ensures conversation.Some? ==>
      var h := HistoryOf(conversation.value.turns);
      |items| == MinInt(4, |h|) && items == h[|h| - |items|..]
  {
    match conversation
    case None => []
    case Some(c) => History.LastN(HistoryOf(c.turns), 4)
  }

  function StrategyRequest(recent: string): string {
    "Recent conversation:\n" + recent + "\n\nSelect best strategy."
  }

  function StrategyPromptOf(conversation: Option<Conversation>, state: AgentState): StrategyPrompt {
    StrategyPrompt(state.trust, state.curiosity, state.strategy, TurnCount(conversation))
  }

  function SelectedStrategy(
    conversation: Option<Conversation>, state: AgentState,
    complete: (StrategyPrompt, string) -> Result<StrategyReply>): StrategyChoice
  {
    ChooseStrategy(complete(StrategyPromptOf(conversation, state),
                            StrategyRequest(History.Render(RecentItems(conversation)))))
  }

  /** `select_strategy`: builds the recent transcript in a loop, asks the collaborator, never fails. */
  method SelectStrategy(
    conversation: Option<Conversation>, state: AgentState,
    complete: (StrategyPrompt, string) -> Result<StrategyReply>)
    returns (c: StrategyChoice)
    ensures c == SelectedStrategy(conversation, state, complete)
    ensures ParseStrategy(StrategyLabel(c.strategy)) == Some(c.strategy)
  {
    var prompt := StrategyPrompt(state.trust, state.curiosity, state.strategy, TurnCount(conversation));
    var recent := History.BuildTranscript(RecentItems(conversation));
    c := ChooseStrategy(complete(prompt, StrategyRequest(recent)));
    ParseStrategyLabel(c.strategy);
  }

  // ---------------------------------------------------------------------------
  // Replies
  // ---------------------------------------------------------------------------

  lemma SliceOfSlice(r: string, t: string, s: string)
    requires IsSlice(r, t) && IsSlice(t, s)
    ensures IsSlice(r, s)
  {
    var i, j :| 0 <= i <= j <= |t| && r == t[i..j];
    var a, b :| 0 <= a <= b <= |s| && t == s[a..b];
    assert forall k :: 0 <= k < |r| ==> r[k] == s[a + i + k];
    assert r == s[a + i..a + j];
  }

  /** `reply.strip().strip('"').strip("'")`. */
  function CleanReply(raw: string): (r: string)
    ensures IsSlice(r, raw)
    ensures r == [] || (r[0] != '\'' && r[|r| - 1] != '\'')
  {
    var a := Strip(raw, Whitespace);
    var b := Strip(a, {'"'});
    var r := Strip(b, {'\''});
    SliceOfSlice(b, a, raw);
    SliceOfSlice(r, b, raw);
    r
  }

  /** A reply with nothing to strip at either end comes back unchanged. */
  lemma CleanReplyKeepsPlainText(raw: string)
    requires raw != []
    requires raw[0] !in Whitespace && raw[0] != '"' && raw[0] != '\''
    requires raw[|raw| - 1] !in Whitespace && raw[|raw| - 1] != '"' && raw[|raw| - 1] != '\''
    ensures CleanReply(raw) == raw
  {
    StripUnchanged(raw, Whitespace);
    StripUnchanged(raw, {'"'});
    StripUnchanged(raw, {'\''});
  }

  const GenericFallback: string := "I'm not sure I understand. Could you explain?"

  /** The canned line for each strategy. */
  function CannedLine(s: Strategy): string {
    match s
    case AskPaymentDetails => "I'm a bit confused about the payment. Can you explain again?"
    case AskLinkAgain => "Sorry, I couldn't open that link. Could you send it again?"
    case DelayResponse => "Let me check with my family first. Can we continue later?"
    case RequestConfirmation => "Just to be sure, can you confirm those details again?"
    case ExpressConcern => "I'm a little worried. Is this really legitimate?"
    case Neutral => "I see. Can you tell me more about this?"
  }

  /** `_get_fallback_reply`: a dictionary lookup on the label, with the generic line as default. */
  function FallbackReply(strategy: string): (r: string)
    ensures forall s: Strategy :: StrategyLabel(s) == strategy ==> r == CannedLine(s)
    ensures (forall s: Strategy :: StrategyLabel(s) != strategy) ==> r == GenericFallback
  {
    match ParseStrategy(strategy)
    case Some(s) => StrategyLabelInjective(s); CannedLine(s)
    case None => GenericFallback
  }

  /**
   * `generate_reply`: the collaborator's reply, cleaned, or the strategy's
   * fallback line when the call fails. It is given the strategy label, the
   * state, the message and the prior history.
   */
  function GenerateReply(
    message: string, history: seq<HistoryItem>, strategy: string, state: AgentState,
    complete: (string, AgentState, string, seq<HistoryItem>) -> Result<string>): (r: string)
    ensures complete(strategy, state, message, history).Err? ==> r == FallbackReply(strategy)
    ensures complete(strategy, state, message, history).Ok? ==>
      IsSlice(r, complete(strategy, state, message, history).value)
      && (r == [] || (r[0] != '\'' && r[|r| - 1] != '\''))
  {
    match complete(strategy, state, message, history)
    case Err => FallbackReply(strategy)
    case Ok(raw) => CleanReply(raw)
  }

  const NeutralLine: string := "Thank you for your message. How can I help you today?"

  /** `generate_neutral_reply`: the same line whatever the message. */
  function NeutralReply(message: string): (r: string)
    ensures r == NeutralLine
  {
    NeutralLine
  }
}

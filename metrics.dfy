/**
 * Engagement metrics (app/services/metrics.py): turn count, conversation
 * duration, number of extracted entities and the weighted engagement score.
 *
 * Timestamps are integer microseconds. The score is held in hundredths of a
 * point (0 stands for 0.0 and 10000 for 100.0); every weight is a multiple of
 * 0.01 point, so the components are exact.
 */
module Metrics {
  import opened Wrappers
  import opened Schemas
  import opened Collections
  import Extractor

  const MicrosPerSecond: int := 1000000

  /** `int(delta.total_seconds())`: whole seconds, truncated toward zero. */
  function TruncatedSeconds(micros: int): (s: int)
    ensures micros >= 0 ==> 0 <= s && s * MicrosPerSecond <= micros < (s + 1) * MicrosPerSecond
    ensures micros < 0 ==> s <= 0 && (s - 1) * MicrosPerSecond < micros <= s * MicrosPerSecond
  {
    if micros >= 0 then micros / MicrosPerSecond else -((-micros) / MicrosPerSecond)
  }

  /** `calculate_metrics`: zeros without a conversation, else the turn count and the non-negative duration. */
  function CalculateMetrics(conversation: Option<Conversation>): (m: EngagementMetrics)
    ensures ValidMetrics(m)
    ensures conversation.None? ==> m == EngagementMetrics(0, 0)
    ensures conversation.Some? ==> m.turns == |conversation.value.turns|
    ensures conversation.Some? && conversation.value.lastUpdated >= conversation.value.startedAt ==>
      var elapsed := conversation.value.lastUpdated - conversation.value.startedAt;
      m.durationSeconds * MicrosPerSecond <= elapsed < (m.durationSeconds + 1) * MicrosPerSecond
    ensures conversation.Some? && conversation.value.lastUpdated < conversation.value.startedAt ==>
      m.durationSeconds == 0
  {
    match conversation
    case None => EngagementMetrics(0, 0)
    case Some(c) =>
      var seconds := TruncatedSeconds(c.lastUpdated - c.startedAt);
      EngagementMetrics(|c.turns|, if seconds < 0 then 0 else seconds)
  }

  /** A conversation that lasted 90.5 seconds and holds two turns. */
  lemma MetricsExample(id: string, turns: seq<Turn>, state: AgentState)
    requires |turns| == 2
    ensures CalculateMetrics(Some(Conversation(id, turns, state, 0, 90500000))) == EngagementMetrics(2, 90)
  {
  }

  /** `calculate_entity_count`: the five category lengths added up. */
  function EntityCount(intel: Intelligence): (n: nat)
    ensures intel == EmptyIntelligence() <==> n == 0
  {
    |intel.upiIds| + |intel.bankAccounts| + |intel.urls| + |intel.phones| + |intel.ifscCodes|
  }

  /** A union of a duplicate-free list with anything is at least as long as that list. */
  lemma UnionKeepsLength(a: seq<string>, b: seq<string>)
    requires NoDuplicates(a)
    ensures |Extractor.Union(a, b)| >= |a|
  {
    DedupPrefixStable(a + b, |a|);
    assert (a + b)[..|a|] == a;
    DedupIdempotent(a);
  }

  /** Merging in an external answer never lowers the entity count of a duplicate-free regex result. */
  lemma MergeKeepsEntityCount(regex: Intelligence, reply: Result<Extractor.ExtractorReply>)
    requires NoDuplicates(regex.upiIds) && NoDuplicates(regex.bankAccounts) && NoDuplicates(regex.urls)
    requires NoDuplicates(regex.phones) && NoDuplicates(regex.ifscCodes)
    ensures EntityCount(Extractor.Merge(regex, reply)) >= EntityCount(regex)
  {
    if reply.Ok? {
      var ext := reply.value;
      UnionKeepsLength(regex.upiIds, ext.upiIds.GetOr([]));
      UnionKeepsLength(regex.bankAccounts, ext.bankAccounts.GetOr([]));
      UnionKeepsLength(regex.urls, ext.urls.GetOr([]));
      UnionKeepsLength(regex.phones, ext.phones.GetOr([]));
      UnionKeepsLength(regex.ifscCodes, ext.ifscCodes.GetOr([]));
    }
  }

  function MinInt(a: int, b: int): int {
    if a <= b then a else b
  }

  /** 2 points per turn, at most 30. */
  function TurnScore(turns: int): int {
    MinInt(turns * 200, 3000)
  }

  /** 0.01 point per second, at most 20. */
  function DurationScore(seconds: int): int {
    MinInt(seconds, 2000)
  }

  /** 10 points per entity, at most 50. */
  function EntityScore(entities: int): int {
    MinInt(entities * 1000, 5000)
  }

  /** `round(x, 1)` on a score in hundredths, halves rounded up. */
  function RoundTenth(x: int): (r: int)
    ensures r % 10 == 0
    ensures x - 5 < r <= x + 5
  {
    (x + 5) / 10 * 10
  }

  lemma RoundTenthMonotone(x: int, y: int)
    requires x <= y
    ensures RoundTenth(x) <= RoundTenth(y)
  {
  }

  function ScoreOf(turns: int, seconds: int, entities: int): int {
    MinInt(10000, RoundTenth(TurnScore(turns) + DurationScore(seconds) + EntityScore(entities)))
  }

  /** `calculate_engagement_score`, in hundredths of a point. */
  function EngagementScore(metrics: EngagementMetrics, intel: Intelligence): (score: int)
    ensures ValidMetrics(metrics) ==> 0 <= score <= 10000
    ensures score % 10 == 0
  {
    ScoreOf(metrics.turns, metrics.durationSeconds, EntityCount(intel))
  }

  /** Each component is capped, so the score cannot exceed 100 even for huge inputs. */
  lemma ScoreCaps(turns: nat, seconds: nat, entities: nat)
    ensures TurnScore(turns) <= 3000 && DurationScore(seconds) <= 2000 && EntityScore(entities) <= 5000
    ensures ScoreOf(turns, seconds, entities) <= 10000
    ensures turns >= 15 && seconds >= 2000 && entities >= 5 ==> ScoreOf(turns, seconds, entities) == 10000
  {
  }

  /** More turns, a longer duration or more entities never lower the score. */
  lemma ScoreMonotone(t1: int, t2: int, s1: int, s2: int, e1: int, e2: int)
    requires t1 <= t2 && s1 <= s2 && e1 <= e2
    ensures ScoreOf(t1, s1, e1) <= ScoreOf(t2, s2, e2)
  {
    RoundTenthMonotone(
      TurnScore(t1) + DurationScore(s1) + EntityScore(e1),
      TurnScore(t2) + DurationScore(s2) + EntityScore(e2));
  }

  /** Three turns, a minute, one entity: 6 + 0.6 + 10 = 16.6 points. */
  lemma ScoreExample()
    ensures ScoreOf(3, 60, 1) == 1660
  {
  }
}

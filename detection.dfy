/**
 * Scam detection (app/services/detection.py): a keyword and link-shortener
 * heuristic, fused with the verdict of an external classifier.
 *
 * Whether each keyword pattern matches the message, and which URLs the URL
 * pattern finds in it, are inputs: the regular-expression engine is not modelled.
 */
module Detection {
  import opened Wrappers
  import opened Schemas
  import opened Text
  import History

  /** The keyword table has twelve patterns (OTP, KYC, urgency, prize, verify, banking, UPI apps,
      click-link, blocked, support, payment, credentials). */
  const KeywordPatternCount: nat := 12

  /** Entry `i` says whether keyword pattern `i` matches the message. */
  type KeywordMatches = s: seq<bool> | |s| == KeywordPatternCount
    witness [false, false, false, false, false, false, false, false, false, false, false, false]

  const ShortUrlDomains: seq<string> := ["bit.ly", "tinyurl", "goo.gl", "t.co", "rebrand.ly", "is.gd", "v.gd"]

  /** How many entries say "matches". */
  function KeywordCount(ms: seq<bool>): nat
    decreases |ms|
  {
    if ms == [] then 0 else KeywordCount(ms[..|ms| - 1]) + (if ms[|ms| - 1] then 1 else 0)
  }

  /** The count is the number of matching patterns, so each pattern adds at most one. */
  lemma {:induction false} KeywordCountIsMatchCount(ms: seq<bool>)
    ensures KeywordCount(ms) == multiset(ms)[true]
    ensures KeywordCount(ms) <= |ms|
    decreases |ms|
  {
    if ms != [] {
      var init := ms[..|ms| - 1];
      KeywordCountIsMatchCount(init);
      assert ms == init + [ms[|ms| - 1]];
      assert multiset(ms) == multiset(init) + multiset{ms[|ms| - 1]};
    }
  }

  /** A URL is suspicious when a listed shortener name occurs anywhere in it, lower-cased. */
  predicate IsSuspiciousUrl(url: string) {
    exists k :: 0 <= k < |ShortUrlDomains| && Contains(Lower(url), ShortUrlDomains[k])
  }

  function AnySuspicious(urls: seq<string>): bool
    decreases |urls|
  {
    urls != [] && (AnySuspicious(urls[..|urls| - 1]) || IsSuspiciousUrl(urls[|urls| - 1]))
  }

  lemma {:induction false} AnySuspiciousIff(urls: seq<string>)
    ensures AnySuspicious(urls) <==> exists i :: 0 <= i < |urls| && IsSuspiciousUrl(urls[i])
    decreases |urls|
  {
    if urls != [] {
      var init := urls[..|urls| - 1];
      AnySuspiciousIff(init);
      if i :| 0 <= i < |urls| - 1 && IsSuspiciousUrl(urls[i]) {
        assert init[i] == urls[i];
      }
      if i :| 0 <= i < |init| && IsSuspiciousUrl(init[i]) {
        assert urls[i] == init[i];
      }
    }
  }

  /** The final count: matching keyword patterns, plus 2 once if any URL is suspicious. */
  function MatchCount(ms: KeywordMatches, urls: seq<string>): nat {
    KeywordCount(ms) + (if AnySuspicious(urls) then 2 else 0)
  }

  /** The keyword part lies in 0..12 and the shortener bonus is 0 or 2, however many URLs match. */
  lemma MatchCountBounds(ms: KeywordMatches, urls: seq<string>)
    ensures KeywordCount(ms) <= KeywordPatternCount
    ensures MatchCount(ms, urls) - KeywordCount(ms) in {0, 2}
    ensures MatchCount(ms, urls) <= KeywordPatternCount + 2
  {
    KeywordCountIsMatchCount(ms);
  }

  function Min(a: real, b: real): real {
    if a <= b then a else b
  }

  function Max(a: real, b: real): real {
    if a >= b then a else b
  }

  /** The heuristic confidence for a final count. */
  function HeuristicConfidence(count: int): real {
    if count >= 3 then Min(0.5 + 0.1 * count as real, 0.9)
    else if count >= 1 then 0.3 + 0.1 * count as real
    else 0.1
  }

  /** The confidence table: 0 gives 0.1, 1 gives 0.4, 2 gives 0.5, 3 gives 0.8, 4 or more give 0.9. */
  lemma HeuristicConfidenceTable(count: nat)
    ensures HeuristicConfidence(0) == 0.1 && HeuristicConfidence(1) == 0.4 && HeuristicConfidence(2) == 0.5
    ensures HeuristicConfidence(3) == 0.8
    ensures count >= 4 ==> HeuristicConfidence(count) == 0.9
    ensures 0.1 <= HeuristicConfidence(count) <= 0.9
  {
  }

  /** The heuristic verdict: scam exactly when the final count is at least one. */
  function Heuristic(ms: KeywordMatches, urls: seq<string>): (r: DetectionResult)
    ensures r.isScam <==> MatchCount(ms, urls) >= 1
    ensures ValidDetection(r) && 0.1 <= r.confidence <= 0.9
  {
    var count := MatchCount(ms, urls);
    HeuristicConfidenceTable(count);
    DetectionResult(count >= 1, HeuristicConfidence(count))
  }

  /** The counting loop and the nested URL/shortener loop with its early exit. */
  method HeuristicDetection(ms: KeywordMatches, urls: seq<string>) returns (r: DetectionResult)
    ensures r == Heuristic(ms, urls)
  {
    var matchCount := 0;
    for i := 0 to |ms|
      invariant matchCount == KeywordCount(ms[..i])
    {
      assert ms[..i + 1][..i] == ms[..i];
      if ms[i] {
        matchCount := matchCount + 1;
      }
    }
    assert ms[..|ms|] == ms;
    var hasSuspiciousUrl := false;
    for u := 0 to |urls|
      invariant hasSuspiciousUrl == AnySuspicious(urls[..u])
    {
      assert urls[..u + 1][..u] == urls[..u];
      var lowered := Lower(urls[u]);
      var d := 0;
      while d < |ShortUrlDomains|
        invariant 0 <= d <= |ShortUrlDomains|
        invariant hasSuspiciousUrl == AnySuspicious(urls[..u])
        invariant forall k :: 0 <= k < d ==> !Contains(lowered, ShortUrlDomains[k])
      {
        if Contains(lowered, ShortUrlDomains[d]) {
          hasSuspiciousUrl := true;
          break;
        }
        d := d + 1;
      }
    }
    assert urls[..|urls|] == urls;
    if hasSuspiciousUrl {
      matchCount := matchCount + 2;
    }
    if matchCount >= 3 {
      r := DetectionResult(true, Min(0.5 + 0.1 * matchCount as real, 0.9));
    } else if matchCount >= 1 {
      r := DetectionResult(true, 0.3 + 0.1 * matchCount as real);
    } else {
      r := DetectionResult(false, 0.1);
    }
  }

  /** Python's `round(x, 2)`, taken on the exact value with halves rounded up. */
  function RoundHundredths(x: real): (r: real)
    ensures x - 0.005 < r <= x + 0.005
    ensures 0.0 <= x <= 1.0 ==> 0.0 <= r <= 1.0
  {
    var n := (x * 100.0 + 0.5).Floor;
    assert n as real <= x * 100.0 + 0.5 < n as real + 1.0;
    n as real / 100.0
  }

  /** The classifier's answer; a missing `is_scam` reads as false and a missing `confidence` as 0.5. */
  datatype ClassifierReply = ClassifierReply(isScam: Option<bool>, confidence: Option<real>)

  /** Fusion of the heuristic with the classifier, before rounding. */
  function Combine(heuristic: DetectionResult, llmScam: bool, llmConfidence: real): (r: DetectionResult)
    ensures r.isScam <==> heuristic.isScam || llmScam
    ensures heuristic.isScam && llmScam ==> r.confidence == Max(llmConfidence, heuristic.confidence)
    ensures heuristic.isScam != llmScam ==> r.confidence == (llmConfidence + heuristic.confidence) / 2.0
    ensures !heuristic.isScam && !llmScam ==> r.confidence == Min(llmConfidence, heuristic.confidence)
    ensures Min(llmConfidence, heuristic.confidence) <= r.confidence <= Max(llmConfidence, heuristic.confidence)
  {
    if heuristic.isScam && llmScam then
      DetectionResult(true, Max(llmConfidence, heuristic.confidence))
    else if heuristic.isScam || llmScam then
      DetectionResult(true, (llmConfidence + heuristic.confidence) / 2.0)
    else
      DetectionResult(llmScam, Min(llmConfidence, heuristic.confidence))
  }

  /**
   * The fusion step of `detect`: a failed call gives the heuristic verdict unchanged;
   * otherwise the combined verdict with its confidence rounded, unless the result
   * record refuses that confidence, which is a failure too.
   */
  function Fuse(heuristic: DetectionResult, reply: Result<ClassifierReply>): (r: DetectionResult)
    ensures reply.Err? ==> r == heuristic
    ensures ValidDetection(heuristic) ==> ValidDetection(r)
    ensures reply.Ok? ==>
      var c := Combine(heuristic, reply.value.isScam.GetOr(false), reply.value.confidence.GetOr(0.5));
      var rounded := RoundHundredths(c.confidence);
      && (0.0 <= rounded <= 1.0 ==> r == DetectionResult(c.isScam, rounded))
      && (!(0.0 <= rounded <= 1.0) ==> r == heuristic)
  {
    match reply
    case Err => heuristic
    case Ok(answer) =>
      var c := Combine(heuristic, answer.isScam.GetOr(false), answer.confidence.GetOr(0.5));
      var rounded := RoundHundredths(c.confidence);
      if 0.0 <= rounded <= 1.0 then DetectionResult(c.isScam, rounded) else heuristic
  }

  /**
   * With both confidences in [0, 1] the fused path is always taken: the result is the
   * combined verdict with its confidence rounded, so the verdict is scam iff either side
   * says scam, and the confidence is within rounding of a value between the two.
   */
  lemma FusedVerdict(heuristic: DetectionResult, answer: ClassifierReply)
    requires ValidDetection(heuristic)
    requires 0.0 <= answer.confidence.GetOr(0.5) <= 1.0
    ensures var c := Combine(heuristic, answer.isScam.GetOr(false), answer.confidence.GetOr(0.5));
      Fuse(heuristic, Ok(answer)) == DetectionResult(c.isScam, RoundHundredths(c.confidence))
    ensures var r := Fuse(heuristic, Ok(answer));
      var llm := answer.confidence.GetOr(0.5);
      && (r.isScam <==> heuristic.isScam || answer.isScam.GetOr(false))
      && Min(llm, heuristic.confidence) - 0.005 < r.confidence <= Max(llm, heuristic.confidence) + 0.005
  {
  }

  /** Both sides say scam, 0.4 from the heuristic and 0.9 from the classifier: the fused confidence is the larger, 0.9. */
  lemma BothScamTakesMaximum()
    ensures Fuse(DetectionResult(true, 0.4), Ok(ClassifierReply(Some(true), Some(0.9)))) == DetectionResult(true, 0.9)
  {
    FusedVerdict(DetectionResult(true, 0.4), ClassifierReply(Some(true), Some(0.9)));
    assert (0.9 * 100.0 + 0.5).Floor == 90;
  }

  /** The last five history items, rendered as the classifier's context. */
  function DetectionContext(history: seq<HistoryItem>): string {
    History.Render(History.LastN(history, 5))
  }

  function DetectVerdict(
    ms: KeywordMatches, urls: seq<string>, message: string, history: seq<HistoryItem>,
    classify: (string, string) -> Result<ClassifierReply>): DetectionResult
  {
    Fuse(Heuristic(ms, urls), classify(DetectionContext(history), message))
  }

  /** `detect`: never fails, and its result always passes the validator. */
  method Detect(
    ms: KeywordMatches, urls: seq<string>, message: string, history: seq<HistoryItem>,
    classify: (string, string) -> Result<ClassifierReply>)
    returns (r: DetectionResult)
    ensures r == DetectVerdict(ms, urls, message, history, classify)
    ensures ValidDetection(r)
  {
    var heuristic := HeuristicDetection(ms, urls);
    var context := History.BuildTranscript(History.LastN(history, 5));
    r := Fuse(heuristic, classify(context, message));
  }

  /** "t.co" is a substring of "test.com": the shortener test is not a host match. */
  lemma ShortenerMatchIsSubstring()
    ensures IsSuspiciousUrl("http://test.com")
  {
    var u := "http://test.com";
    assert Lower(u) == u;
    assert OccursAt(u, "t.co", 10);
    ContainsIff(u, "t.co");
    assert ShortUrlDomains[3] == "t.co";
  }

  /** A bit.ly link is a shortener link. */
  lemma BitLyLinkIsSuspicious()
    ensures IsSuspiciousUrl("http://bit.ly/xyz")
  {
    var u := "http://bit.ly/xyz";
    assert Lower(u) == u;
    assert OccursAt(u, "bit.ly", 7);
    ContainsIff(u, "bit.ly");
    assert Contains(Lower(u), ShortUrlDomains[0]);
  }

  lemma KycOtpKeywords()
    ensures KeywordCount([true, true, false, false, true, false, false, true, false, false, false, false]) == 4
  {
    var ms: seq<bool> := [true, true, false, false, true, false, false, true, false, false, false, false];
    assert ms[..0] == [];
    assert KeywordCount(ms[..1]) == 1 by { assert ms[..1][..0] == ms[..0]; }
    assert KeywordCount(ms[..2]) == 2 by { assert ms[..2][..1] == ms[..1]; }
    assert KeywordCount(ms[..3]) == 2 by { assert ms[..3][..2] == ms[..2]; }
    assert KeywordCount(ms[..4]) == 2 by { assert ms[..4][..3] == ms[..3]; }
    assert KeywordCount(ms[..5]) == 3 by { assert ms[..5][..4] == ms[..4]; }
    assert KeywordCount(ms[..6]) == 3 by { assert ms[..6][..5] == ms[..5]; }
    assert KeywordCount(ms[..7]) == 3 by { assert ms[..7][..6] == ms[..6]; }
    assert KeywordCount(ms[..8]) == 4 by { assert ms[..8][..7] == ms[..7]; }
    assert KeywordCount(ms[..9]) == 4 by { assert ms[..9][..8] == ms[..8]; }
    assert KeywordCount(ms[..10]) == 4 by { assert ms[..10][..9] == ms[..9]; }
    assert KeywordCount(ms[..11]) == 4 by { assert ms[..11][..10] == ms[..10]; }
    assert KeywordCount(ms[..12]) == 4 by { assert ms[..12][..11] == ms[..11]; }
    assert ms[..12] == ms;
  }

  /** KYC, OTP, verify and click-here match, and a bit.ly link adds 2: count 6, confidence 0.9. */
  lemma KycOtpExample()
    ensures var ms: KeywordMatches :=
      [true, true, false, false, true, false, false, true, false, false, false, false];
      MatchCount(ms, ["http://bit.ly/xyz"]) == 6 &&
      Heuristic(ms, ["http://bit.ly/xyz"]) == DetectionResult(true, 0.9)
  {
    BitLyLinkIsSuspicious();
    KycOtpKeywords();
    assert ["http://bit.ly/xyz"][..0] == [];
  }
}

/**
 * The keyword rule engine of backend/services/aiService.js: message sentiment, the EMI
 * suggestion table, the lenient "Plan B" suggestion, the templated manager reply and the
 * automatic risk level.
 *
 * The machine-learning result that `analyzeRiskLevel` awaits from the inference script is a
 * parameter: `None` when the script fails or prints something that is not JSON.
 */
module AiService {
  import opened Wrappers
  import Text
  import JsMath
  import opened Schema

  const HighStressKeywords: seq<string> := [
    "lost my job", "loss my job", "no job", "medical emergency", "medical issue", "hospital",
    "can't pay", "cant pay", "cannot pay", "unable to pay", "no money", "pressure", "struggling",
    "crisis", "layoff", "fired", "surgery", "accident"]
  const ModerateStressKeywords: seq<string> := [
    "delay", "need time", "difficulty", "hardship", "trouble", "late", "financial issue",
    "salary delay", "business slow", "this week", "next week"]
  const LowStressKeywords: seq<string> := ["remind me", "later", "busy", "soon", "tomorrow", "paying"]

  /** Some keyword occurs in the lower-cased text. */
  predicate Mentions(text: string, words: seq<string>) {
    Text.AnyOccurs(Text.Lower(text), words)
  }

  /** The score attached to each sentiment label. */
  function SentimentScore(s: Sentiment): int {
    match s
    case HighSentiment => 85
    case ModerateSentiment => 55
    case LowSentiment => 25
    case UnknownSentiment => 0
  }

  datatype SentimentResult = SentimentResult(sentiment: Sentiment, score: int)

  /** `analyzeSentiment`: the first keyword tier (high, moderate, low) with a match decides. */
  function AnalyzeSentiment(text: string): (r: SentimentResult)
    ensures r.score == SentimentScore(r.sentiment)
    ensures r.sentiment == HighSentiment <==> Mentions(text, HighStressKeywords)
    ensures r.sentiment == ModerateSentiment <==>
      !Mentions(text, HighStressKeywords) && Mentions(text, ModerateStressKeywords)
    ensures r.sentiment == LowSentiment <==>
      !Mentions(text, HighStressKeywords) && !Mentions(text, ModerateStressKeywords) && Mentions(text, LowStressKeywords)
  {
    if Mentions(text, HighStressKeywords) then SentimentResult(HighSentiment, 85)
    else if Mentions(text, ModerateStressKeywords) then SentimentResult(ModerateSentiment, 55)
    else if Mentions(text, LowStressKeywords) then SentimentResult(LowSentiment, 25)
    else SentimentResult(UnknownSentiment, 0)
  }

  /** The score determines the label: the four scores are distinct. */
  lemma SentimentScoreInjective(a: Sentiment, b: Sentiment)
    requires SentimentScore(a) == SentimentScore(b)
    ensures a == b
  {
  }

  /** Sentiment is case-insensitive: it depends only on the lower-cased text. */
  lemma AnalyzeSentimentIgnoresCase(text: string)
    ensures AnalyzeSentiment(Text.Lower(text)) == AnalyzeSentiment(text)
  {
    Text.LowerIdempotent(text);
  }

  /** An EMI suggestion; `isPlanB` is set only by the lenient suggestion. */
  datatype Suggestion = Suggestion(suggestedEMI: int, extendedTenure: int, gracePeriod: int, isPlanB: bool)

  /** The installment fraction of each known risk level. */
  function ReliefFactor(riskLevel: string): real {
    if riskLevel == "HIGH_RISK" || riskLevel == "CRITICAL_RISK" then 0.55
    else if riskLevel == "MODERATE_RISK" then 0.75
    else if riskLevel == "NORMAL_RISK" then 0.90
    else 1.0
  }

  predicate IsTableLevel(riskLevel: string) {
    riskLevel == "HIGH_RISK" || riskLevel == "CRITICAL_RISK" || riskLevel == "MODERATE_RISK" || riskLevel == "NORMAL_RISK"
  }

  /** `generateEMISuggestion`: a lookup on the risk label; any other label gets the unreduced installment
      `round(loan / 12)` with no extension and no grace. */
  function GenerateEMISuggestion(loanAmount: real, riskLevel: string): (r: Suggestion)
    ensures r.suggestedEMI == JsMath.Round(loanAmount / 12.0 * ReliefFactor(riskLevel))
    ensures IsTableLevel(riskLevel) <==> r.extendedTenure > 0
    ensures IsTableLevel(riskLevel) <==> r.gracePeriod > 0
    ensures (riskLevel == "HIGH_RISK" || riskLevel == "CRITICAL_RISK") ==> r.extendedTenure == 9 && r.gracePeriod == 21
    ensures riskLevel == "MODERATE_RISK" ==> r.extendedTenure == 6 && r.gracePeriod == 14
    ensures riskLevel == "NORMAL_RISK" ==> r.extendedTenure == 3 && r.gracePeriod == 7
    ensures !IsTableLevel(riskLevel) ==> r.extendedTenure == 0 && r.gracePeriod == 0
    ensures !r.isPlanB
  {
    var monthly := loanAmount / 12.0;
    if riskLevel == "HIGH_RISK" || riskLevel == "CRITICAL_RISK" then Suggestion(JsMath.Round(monthly * 0.55), 9, 21, false)
    else if riskLevel == "MODERATE_RISK" then Suggestion(JsMath.Round(monthly * 0.75), 6, 14, false)
    else if riskLevel == "NORMAL_RISK" then Suggestion(JsMath.Round(monthly * 0.90), 3, 7, false)
    else Suggestion(JsMath.Round(monthly), 0, 0, false)
  }

  /** `generateLenientEMISuggestion`: the Plan B offered after a rejection. */
  function GenerateLenientEMISuggestion(loanAmount: real): (r: Suggestion)
    ensures r.isPlanB && r.extendedTenure == 12 && r.gracePeriod == 30
    ensures r.suggestedEMI == JsMath.Round(loanAmount / 12.0 * 0.45)
  {
    Suggestion(JsMath.Round(loanAmount / 12.0 * 0.45), 12, 30, true)
  }

  /** For a non-negative loan, higher risk never raises the installment and never shortens the
      extension or the grace period: HIGH <= MODERATE <= NORMAL <= any other label. */
  lemma SuggestionOrderedByRisk(loanAmount: real)
    requires loanAmount >= 0.0
    ensures var h, m, n, d := GenerateEMISuggestion(loanAmount, "HIGH_RISK"), GenerateEMISuggestion(loanAmount, "MODERATE_RISK"),
                              GenerateEMISuggestion(loanAmount, "NORMAL_RISK"), GenerateEMISuggestion(loanAmount, "PENDING");
      && 0 <= h.suggestedEMI <= m.suggestedEMI <= n.suggestedEMI <= d.suggestedEMI
      && h.extendedTenure >= m.extendedTenure >= n.extendedTenure >= d.extendedTenure
      && h.gracePeriod >= m.gracePeriod >= n.gracePeriod >= d.gracePeriod
    ensures GenerateEMISuggestion(loanAmount, "CRITICAL_RISK") == GenerateEMISuggestion(loanAmount, "HIGH_RISK")
  {
    var monthly := loanAmount / 12.0;
    JsMath.RoundNonNegative(monthly * 0.55);
    JsMath.RoundMonotone(monthly * 0.55, monthly * 0.75);
    JsMath.RoundMonotone(monthly * 0.75, monthly * 0.90);
    JsMath.RoundMonotone(monthly * 0.90, monthly);
  }

  /** The lenient installment is no larger than any table installment for the same non-negative loan,
      and its extension and grace are the longest. */
  lemma LenientIsMostLenient(loanAmount: real, riskLevel: string)
    requires loanAmount >= 0.0
    ensures GenerateLenientEMISuggestion(loanAmount).suggestedEMI <= GenerateEMISuggestion(loanAmount, riskLevel).suggestedEMI
    ensures GenerateLenientEMISuggestion(loanAmount).extendedTenure > GenerateEMISuggestion(loanAmount, riskLevel).extendedTenure
    ensures GenerateLenientEMISuggestion(loanAmount).gracePeriod > GenerateEMISuggestion(loanAmount, riskLevel).gracePeriod
  {
    JsMath.RoundMonotone(loanAmount / 12.0 * 0.45, loanAmount / 12.0 * ReliefFactor(riskLevel));
  }

  const ReplyJobWords: seq<string> := ["job", "work", "unemployed", "layoff"]
  const ReplyMedicalWords: seq<string> := ["medical", "health", "hospital", "emergency", "family"]
  const PressureWords: seq<string> := ["pressure", "reminders", "stressed"]

  /** The seven reply bodies of `generateAIReply`. */
  datatype ReplyKind = JobLossReply | MedicalReply | PressureReply | GenericDistressReply | ModerateReply | LowReply | DefaultReply {
    predicate IsDistress() {
      this == JobLossReply || this == MedicalReply || this == PressureReply || this == GenericDistressReply
    }
  }

  /** The body chosen for a message: under high sentiment or pressure words, job > medical > pressure > generic;
      otherwise by the sentiment label. */
  function ReplyKindFor(sentiment: Sentiment, content: string): (k: ReplyKind)
    ensures k.IsDistress() <==> sentiment == HighSentiment || Mentions(content, PressureWords)
    ensures k == JobLossReply <==> k.IsDistress() && Mentions(content, ReplyJobWords)
    ensures k == MedicalReply <==> k.IsDistress() && !Mentions(content, ReplyJobWords) && Mentions(content, ReplyMedicalWords)
    ensures k == PressureReply <==>
      k.IsDistress() && !Mentions(content, ReplyJobWords) && !Mentions(content, ReplyMedicalWords) && Mentions(content, PressureWords)
    ensures !k.IsDistress() ==> (k == ModerateReply <==> sentiment == ModerateSentiment) && (k == LowReply <==> sentiment == LowSentiment)
  {
    var job := Mentions(content, ReplyJobWords);
    var medical := Mentions(content, ReplyMedicalWords);
    var pressure := Mentions(content, PressureWords);
    if sentiment == HighSentiment || pressure then
      if job then JobLossReply
      else if medical then MedicalReply
      else if pressure then PressureReply
      else GenericDistressReply
    else if sentiment == ModerateSentiment then ModerateReply
    else if sentiment == LowSentiment then LowReply
    else DefaultReply
  }

  function ReplyBody(k: ReplyKind): string {
    match k
    case JobLossReply =>
      "I'm deeply sorry to hear about your job loss. We truly understand the immense pressure you must be under. Please stay calm, we are here to support you, not add more stress. We've prepared a highly flexible plan with significant reductions and extra time to help you get back on your feet. Would you like to see these options?"
    case MedicalReply =>
      "I'm genuinely concerned to hear about the medical emergency in your family. Health and family come first. We can certainly adjust your repayment schedule to give you the space and peace of mind you need. I've formulated a plan with a generous grace period and lower installments to help. Shall we proceed?"
    case PressureReply =>
      "We truly apologize if our reminders have added to your stress. Our aim is to be your partner in resolving this, not a source of pressure. We value your peace of mind and would like to offer a more relaxed repayment schedule with less frequent communication if that helps. I've designed a specialized relief plan for you\U{E2}\U{20AC}\U{201D}would you like to review it?"
    case GenericDistressReply =>
      "I'm very sorry to hear that you're going through such a challenging time. Please know that we are committed to finding a solution that works for you. Our priority is your well-being. I've developed a customized relief plan to ease your burden. Would you like to discuss the details?"
    case ModerateReply =>
      "Thank you for sharing your situation with us. We understand that things can be difficult sometimes. To support you effectively, I've created some flexible options like grace periods and temporary EMI reductions. Would you like to explore these to see which one fits your current situation best?"
    case LowReply =>
      "Thank you for the update. We appreciate your transparency. We've noted your message and are glad you're staying in touch. Is there anything specific we can do to make your upcoming payment even easier for you?"
    case DefaultReply =>
      "Thank you for reaching out. We want to ensure your repayment journey is as smooth as possible. If you're encountering any obstacles, please let us know so we can offer tailored support and flexible options. How can we best assist you today?"
  }

  function Greeting(borrowerName: string): string {
    "Hello " + borrowerName + ","
  }

  /** `generateAIReply`: "Hello {name},", a blank line, and the body chosen by `ReplyKindFor`. */
  function GenerateAIReply(borrowerName: string, sentiment: Sentiment, content: string): string {
    Greeting(borrowerName) + "\n\n" + ReplyBody(ReplyKindFor(sentiment, content))
  }

  /** A greeting, a blank line and a body can be read back from the text they make. */
  lemma ReplyParts(g: string, body: string)
    ensures var r := g + "\n\n" + body;
      |r| == |g| + 2 + |body| && r[..|g|] == g && r[|g|..|g| + 2] == "\n\n" && r[|g| + 2..] == body
  {
    var gap := g + "\n\n";
    var r := gap + body;
    assert r[..|gap|] == gap && r[|gap|..] == body;
    assert r[..|g|] == gap[..|g|] == g;
    assert r[|g|..|gap|] == gap[|g|..] == "\n\n";
  }

  /** The reply splits into the greeting, the blank line and the chosen body, whatever the name holds. */
  lemma AIReplyLayout(borrowerName: string, sentiment: Sentiment, content: string)
    ensures var r, g := GenerateAIReply(borrowerName, sentiment, content), Greeting(borrowerName);
      && |r| >= |g| + 2
      && r[..|g|] == g
      && r[|g|..|g| + 2] == "\n\n"
      && r[|g| + 2..] == ReplyBody(ReplyKindFor(sentiment, content))
  {
    ReplyParts(Greeting(borrowerName), ReplyBody(ReplyKindFor(sentiment, content)));
  }

  /** The fields of the inference script's JSON output that the services read; absent keys are `None`. */
  datatype MlResult = MlResult(riskSeverity: Option<string>, bankAction: Option<string>)

  const RiskJobWords: seq<string> := ["job", "work", "unemployed", "layoff"]
  const RiskMedicalWords: seq<string> := ["medical", "health", "hospital", "sick", "emergency"]
  const RefusalWords: seq<string> := ["can't pay", "won't pay", "no money"]
  const WillPayWords: seq<string> := ["soon", "tomorrow", "next week", "confirm", "remind", "pay later", "will pay"]

  /** The rule-based part of `analyzeRiskLevel`, after the machine-learning overrides. */
  function RuleRiskLevel(content: string, sentiment: Sentiment, showsWillingness: bool): (r: RiskLevel)
    ensures r == CriticalRisk <==> Mentions(content, RefusalWords) && !showsWillingness && sentiment == HighSentiment
    ensures r == PendingRisk <==>
      && sentiment != HighSentiment && sentiment != ModerateSentiment && sentiment != LowSentiment
      && !Mentions(content, RiskJobWords) && !Mentions(content, RiskMedicalWords)
      && !Mentions(content, PressureWords) && !Mentions(content, WillPayWords)
  {
    var refusal := Mentions(content, RefusalWords) && !showsWillingness;
    if refusal && sentiment == HighSentiment then CriticalRisk
    else if sentiment == HighSentiment || Mentions(content, RiskJobWords) || Mentions(content, RiskMedicalWords) then HighRisk
    else if sentiment == ModerateSentiment || Mentions(content, PressureWords) then ModerateRisk
    else if sentiment == LowSentiment || Mentions(content, WillPayWords) then NormalRisk
    else PendingRisk
  }

  /** `analyzeRiskLevel`: an ML severity of 'High' or an ML action of 'LegalAction' overrides the rules. */
  function AnalyzeRiskLevel(content: string, sentiment: Sentiment, showsWillingness: bool, ml: Option<MlResult>): (r: RiskLevel)
    ensures ml.Some? && ml.value.riskSeverity == Some("High") ==> r == HighRisk
    ensures ml.Some? && ml.value.riskSeverity != Some("High") && ml.value.bankAction == Some("LegalAction") ==> r == CriticalRisk
  {
    if ml.Some? && ml.value.riskSeverity == Some("High") then HighRisk
    else if ml.Some? && ml.value.bankAction == Some("LegalAction") then CriticalRisk
    else RuleRiskLevel(content, sentiment, showsWillingness)
  }

  /** The overrides decide alone: two messages with the same overriding ML result get the same level. */
  lemma MlOverrideIgnoresMessage(c1: string, s1: Sentiment, w1: bool, c2: string, s2: Sentiment, w2: bool, ml: MlResult)
    requires ml.riskSeverity == Some("High") || ml.bankAction == Some("LegalAction")
    ensures AnalyzeRiskLevel(c1, s1, w1, Some(ml)) == AnalyzeRiskLevel(c2, s2, w2, Some(ml))
  {
  }

  /** Without an overriding ML result, CRITICAL_RISK needs a refusal phrase together with high sentiment,
      and PENDING is returned only when no rule fires. */
  lemma CriticalNeedsRefusalAndHighSentiment(content: string, sentiment: Sentiment, showsWillingness: bool, ml: Option<MlResult>)
    requires ml.None? || (ml.value.riskSeverity != Some("High") && ml.value.bankAction != Some("LegalAction"))
    ensures AnalyzeRiskLevel(content, sentiment, showsWillingness, ml) == CriticalRisk ==>
      sentiment == HighSentiment && Mentions(content, RefusalWords)
    ensures AnalyzeRiskLevel(content, sentiment, showsWillingness, ml) == PendingRisk ==>
      sentiment == UnknownSentiment && !Mentions(content, WillPayWords) && !Mentions(content, PressureWords)
  {
  }

  /** Sentiment from `analyzeSentiment` is High whenever a refusal phrase other than "won't pay" occurs, so
      "can't pay" or "no money" with no ML override always yields CRITICAL_RISK for the callers, which never
      report willingness. */
  lemma CantPayIsCritical(content: string)
    requires Mentions(content, ["can't pay"])
    ensures AnalyzeSentiment(content).sentiment == HighSentiment
    ensures AnalyzeRiskLevel(content, AnalyzeSentiment(content).sentiment, false, None) == CriticalRisk
  {
    var lc := Text.Lower(content);
    assert Text.Contains(lc, "can't pay");
    assert "can't pay" in HighStressKeywords;
    assert "can't pay" in RefusalWords;
  }
}

/**
 * The behavioural scoring algorithm of backend/services/behavioralScoring.js: a keyword
 * message score (the highest severity among matched issue categories), a communication
 * score and a financial score accumulated step by step and clamped to [0, 100], an ML score,
 * their weighted composite, and the stress and willingness labels derived from them.
 *
 * The machine-learning result is a parameter, as in `AiService`.
 */
module BehavioralScoring {
  import opened Wrappers
  import Text
  import JsMath
  import opened Schema
  import AiService

  /** The keys of the `issues` table, in its declaration order. */
  datatype Issue = JobLoss | Medical | Transport | Family | CashFlow | Pressure | RefusalIssue | Temporary {
    function Key(): string {
      match this
      case JobLoss => "jobLoss"
      case Medical => "medical"
      case Transport => "transport"
      case Family => "family"
      case CashFlow => "cashFlow"
      case Pressure => "pressure"
      case RefusalIssue => "refusal"
      case Temporary => "temporary"
    }
  }

  datatype Category = Category(issue: Issue, keywords: seq<string>, severity: int)

  const Categories: seq<Category> := [
    Category(JobLoss, ["lost job", "no job", "unemployed", "layoff", "fired"], 90),
    Category(Medical, ["medical", "hospital", "emergency", "surgery", "sick", "health"], 85),
    Category(Transport, ["transport", "vehicle", "accident", "breakdown"], 60),
    Category(Family, ["family", "death", "marriage", "divorce"], 75),
    Category(CashFlow, ["short of money", "cash flow", "shortage", "delayed payment"], 70),
    Category(Pressure, ["pressure", "stressed", "harassment", "threatened"], 65),
    Category(RefusalIssue, ["can't pay", "won't pay", "no money", "cannot afford"], 95),
    Category(Temporary, ["temporary", "this month", "next month", "delayed salary", "waiting for salary", "salary delay"], 55)]

  const WillingnessWords: seq<string> := ["want to pay", "will pay", "i'll pay", "i will pay", "trying to", "working on", "pay by"]

  const Baseline := 30
  const GeneralIssue := "General Financial Difficulty"

  const IssueKeys: seq<string> := ["jobLoss", "medical", "transport", "family", "cashFlow", "pressure", "refusal", "temporary"]

  /** `formatIssueName`: the display name of an issue key; any other key gets the general name. */
  function FormatIssueName(issueType: string): (name: string)
    ensures name == GeneralIssue <==> issueType !in IssueKeys
  {
    if issueType == "jobLoss" then "Job Loss"
    else if issueType == "medical" then "Medical Emergency"
    else if issueType == "transport" then "Transport Issue"
    else if issueType == "family" then "Family Emergency"
    else if issueType == "cashFlow" then "Cash Flow Problem"
    else if issueType == "pressure" then "Harassment/Pressure"
    else if issueType == "refusal" then "Financial Crisis"
    else if issueType == "temporary" then "Temporary Setback"
    else GeneralIssue
  }

  predicate Matches(c: Category, lower: string) {
    Text.AnyOccurs(lower, c.keywords)
  }

  function Name(c: Category): string {
    FormatIssueName(c.issue.Key())
  }

  /** One iteration of the scan: a matched category replaces the best so far only if strictly more severe. */
  function Step(c: Category, lower: string, best: (int, string)): (int, string) {
    if Matches(c, lower) && c.severity > best.0 then (c.severity, Name(c)) else best
  }

  /** The scan over the categories, in order, from a starting best (severity, issue name). */
  function Scan(cats: seq<Category>, lower: string, best: (int, string)): (int, string)
    decreases |cats|
  {
    if cats == [] then best else Scan(cats[1..], lower, Step(cats[0], lower, best))
  }

  /** Category `k` matches with severity `sev`, and no earlier category matches with a severity as high. */
  predicate FirstMaxAt(cats: seq<Category>, lower: string, k: int, sev: int) {
    && 0 <= k < |cats|
    && Matches(cats[k], lower) && cats[k].severity == sev
    && forall j | 0 <= j < k :: !Matches(cats[j], lower) || cats[j].severity < sev
  }

  /** The scan computes the largest matched severity (at least the starting one), and its issue is that
      of the FIRST category attaining it: ties go to the category that comes first. */
  lemma {:induction false} ScanIsFirstMaximum(cats: seq<Category>, lower: string, best: (int, string))
    ensures Scan(cats, lower, best).0 >= best.0
    ensures forall k | 0 <= k < |cats| && Matches(cats[k], lower) :: cats[k].severity <= Scan(cats, lower, best).0
    ensures Scan(cats, lower, best).0 == best.0 ==> Scan(cats, lower, best) == best
    ensures Scan(cats, lower, best).0 > best.0 ==>
      exists k :: FirstMaxAt(cats, lower, k, Scan(cats, lower, best).0) && Scan(cats, lower, best).1 == Name(cats[k])
    decreases |cats|
  {
    if cats != [] {
      var s := Step(cats[0], lower, best);
      var rest := cats[1..];
      ScanIsFirstMaximum(rest, lower, s);
      var r := Scan(cats, lower, best);
      assert r == Scan(rest, lower, s);
      forall k | 0 <= k < |cats| && Matches(cats[k], lower) ensures cats[k].severity <= r.0 {
        if k > 0 {
          assert cats[k] == rest[k - 1];
        }
      }
      if r.0 > best.0 {
        if r.0 == s.0 {
          assert FirstMaxAt(cats, lower, 0, r.0);
        } else {
          var k' :| FirstMaxAt(rest, lower, k', r.0) && r.1 == Name(rest[k']);
          assert cats[k' + 1] == rest[k'];
          forall j | 0 <= j < k' + 1 ensures !Matches(cats[j], lower) || cats[j].severity < r.0 {
            if j > 0 {
              assert cats[j] == rest[j - 1];
            }
          }
          assert FirstMaxAt(cats, lower, k' + 1, r.0);
        }
      }
    }
  }

  /** With every severity in (lo, hi] and no category named like the general issue, the scan from
      (lo, general) ends in [lo, hi], and keeps the general issue exactly when nothing matched. */
  lemma ScanRange(cats: seq<Category>, lower: string, lo: int, hi: int)
    requires lo <= hi
    requires forall k | 0 <= k < |cats| :: lo < cats[k].severity <= hi && Name(cats[k]) != GeneralIssue
    ensures lo <= Scan(cats, lower, (lo, GeneralIssue)).0 <= hi
    ensures Scan(cats, lower, (lo, GeneralIssue)).1 == GeneralIssue <==> forall k | 0 <= k < |cats| :: !Matches(cats[k], lower)
  {
    var r := Scan(cats, lower, (lo, GeneralIssue));
    ScanIsFirstMaximum(cats, lower, (lo, GeneralIssue));
    if r.0 > lo {
      var k :| FirstMaxAt(cats, lower, k, r.0) && r.1 == Name(cats[k]);
    }
  }

  /** The issue table's severities lie in (30, 95] and every entry has its own display name. */
  lemma CategoriesWellFormed()
    ensures forall k | 0 <= k < |Categories| :: Baseline < Categories[k].severity <= 95 && Name(Categories[k]) != GeneralIssue
  {
    forall k | 0 <= k < |Categories|
      ensures Baseline < Categories[k].severity <= 95 && Name(Categories[k]) != GeneralIssue
    {
      assert Categories[k].issue.Key() in IssueKeys;
    }
  }

  /** The result of `analyzeMessage`. */
  datatype MessageScore = MessageScore(score: int, primaryIssue: string, showsWillingness: bool, hasRefusal: bool)

  /** What `analyzeMessage` computes: for a non-empty message a score in [30, 95]. */
  function MessageAnalysis(message: string): (m: MessageScore)
    ensures message == "" ==> m.score == 0
    ensures message != "" ==> 30 <= m.score <= 95
  {
    if message == "" then MessageScore(0, GeneralIssue, false, false)
    else
      var lower := Text.Lower(message);
      var best := Scan(Categories, lower, (Baseline, GeneralIssue));
      CategoriesWellFormed();
      ScanRange(Categories, lower, Baseline, 95);
      var willing := Text.AnyOccurs(lower, WillingnessWords);
      MessageScore(if willing && best.0 > 50 then best.0 - 15 else best.0, best.1, willing,
                   Text.Contains(lower, "can't pay") || Text.Contains(lower, "won't pay"))
  }

  /** `analyzeMessage`: scans the issue table with a running maximum, then applies the willingness discount. */
  method AnalyzeMessage(message: string) returns (m: MessageScore)
    ensures m == MessageAnalysis(message)
  {
    if message == "" {
      return MessageScore(0, GeneralIssue, false, false);
    }
    var lower := Text.Lower(message);
    var maxSeverity := Baseline;
    var primaryIssue := GeneralIssue;
    var i := 0;
    while i < |Categories|
      invariant 0 <= i <= |Categories|
      invariant Scan(Categories[i..], lower, (maxSeverity, primaryIssue)) == Scan(Categories, lower, (Baseline, GeneralIssue))
    {
      var c := Categories[i];
      if Matches(c, lower) {
        if c.severity > maxSeverity {
          maxSeverity := c.severity;
          primaryIssue := FormatIssueName(c.issue.Key());
        }
      }
      assert Categories[i..][1..] == Categories[i + 1..];
      i := i + 1;
    }
    var showsWillingness := Text.AnyOccurs(lower, WillingnessWords);
    if showsWillingness && maxSeverity > 50 {
      maxSeverity := maxSeverity - 15;
    }
    m := MessageScore(maxSeverity, primaryIssue, showsWillingness,
                      Text.Contains(lower, "can't pay") || Text.Contains(lower, "won't pay"));
  }

  /** For a non-empty message the issue is the general one exactly when no category matched, and otherwise
      the name of the first matched category of highest severity; refusal means "can't pay" or "won't pay". */
  lemma MessageIssue(message: string)
    requires message != ""
    ensures MessageAnalysis(message).primaryIssue == GeneralIssue <==>
      forall k | 0 <= k < |Categories| :: !Matches(Categories[k], Text.Lower(message))
    ensures MessageAnalysis(message).primaryIssue != GeneralIssue ==>
      exists k :: FirstMaxAt(Categories, Text.Lower(message), k, Scan(Categories, Text.Lower(message), (Baseline, GeneralIssue)).0)
               && MessageAnalysis(message).primaryIssue == Name(Categories[k])
    ensures MessageAnalysis(message).hasRefusal <==>
      Text.Contains(Text.Lower(message), "can't pay") || Text.Contains(Text.Lower(message), "won't pay")
  {
    var lower := Text.Lower(message);
    CategoriesWellFormed();
    ScanRange(Categories, lower, Baseline, 95);
    ScanIsFirstMaximum(Categories, lower, (Baseline, GeneralIssue));
  }

  /** The result of `analyzeCommunicationPattern`. */
  datatype CommunicationScore = CommunicationScore(score: int, responseTime: real, daysPastDue: int)

  /** The response-time adjustment; a zero response time counts as absent. */
  function ResponseAdjustment(responseTime: real): int {
    if responseTime == 0.0 then 0
    else if responseTime < 2.0 then -10
    else if responseTime > 48.0 then 20
    else if responseTime > 24.0 then 10
    else 0
  }

  /** The days-past-due adjustment of the communication score. */
  function DpdAdjustment(dpd: int): int {
    if dpd > 90 then 40
    else if dpd > 60 then 30
    else if dpd > 30 then 20
    else if dpd > 7 then 10
    else if dpd < 7 then -10
    else 0
  }

  function CommunicationScoreOf(responseTime: real, dpd: int): (s: int)
    ensures 0 <= s <= 100
  {
    JsMath.Clamp(0, 100, 50 + ResponseAdjustment(responseTime) + DpdAdjustment(dpd))
  }

  /** `analyzeCommunicationPattern`: baseline 50, adjusted for response time and days past due
      (`daysPastDue || overdueDays || 0`), clamped to [0, 100]. */
  method AnalyzeCommunicationPattern(responseTime: real, borrower: BorrowerRecord) returns (c: CommunicationScore)
    ensures c.daysPastDue == FirstNonZero(borrower.daysPastDue, borrower.overdueDays)
    ensures c.score == CommunicationScoreOf(responseTime, c.daysPastDue)
    ensures 0 <= c.score <= 100
  {
    var score := 50;
    if responseTime != 0.0 {
      if responseTime < 2.0 {
        score := score - 10;
      } else if responseTime > 48.0 {
        score := score + 20;
      } else if responseTime > 24.0 {
        score := score + 10;
      }
    }
    var dpd := FirstNonZero(borrower.daysPastDue, borrower.overdueDays);
    if dpd > 90 {
      score := score + 40;
    } else if dpd > 60 {
      score := score + 30;
    } else if dpd > 30 {
      score := score + 20;
    } else if dpd > 7 {
      score := score + 10;
    } else if dpd < 7 {
      score := score - 10;
    }
    c := CommunicationScore(JsMath.Clamp(0, 100, score), responseTime, dpd);
  }

  /** More days past due never lowers the communication score; exactly 7 days gets no adjustment. */
  lemma CommunicationMonotoneInDpd(responseTime: real, d1: int, d2: int)
    requires d1 <= d2
    ensures CommunicationScoreOf(responseTime, d1) <= CommunicationScoreOf(responseTime, d2)
    ensures DpdAdjustment(7) == 0 && DpdAdjustment(6) == -10 && DpdAdjustment(8) == 10
  {
    assert DpdAdjustment(d1) <= DpdAdjustment(d2);
    JsMath.ClampMonotone(0, 100, 50 + ResponseAdjustment(responseTime) + DpdAdjustment(d1),
                         50 + ResponseAdjustment(responseTime) + DpdAdjustment(d2));
  }

  /** The result of `analyzeFinancialIndicators` (the ratios it also reports are display-only). */
  datatype FinancialScore = FinancialScore(score: int, isOverdue: bool)

  function EmiRatioAdjustment(emiAmount: Option<real>, loanAmount: real): int {
    if TruthyAmount(emiAmount) && loanAmount != 0.0 then
      var ratio := emiAmount.value / loanAmount * 100.0;
      if ratio > 15.0 then 15 else if ratio > 10.0 then 10 else if ratio < 5.0 then -10 else 0
    else 0
  }

  function BalanceAdjustment(outstanding: Option<real>, loanAmount: real): int {
    if TruthyAmount(outstanding) && loanAmount != 0.0 then
      var ratio := outstanding.value / loanAmount * 100.0;
      if ratio > 80.0 then 20 else if ratio > 50.0 then 10 else if ratio < 20.0 then -15 else 0
    else 0
  }

  function OverdueAdjustment(isOverdue: bool, daysPastDue: int): int {
    if !isOverdue then 0
    else 15 + (if daysPastDue > 90 then 25 else if daysPastDue > 60 then 15 else if daysPastDue > 30 then 10 else 0)
  }

  function FinancialScoreOf(b: BorrowerRecord): (s: int)
    ensures 0 <= s <= 100
  {
    JsMath.Clamp(0, 100, 40 + EmiRatioAdjustment(b.emiAmount, b.loanAmount)
                            + BalanceAdjustment(b.outstandingBalance, b.loanAmount)
                            + OverdueAdjustment(b.isOverdue, b.daysPastDue))
  }

  /** `analyzeFinancialIndicators`: baseline 40, adjusted for the EMI burden, the unpaid share of the loan
      and the overdue state, clamped to [0, 100]. */
  method AnalyzeFinancialIndicators(b: BorrowerRecord) returns (f: FinancialScore)
    ensures f == FinancialScore(FinancialScoreOf(b), b.isOverdue)
    ensures 0 <= f.score <= 100
  {
    var score := 40;
    if TruthyAmount(b.emiAmount) && b.loanAmount != 0.0 {
      var emiRatio := b.emiAmount.value / b.loanAmount * 100.0;
      if emiRatio > 15.0 {
        score := score + 15;
      } else if emiRatio > 10.0 {
        score := score + 10;
      } else if emiRatio < 5.0 {
        score := score - 10;
      }
    }
    if TruthyAmount(b.outstandingBalance) && b.loanAmount != 0.0 {
      var balanceRatio := b.outstandingBalance.value / b.loanAmount * 100.0;
      if balanceRatio > 80.0 {
        score := score + 20;
      } else if balanceRatio > 50.0 {
        score := score + 10;
      } else if balanceRatio < 20.0 {
        score := score - 15;
      }
    }
    if b.isOverdue {
      score := score + 15;
      if b.daysPastDue > 90 {
        score := score + 25;
      } else if b.daysPastDue > 60 {
        score := score + 15;
      } else if b.daysPastDue > 30 {
        score := score + 10;
      }
    }
    f := FinancialScore(JsMath.Clamp(0, 100, score), b.isOverdue);
  }

  /** Being overdue never lowers the financial score, and more days past due never lower it either. */
  lemma FinancialMonotone(b: BorrowerRecord, d: int)
    requires b.daysPastDue <= d
    ensures FinancialScoreOf(b.(isOverdue := false)) <= FinancialScoreOf(b.(isOverdue := true))
    ensures FinancialScoreOf(b) <= FinancialScoreOf(b.(daysPastDue := d))
  {
    var base := 40 + EmiRatioAdjustment(b.emiAmount, b.loanAmount) + BalanceAdjustment(b.outstandingBalance, b.loanAmount);
    JsMath.ClampMonotone(0, 100, base + OverdueAdjustment(false, b.daysPastDue), base + OverdueAdjustment(true, b.daysPastDue));
    JsMath.ClampMonotone(0, 100, base + OverdueAdjustment(b.isOverdue, b.daysPastDue), base + OverdueAdjustment(b.isOverdue, d));
  }

  /** The ML part of the composite. */
  datatype MlScore = MlScore(score: int, isML: bool)

  /** `getMLPrediction`: the severity table when the ML result carries a non-empty severity (unknown labels
      score 50); otherwise a fallback on the keyword sentiment. */
  function MlPrediction(message: string, ml: Option<AiService.MlResult>): (m: MlScore)
    ensures 25 <= m.score <= 95
    ensures m.isML <==> ml.Some? && ml.value.riskSeverity.Some? && ml.value.riskSeverity.value != ""
  {
    if ml.Some? && ml.value.riskSeverity.Some? && ml.value.riskSeverity.value != "" then
      var sev := ml.value.riskSeverity.value;
      MlScore(if sev == "Low" then 25 else if sev == "Medium" then 55 else if sev == "High" then 85
              else if sev == "Critical" then 95 else 50, true)
    else
      var s := AiService.AnalyzeSentiment(message).sentiment;
      MlScore(if s == HighSentiment then 85 else if s == ModerateSentiment then 60 else if s == LowSentiment then 30 else 50, false)
  }

  /** `determineStressLevel`. */
  function DetermineStressLevel(score: real): StressLevel {
    if score >= 90.0 then Critical
    else if score >= 70.0 then High
    else if score >= 40.0 then Moderate
    else Low
  }

  function StressRank(s: StressLevel): int {
    match s
    case Low => 0
    case Moderate => 1
    case High => 2
    case Critical => 3
    case UnknownStress => -1
  }

  /** The stress label never decreases as the score grows, and is never Unknown. */
  lemma StressMonotone(a: real, b: real)
    requires a <= b
    ensures 0 <= StressRank(DetermineStressLevel(a)) <= StressRank(DetermineStressLevel(b))
  {
  }

  /** `determineWillingness`: willingness words, then refusal, then overdue with a financial score above 70. */
  function DetermineWillingness(m: MessageScore, f: FinancialScore): (w: Willingness)
    ensures w == WillPay <==> m.showsWillingness
    ensures w == Refusal <==> !m.showsWillingness && m.hasRefusal
    ensures w == Struggling <==> !m.showsWillingness && !m.hasRefusal && f.isOverdue && f.score > 70
    ensures w != UnknownWillingness
  {
    if m.showsWillingness then WillPay
    else if m.hasRefusal then Refusal
    else if f.isOverdue && f.score > 70 then Struggling
    else LikelyToPay
  }

  /** The weighted composite before rounding. */
  function Composite(ml: int, message: int, financial: int, communication: int): real {
    ml as real * 0.60 + message as real * 0.15 + financial as real * 0.15 + communication as real * 0.10
  }

  /** The weights sum to one, so scores in [0, 100] give a composite in [0, 100], and equal scores give that score. */
  lemma CompositeRange(ml: int, message: int, financial: int, communication: int)
    requires 0 <= ml <= 100 && 0 <= message <= 100 && 0 <= financial <= 100 && 0 <= communication <= 100
    ensures 0.0 <= Composite(ml, message, financial, communication) <= 100.0
    ensures Composite(ml, ml, ml, ml) == ml as real
    ensures 0 <= JsMath.Round(Composite(ml, message, financial, communication)) <= 100
  {
  }

  /** The stress label is taken from the unrounded composite: ML 85 (severity High), message 90 (job loss),
      financial 100 and communication 100 give 89.5, reported as 90 with stress High rather than Critical. */
  lemma RoundedScoreAndStressDisagree()
    ensures Composite(85, 90, 100, 100) == 89.5
    ensures JsMath.Round(Composite(85, 90, 100, 100)) == 90
    ensures DetermineStressLevel(Composite(85, 90, 100, 100)) == High
  {
  }

  datatype Breakdown = Breakdown(message: MessageScore, communication: int, financial: FinancialScore, ml: MlScore)

  /** The result of `calculateComprehensiveScore`. */
  datatype Comprehensive = Comprehensive(
    compositeScore: int,
    stressLevel: StressLevel,
    primaryIssue: string,
    willingnessToPay: Willingness,
    breakdown: Breakdown)

  /** The fixed result for an empty message. */
  const EmptyMessageResult := Comprehensive(0, Low, "No message provided", UnknownWillingness,
    Breakdown(MessageScore(0, "None", false, false), 0, FinancialScore(0, false), MlScore(0, false)))

  /** What `calculateComprehensiveScore` computes for a message, a borrower, a response time and an ML result. */
  function ComprehensiveScore(message: string, b: BorrowerRecord, responseTime: real, ml: Option<AiService.MlResult>): Comprehensive {
    if message == "" then EmptyMessageResult
    else
      var m := MessageAnalysis(message);
      var comm := CommunicationScoreOf(responseTime, FirstNonZero(b.daysPastDue, b.overdueDays));
      var fin := FinancialScore(FinancialScoreOf(b), b.isOverdue);
      var mlScore := MlPrediction(message, ml);
      var composite := Composite(mlScore.score, m.score, fin.score, comm);
      Comprehensive(JsMath.Round(composite), DetermineStressLevel(composite), m.primaryIssue,
                    DetermineWillingness(m, fin), Breakdown(m, comm, fin, mlScore))
  }

  /** `calculateComprehensiveScore`. */
  method CalculateComprehensiveScore(message: string, b: BorrowerRecord, responseTime: real, ml: Option<AiService.MlResult>)
    returns (r: Comprehensive)
    ensures r == ComprehensiveScore(message, b, responseTime, ml)
  {
    if message == "" {
      return EmptyMessageResult;
    }
    var messageScore := AnalyzeMessage(message);
    var communication := AnalyzeCommunicationPattern(responseTime, b);
    var financial := AnalyzeFinancialIndicators(b);
    var mlScore := MlPrediction(message, ml);
    var composite := Composite(mlScore.score, messageScore.score, financial.score, communication.score);
    r := Comprehensive(JsMath.Round(composite), DetermineStressLevel(composite), messageScore.primaryIssue,
                       DetermineWillingness(messageScore, financial),
                       Breakdown(messageScore, communication.score, financial, mlScore));
  }

  /** The label from the unrounded composite agrees with the rounded score up to the rounding. */
  lemma StressAgreesWithRounding(c: real)
    requires 0.0 <= c <= 100.0
    ensures 0 <= JsMath.Round(c) <= 100
    ensures DetermineStressLevel(c) == Critical ==> JsMath.Round(c) >= 90
    ensures DetermineStressLevel(c) == Low ==> JsMath.Round(c) <= 40
    ensures DetermineStressLevel(c) != UnknownStress
  {
  }

  /** For a non-empty message the composite score lies in [0, 100], the stress label agrees with it up to
      rounding, and the label is never Unknown; an empty message gives the fixed result. */
  lemma ComprehensiveProperties(message: string, b: BorrowerRecord, responseTime: real, ml: Option<AiService.MlResult>)
    ensures message == "" ==> ComprehensiveScore(message, b, responseTime, ml) == EmptyMessageResult
    ensures message != "" ==>
      var r := ComprehensiveScore(message, b, responseTime, ml);
      && 0 <= r.compositeScore <= 100
      && (r.stressLevel == Critical ==> r.compositeScore >= 90)
      && (r.stressLevel == Low ==> r.compositeScore <= 40)
      && r.stressLevel != UnknownStress
  {
    if message != "" {
      var m := MessageAnalysis(message);
      var comm := CommunicationScoreOf(responseTime, FirstNonZero(b.daysPastDue, b.overdueDays));
      var mlScore := MlPrediction(message, ml);
      CompositeRange(mlScore.score, m.score, FinancialScoreOf(b), comm);
      StressAgreesWithRounding(Composite(mlScore.score, m.score, FinancialScoreOf(b), comm));
    }
  }
}

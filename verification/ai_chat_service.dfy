/**
 * The stateless chat helper of backend/services/aiChatService.js: the opening message chosen by
 * how long the payment is overdue, detection of an explicit request for repayment plans, the
 * reply that presents two plans, the two plans themselves, and the follow-up reminder.
 *
 * `toLocaleString` on amounts is a parameter `fmt` (its digit grouping depends on the runtime's
 * locale data). Characters of the message templates that were stored with a double encoding are
 * kept as the exact code points the source file holds.
 */
module AiChatService {
  import opened Wrappers
  import Text
  import JsMath
  import opened Schema

  /** "â‚¹": the rupee sign as stored in the templates. */
  const Rupee := "\U{E2}\U{201A}\U{B9}"
  /** "â€¢": the bullet as stored in the templates. */
  const Bullet := "\U{E2}\U{20AC}\U{A2}"
  /** "ðŸ“‹": the clipboard emoji as stored in the templates. */
  const Clipboard := "\U{F0}\U{178}\U{201C}\U{2039}"

  /** Which of the three opening templates applies. */
  function TemplateIndex(overdueDays: int): (i: nat)
    ensures i < 3
    ensures i == 1 <==> overdueDays > 60
    ensures i == 2 <==> 30 < overdueDays <= 60
    ensures i == 0 <==> overdueDays <= 30
  {
    if overdueDays > 60 then 1 else if overdueDays > 30 then 2 else 0
  }

  function Salutation(i: nat): string {
    if i == 1 then "Dear " else if i == 2 then "Hi " else "Hello "
  }

  /** `emiAmount?.toLocaleString() || 'N/A'`. */
  function EmiText(emiAmount: Option<real>, fmt: real -> string): (s: string)
    ensures emiAmount.None? ==> s == "N/A"
    ensures s != ""
  {
    match emiAmount
    case None => "N/A"
    case Some(x) => if fmt(x) == "" then "N/A" else fmt(x)
  }

  /** The text of a template after "{salutation}{name}, ". */
  function TemplateRest(i: nat, overdueDays: int, emiText: string): string {
    var days := Text.IntToString(overdueDays);
    if i == 1 then
      "your EMI payment of " + Rupee + emiText + " is " + days + " days overdue. We understand that sometimes circumstances can be challenging. Please let us know if you're experiencing any difficulties, and we'll work together to find a solution."
    else if i == 2 then
      "we wanted to reach out regarding your EMI payment which is " + days + " days past due. Is everything alright? We're committed to helping our customers through difficult times. Please share any concerns you may have."
    else
      "we noticed your EMI payment is overdue by " + days + " days. We hope everything is okay. If you're facing any difficulties, we're here to help. Could you please let us know if there's anything we can do to assist you?"
  }

  /** `generateInitialMessage`: the salutation of the overdue bucket, the customer's name, then the
      bucket's template. */
  function GenerateInitialMessage(b: BorrowerRecord, fmt: real -> string): string {
    var i := TemplateIndex(b.overdueDays);
    Salutation(i) + b.customerName + (", " + TemplateRest(i, b.overdueDays, EmiText(b.emiAmount, fmt)))
  }

  /** The opening escalates with the overdue days: "Hello" up to 30 days, "Hi" up to 60, "Dear" beyond. */
  lemma InitialMessageSalutations(b: BorrowerRecord, fmt: real -> string)
    ensures b.overdueDays <= 30 ==> Text.StartsWith(GenerateInitialMessage(b, fmt), "Hello " + b.customerName)
    ensures 30 < b.overdueDays <= 60 ==> Text.StartsWith(GenerateInitialMessage(b, fmt), "Hi " + b.customerName)
    ensures b.overdueDays > 60 ==> Text.StartsWith(GenerateInitialMessage(b, fmt), "Dear " + b.customerName)
  {
    var i := TemplateIndex(b.overdueDays);
    Text.JoinParts(Salutation(i) + b.customerName, ", " + TemplateRest(i, b.overdueDays, EmiText(b.emiAmount, fmt)));
  }

  const PlanPhrases: seq<string> := [
    "show me the plans", "send plans", "send the plans", "what are the plans",
    "what plans", "repayment plans", "repayment options", "emi plans", "show plans", "again",
    "repeat plans", "share plans", "send me plans", "get the plans", "available plans",
    "what options", "what are my options", "any options", "help me with plans"]
  const RequestActions: seq<string> := ["get", "show", "send", "view", "what", "once", "again", "repeat"]

  /** `detectPlanRequest`: a listed phrase, or "plan" together with a request verb, in the lower-cased message. */
  predicate DetectPlanRequest(message: string) {
    var lower := Text.Lower(message);
    Text.AnyOccurs(lower, PlanPhrases) || (Text.Contains(lower, "plan") && Text.AnyOccurs(lower, RequestActions))
  }

  /** The bare word "again" is a plan request, whatever surrounds it. */
  lemma AgainIsAPlanRequest(message: string)
    requires Text.Contains(Text.Lower(message), "again")
    ensures DetectPlanRequest(message)
  {
    assert "again" in PlanPhrases;
  }

  /** "plan" together with any one request verb is enough. */
  lemma PlanWithActionIsRequest(message: string, action: string)
    requires action in RequestActions
    requires Text.Contains(Text.Lower(message), "plan") && Text.Contains(Text.Lower(message), action)
    ensures DetectPlanRequest(message)
  {
  }

  lemma WhatExplanationIsLowerCase()
    ensures Text.Lower("what explanation") == "what explanation"
  {
    Text.LowerOfLowerFree("what explanation");
  }

  lemma WhatExplanationContains()
    ensures Text.Contains("what explanation", "plan") && Text.Contains("what explanation", "what")
  {
    var s := "what explanation";
    assert s[7] == 'p' && s[8] == 'l' && s[9] == 'a' && s[10] == 'n';
    assert s[7..11] == "plan";
    assert s[0..4] == "what";
    Text.ContainsAt(s, "plan", 7);
    Text.ContainsAt(s, "what", 0);
  }

  /** "plan" is matched inside other words, so "what explanation" counts as a request. */
  lemma WhatExplanationIsAPlanRequest()
    ensures DetectPlanRequest("what explanation")
  {
    WhatExplanationIsLowerCase();
    WhatExplanationContains();
    PlanWithActionIsRequest("what explanation", "what");
  }

  /** A repayment plan as `generateEMIPlans` builds it. */
  datatype Plan = Plan(suggestedEMI: int, extendedTenure: int, gracePeriod: int, interestWaiver: int,
                       totalAmount: real, description: string)

  datatype Plans = Plans(planA: Plan, planB: Plan)

  /** Relief factor, tenure and grace by stress level; anything but High and Moderate, Critical included,
      gets the mildest relief. */
  function ReliefFactor(s: StressLevel): real {
    if s == High then 0.45 else if s == Moderate then 0.65 else 0.80
  }
  function TenureFactor(s: StressLevel): int {
    if s == High then 12 else if s == Moderate then 8 else 4
  }
  function GraceFactor(s: StressLevel): int {
    if s == High then 30 else if s == Moderate then 15 else 7
  }

  /** `emiAmount || loanAmount * 0.05`. */
  function CurrentEMI(b: BorrowerRecord): real {
    AmountOr(b.emiAmount, b.loanAmount * 0.05)
  }

  /** Plan B's installment (the full relief) is no dearer than Plan A's (20% above it). */
  lemma PlanBNoDearer(current: real, relief: real)
    requires relief >= 0.0
    ensures current >= 0.0 ==> 0 <= JsMath.Round(current * relief) <= JsMath.Round(current * relief * 1.2)
  {
    if current >= 0.0 {
      JsMath.RoundNonNegative(current * relief);
      JsMath.RoundMonotone(current * relief, current * relief * 1.2);
    }
  }

  /** `generateEMIPlans`. */
  function GenerateEMIPlans(b: BorrowerRecord, stress: StressLevel): (p: Plans)
    ensures p.planA.totalAmount == p.planB.totalAmount == AmountOr(b.outstandingBalance, b.loanAmount)
    ensures p.planB.extendedTenure == p.planA.extendedTenure + 6
    ensures p.planB.gracePeriod == p.planA.gracePeriod + 10
    ensures p.planA.interestWaiver in {0, 2} && p.planB.interestWaiver in {2, 5}
    ensures p.planB.interestWaiver > p.planA.interestWaiver
    ensures (p.planA.interestWaiver == 2) <==> b.overdueDays > 45
    ensures p.planA.suggestedEMI == JsMath.Round(CurrentEMI(b) * ReliefFactor(stress) * 1.2)
    ensures p.planB.suggestedEMI == JsMath.Round(CurrentEMI(b) * ReliefFactor(stress))
    ensures p.planA.extendedTenure == TenureFactor(stress) && p.planA.gracePeriod == GraceFactor(stress)
    ensures CurrentEMI(b) >= 0.0 ==> 0 <= p.planB.suggestedEMI <= p.planA.suggestedEMI
  {
    var balance := AmountOr(b.outstandingBalance, b.loanAmount);
    var current := CurrentEMI(b);
    var relief := ReliefFactor(stress);
    var a := Plan(JsMath.Round(current * relief * 1.2), TenureFactor(stress), GraceFactor(stress),
                  if b.overdueDays > 45 then 2 else 0, balance, "Balanced relief plan");
    var bPlan := Plan(JsMath.Round(current * relief), TenureFactor(stress) + 6, GraceFactor(stress) + 10,
                      if b.overdueDays > 45 then 5 else 2, balance, "Maximum relief plan");
    PlanBNoDearer(current, relief);
    Plans(a, bPlan)
  }

  /** The stress table: High stress gets relief 0.45 with 12 months and 30 days, Moderate 0.65 with
      8 months and 15 days, and every other level 0.80 with 4 months and 7 days. */
  lemma StressReliefTable(b: BorrowerRecord, stress: StressLevel)
    ensures var p, c := GenerateEMIPlans(b, stress), CurrentEMI(b);
      if stress == High then
        p.planA == p.planA.(suggestedEMI := JsMath.Round(c * 0.45 * 1.2), extendedTenure := 12, gracePeriod := 30)
        && p.planB == p.planB.(suggestedEMI := JsMath.Round(c * 0.45), extendedTenure := 18, gracePeriod := 40)
      else if stress == Moderate then
        p.planA == p.planA.(suggestedEMI := JsMath.Round(c * 0.65 * 1.2), extendedTenure := 8, gracePeriod := 15)
        && p.planB == p.planB.(suggestedEMI := JsMath.Round(c * 0.65), extendedTenure := 14, gracePeriod := 25)
      else
        p.planA == p.planA.(suggestedEMI := JsMath.Round(c * 0.80 * 1.2), extendedTenure := 4, gracePeriod := 7)
        && p.planB == p.planB.(suggestedEMI := JsMath.Round(c * 0.80), extendedTenure := 10, gracePeriod := 17)
  {
  }

  /** Critical stress gets the same plans as Low stress: the mildest relief, with installments no lower
      than those offered under High or Moderate stress. */
  lemma CriticalGetsLeastRelief(b: BorrowerRecord)
    requires CurrentEMI(b) >= 0.0
    ensures GenerateEMIPlans(b, Critical) == GenerateEMIPlans(b, Low)
    ensures GenerateEMIPlans(b, High).planA.suggestedEMI <= GenerateEMIPlans(b, Moderate).planA.suggestedEMI
                                                          <= GenerateEMIPlans(b, Critical).planA.suggestedEMI
    ensures GenerateEMIPlans(b, High).planB.suggestedEMI <= GenerateEMIPlans(b, Moderate).planB.suggestedEMI
                                                          <= GenerateEMIPlans(b, Critical).planB.suggestedEMI
    ensures GenerateEMIPlans(b, Critical).planB.extendedTenure < GenerateEMIPlans(b, High).planB.extendedTenure
  {
    var c := CurrentEMI(b);
    JsMath.RoundMonotone(c * 0.45 * 1.2, c * 0.65 * 1.2);
    JsMath.RoundMonotone(c * 0.65 * 1.2, c * 0.80 * 1.2);
    JsMath.RoundMonotone(c * 0.45, c * 0.65);
    JsMath.RoundMonotone(c * 0.65, c * 0.80);
  }

  /** The fields of the comprehensive analysis that the plan reply reads. */
  datatype PlanAnalysis = PlanAnalysis(stressLevel: StressLevel, primaryIssue: string, showsWillingness: bool)

  datatype Empathy = HighEmpathy | ModerateEmpathy | WillingEmpathy | DefaultEmpathy

  /** The empathy opener: High stress, then Moderate stress, then willingness, then the default. */
  function EmpathyFor(a: PlanAnalysis): (e: Empathy)
    ensures e == HighEmpathy <==> a.stressLevel == High
    ensures e == ModerateEmpathy <==> a.stressLevel == Moderate
    ensures e == WillingEmpathy <==> a.stressLevel != High && a.stressLevel != Moderate && a.showsWillingness
  {
    if a.stressLevel == High then HighEmpathy
    else if a.stressLevel == Moderate then ModerateEmpathy
    else if a.showsWillingness then WillingEmpathy
    else DefaultEmpathy
  }

  function EmpathyMessage(e: Empathy, a: PlanAnalysis, customerName: string): string {
    match e
    case HighEmpathy =>
      "I'm truly sorry to hear about the " + Text.Lower(a.primaryIssue) + " you're facing, " + customerName + ". We understand how difficult this is. "
    case ModerateEmpathy =>
      "I'm sorry to hear that you're dealing with " + Text.Lower(a.primaryIssue) + ", " + customerName + ". Thank you for being honest with us. "
    case WillingEmpathy =>
      "It's great to hear your commitment to resolving this, " + customerName + ". "
    case DefaultEmpathy =>
      "I'm sorry to hear about the difficulties you're facing, " + customerName + ". "
  }

  /** The interest-waiver line, present only for a non-zero waiver. */
  function WaiverLine(p: Plan): (s: string)
    ensures s == "" <==> p.interestWaiver == 0
  {
    if p.interestWaiver != 0 then Bullet + " Interest Waiver: " + Text.IntToString(p.interestWaiver) + "%" else ""
  }

  /** The lines of a plan's block before its waiver line. */
  function PlanLines(title: string, p: Plan, fmt: real -> string): string {
    Clipboard + " **" + title + "**\n"
      + Bullet + " Monthly EMI: " + Rupee + fmt(p.suggestedEMI as real) + "\n"
      + Bullet + " Extended Tenure: " + Text.IntToString(p.extendedTenure) + " months\n"
      + Bullet + " Grace Period: " + Text.IntToString(p.gracePeriod) + " days\n"
  }

  /** One plan's block of the reply: its lines, then the waiver line. */
  function PlanBlock(title: string, p: Plan, fmt: real -> string): string {
    PlanLines(title, p, fmt) + WaiverLine(p)
  }

  /** A plan's block ends with the waiver line, so it mentions a waiver exactly when the plan has one. */
  lemma PlanBlockEndsWithWaiver(title: string, p: Plan, fmt: real -> string)
    ensures var s := PlanBlock(title, p, fmt);
      |s| >= |WaiverLine(p)| && s[|s| - |WaiverLine(p)|..] == WaiverLine(p)
    ensures p.interestWaiver == 0 ==> PlanBlock(title, p, fmt) == PlanLines(title, p, fmt)
  {
    var s := PlanBlock(title, p, fmt);
    assert s[|PlanLines(title, p, fmt)|..] == WaiverLine(p);
  }

  const PlansIntro := "Our priority is to support you through this. I've formulated two customized payment options to help ease your burden:"
  const PlansClosing := "Both options are designed to significantly reduce your monthly commitment. Do either of these help your current situation?"

  /** The part of the plan reply after the empathy opener: the introduction, both plans, the closing question. */
  function PlansBody(planA: Plan, planB: Plan, fmt: real -> string): string {
    PlansIntro + "\n\n" + PlanBlock("Plan A - Balanced Support", planA, fmt) + "\n\n"
      + PlanBlock("Plan B - Comprehensive Relief", planB, fmt) + "\n\n" + PlansClosing
  }

  /** `generateResponseWithPlans`: a new line, the empathy opener, then both plans. */
  function GenerateResponseWithPlans(customerName: string, a: PlanAnalysis, planA: Plan, planB: Plan, fmt: real -> string): string {
    "\n" + EmpathyMessage(EmpathyFor(a), a, customerName) + PlansBody(planA, planB, fmt)
  }

  /** The plan reply opens with the empathy opener for the analysis and shows Plan A's block and then Plan B's. */
  lemma ResponseWithPlansLayout(customerName: string, a: PlanAnalysis, planA: Plan, planB: Plan, fmt: real -> string)
    ensures Text.StartsWith(GenerateResponseWithPlans(customerName, a, planA, planB, fmt),
                            "\n" + EmpathyMessage(EmpathyFor(a), a, customerName))
    ensures Text.Contains(GenerateResponseWithPlans(customerName, a, planA, planB, fmt),
                          PlanBlock("Plan A - Balanced Support", planA, fmt))
    ensures Text.Contains(GenerateResponseWithPlans(customerName, a, planA, planB, fmt),
                          PlanBlock("Plan B - Comprehensive Relief", planB, fmt))
  {
    var head := "\n" + EmpathyMessage(EmpathyFor(a), a, customerName);
    var blockA := PlanBlock("Plan A - Balanced Support", planA, fmt);
    var blockB := PlanBlock("Plan B - Comprehensive Relief", planB, fmt);
    var body := PlansBody(planA, planB, fmt);
    Text.JoinParts(head, body);
    var upToA := PlansIntro + "\n\n" + blockA;
    Text.JoinParts(PlansIntro + "\n\n", blockA);
    Text.ContainsExtended(upToA, blockA, "\n\n");
    Text.ContainsExtended(upToA + "\n\n", blockA, blockB);
    var upToB := upToA + "\n\n" + blockB;
    Text.JoinParts(upToA + "\n\n", blockB);
    Text.ContainsExtended(upToB, blockA, "\n\n");
    Text.ContainsExtended(upToB, blockB, "\n\n");
    Text.ContainsExtended(upToB + "\n\n", blockA, PlansClosing);
    Text.ContainsExtended(upToB + "\n\n", blockB, PlansClosing);
    Text.ContainsExtended(body, blockA, head);
    Text.ContainsExtended(body, blockB, head);
  }

  /** The follow-up bucket: up to 3 days, up to 7 days, longer. */
  function FollowUpBucket(daysSinceLastMessage: int): (k: nat)
    ensures k < 3
    ensures k == 0 <==> daysSinceLastMessage <= 3
    ensures k == 1 <==> 3 < daysSinceLastMessage <= 7
  {
    if daysSinceLastMessage <= 3 then 0 else if daysSinceLastMessage <= 7 then 1 else 2
  }

  function FollowUpSalutation(k: nat): string {
    if k == 0 then "Hi " else if k == 1 then "Dear " else "Hello "
  }

  /** The text of a follow-up after "{salutation}{name}, ". */
  function FollowUpRest(k: nat): string {
    if k == 0 then
      "I wanted to follow up on my previous message. We're here to help you with your payment situation. Please let us know if you have any questions or concerns."
    else if k == 1 then
      "we haven't heard from you yet. We genuinely want to help you resolve your overdue payment. Our team is ready to work with you on a solution. Please reach out at your earliest convenience."
    else
      "this is a final reminder about your overdue payment. We've been trying to reach you to discuss flexible payment options. Please contact us as soon as possible to avoid further action."
  }

  /** `generateFollowUpMessage`: the bucket's salutation, the customer's name and the bucket's text. */
  function GenerateFollowUpMessage(customerName: string, daysSinceLastMessage: int): string {
    var k := FollowUpBucket(daysSinceLastMessage);
    FollowUpSalutation(k) + customerName + (", " + FollowUpRest(k))
  }

  /** The follow-up opens with its bucket's salutation ("Hi " up to 3 days, "Dear " up to 7, "Hello "
      beyond) and the customer's name. */
  lemma FollowUpSalutations(customerName: string, daysSinceLastMessage: int)
    ensures Text.StartsWith(GenerateFollowUpMessage(customerName, daysSinceLastMessage),
                            FollowUpSalutation(FollowUpBucket(daysSinceLastMessage)) + customerName)
  {
    var k := FollowUpBucket(daysSinceLastMessage);
    Text.JoinParts(FollowUpSalutation(k) + customerName, ", " + FollowUpRest(k));
  }

}

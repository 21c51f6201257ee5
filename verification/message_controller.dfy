/**
 * The chat endpoints of backend/controllers/messageController.js.
 *
 * `sendMessage` validates the request, stores the sender's message and, when a borrower wrote it,
 * answers automatically: the message is scored, the borrower's behavioural analysis and risk level
 * are updated, and either two repayment plans (with their recommendations) or an empathetic reply
 * are posted on behalf of the borrower's manager. `getConversation` lists a conversation, opens an
 * empty one with an automated outreach message when a borrower asks for it, and rewrites
 * current-format messages into the sender/recipient shape the frontend reads. `getChatPartners`
 * lists the borrowers a manager has exchanged old-format messages with.
 *
 * Times are milliseconds. The "any manager" lookup, the machine-learning result, the regional
 * executive lookup and the amount formatting are parameters; the SMS to a borrower is left out.
 */
module MessageController {
  import opened Wrappers
  import Text
  import opened Schema
  import opened Http
  import AiService
  import AiChatService
  import BehavioralScoring
  import RiskSync
  import AutoAssignment

  /** The authenticated caller: a borrower logs in with role 'user', staff with 'manager' or 'admin'. */
  datatype User = User(id: nat, role: string)

  /** What the handlers read from outside the database. */
  datatype ChatEnv = ChatEnv(
    now: int,
    anyManager: Option<nat>,
    ml: Option<AiService.MlResult>,
    findByLocation: string -> Option<AutoAssignment.Executive>,
    fmt: real -> string)

  const ContentRequired := "Message content is required"
  const RecipientRequired := "Recipient ID is required"
  const InvalidRole := "Invalid user role"

  /** Two hours in milliseconds, the window in which plans are not offered again. */
  const TwoHoursMs := 2 * 60 * 60 * 1000

  predicate IsBorrowerRole(role: string) {
    role == "user"
  }

  predicate IsStaffRole(role: string) {
    role == "manager" || role == "admin"
  }

  /** `content && content.trim()`: present and not blank. */
  predicate HasContent(content: Option<string>) {
    content.Some? && Text.TrimJs(content.value) != ""
  }

  /** The first validation failure of `sendMessage`, in the order the handler checks them. */
  function SendError(content: Option<string>, recipientId: Option<nat>, role: string): (err: Option<string>)
    ensures err == Some(ContentRequired) <==> !HasContent(content)
    ensures err == Some(RecipientRequired) <==> HasContent(content) && recipientId.None?
    ensures err == Some(InvalidRole) <==> HasContent(content) && recipientId.Some? && !IsBorrowerRole(role) && !IsStaffRole(role)
    ensures err.None? <==> HasContent(content) && recipientId.Some? && (IsBorrowerRole(role) || IsStaffRole(role))
  {
    if !HasContent(content) then Some(ContentRequired)
    else if recipientId.None? then Some(RecipientRequired)
    else if !IsBorrowerRole(role) && !IsStaffRole(role) then Some(InvalidRole)
    else None
  }

  /**
   * The sender's own message: a borrower writes to the manager `recipientId` and the message carries
   * the keyword sentiment of its content; staff write to the borrower `recipientId` with sentiment
   * Unknown and risk score 0.
   */
  function OutgoingDraft(user: User, recipientId: nat, content: string): (m: ChatMessage)
    requires IsBorrowerRole(user.role) || IsStaffRole(user.role)
    ensures m.sender == Some(BorrowerSender) <==> IsBorrowerRole(user.role)
    ensures m.sender == Some(BorrowerSender) ==> m.borrowerId == Some(user.id) && m.managerId == Some(recipientId)
    ensures m.sender == Some(ManagerSender) ==> m.borrowerId == Some(recipientId) && m.managerId == Some(user.id)
    ensures m.riskScore == AiService.SentimentScore(m.sentiment)
    ensures IsBorrowerRole(user.role) ==> m.sentiment == AiService.AnalyzeSentiment(content).sentiment
    ensures !IsBorrowerRole(user.role) ==> m.sentiment == UnknownSentiment
    ensures m.text == content && !m.isAutomated && m.conversationState == AwaitingResponse
  {
    if IsBorrowerRole(user.role) then
      var s := AiService.AnalyzeSentiment(content);
      NewMessage(user.id, recipientId, BorrowerSender, content, AwaitingResponse, s.sentiment, s.score, false)
    else
      NewMessage(recipientId, user.id, ManagerSender, content, AwaitingResponse, UnknownSentiment, 0, false)
  }

  /** `borrower.assignedManager || borrower.uploadedBy`, falling back to any manager. */
  function ManagerFor(b: BorrowerRecord, anyManager: Option<nat>): (r: Option<nat>)
    ensures b.assignedManager.Some? ==> r == b.assignedManager
    ensures b.assignedManager.None? && b.uploadedBy.Some? ==> r == b.uploadedBy
    ensures r.None? <==> b.assignedManager.None? && b.uploadedBy.None? && anyManager.None?
  {
    if b.assignedManager.Some? then b.assignedManager
    else if b.uploadedBy.Some? then b.uploadedBy
    else anyManager
  }

  // ---------------------------------------------------------------------------------------------
  // The automated reply to a borrower
  // ---------------------------------------------------------------------------------------------

  /** Whether the reply shows financial distress: elevated stress, Low stress more than a week
      overdue, an explicit request for plans, or a sentiment score above 70. */
  predicate PlanTrigger(stress: StressLevel, overdueDays: int, explicit: bool, sentimentScore: int) {
    var isDistressed := stress in {Moderate, High, Critical} || (stress == Low && overdueDays > 7);
    isDistressed || explicit || sentimentScore > 70
  }

  /** More stress, more days overdue, a request or a higher score never withdraw the trigger. */
  lemma PlanTriggerMonotone(s1: StressLevel, s2: StressLevel, d1: int, d2: int, e1: bool, e2: bool, x1: int, x2: int)
    requires BehavioralScoring.StressRank(s1) <= BehavioralScoring.StressRank(s2)
    requires d1 <= d2 && (e1 ==> e2) && x1 <= x2
    requires PlanTrigger(s1, d1, e1, x1)
    ensures PlanTrigger(s2, d2, e2, x2)
  {
  }

  /** The sentiment arm fires exactly for High sentiment, so a borrower whose message reads as High
      sentiment is always offered help. */
  lemma SentimentArmIsHighSentiment(content: string, stress: StressLevel, overdueDays: int, explicit: bool)
    ensures AiService.AnalyzeSentiment(content).score > 70 <==> AiService.AnalyzeSentiment(content).sentiment == HighSentiment
    ensures AiService.AnalyzeSentiment(content).sentiment == HighSentiment ==>
      PlanTrigger(stress, overdueDays, explicit, AiService.AnalyzeSentiment(content).score)
  {
  }

  /** The query for a recent plan: an automated manager message in state plan_suggested for this
      borrower created no earlier than two hours before `now`. */
  predicate RecentPlanMessage(msgs: seq<ChatMessage>, borrowerId: nat, now: int) {
    exists i | 0 <= i < |msgs| ::
      && msgs[i].borrowerId == Some(borrowerId)
      && msgs[i].sender == Some(ManagerSender)
      && msgs[i].isAutomated
      && msgs[i].conversationState == PlanSuggested
      && msgs[i].createdAt >= now - TwoHoursMs
  }

  /** The `detailedInsights` sentence of the behavioural analysis. */
  function Insights(c: BehavioralScoring.Comprehensive): string {
    "Comprehensive analysis (Score: " + Text.IntToString(c.compositeScore) + "/100): "
      + c.primaryIssue + " detected. Stress level: " + c.stressLevel.Label() + "."
  }

  /** The behavioural analysis written to the borrower at time `now`. */
  function AnalysisRecord(c: BehavioralScoring.Comprehensive, now: int): (a: BehavioralAnalysis)
    ensures a.stressLevel == c.stressLevel && a.primaryIssue == c.primaryIssue
    ensures a.willingnessToPay == c.willingnessToPay && a.lastAnalysisDate == Some(now)
  {
    BehavioralAnalysis(c.stressLevel, c.primaryIssue, c.willingnessToPay, Some(now), Insights(c))
  }

  /**
   * The borrower after the analysis: the new behavioural analysis, the risk level synchronised with
   * the stress label (with a regional executive linked for an elevated one), and the rule-based
   * level instead when it is not PENDING and the composite score exceeds 70.
   */
  function AnalysedBorrower(b: BorrowerRecord, c: BehavioralScoring.Comprehensive, auto: RiskLevel,
                            findByLocation: string -> Option<AutoAssignment.Executive>, now: int): (r: BorrowerRecord)
    ensures r == b.(behavioralAnalysis := AnalysisRecord(c, now), riskLevel := r.riskLevel,
                    assignedFieldExecutive := r.assignedFieldExecutive)
    ensures auto != PendingRisk && c.compositeScore > 70 ==> r.riskLevel == auto
    ensures !(auto != PendingRisk && c.compositeScore > 70) ==> r.riskLevel == RiskSync.RiskForStress(c.stressLevel.Label())
    ensures r.assignedFieldExecutive != b.assignedFieldExecutive ==>
      RiskSync.RiskForStress(c.stressLevel.Label()).IsElevated()
      && AutoAssignment.AssignmentFor(b, findByLocation).Some?
      && r.assignedFieldExecutive == Some(AutoAssignment.AssignmentFor(b, findByLocation).value.id)
  {
    var synced := RiskSync.RiskForStress(c.stressLevel.Label());
    var e := AutoAssignment.AssignmentFor(b, findByLocation);
    b.(behavioralAnalysis := AnalysisRecord(c, now),
       riskLevel := if auto != PendingRisk && c.compositeScore > 70 then auto else synced,
       assignedFieldExecutive := if synced.IsElevated() && e.Some? then Some(e.value.id) else b.assignedFieldExecutive)
  }

  /** A plan as an automated Pending recommendation carrying the borrower's current risk level. */
  function PlanDraft(borrowerId: nat, managerId: nat, riskLevel: RiskLevel, p: AiChatService.Plan, planType: PlanType): (r: Recommendation)
    ensures r.status == Pending && r.isAutomated && r.planType == planType
    ensures r.borrowerId == borrowerId && r.managerId == managerId && r.riskLevel == riskLevel.Label()
    ensures r.suggestedEMI == p.suggestedEMI && r.extendedTenure == p.extendedTenure && r.gracePeriod == p.gracePeriod
  {
    NewRecommendation(borrowerId, managerId, riskLevel.Label(), p.suggestedEMI, p.extendedTenure, p.gracePeriod, planType, true)
  }

  /** What the automated reply writes: the saved borrower, the reply message, and the plan drafts. */
  datatype ReplyOutcome = ReplyOutcome(borrower: BorrowerRecord, message: ChatMessage, plans: seq<Recommendation>)

  /**
   * Everything the reply computes from the borrower's message before it decides: the keyword sentiment,
   * the comprehensive analysis (response time 0), the rule-based level (which sees no willingness flag),
   * the explicit plan request, the analysed borrower, the two plans and the two candidate texts.
   */
  datatype ReplyInputs = ReplyInputs(
    sentiment: AiService.SentimentResult,
    comprehensive: BehavioralScoring.Comprehensive,
    explicit: bool,
    analysed: BorrowerRecord,
    plans: AiChatService.Plans,
    planText: string,
    aiReplyText: string)

  /** The inputs of the reply to `content` from borrower `b`. */
  function ReplyInputsOf(b: BorrowerRecord, content: string, env: ChatEnv): ReplyInputs {
    var s := AiService.AnalyzeSentiment(content);
    var c := BehavioralScoring.ComprehensiveScore(content, b, 0.0, env.ml);
    var auto := AiService.AnalyzeRiskLevel(content, s.sentiment, false, env.ml);
    var analysed := AnalysedBorrower(b, c, auto, env.findByLocation, env.now);
    var plans := AiChatService.GenerateEMIPlans(analysed, c.stressLevel);
    ReplyInputs(s, c, AiChatService.DetectPlanRequest(content), analysed, plans,
                AiChatService.GenerateResponseWithPlans(analysed.customerName,
                  AiChatService.PlanAnalysis(c.stressLevel, c.primaryIssue, false), plans.planA, plans.planB, env.fmt),
                AiService.GenerateAIReply(b.customerName, s.sentiment, content))
  }

  /** Whether the reply offers plans: distress shown, and no recent plan message unless asked explicitly. */
  predicate OffersPlans(b: BorrowerRecord, inp: ReplyInputs, msgs: seq<ChatMessage>, now: int) {
    && PlanTrigger(inp.comprehensive.stressLevel, FirstNonZero(b.overdueDays, b.daysPastDue), inp.explicit, inp.sentiment.score)
    && (!RecentPlanMessage(msgs, b.id, now) || inp.explicit)
  }

  /**
   * The automated reply to borrower `b` for manager `managerId`, given the messages stored so far: with
   * plans, a plan_suggested message, Plan A then Plan B as Pending recommendations and the plan status
   * 'pending'; otherwise the empathetic reply and nothing else.
   */
  function AutomatedReply(b: BorrowerRecord, managerId: nat, inp: ReplyInputs, msgs: seq<ChatMessage>, now: int): (r: ReplyOutcome)
    ensures OffersPlans(b, inp, msgs, now) ==>
      && r.borrower == inp.analysed.(emiPlanStatus := PlanPending)
      && r.message.conversationState == PlanSuggested && r.message.text == inp.planText
      && |r.plans| == 2 && r.plans[0].planType == PlanA && r.plans[1].planType == PlanB
      && r.plans[0].suggestedEMI == inp.plans.planA.suggestedEMI && r.plans[1].suggestedEMI == inp.plans.planB.suggestedEMI
    ensures !OffersPlans(b, inp, msgs, now) ==>
      && r.borrower == inp.analysed && r.plans == []
      && r.message.conversationState == AwaitingResponse && r.message.text == inp.aiReplyText
    ensures r.message.borrowerId == Some(b.id) && r.message.managerId == Some(managerId)
    ensures r.message.sender == Some(ManagerSender) && r.message.isAutomated
    ensures forall p | p in r.plans ::
      && p.status == Pending && p.isAutomated && p.borrowerId == b.id && p.managerId == managerId
      && p.riskLevel == inp.analysed.riskLevel.Label()
  {
    var a := inp.analysed;
    if OffersPlans(b, inp, msgs, now) then
      ReplyOutcome(a.(emiPlanStatus := PlanPending),
                   NewMessage(b.id, managerId, ManagerSender, inp.planText, PlanSuggested, UnknownSentiment, 0, true),
                   [PlanDraft(b.id, managerId, a.riskLevel, inp.plans.planA, PlanA), PlanDraft(b.id, managerId, a.riskLevel, inp.plans.planB, PlanB)])
    else
      ReplyOutcome(a, NewMessage(b.id, managerId, ManagerSender, inp.aiReplyText, AwaitingResponse, UnknownSentiment, 0, true), [])
  }

  /** An explicit request for plans is always answered with plans, whatever was sent before. */
  lemma ExplicitRequestAlwaysGetsPlans(b: BorrowerRecord, managerId: nat, inp: ReplyInputs, msgs: seq<ChatMessage>, now: int)
    requires inp.explicit
    ensures |AutomatedReply(b, managerId, inp, msgs, now).plans| == 2
    ensures AutomatedReply(b, managerId, inp, msgs, now).borrower.emiPlanStatus == PlanPending
  {
  }

  /**
   * Plans are offered at most once every two hours unless asked for: once a reply with plans is stored
   * at `now`, a later message from the same borrower within two hours that does not ask for plans is
   * answered without plans, whatever else is stored in between.
   */
  lemma PlansThrottled(b: BorrowerRecord, managerId: nat, inp: ReplyInputs, msgs: seq<ChatMessage>, now: int,
                       id: nat, later: seq<ChatMessage>,
                       b2: BorrowerRecord, manager2: nat, inp2: ReplyInputs, now2: int)
    requires |AutomatedReply(b, managerId, inp, msgs, now).plans| == 2
    requires b2.id == b.id && !inp2.explicit
    requires now <= now2 <= now + TwoHoursMs
    ensures var stored := msgs + [StoredMessage(AutomatedReply(b, managerId, inp, msgs, now).message, id, now)] + later;
      AutomatedReply(b2, manager2, inp2, stored, now2).plans == []
  {
    var m := StoredMessage(AutomatedReply(b, managerId, inp, msgs, now).message, id, now);
    var stored := msgs + [m] + later;
    assert stored[|msgs|] == m;
    assert RecentPlanMessage(stored, b2.id, now2);
  }

  /** A borrower who writes a non-empty message never stays PENDING: the stress label of a non-empty
      message maps to a real level, and the rule-based override is never PENDING. */
  lemma ReplyNeverLeavesPending(b: BorrowerRecord, content: string, env: ChatEnv)
    requires content != ""
    ensures ReplyInputsOf(b, content, env).analysed.riskLevel != PendingRisk
  {
    var c := BehavioralScoring.ComprehensiveScore(content, b, 0.0, env.ml);
    BehavioralScoring.ComprehensiveProperties(content, b, 0.0, env.ml);
    RiskSync.StressLabelsMapInOrder(c.stressLevel);
  }

  /**
   * The final `borrower.save()` of the reply rejects exactly when no plans are offered to a borrower whose
   * stored plan status is 'superseded': offering plans writes 'pending' over it, and the analysis never
   * touches it.
   */
  lemma ReplySaveRejected(b: BorrowerRecord, managerId: nat, content: string, env: ChatEnv, msgs: seq<ChatMessage>)
    ensures var inp := ReplyInputsOf(b, content, env);
            (!SaveValidates(AutomatedReply(b, managerId, inp, msgs, env.now).borrower)
             <==> b.emiPlanStatus == PlanSuperseded && !OffersPlans(b, inp, msgs, env.now))
  {
    SaveRejectsOnlySuperseded(AutomatedReply(b, managerId, ReplyInputsOf(b, content, env), msgs, env.now).borrower);
  }

  /** The records the database stores for drafts inserted one after the other right after the message
      with id `messageId`, at `now`. */
  function Stamp(drafts: seq<Recommendation>, messageId: nat, now: int): (r: seq<Recommendation>)
    ensures |r| == |drafts|
    ensures forall i | 0 <= i < |drafts| :: r[i] == drafts[i].(id := messageId + 1 + i, createdAt := now)
  {
    seq(|drafts|, i requires 0 <= i < |drafts| => drafts[i].(id := messageId + 1 + i, createdAt := now))
  }

  /** The borrower document as the analysis leaves it: analysis written, risk level synchronised with the
      stress label (linking a regional executive for an elevated one), then overridden by the
      rule-based level when that is not PENDING and the composite score exceeds 70. */
  method AnalyseBorrower(borrower: BorrowerDoc, comprehensive: BehavioralScoring.Comprehensive, autoRiskLevel: RiskLevel, env: ChatEnv)
    modifies borrower
    ensures borrower.rec == AnalysedBorrower(old(borrower.rec), comprehensive, autoRiskLevel, env.findByLocation, env.now)
  {
    borrower.rec := borrower.rec.(behavioralAnalysis := AnalysisRecord(comprehensive, env.now));
    AutoAssignment.AssignmentReadsOnlyAddress(borrower.rec, old(borrower.rec), env.findByLocation);
    var synced := RiskSync.SyncRiskLevelWithStress(comprehensive.stressLevel.Label(), borrower, env.findByLocation);
    borrower.rec := borrower.rec.(riskLevel := synced);
    if autoRiskLevel != PendingRisk && comprehensive.compositeScore > 70 {
      borrower.rec := borrower.rec.(riskLevel := autoRiskLevel);
    }
  }

  /** The scoring half of the reply: the borrower document is loaded, the message scored, the document
      analysed, and the plans and both candidate texts prepared. */
  method ScoreMessage(b: BorrowerRecord, content: string, env: ChatEnv) returns (borrower: BorrowerDoc, inp: ReplyInputs)
    ensures fresh(borrower)
    ensures inp == ReplyInputsOf(b, content, env)
    ensures borrower.rec == inp.analysed && inp.analysed.id == b.id
  {
    borrower := new BorrowerDoc(b);
    var sentimentData := AiService.AnalyzeSentiment(content);
    var comprehensive := BehavioralScoring.CalculateComprehensiveScore(content, b, 0.0, env.ml);
    var aiReplyText := AiService.GenerateAIReply(b.customerName, sentimentData.sentiment, content);
    var autoRiskLevel := AiService.AnalyzeRiskLevel(content, sentimentData.sentiment, false, env.ml);
    AnalyseBorrower(borrower, comprehensive, autoRiskLevel, env);
    var analysed := borrower.rec;
    var explicitlyAskedForPlans := AiChatService.DetectPlanRequest(content);
    var plans := AiChatService.GenerateEMIPlans(analysed, comprehensive.stressLevel);
    var planResponseText := AiChatService.GenerateResponseWithPlans(analysed.customerName,
      AiChatService.PlanAnalysis(comprehensive.stressLevel, comprehensive.primaryIssue, false), plans.planA, plans.planB, env.fmt);
    inp := ReplyInputs(sentimentData, comprehensive, explicitlyAskedForPlans, analysed, plans, planResponseText, aiReplyText);
  }

  /** Plan A and Plan B stored one after the other at `now`. */
  method InsertPlans(db: Database, drafts: seq<Recommendation>, messageId: nat, now: int)
    requires db.Valid() && db.clock <= now && |drafts| == 2 && db.nextId == messageId + 1
    modifies db
    ensures db.Valid()
    ensures db.recommendations == old(db.recommendations) + Stamp(drafts, messageId, now)
    ensures db.messages == old(db.messages) && db.borrowers == old(db.borrowers)
    ensures db.nextId == old(db.nextId) + 2 && db.clock == now
  {
    var recA := db.InsertRecommendation(drafts[0], now);
    var recB := db.InsertRecommendation(drafts[1], now);
    assert Stamp(drafts, messageId, now) == [recA, recB];
  }

  /** The plan branch: the plan message, then Plan A and Plan B, stored at `now`. */
  method PostPlans(db: Database, b: BorrowerRecord, managerId: nat, inp: ReplyInputs, now: int)
    requires db.Valid() && db.clock <= now
    modifies db
    ensures db.Valid()
    ensures db.messages == old(db.messages)
      + [StoredMessage(NewMessage(b.id, managerId, ManagerSender, inp.planText, PlanSuggested, UnknownSentiment, 0, true),
                       old(db.nextId), now)]
    ensures db.recommendations == old(db.recommendations)
      + Stamp([PlanDraft(b.id, managerId, inp.analysed.riskLevel, inp.plans.planA, PlanA),
             PlanDraft(b.id, managerId, inp.analysed.riskLevel, inp.plans.planB, PlanB)],
              old(db.nextId), now)
    ensures db.borrowers == old(db.borrowers)
  {
    var message := db.InsertMessage(NewMessage(b.id, managerId, ManagerSender, inp.planText, PlanSuggested,
                                               UnknownSentiment, 0, true), now);
    InsertPlans(db, [PlanDraft(b.id, managerId, inp.analysed.riskLevel, inp.plans.planA, PlanA),
             PlanDraft(b.id, managerId, inp.analysed.riskLevel, inp.plans.planB, PlanB)], message.id, now);
  }

  /**
   * The collections `msgs`, `recs`, `bors` are `msgs0`, `recs0`, `bors0` after the reply `out` is written
   * with message id `messageId` at `now`: the reply message appended, its plans stored after it, and the
   * borrower saved under `borrowerId` when the document validates (otherwise left as it was).
   */
  ghost predicate ReplyWritten(out: ReplyOutcome, borrowerId: nat, messageId: nat, now: int,
                               msgs0: seq<ChatMessage>, recs0: seq<Recommendation>, bors0: map<nat, BorrowerRecord>,
                               msgs: seq<ChatMessage>, recs: seq<Recommendation>, bors: map<nat, BorrowerRecord>)
  {
    && msgs == msgs0 + [StoredMessage(out.message, messageId, now)]
    && recs == recs0 + Stamp(out.plans, messageId, now)
    && bors == if SaveValidates(out.borrower) then bors0[borrowerId := out.borrower] else bors0
  }

  /**
   * The writing half of the reply: the plan decision, the reply message (and any plans) stored, and the
   * borrower document saved; `saved` is false when that save rejects the document.
   */
  method PostReply(db: Database, borrower: BorrowerDoc, b: BorrowerRecord, managerId: nat, inp: ReplyInputs, now: int)
    returns (saved: bool)
    requires db.Valid() && db.clock <= now
    requires borrower.rec == inp.analysed && inp.analysed.id == b.id
    modifies db, borrower
    ensures db.Valid()
    ensures saved <==> SaveValidates(AutomatedReply(b, managerId, inp, old(db.messages), now).borrower)
    ensures ReplyWritten(AutomatedReply(b, managerId, inp, old(db.messages), now), b.id, old(db.nextId), now,
                         old(db.messages), old(db.recommendations), old(db.borrowers),
                         db.messages, db.recommendations, db.borrowers)
  {
    var overdueDays := FirstNonZero(b.overdueDays, b.daysPastDue);
    var showsFinancialDistress := PlanTrigger(inp.comprehensive.stressLevel, overdueDays, inp.explicit, inp.sentiment.score);
    var offered := false;
    if showsFinancialDistress {
      var recentPlanMsg := RecentPlanMessage(db.messages, b.id, now);
      offered := !recentPlanMsg || inp.explicit;
    }
    assert offered == OffersPlans(b, inp, db.messages, now);
    if offered {
      PostPlans(db, b, managerId, inp, now);
      borrower.rec := borrower.rec.(emiPlanStatus := PlanPending);
    } else {
      var _ := db.InsertMessage(NewMessage(b.id, managerId, ManagerSender, inp.aiReplyText, AwaitingResponse,
                                           UnknownSentiment, 0, true), now);
    }
    saved := db.SaveBorrower(borrower.rec);
  }

  /** The automated answer to borrower `b`'s message `content`, for manager `managerId`. */
  method AnswerBorrower(db: Database, b: BorrowerRecord, managerId: nat, content: string, env: ChatEnv)
    returns (inputs: ReplyInputs, saved: bool)
    requires db.Valid() && db.clock <= env.now
    modifies db
    ensures db.Valid()
    ensures inputs == ReplyInputsOf(b, content, env)
    ensures saved <==> SaveValidates(AutomatedReply(b, managerId, inputs, old(db.messages), env.now).borrower)
    ensures ReplyWritten(AutomatedReply(b, managerId, inputs, old(db.messages), env.now),
                         b.id, old(db.nextId), env.now, old(db.messages), old(db.recommendations), old(db.borrowers),
                         db.messages, db.recommendations, db.borrowers)
  {
    var borrower;
    borrower, inputs := ScoreMessage(b, content, env);
    saved := PostReply(db, borrower, b, managerId, inputs, env.now);
  }

  // ---------------------------------------------------------------------------------------------
  // sendMessage
  // ---------------------------------------------------------------------------------------------

  /**
   * `sendMessage`: a validation failure answers 400 and stores nothing. Otherwise the sender's message
   * is stored; for a borrower the automated reply follows when a manager can be found. A borrower
   * caller without a borrower record, or a borrower document whose save rejects it, makes the handler
   * fail after the messages are stored.
   */
  method SendMessage(db: Database, user: User, recipientId: Option<nat>, content: Option<string>, env: ChatEnv)
    returns (r: Response<ChatMessage>)
    requires db.Valid() && db.clock <= env.now
    modifies db
    ensures db.Valid()
    ensures SendError(content, recipientId, user.role).Some? ==>
      r == Err(400, SendError(content, recipientId, user.role).value)
      && db.messages == old(db.messages) && db.recommendations == old(db.recommendations)
      && db.borrowers == old(db.borrowers)
    ensures SendError(content, recipientId, user.role).None? ==>
      var msg := StoredMessage(OutgoingDraft(user, recipientId.value, content.value), old(db.nextId), env.now);
      var answered := IsBorrowerRole(user.role) && user.id in old(db.borrowers)
                      && ManagerFor(old(db.borrowers)[user.id], env.anyManager).Some?;
      && (!answered ==>
            && (r == if IsBorrowerRole(user.role) && user.id !in old(db.borrowers) then Forwarded else Ok(201, msg))
            && db.messages == old(db.messages) + [msg] && db.recommendations == old(db.recommendations)
            && db.borrowers == old(db.borrowers))
      && (answered ==>
            var b := old(db.borrowers)[user.id];
            var out := AutomatedReply(b, ManagerFor(b, env.anyManager).value, ReplyInputsOf(b, content.value, env),
                                      old(db.messages) + [msg], env.now);
            && (r == if SaveValidates(out.borrower) then Ok(201, msg) else Forwarded)
            && ReplyWritten(out, user.id, old(db.nextId) + 1, env.now, old(db.messages) + [msg], old(db.recommendations),
                            old(db.borrowers), db.messages, db.recommendations, db.borrowers))
  {
    var err := SendError(content, recipientId, user.role);
    if err.Some? {
      return Err(400, err.value);
    }
    var message := db.InsertMessage(OutgoingDraft(user, recipientId.value, content.value), env.now);
    if IsBorrowerRole(user.role) {
      if user.id !in db.borrowers {
        return Forwarded;
      }
      var borrower := db.borrowers[user.id];
      assert borrower.id == user.id;
      var managerId := ManagerFor(borrower, env.anyManager);
      if managerId.Some? {
        var _, saved := AnswerBorrower(db, borrower, managerId.value, content.value, env);
        if !saved {
          return Forwarded;
        }
      }
    }
    r := Ok(201, message);
  }

  // ---------------------------------------------------------------------------------------------
  // getConversation
  // ---------------------------------------------------------------------------------------------

  /** The conversation query: the current-format pair (borrower and manager, from the caller's role)
      or an old-format message between the two ids in either direction. */
  predicate InConversation(m: ChatMessage, role: string, userId: nat, otherId: nat) {
    || (if IsBorrowerRole(role) then m.borrowerId == Some(userId) && m.managerId == Some(otherId)
        else m.borrowerId == Some(otherId) && m.managerId == Some(userId))
    || (m.senderId == Some(userId) && m.recipientId == Some(otherId))
    || (m.senderId == Some(otherId) && m.recipientId == Some(userId))
  }

  /** The matching messages in creation order (the store order). */
  function Conversation(msgs: seq<ChatMessage>, role: string, userId: nat, otherId: nat): (r: seq<ChatMessage>)
    ensures |r| <= |msgs|
    ensures forall m :: m in r <==> m in msgs && InConversation(m, role, userId, otherId)
    decreases |msgs|
  {
    if msgs == [] then []
    else
      var rest := Conversation(msgs[..|msgs| - 1], role, userId, otherId);
      assert msgs == msgs[..|msgs| - 1] + [msgs[|msgs| - 1]];
      if InConversation(msgs[|msgs| - 1], role, userId, otherId) then rest + [msgs[|msgs| - 1]] else rest
  }

  /** The query keeps store order: the conversation of two stretches of the store, one after the other,
      is the first stretch's conversation followed by the second's. */
  lemma {:induction false} ConversationConcat(a: seq<ChatMessage>, b: seq<ChatMessage>, role: string, userId: nat, otherId: nat)
    ensures Conversation(a + b, role, userId, otherId) == Conversation(a, role, userId, otherId) + Conversation(b, role, userId, otherId)
    decreases |b|
  {
    if b == [] {
      assert a + b == a;
    } else {
      var n := |b| - 1;
      assert (a + b)[..|a + b| - 1] == a + b[..n];
      assert (a + b)[|a + b| - 1] == b[n];
      ConversationConcat(a, b[..n], role, userId, otherId);
    }
  }

  /** Whether `getConversation` opens the conversation with an outreach message, and from which manager:
      only for a borrower (role 'user') with a borrower record and an answering manager, and only when
      the conversation is empty. */
  function OutreachManager(msgs: seq<ChatMessage>, user: User, otherId: nat, borrowers: map<nat, BorrowerRecord>,
                           anyManager: Option<nat>): (r: Option<nat>)
    ensures r.Some? <==>
      Conversation(msgs, user.role, user.id, otherId) == [] && IsBorrowerRole(user.role) && user.id in borrowers
      && ManagerFor(borrowers[user.id], anyManager).Some?
    ensures r.Some? ==> r == ManagerFor(borrowers[user.id], anyManager)
  {
    if Conversation(msgs, user.role, user.id, otherId) == [] && IsBorrowerRole(user.role) && user.id in borrowers then
      ManagerFor(borrowers[user.id], anyManager)
    else None
  }

  /** The outreach message: the opening text for borrower `b`, sent by manager `managerId` to borrower
      `borrowerId` in state initiated. */
  function OutreachDraft(borrowerId: nat, b: BorrowerRecord, managerId: nat, fmt: real -> string): (m: ChatMessage)
    ensures m.borrowerId == Some(borrowerId) && m.managerId == Some(managerId)
    ensures m.senderId.None? && m.recipientId.None?
    ensures m.sender == Some(ManagerSender) && m.isAutomated && m.conversationState == Initiated
    ensures m.text == AiChatService.GenerateInitialMessage(b, fmt)
  {
    NewMessage(borrowerId, managerId, ManagerSender, AiChatService.GenerateInitialMessage(b, fmt),
               Initiated, UnknownSentiment, 0, true)
  }

  /** When the borrower's manager is the one the conversation is with, the outreach happens once: any
      message stored for that borrower and manager makes the conversation non-empty. */
  lemma OutreachOnce(msgs: seq<ChatMessage>, user: User, otherId: nat, borrowers: map<nat, BorrowerRecord>,
                     anyManager: Option<nat>, m: ChatMessage)
    requires OutreachManager(msgs, user, otherId, borrowers, anyManager) == Some(otherId)
    requires m.borrowerId == Some(user.id) && m.managerId == Some(otherId)
    ensures OutreachManager(msgs + [m], user, otherId, borrowers, anyManager).None?
  {
    assert m in msgs + [m];
    assert m in Conversation(msgs + [m], user.role, user.id, otherId);
  }

  /** When the borrower's manager is someone else, the outreach message lands outside the conversation
      being read, so every later read of that still-empty conversation sends another one. */
  lemma {:induction false} OutreachRepeats(msgs: seq<ChatMessage>, user: User, otherId: nat, borrowers: map<nat, BorrowerRecord>,
                                           anyManager: Option<nat>, m: ChatMessage)
    requires OutreachManager(msgs, user, otherId, borrowers, anyManager).Some?
    requires OutreachManager(msgs, user, otherId, borrowers, anyManager) != Some(otherId)
    requires m.borrowerId == Some(user.id) && m.managerId == OutreachManager(msgs, user, otherId, borrowers, anyManager)
    requires m.senderId.None? && m.recipientId.None?
    ensures OutreachManager(msgs + [m], user, otherId, borrowers, anyManager) == OutreachManager(msgs, user, otherId, borrowers, anyManager)
  {
    assert !InConversation(m, user.role, user.id, otherId);
  }

  /** Who sent a normalised message: the model name the frontend shows. */
  datatype SenderModel = ManagerModel | BorrowerModel {
    function Label(): string {
      match this
      case ManagerModel => "Manager"
      case BorrowerModel => "Borrower"
    }
  }

  /** A message as `getConversation` returns it: current-format messages rewritten, old ones as stored. */
  datatype Normalized =
    | Current(id: nat, senderModel: SenderModel, senderId: nat, recipientId: nat, content: string,
              sentiment: Sentiment, riskScore: int, createdAt: int, isAutomated: bool)
    | Legacy(original: ChatMessage)

  /** The normalisation of one message. */
  function Normalize(m: ChatMessage): (n: Normalized)
    ensures n.Legacy? <==> m.borrowerId.None? || m.managerId.None? || m.sender.None?
    ensures n.Legacy? ==> n.original == m
    ensures n.Current? ==>
      && (n.senderModel == ManagerModel <==> m.sender == Some(ManagerSender))
      && (n.senderModel.Label() == "Manager" || n.senderModel.Label() == "Borrower")
      && {n.senderId, n.recipientId} == {m.borrowerId.value, m.managerId.value}
      && (n.content == if m.text != "" then m.text else m.content)
      && n.id == m.id && n.createdAt == m.createdAt && n.isAutomated == m.isAutomated
  {
    if m.borrowerId.Some? && m.managerId.Some? && m.sender.Some? then
      var fromManager := m.sender.value == ManagerSender;
      Current(m.id,
              if fromManager then ManagerModel else BorrowerModel,
              if fromManager then m.managerId.value else m.borrowerId.value,
              if fromManager then m.borrowerId.value else m.managerId.value,
              if m.text != "" then m.text else m.content,
              m.sentiment, m.riskScore, m.createdAt, m.isAutomated)
    else Legacy(m)
  }

  function NormalizeAll(msgs: seq<ChatMessage>): (r: seq<Normalized>)
    ensures |r| == |msgs|
    ensures forall i | 0 <= i < |msgs| :: r[i] == Normalize(msgs[i])
  {
    seq(|msgs|, i requires 0 <= i < |msgs| => Normalize(msgs[i]))
  }

  /** The parties a normalised message names, read back as (borrower, manager, sender). */
  function Parties(n: Normalized): (p: (nat, nat, Sender))
    requires n.Current?
    ensures p.2 == ManagerSender <==> n.senderModel == ManagerModel
  {
    if n.senderModel == ManagerModel then (n.recipientId, n.senderId, ManagerSender)
    else (n.senderId, n.recipientId, BorrowerSender)
  }

  /** Normalisation loses nothing about the parties: they can be read back from the sender view. */
  lemma NormalizeRoundTrip(m: ChatMessage)
    requires Normalize(m).Current?
    ensures Parties(Normalize(m)) == (m.borrowerId.value, m.managerId.value, m.sender.value)
  {
  }

  /** Whoever sends a message sees themselves as its sender and the recipient they named as its recipient. */
  lemma OutgoingShowsSender(user: User, recipientId: nat, content: string, id: nat, now: int)
    requires IsBorrowerRole(user.role) || IsStaffRole(user.role)
    ensures var n := Normalize(StoredMessage(OutgoingDraft(user, recipientId, content), id, now));
      && n.Current? && n.senderId == user.id && n.recipientId == recipientId
      && (n.senderModel == BorrowerModel <==> IsBorrowerRole(user.role))
  {
  }

  /** In a conversation between two ids, a current-format message without old-format fields is between
      exactly those two: the caller sends it to the other party or receives it from them. */
  lemma ConversationIsBetweenTheTwo(msgs: seq<ChatMessage>, role: string, userId: nat, otherId: nat, i: nat)
    requires i < |Conversation(msgs, role, userId, otherId)|
    requires Conversation(msgs, role, userId, otherId)[i].senderId.None?
    requires Normalize(Conversation(msgs, role, userId, otherId)[i]).Current?
    ensures var n := Normalize(Conversation(msgs, role, userId, otherId)[i]);
      (n.senderId, n.recipientId) == (userId, otherId) || (n.senderId, n.recipientId) == (otherId, userId)
  {
    var m := Conversation(msgs, role, userId, otherId)[i];
    assert m in Conversation(msgs, role, userId, otherId);
    assert InConversation(m, role, userId, otherId);
  }

  /**
   * `getConversation`: the conversation in creation order, with the outreach message as its only
   * entry when one is created, every message normalised.
   */
  method GetConversation(db: Database, user: User, otherId: nat, env: ChatEnv) returns (r: Response<seq<Normalized>>)
    requires db.Valid() && db.clock <= env.now
    modifies db
    ensures db.Valid()
    ensures var k := OutreachManager(old(db.messages), user, otherId, old(db.borrowers), env.anyManager);
      && (k.None? ==>
            && r == Ok(200, NormalizeAll(Conversation(old(db.messages), user.role, user.id, otherId)))
            && db.messages == old(db.messages) && db.nextId == old(db.nextId))
      && (k.Some? ==>
            var m := StoredMessage(OutreachDraft(user.id, old(db.borrowers)[user.id], k.value, env.fmt), old(db.nextId), env.now);
            r == Ok(200, NormalizeAll([m])) && db.messages == old(db.messages) + [m])
    ensures db.borrowers == old(db.borrowers) && db.recommendations == old(db.recommendations)
  {
    var messages := Conversation(db.messages, user.role, user.id, otherId);
    if |messages| == 0 && IsBorrowerRole(user.role) && user.id in db.borrowers {
      var borrower := db.borrowers[user.id];
      var managerId := ManagerFor(borrower, env.anyManager);
      if managerId.Some? {
        var initialMsg := db.InsertMessage(OutreachDraft(user.id, borrower, managerId.value, env.fmt), env.now);
        messages := messages + [initialMsg];
        assert messages == [initialMsg];
      }
    }
    r := Ok(200, NormalizeAll(messages));
  }

  // ---------------------------------------------------------------------------------------------
  // getChatPartners
  // ---------------------------------------------------------------------------------------------

  /** The ids a manager has exchanged old-format messages with, in either direction. */
  function ChatPartners(msgs: seq<ChatMessage>, managerId: nat): (ids: set<nat>)
    ensures forall i | 0 <= i < |msgs| && msgs[i].senderId == Some(managerId) && msgs[i].recipientId.Some? ::
      msgs[i].recipientId.value in ids
    ensures forall i | 0 <= i < |msgs| && msgs[i].recipientId == Some(managerId) && msgs[i].senderId.Some? ::
      msgs[i].senderId.value in ids
    ensures forall id | id in ids :: exists i | 0 <= i < |msgs| ::
      || (msgs[i].senderId == Some(managerId) && msgs[i].recipientId == Some(id))
      || (msgs[i].recipientId == Some(managerId) && msgs[i].senderId == Some(id))
  {
    (set i | 0 <= i < |msgs| && msgs[i].senderId == Some(managerId) && msgs[i].recipientId.Some? :: msgs[i].recipientId.value)
    + (set i | 0 <= i < |msgs| && msgs[i].recipientId == Some(managerId) && msgs[i].senderId.Some? :: msgs[i].senderId.value)
  }

  /** `getChatPartners`: only the role 'manager' may ask (admins too get 403); the answer is the
      partners that are borrowers. */
  function GetChatPartners(user: User, msgs: seq<ChatMessage>, borrowers: map<nat, BorrowerRecord>): (r: Response<set<nat>>)
    ensures r.Err? <==> user.role != "manager"
    ensures r.Err? ==> r == Err(403, "Access denied")
    ensures r.Ok? ==> r.code == 200 && r.data <= borrowers.Keys && r.data <= ChatPartners(msgs, user.id)
    ensures r.Ok? ==> forall id | id in ChatPartners(msgs, user.id) && id in borrowers :: id in r.data
  {
    if user.role != "manager" then Err(403, "Access denied")
    else Ok(200, set id | id in ChatPartners(msgs, user.id) && id in borrowers)
  }

  /** Messages written by the current code carry no sender or recipient id, so a manager whose
      messages are all in the current format has no chat partners. */
  lemma {:induction false} CurrentFormatHasNoPartners(msgs: seq<ChatMessage>, managerId: nat)
    requires forall i | 0 <= i < |msgs| :: msgs[i].senderId.None? && msgs[i].recipientId.None?
    ensures ChatPartners(msgs, managerId) == {}
  {
  }
}

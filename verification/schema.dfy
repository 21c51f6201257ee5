/**
 * The persistent entities of the backend (models/Borrower.js, models/EMIRecommendation.js,
 * models/Message.js): their enumerations as datatypes, their documents as records, and the
 * database as an object holding the three collections that the core reads and writes.
 *
 * Identifiers (MongoDB ObjectIds) are natural numbers handed out by a counter; dates are
 * integers (milliseconds for `createdAt`, day numbers for due dates).
 */
module Schema {
  import opened Wrappers
  import Text

  /** Borrower `riskLevel`. */
  datatype RiskLevel = NormalRisk | ModerateRisk | HighRisk | CriticalRisk | PendingRisk {
    function Label(): string {
      match this
      case NormalRisk => "NORMAL_RISK"
      case ModerateRisk => "MODERATE_RISK"
      case HighRisk => "HIGH_RISK"
      case CriticalRisk => "CRITICAL_RISK"
      case PendingRisk => "PENDING"
    }

    /** The two levels for which field executives are assigned. */
    predicate IsElevated() {
      this == HighRisk || this == CriticalRisk
    }
  }

  /** The risk level a request names, if the schema's enumeration admits it. */
  function RiskLevelFromLabel(s: string): (r: Option<RiskLevel>)
    ensures r.Some? ==> r.value.Label() == s
    ensures r.None? ==> forall l: RiskLevel :: l.Label() != s
  {
    if s == "NORMAL_RISK" then Some(NormalRisk)
    else if s == "MODERATE_RISK" then Some(ModerateRisk)
    else if s == "HIGH_RISK" then Some(HighRisk)
    else if s == "CRITICAL_RISK" then Some(CriticalRisk)
    else if s == "PENDING" then Some(PendingRisk)
    else None
  }

  /** Borrower `emiPlanStatus`. The schema lists none/pending/accepted/rejected; `PlanSuperseded`
      is the lower-cased recommendation status 'Superseded', which an update query can still
      write because update queries do not run the enumeration validator. */
  datatype EmiPlanStatus = NoPlan | PlanPending | PlanAccepted | PlanRejected | PlanSuperseded {
    function Label(): string {
      match this
      case NoPlan => "none"
      case PlanPending => "pending"
      case PlanAccepted => "accepted"
      case PlanRejected => "rejected"
      case PlanSuperseded => "superseded"
    }
  }

  /**
   * Whether a document `save()` of the borrower passes validation. A save validates every path of a
   * loaded document, not only the modified ones, so the one value the model lets outside the
   * schema, an `emiPlanStatus` of 'superseded', makes it reject.
   */
  predicate SaveValidates(b: BorrowerRecord) {
    b.emiPlanStatus.Label() in ["none", "pending", "accepted", "rejected"]
  }

  /** Of the plan statuses only 'superseded' fails a save. */
  lemma SaveRejectsOnlySuperseded(b: BorrowerRecord)
    ensures SaveValidates(b) <==> b.emiPlanStatus != PlanSuperseded
  {
  }

  /** Borrower `behavioralAnalysis.stressLevel`. */
  datatype StressLevel = Low | Moderate | High | Critical | UnknownStress {
    function Label(): string {
      match this
      case Low => "Low"
      case Moderate => "Moderate"
      case High => "High"
      case Critical => "Critical"
      case UnknownStress => "Unknown"
    }
  }

  /** Borrower `behavioralAnalysis.willingnessToPay`. */
  datatype Willingness = WillPay | LikelyToPay | Struggling | Refusal | UnknownWillingness {
    function Label(): string {
      match this
      case WillPay => "Will Pay"
      case LikelyToPay => "Likely to Pay"
      case Struggling => "Struggling"
      case Refusal => "Refusal"
      case UnknownWillingness => "Unknown"
    }
  }

  /** EMIRecommendation `status`. */
  datatype RecStatus = Pending | Accepted | Rejected | Superseded {
    function Label(): string {
      match this
      case Pending => "Pending"
      case Accepted => "Accepted"
      case Rejected => "Rejected"
      case Superseded => "Superseded"
    }
  }

  /** The status a request body names, if the schema's enumeration admits it. */
  function RecStatusFromLabel(s: string): (r: Option<RecStatus>)
    ensures r.Some? ==> r.value.Label() == s
    ensures r.None? ==> forall st: RecStatus :: st.Label() != s
  {
    if s == "Pending" then Some(Pending)
    else if s == "Accepted" then Some(Accepted)
    else if s == "Rejected" then Some(Rejected)
    else if s == "Superseded" then Some(Superseded)
    else None
  }

  /** EMIRecommendation `planType`. */
  datatype PlanType = PlanA | PlanB | Custom

  /** Message `conversationState`. */
  datatype ConversationState =
    | Initiated | AwaitingResponse | Analyzing | PlanSuggested | PlanAcceptedState | PlanRejectedState | Resolved

  /** Message `sender`. */
  datatype Sender = ManagerSender | BorrowerSender

  /** Message `sentiment`, for the values the core writes (those of the keyword sentiment analysis). */
  datatype Sentiment = HighSentiment | ModerateSentiment | LowSentiment | UnknownSentiment {
    function Label(): string {
      match this
      case HighSentiment => "High"
      case ModerateSentiment => "Moderate"
      case LowSentiment => "Low"
      case UnknownSentiment => "Unknown"
    }
  }

  datatype BehavioralAnalysis = BehavioralAnalysis(
    stressLevel: StressLevel,
    primaryIssue: string,
    willingnessToPay: Willingness,
    lastAnalysisDate: Option<int>,
    detailedInsights: string)

  /** A borrower document. Amounts without a schema default are optional. */
  datatype BorrowerRecord = BorrowerRecord(
    id: nat,
    customerName: string,
    address: Option<string>,
    loanAmount: real,
    emiAmount: Option<real>,
    outstandingBalance: Option<real>,
    dueDate: Option<int>,
    overdueDays: int,
    isOverdue: bool,
    daysPastDue: int,
    riskLevel: RiskLevel,
    emiPlanStatus: EmiPlanStatus,
    uploadedBy: Option<nat>,
    assignedManager: Option<nat>,
    assignedFieldExecutive: Option<nat>,
    behavioralAnalysis: BehavioralAnalysis)

  /** JavaScript truthiness of an optional number: present and non-zero. */
  predicate TruthyAmount(x: Option<real>) {
    x.Some? && x.value != 0.0
  }

  /** `x || fallback` for an optional number. */
  function AmountOr(x: Option<real>, fallback: real): (r: real)
    ensures TruthyAmount(x) ==> r == x.value
    ensures !TruthyAmount(x) ==> r == fallback
  {
    if TruthyAmount(x) then x.value else fallback
  }

  /** `a || b || 0` for two numeric fields whose absence reads as 0. */
  function FirstNonZero(a: int, b: int): (r: int)
    ensures a != 0 ==> r == a
    ensures a == 0 ==> r == b
  {
    if a != 0 then a else b
  }

  /** An EMI recommendation document. */
  datatype Recommendation = Recommendation(
    id: nat,
    borrowerId: nat,
    managerId: nat,
    riskLevel: string,
    suggestedEMI: int,
    extendedTenure: int,
    gracePeriod: int,
    interestWaiver: int,
    planType: PlanType,
    isAutomated: bool,
    status: RecStatus,
    createdAt: int)

  /** A chat message document. Messages written by the current code carry borrowerId, managerId,
      sender and text; messages of the older format carry senderId, recipientId and content. */
  datatype ChatMessage = ChatMessage(
    id: nat,
    borrowerId: Option<nat>,
    managerId: Option<nat>,
    sender: Option<Sender>,
    text: string,
    content: string,
    senderId: Option<nat>,
    recipientId: Option<nat>,
    isAutomated: bool,
    conversationState: ConversationState,
    sentiment: Sentiment,
    riskScore: int,
    createdAt: int)

  /** A message in the current format, before the database gives it an id and a creation time. */
  function NewMessage(borrowerId: nat, managerId: nat, sender: Sender, text: string,
                      state: ConversationState, sentiment: Sentiment, riskScore: int, isAutomated: bool): (m: ChatMessage)
    ensures m.borrowerId == Some(borrowerId) && m.managerId == Some(managerId) && m.sender == Some(sender)
    ensures m.text == text && m.conversationState == state && m.isAutomated == isAutomated
    ensures m.sentiment == sentiment && m.riskScore == riskScore
    ensures m.senderId.None? && m.recipientId.None?
  {
    ChatMessage(0, Some(borrowerId), Some(managerId), Some(sender), text, "", None, None,
                isAutomated, state, sentiment, riskScore, 0)
  }

  /** A recommendation before the database gives it an id and a creation time. */
  function NewRecommendation(borrowerId: nat, managerId: nat, riskLevel: string, suggestedEMI: int,
                             extendedTenure: int, gracePeriod: int, planType: PlanType, isAutomated: bool): (r: Recommendation)
    ensures r.status == Pending && r.borrowerId == borrowerId && r.managerId == managerId
    ensures r.riskLevel == riskLevel && r.suggestedEMI == suggestedEMI
    ensures r.extendedTenure == extendedTenure && r.gracePeriod == gracePeriod
    ensures r.planType == planType && r.isAutomated == isAutomated
  {
    Recommendation(0, borrowerId, managerId, riskLevel, suggestedEMI, extendedTenure, gracePeriod, 0,
                   planType, isAutomated, Pending, 0)
  }

  /** A message as the database stores it: with its id, its creation time, and `text` trimmed by the schema. */
  function StoredMessage(draft: ChatMessage, id: nat, now: int): (m: ChatMessage)
    ensures m.id == id && m.createdAt == now
    ensures m.text == Text.TrimJs(draft.text)
    ensures m == draft.(id := m.id, createdAt := m.createdAt, text := m.text)
  {
    draft.(id := id, createdAt := now, text := Text.TrimJs(draft.text))
  }

  /** Records ordered by creation: ids strictly increase, creation times never decrease. */
  ghost predicate RecsOrdered(recs: seq<Recommendation>) {
    forall i, j | 0 <= i < j < |recs| :: recs[i].id < recs[j].id && recs[i].createdAt <= recs[j].createdAt
  }

  ghost predicate MessagesOrdered(msgs: seq<ChatMessage>) {
    forall i, j | 0 <= i < j < |msgs| :: msgs[i].id < msgs[j].id && msgs[i].createdAt <= msgs[j].createdAt
  }

  /**
   * The MongoDB collections the core touches. Collections keep insertion order, so a sort
   * on `createdAt` is the stored order with ties broken by insertion.
   */
  class Database {
    var borrowers: map<nat, BorrowerRecord>
    var recommendations: seq<Recommendation>
    var messages: seq<ChatMessage>
    var nextId: nat
    var clock: int

    ghost predicate Valid()
      reads this
    {
      && (forall id | id in borrowers :: borrowers[id].id == id)
      && RecsOrdered(recommendations)
      && (forall i | 0 <= i < |recommendations| :: recommendations[i].id < nextId && recommendations[i].createdAt <= clock)
      && MessagesOrdered(messages)
      && (forall i | 0 <= i < |messages| :: messages[i].id < nextId && messages[i].createdAt <= clock)
    }

    constructor ()
      ensures Valid()
      ensures borrowers == map[] && recommendations == [] && messages == []
    {
      borrowers := map[];
      recommendations := [];
      messages := [];
      nextId := 0;
      clock := 0;
    }

    /** `EMIRecommendation.create(draft)` at time `now`: the record gets a fresh id and `createdAt = now`. */
    method InsertRecommendation(draft: Recommendation, now: int) returns (rec: Recommendation)
      requires Valid() && clock <= now
      modifies this
      ensures Valid()
      ensures rec == draft.(id := old(nextId), createdAt := now)
      ensures recommendations == old(recommendations) + [rec]
      ensures borrowers == old(borrowers) && messages == old(messages)
      ensures clock == now && nextId == old(nextId) + 1
    {
      rec := draft.(id := nextId, createdAt := now);
      recommendations := recommendations + [rec];
      nextId := nextId + 1;
      clock := now;
    }

    /** `Message.create(draft)` at time `now`. */
    method InsertMessage(draft: ChatMessage, now: int) returns (msg: ChatMessage)
      requires Valid() && clock <= now
      modifies this
      ensures Valid()
      ensures msg == StoredMessage(draft, old(nextId), now)
      ensures messages == old(messages) + [msg]
      ensures borrowers == old(borrowers) && recommendations == old(recommendations)
      ensures clock == now && nextId == old(nextId) + 1
    {
      msg := draft.(id := nextId, createdAt := now, text := Text.TrimJs(draft.text));
      messages := messages + [msg];
      nextId := nextId + 1;
      clock := now;
    }

    /** `recommendation.status = status; recommendation.save()`. */
    method SetRecommendationStatus(i: nat, status: RecStatus)
      requires Valid() && i < |recommendations|
      modifies this
      ensures Valid()
      ensures recommendations == old(recommendations)[i := old(recommendations)[i].(status := status)]
      ensures borrowers == old(borrowers) && messages == old(messages)
      ensures nextId == old(nextId) && clock == old(clock)
    {
      recommendations := recommendations[i := recommendations[i].(status := status)];
    }

    /** `Borrower.findByIdAndUpdate(id, fields)`: an update query writes the document under its own id
        without running the enumeration validators. */
    method UpdateBorrower(b: BorrowerRecord)
      requires Valid()
      modifies this
      ensures Valid()
      ensures borrowers == old(borrowers)[b.id := b]
      ensures recommendations == old(recommendations) && messages == old(messages)
      ensures nextId == old(nextId) && clock == old(clock)
    {
      borrowers := borrowers[b.id := b];
    }

    /** `borrower.save()` on a loaded document: it is written only when it validates; otherwise the
        save rejects and nothing is written. */
    method SaveBorrower(b: BorrowerRecord) returns (saved: bool)
      requires Valid()
      modifies this
      ensures Valid()
      ensures saved <==> SaveValidates(b)
      ensures saved ==> borrowers == old(borrowers)[b.id := b]
      ensures !saved ==> unchanged(this)
      ensures recommendations == old(recommendations) && messages == old(messages)
      ensures nextId == old(nextId) && clock == old(clock)
    {
      saved := b.emiPlanStatus != PlanSuperseded;
      if saved {
        borrowers := borrowers[b.id := b];
      }
    }
  }

  /** A borrower document loaded into memory, whose fields the controllers set before saving it. */
  class BorrowerDoc {
    var rec: BorrowerRecord

    constructor (r: BorrowerRecord)
      ensures rec == r
    {
      rec := r;
    }
  }
}

/**
 * The EMI recommendation lifecycle of backend/controllers/emiController.js over the
 * recommendation store: a manager proposes a plan (Pending), the borrower accepts or rejects it,
 * a rejection automatically adds a lenient "Plan B", and the borrower may go back from Plan B to
 * the first plan ("restore Plan A").
 *
 * Queries sorted on `createdAt` read the store in its order (creation times never decrease
 * along it), ties going to the record stored first for an ascending sort and to the record stored
 * last for a descending one; `findOne` without a sort returns the first match in store order.
 * Errors that the handlers pass on with `next(error)` are the `Forwarded` outcome.
 */
module EmiController {
  import opened Wrappers
  import Text
  import JsMath
  import opened Schema
  import AiService
  import opened Http

  /** The index of the first record in store order that satisfies `p`. */
  function FirstWhere(recs: seq<Recommendation>, p: Recommendation -> bool): (r: Option<nat>)
    ensures r.Some? ==> r.value < |recs| && p(recs[r.value])
    ensures r.Some? ==> forall j | 0 <= j < r.value :: !p(recs[j])
    ensures r.None? <==> forall j | 0 <= j < |recs| :: !p(recs[j])
    decreases |recs|
  {
    if recs == [] then None
    else if p(recs[0]) then Some(0)
    else
      match FirstWhere(recs[1..], p)
      case None => None
      case Some(k) => Some(k + 1)
  }

  /** The index of the last record in store order that satisfies `p`. */
  function LastWhere(recs: seq<Recommendation>, p: Recommendation -> bool): (r: Option<nat>)
    ensures r.Some? ==> r.value < |recs| && p(recs[r.value])
    ensures r.Some? ==> forall j | r.value < j < |recs| :: !p(recs[j])
    ensures r.None? <==> forall j | 0 <= j < |recs| :: !p(recs[j])
    decreases |recs|
  {
    if recs == [] then None
    else if p(recs[|recs| - 1]) then Some(|recs| - 1)
    else LastWhere(recs[..|recs| - 1], p)
  }

  /** `findById`: the record with this id. */
  function IndexOfId(recs: seq<Recommendation>, id: nat): (r: Option<nat>)
    ensures r.Some? ==> r.value < |recs| && recs[r.value].id == id
    ensures r.None? <==> forall j | 0 <= j < |recs| :: recs[j].id != id
  {
    FirstWhere(recs, (rec: Recommendation) => rec.id == id)
  }

  /** `findOne({ borrowerId }).sort({ createdAt: -1 })`: the borrower's newest record. */
  function LatestFor(recs: seq<Recommendation>, borrowerId: nat): (r: Option<nat>)
    ensures r.Some? ==> r.value < |recs| && recs[r.value].borrowerId == borrowerId
    ensures r.Some? ==> forall j | r.value < j < |recs| :: recs[j].borrowerId != borrowerId
    ensures r.None? <==> forall j | 0 <= j < |recs| :: recs[j].borrowerId != borrowerId
  {
    LastWhere(recs, (rec: Recommendation) => rec.borrowerId == borrowerId)
  }

  /** In an ordered store the newest record of a borrower has the greatest creation time of its records. */
  lemma LatestHasGreatestCreationTime(recs: seq<Recommendation>, borrowerId: nat, j: nat)
    requires RecsOrdered(recs)
    requires j < |recs| && recs[j].borrowerId == borrowerId
    ensures LatestFor(recs, borrowerId).Some?
    ensures recs[j].createdAt <= recs[LatestFor(recs, borrowerId).value].createdAt
  {
    var k := LatestFor(recs, borrowerId).value;
    if j < k {
      assert recs[j].createdAt <= recs[k].createdAt;
    }
  }

  /** The marker that identifies an automatic Plan B. */
  const AutoRevisedMarker := "Auto-Revised"
  /** The risk label written on an automatic Plan B. */
  const PlanBRiskLabel := "High (Auto-Revised)"

  predicate IsRevised(rec: Recommendation) {
    Text.Contains(rec.riskLevel, AutoRevisedMarker)
  }

  lemma PlanBLabelIsRevised()
    ensures Text.Contains(PlanBRiskLabel, AutoRevisedMarker)
  {
    var s := PlanBRiskLabel;
    assert s[6] == 'A' && s[7] == 'u' && s[8] == 't' && s[9] == 'o' && s[10] == '-';
    assert s[11] == 'R' && s[12] == 'e' && s[13] == 'v' && s[14] == 'i' && s[15] == 's' && s[16] == 'e' && s[17] == 'd';
    assert s[6..18] == AutoRevisedMarker;
    Text.ContainsAt(s, AutoRevisedMarker, 6);
  }

  /** Whether `restorePlanA` gets past its first check: the borrower's newest record is a Plan B. */
  predicate IsRestorable(recs: seq<Recommendation>, borrowerId: nat) {
    var cur := LatestFor(recs, borrowerId);
    cur.Some? && IsRevised(recs[cur.value])
  }

  /** The Plan A that `restorePlanA` brings back: the borrower's oldest record other than `exceptId`
      whose risk label is not a Plan B label. */
  function EarliestNonRevised(recs: seq<Recommendation>, borrowerId: nat, exceptId: nat): (r: Option<nat>)
    ensures r.Some? ==> r.value < |recs| && recs[r.value].borrowerId == borrowerId
                        && recs[r.value].id != exceptId && !IsRevised(recs[r.value])
    ensures r.Some? ==> forall j | 0 <= j < r.value :: !(recs[j].borrowerId == borrowerId && recs[j].id != exceptId && !IsRevised(recs[j]))
    ensures r.None? <==> forall j | 0 <= j < |recs| :: !(recs[j].borrowerId == borrowerId && recs[j].id != exceptId && !IsRevised(recs[j]))
  {
    FirstWhere(recs, (rec: Recommendation) => rec.borrowerId == borrowerId && rec.id != exceptId && !IsRevised(rec))
  }

  /** `getLatestRecommendation`: a Pending record of the borrower if there is one (the first stored),
      and otherwise the borrower's newest record. */
  function LatestRecommendation(recs: seq<Recommendation>, borrowerId: nat): (r: Option<Recommendation>)
    ensures (exists j | 0 <= j < |recs| :: recs[j].borrowerId == borrowerId && recs[j].status == Pending)
            ==> r.Some? && r.value.status == Pending && r.value in recs && r.value.borrowerId == borrowerId
    ensures r.None? <==> forall j | 0 <= j < |recs| :: recs[j].borrowerId != borrowerId
    ensures r.Some? ==> r.value in recs && r.value.borrowerId == borrowerId
    ensures (forall j | 0 <= j < |recs| :: !(recs[j].borrowerId == borrowerId && recs[j].status == Pending))
            ==> r == (if LatestFor(recs, borrowerId).Some? then Some(recs[LatestFor(recs, borrowerId).value]) else None)
  {
    match FirstWhere(recs, (rec: Recommendation) => rec.borrowerId == borrowerId && rec.status == Pending)
    case Some(k) => Some(recs[k])
    case None =>
      match LatestFor(recs, borrowerId)
      case Some(k) => Some(recs[k])
      case None => None
  }

  /** Without a Pending record, in an ordered store the answer has the greatest creation time of all the
      borrower's records. */
  lemma LatestRecommendationIsNewest(recs: seq<Recommendation>, borrowerId: nat, j: nat)
    requires RecsOrdered(recs)
    requires forall i | 0 <= i < |recs| :: !(recs[i].borrowerId == borrowerId && recs[i].status == Pending)
    requires j < |recs| && recs[j].borrowerId == borrowerId
    ensures LatestRecommendation(recs, borrowerId).Some?
    ensures recs[j].createdAt <= LatestRecommendation(recs, borrowerId).value.createdAt
  {
    LatestHasGreatestCreationTime(recs, borrowerId, j);
  }

  /** `getLatestRecommendation` (always status 200; the data is null for a borrower without records). */
  method GetLatestRecommendation(db: Database, borrowerId: nat) returns (r: Response<Option<Recommendation>>)
    ensures r == Ok(200, LatestRecommendation(db.recommendations, borrowerId))
  {
    r := Ok(200, LatestRecommendation(db.recommendations, borrowerId));
  }

  /** The suggestion `getEMISuggestion` returns: it asks for the level 'High' or 'Moderate', which the
      suggestion table does not know, so every borrower gets the unreduced installment. */
  function SuggestionFor(b: BorrowerRecord): (s: AiService.Suggestion)
    ensures s.suggestedEMI == JsMath.Round(b.loanAmount / 12.0)
    ensures s.extendedTenure == 0 && s.gracePeriod == 0 && !s.isPlanB
  {
    AiService.GenerateEMISuggestion(b.loanAmount, if b.riskLevel.Label() == "RISKY" then "High" else "Moderate")
  }

  /** `getEMISuggestion`. */
  method GetEMISuggestion(db: Database, borrowerId: nat) returns (r: Response<AiService.Suggestion>)
    ensures borrowerId !in db.borrowers ==> r == Err(404, "Borrower not found")
    ensures borrowerId in db.borrowers ==> r.Ok? && r.code == 200
    ensures r.Ok? ==> r.data.suggestedEMI == JsMath.Round(db.borrowers[borrowerId].loanAmount / 12.0)
                      && r.data.extendedTenure == 0 && r.data.gracePeriod == 0
  {
    if borrowerId !in db.borrowers {
      return Err(404, "Borrower not found");
    }
    r := Ok(200, SuggestionFor(db.borrowers[borrowerId]));
  }

  /** The fields of a `createRecommendation` request body, absent when the body omits them. */
  datatype CreateBody = CreateBody(suggestedEMI: Option<int>, extendedTenure: Option<int>,
                                   gracePeriod: Option<int>, riskLevel: Option<string>)

  /** The schema's `required` checks: a number for suggestedEMI and a non-empty riskLevel. */
  predicate PassesValidation(body: CreateBody) {
    body.suggestedEMI.Some? && body.riskLevel.Some? && body.riskLevel.value != ""
  }

  /** `findByIdAndUpdate(id, { emiPlanStatus })`: no change when there is no such borrower. */
  function WithPlanStatus(borrowers: map<nat, BorrowerRecord>, id: nat, status: EmiPlanStatus): (m: map<nat, BorrowerRecord>)
    ensures m.Keys == borrowers.Keys
    ensures id in m ==> m[id].emiPlanStatus == status && m[id] == borrowers[id].(emiPlanStatus := status)
    ensures forall k | k in m && k != id :: m[k] == borrowers[k]
  {
    if id in borrowers then borrowers[id := borrowers[id].(emiPlanStatus := status)] else borrowers
  }

  /** A second status update of the same borrower overrides the first. */
  lemma WithPlanStatusTwice(borrowers: map<nat, BorrowerRecord>, id: nat, first: EmiPlanStatus, second: EmiPlanStatus)
    ensures WithPlanStatus(WithPlanStatus(borrowers, id, first), id, second) == WithPlanStatus(borrowers, id, second)
  {
  }

  method SetPlanStatus(db: Database, id: nat, status: EmiPlanStatus)
    requires db.Valid()
    modifies db
    ensures db.Valid()
    ensures db.borrowers == WithPlanStatus(old(db.borrowers), id, status)
    ensures db.recommendations == old(db.recommendations) && db.messages == old(db.messages)
    ensures db.nextId == old(db.nextId) && db.clock == old(db.clock)
  {
    if id in db.borrowers {
      db.UpdateBorrower(db.borrowers[id].(emiPlanStatus := status));
    }
  }

  /** `createRecommendation`: stores one Pending record and marks the borrower's plan pending. */
  method CreateRecommendation(db: Database, borrowerId: nat, managerId: nat, body: CreateBody, now: int)
    returns (r: Response<Recommendation>)
    requires db.Valid() && db.clock <= now
    modifies db
    ensures db.Valid()
    ensures r.Forwarded? <==> !PassesValidation(body)
    ensures r.Forwarded? ==> db.borrowers == old(db.borrowers) && db.recommendations == old(db.recommendations)
    ensures r.Ok? ==> (
      && r.code == 201
      && r.data == NewRecommendation(borrowerId, managerId, body.riskLevel.value, body.suggestedEMI.value,
                                     body.extendedTenure.GetOr(0), body.gracePeriod.GetOr(0), Custom, false)
                   .(id := old(db.nextId), createdAt := now)
      && db.recommendations == old(db.recommendations) + [r.data]
      && db.borrowers == WithPlanStatus(old(db.borrowers), borrowerId, PlanPending))
    ensures !r.Err? && db.messages == old(db.messages)
  {
    if !PassesValidation(body) {
      return Forwarded;
    }
    var draft := NewRecommendation(borrowerId, managerId, body.riskLevel.value, body.suggestedEMI.value,
                                   body.extendedTenure.GetOr(0), body.gracePeriod.GetOr(0), Custom, false);
    var rec := db.InsertRecommendation(draft, now);
    SetPlanStatus(db, borrowerId, PlanPending);
    r := Ok(201, rec);
  }

  /** `status.toLowerCase()` written to the borrower. */
  function PlanStatusFor(s: RecStatus): (p: EmiPlanStatus) {
    match s
    case Pending => PlanPending
    case Accepted => PlanAccepted
    case Rejected => PlanRejected
    case Superseded => PlanSuperseded
  }

  /** The borrower's plan status is the lower-cased recommendation status, and distinct statuses stay distinct. */
  lemma PlanStatusIsLowerCasedStatus(s: RecStatus, t: RecStatus)
    ensures PlanStatusFor(s).Label() == Text.Lower(s.Label())
    ensures PlanStatusFor(s) == PlanStatusFor(t) ==> s == t
  {
    var word, lower := s.Label(), PlanStatusFor(s).Label();
    assert |word| > 0 && word[1..] == lower[1..] && lower[0] == Text.LowerChar(word[0]) by {
      match s
      case Pending =>
      case Accepted =>
      case Rejected =>
      case Superseded =>
    }
    assert Text.HasNoUpper(lower) by {
      match s
      case Pending =>
      case Accepted =>
      case Rejected =>
      case Superseded =>
    }
    Text.NoUpperSuffix(lower, 1);
    Text.LowerCapitalised(word);
    assert lower == [lower[0]] + lower[1..];
  }

  /** The chat line announcing an acceptance. */
  function AcceptedText(rec: Recommendation, fmt: int -> string): string {
    "\U{2705} PLAN ACCEPTED: I have officially confirmed your restructured payment plan.\n\n\U{2022} New EMI: \U{20B9}"
    + fmt(rec.suggestedEMI) + "\n\U{2022} Extended Tenure: " + Text.IntToString(rec.extendedTenure)
    + " Months\n\U{2022} Grace Period: " + Text.IntToString(rec.gracePeriod)
    + " Days\n\nPlease ensure payments are made on time according to these new terms. Your file has been updated."
  }

  /** The chat line announcing the decision: the acceptance text, or the rejection text for any other status. */
  function DecisionText(rec: Recommendation, status: RecStatus, fmt: int -> string): string {
    match status
    case Accepted => AcceptedText(rec, fmt)
    case _ =>
      "\U{274C} PLAN REJECTED: You have declined the proposed restructuring. "
      + "Our tactical team will review your account to provide an alternative solution, "
      + "or we may proceed with standard recovery protocols."
  }

  /** The automated chat message that records the borrower's decision. */
  function DecisionMessage(rec: Recommendation, status: RecStatus, fmt: int -> string): (m: ChatMessage)
    ensures m.conversationState == PlanAcceptedState <==> status == Accepted
    ensures m.conversationState == PlanRejectedState <==> status != Accepted
    ensures m.borrowerId == Some(rec.borrowerId) && m.managerId == Some(rec.managerId)
    ensures m.sender == Some(ManagerSender) && m.isAutomated
  {
    NewMessage(rec.borrowerId, rec.managerId, ManagerSender, DecisionText(rec, status, fmt),
               if status == Accepted then PlanAcceptedState else PlanRejectedState, UnknownSentiment, 0, true)
  }

  /** The automatic Plan B added after a rejection, for the same borrower and manager. */
  function PlanBDraft(rec: Recommendation, loanAmount: real): (d: Recommendation)
    ensures d.status == Pending && d.borrowerId == rec.borrowerId && d.managerId == rec.managerId
    ensures d.riskLevel == PlanBRiskLabel
    ensures d.suggestedEMI == AiService.GenerateLenientEMISuggestion(loanAmount).suggestedEMI
    ensures d.extendedTenure == 12 && d.gracePeriod == 30
  {
    var s := AiService.GenerateLenientEMISuggestion(loanAmount);
    NewRecommendation(rec.borrowerId, rec.managerId, PlanBRiskLabel, s.suggestedEMI, s.extendedTenure, s.gracePeriod, Custom, false)
  }

  /** The automatic Plan B after a rejection: appended as the borrower's newest record, which makes
      the borrower's plans restorable, and the borrower's plan goes back to pending. */
  method AddPlanB(db: Database, rec: Recommendation, now: int)
    requires db.Valid() && db.clock <= now && rec.borrowerId in db.borrowers
    modifies db
    ensures db.Valid()
    ensures db.recommendations == old(db.recommendations)
              + [PlanBDraft(rec, old(db.borrowers)[rec.borrowerId].loanAmount).(id := old(db.nextId), createdAt := now)]
    ensures db.borrowers == WithPlanStatus(old(db.borrowers), rec.borrowerId, PlanPending)
    ensures db.messages == old(db.messages) && db.nextId == old(db.nextId) + 1
    ensures IsRestorable(db.recommendations, rec.borrowerId)
  {
    var borrower := db.borrowers[rec.borrowerId];
    var planB := db.InsertRecommendation(PlanBDraft(rec, borrower.loanAmount), now);
    SetPlanStatus(db, rec.borrowerId, PlanPending);
    PlanBLabelIsRevised();
    assert LatestFor(db.recommendations, rec.borrowerId) == Some(|db.recommendations| - 1);
  }

  /** The status write, the borrower update and the chat message common to every valid decision. */
  method RecordDecision(db: Database, i: nat, st: RecStatus, now: int, fmt: int -> string) returns (rec: Recommendation)
    requires db.Valid() && db.clock <= now && i < |db.recommendations|
    modifies db
    ensures db.Valid() && db.clock == now
    ensures rec == old(db.recommendations)[i].(status := st)
    ensures db.recommendations == old(db.recommendations)[i := rec]
    ensures db.borrowers == WithPlanStatus(old(db.borrowers), rec.borrowerId, PlanStatusFor(st))
    ensures db.messages == old(db.messages) + [StoredMessage(DecisionMessage(rec, st, fmt), old(db.nextId), now)]
    ensures db.nextId == old(db.nextId) + 1
  {
    db.SetRecommendationStatus(i, st);
    rec := db.recommendations[i];
    var draft := DecisionMessage(rec, st, fmt);
    SetPlanStatus(db, rec.borrowerId, PlanStatusFor(st));
    assert db.messages == old(db.messages) && db.nextId == old(db.nextId);
    var msg := db.InsertMessage(draft, now);
    assert msg == StoredMessage(draft, old(db.nextId), now);
  }

  /** The decision on record `i` once its status is known to be valid. */
  method ApplyDecision(db: Database, i: nat, st: RecStatus, now: int, fmt: int -> string) returns (rec: Recommendation)
    requires db.Valid() && db.clock <= now && i < |db.recommendations|
    modifies db
    ensures db.Valid()
    ensures rec == old(db.recommendations)[i].(status := st)
    ensures db.messages == old(db.messages) + [StoredMessage(DecisionMessage(rec, st, fmt), old(db.nextId), now)]
    ensures !(st == Rejected && rec.borrowerId in old(db.borrowers)) ==>
              && db.recommendations == old(db.recommendations)[i := rec]
              && db.borrowers == WithPlanStatus(old(db.borrowers), rec.borrowerId, PlanStatusFor(st))
    ensures st == Rejected && rec.borrowerId in old(db.borrowers) ==>
              && db.recommendations == old(db.recommendations)[i := rec]
                   + [PlanBDraft(rec, old(db.borrowers)[rec.borrowerId].loanAmount).(id := old(db.nextId) + 1, createdAt := now)]
              && db.borrowers == WithPlanStatus(old(db.borrowers), rec.borrowerId, PlanPending)
              && IsRestorable(db.recommendations, rec.borrowerId)
  {
    rec := RecordDecision(db, i, st, now, fmt);
    if st == Rejected && rec.borrowerId in db.borrowers {
      AddPlanB(db, rec, now);
      WithPlanStatusTwice(old(db.borrowers), rec.borrowerId, PlanRejected, PlanPending);
    }
  }

  /**
   * `updateRecommendationStatus`: sets the status, copies it in lower case to the borrower, posts
   * the decision in the chat, and on 'Rejected' adds a Pending Plan B and puts the borrower back to
   * pending. An unknown id answers 404; a status outside the enumeration fails validation on save.
   * Neither changes anything.
   */
  method UpdateRecommendationStatus(db: Database, recId: nat, status: string, now: int, fmt: int -> string)
    returns (r: Response<Recommendation>)
    requires db.Valid() && db.clock <= now
    modifies db
    ensures db.Valid()
    ensures IndexOfId(old(db.recommendations), recId).None? ==>
              r == Err(404, "Recommendation not found") && unchanged(db)
    ensures IndexOfId(old(db.recommendations), recId).Some? && RecStatusFromLabel(status).None? ==>
              r == Forwarded && unchanged(db)
    ensures IndexOfId(old(db.recommendations), recId).Some? && RecStatusFromLabel(status).Some? ==>
      var i := IndexOfId(old(db.recommendations), recId).value;
      var st := RecStatusFromLabel(status).value;
      var rec := old(db.recommendations)[i].(status := st);
      var planB := st == Rejected && rec.borrowerId in old(db.borrowers);
      && r == Ok(200, rec)
      && db.messages == old(db.messages) + [StoredMessage(DecisionMessage(rec, st, fmt), old(db.nextId), now)]
      && (!planB ==> db.recommendations == old(db.recommendations)[i := rec]
                     && db.borrowers == WithPlanStatus(old(db.borrowers), rec.borrowerId, PlanStatusFor(st)))
      && (planB ==> db.recommendations == old(db.recommendations)[i := rec]
                      + [PlanBDraft(rec, old(db.borrowers)[rec.borrowerId].loanAmount).(id := old(db.nextId) + 1, createdAt := now)]
                    && db.borrowers == WithPlanStatus(old(db.borrowers), rec.borrowerId, PlanPending)
                    && IsRestorable(db.recommendations, rec.borrowerId))
  {
    var found := IndexOfId(db.recommendations, recId);
    if found.None? {
      return Err(404, "Recommendation not found");
    }
    var parsed := RecStatusFromLabel(status);
    if parsed.None? {
      return Forwarded;
    }
    var rec := ApplyDecision(db, found.value, parsed.value, now, fmt);
    r := Ok(200, rec);
  }

  /**
   * `restorePlanA`: when the borrower's newest record is a Plan B, marks it Superseded and makes the
   * oldest other non-Plan-B record Pending again. Without a Plan B on top it answers 400 and changes
   * nothing; without a Plan A it answers 404, and the Plan B stays Superseded.
   */
  method RestorePlanA(db: Database, borrowerId: nat) returns (r: Response<Recommendation>)
    requires db.Valid()
    modifies db
    ensures db.Valid()
    ensures db.messages == old(db.messages)
    ensures !IsRestorable(old(db.recommendations), borrowerId) ==>
              r == Err(400, "No active Plan B found to restore from") && unchanged(db)
    ensures IsRestorable(old(db.recommendations), borrowerId) ==>
      var cur := LatestFor(old(db.recommendations), borrowerId).value;
      var superseded := old(db.recommendations)[cur := old(db.recommendations)[cur].(status := Superseded)];
      var prev := EarliestNonRevised(old(db.recommendations), borrowerId, old(db.recommendations)[cur].id);
      && (prev.None? ==> r == Err(404, "Previous plan (Plan A) not found")
                         && db.recommendations == superseded && db.borrowers == old(db.borrowers))
      && (prev.Some? ==> r == Ok(200, superseded[prev.value].(status := Pending))
                         && db.recommendations == superseded[prev.value := superseded[prev.value].(status := Pending)]
                         && db.borrowers == WithPlanStatus(old(db.borrowers), borrowerId, PlanPending)
                         && LatestRecommendation(db.recommendations, borrowerId).Some?
                         && LatestRecommendation(db.recommendations, borrowerId).value.status == Pending)
  {
    var current := LatestFor(db.recommendations, borrowerId);
    if current.None? || !IsRevised(db.recommendations[current.value]) {
      return Err(400, "No active Plan B found to restore from");
    }
    var cur := current.value;
    var curId := db.recommendations[cur].id;
    db.SetRecommendationStatus(cur, Superseded);
    var previous := EarliestNonRevised(db.recommendations, borrowerId, curId);
    if previous.None? {
      return Err(404, "Previous plan (Plan A) not found");
    }
    var prev := previous.value;
    db.SetRecommendationStatus(prev, Pending);
    SetPlanStatus(db, borrowerId, PlanPending);
    r := Ok(200, db.recommendations[prev]);
    assert db.recommendations[prev].borrowerId == borrowerId && db.recommendations[prev].status == Pending;
  }
}

/**
 * The decision rules of backend/controllers/borrowerController.js: reading borrower rows out of
 * an uploaded spreadsheet (header normalisation, header look-up, required fields, the overdue
 * clamp), the risk gate on assigning a field executive, the automatic plan when a borrower's risk
 * level is updated, and the pagination arithmetic of the borrower list.
 *
 * Reading the workbook, parsing numbers and dates, and rendering numbers as text are parameters
 * (`UploadEnv`). Dates are day numbers.
 */
module BorrowerController {
  import opened Wrappers
  import Text
  import JsMath
  import opened Schema
  import opened Http
  import AiService
  import EmiController
  import Scheduler

  // ----- Spreadsheet rows -----

  /** A cell value as the sheet reader returns it (empty cells read as ""). */
  datatype Cell = Str(s: string) | Num(n: real) | Bool(b: bool) | Null

  /** A raw row: its headers in column order with their cells. */
  type RawRow = seq<(string, Cell)>

  /** `key.trim().toLowerCase().replace(/\s+/g, ' ')`. */
  function NormalizeKey(key: string): string {
    Text.CollapseSpaces(Text.Lower(Text.TrimJs(key)))
  }

  /** A normalised header has no white space at either end, no capitals, and every inner run of
      white space is a single space. */
  lemma NormalizeKeyShape(key: string)
    ensures var k := NormalizeKey(key);
            (k == [] || (!Text.IsJsSpace(k[0]) && !Text.IsJsSpace(k[|k| - 1])))
            && Text.HasNoUpper(k) && Text.WellSpaced(k)
  {
    var t := Text.TrimJs(key);
    var l := Text.Lower(t);
    Text.LowerKeepsSpaces(t);
    Text.CollapseWellSpaced(l);
    Text.CollapseNoUpper(l);
    if l != [] {
      Text.CollapseLast(l);
    }
  }

  /** Normalising a normalised header changes nothing, so looking a header up by its normal form
      finds the same column however often it is normalised. */
  lemma NormalizeKeyIdempotent(key: string)
    ensures NormalizeKey(NormalizeKey(key)) == NormalizeKey(key)
  {
    var k := NormalizeKey(key);
    NormalizeKeyShape(key);
    Text.TrimJsFixpoint(k);
    Text.LowerOfLowerFree(k);
    Text.CollapseFixpoint(k);
  }

  /** Every header of a raw row replaced by its normal form, cells and column order kept. */
  function NormalizePairs(raw: RawRow): (pairs: RawRow)
    ensures |pairs| == |raw|
  {
    seq(|raw|, i requires 0 <= i < |raw| => (NormalizeKey(raw[i].0), raw[i].1))
  }

  /** The object that assigning `row[key] = value` column by column builds. */
  function Assign(pairs: RawRow): (row: map<string, Cell>)
    ensures forall k :: k in row <==> exists i | 0 <= i < |pairs| :: pairs[i].0 == k
    decreases |pairs|
  {
    if pairs == [] then map[]
    else
      var n := |pairs| - 1;
      assert forall i | 0 <= i < n :: pairs[..n][i] == pairs[i];
      Assign(pairs[..n])[pairs[n].0 := pairs[n].1]
  }

  /** A key holds the value of its last assignment. */
  lemma {:induction false} AssignLastWins(pairs: RawRow, i: nat)
    requires i < |pairs|
    requires forall j | i < j < |pairs| :: pairs[j].0 != pairs[i].0
    ensures Assign(pairs)[pairs[i].0] == pairs[i].1
    decreases |pairs|
  {
    if i < |pairs| - 1 {
      assert pairs[..|pairs| - 1][i] == pairs[i];
      AssignLastWins(pairs[..|pairs| - 1], i);
    }
  }

  /** The normalised row. */
  function NormalizeRow(raw: RawRow): map<string, Cell> {
    Assign(NormalizePairs(raw))
  }

  /** The `forEach` over the row's keys that builds the normalised row: its keys are exactly the
      normal forms of the headers, and of two headers with the same normal form the later column wins. */
  method BuildRow(raw: RawRow) returns (row: map<string, Cell>)
    ensures row == NormalizeRow(raw)
  {
    row := map[];
    ghost var pairs := NormalizePairs(raw);
    for j := 0 to |raw|
      invariant row == Assign(pairs[..j])
    {
      assert pairs[..j + 1][..j] == pairs[..j];
      var normalizedKey := NormalizeKey(raw[j].0);
      assert pairs[j] == (normalizedKey, raw[j].1);
      row := row[normalizedKey := raw[j].1];
    }
    assert pairs[..|raw|] == pairs;
  }

  /** `!== undefined && !== null && !== ''` (a missing key is `undefined`). */
  predicate IsPresent(c: Cell) {
    c != Null && c != Str("")
  }

  /** The normal forms of a list of candidate headers, in list order. */
  function NormalizeHeaders(headers: seq<string>): (keys: seq<string>)
    ensures |keys| == |headers|
  {
    seq(|headers|, j requires 0 <= j < |headers| => NormalizeKey(headers[j]))
  }

  /** The position of the first key, in list order, under which the row holds a present value. */
  function FirstPresent(row: map<string, Cell>, keys: seq<string>): (r: Option<nat>)
    ensures r.Some? ==> r.value < |keys| && keys[r.value] in row && IsPresent(row[keys[r.value]])
    ensures r.Some? ==> forall j | 0 <= j < r.value :: !(keys[j] in row && IsPresent(row[keys[j]]))
    ensures r.None? <==> forall j | 0 <= j < |keys| :: !(keys[j] in row && IsPresent(row[keys[j]]))
    decreases |keys|
  {
    if keys == [] then None
    else if keys[0] in row && IsPresent(row[keys[0]]) then Some(0)
    else
      match FirstPresent(row, keys[1..])
      case None => None
      case Some(k) => Some(k + 1)
  }

  /** `getValue(possibleHeaders)`: the value under the first header, in list order, whose normal
      form holds a present value; null when there is none. */
  function GetValue(row: map<string, Cell>, headers: seq<string>): (v: Option<Cell>)
    ensures v.Some? ==> IsPresent(v.value)
    ensures var keys := NormalizeHeaders(headers);
      v.None? <==> forall j | 0 <= j < |keys| :: !(keys[j] in row && IsPresent(row[keys[j]]))
    ensures var keys := NormalizeHeaders(headers);
      v.Some? ==> (exists j | 0 <= j < |keys| :: keys[j] in row && row[keys[j]] == v.value
                    && forall i | 0 <= i < j :: !(keys[i] in row && IsPresent(row[keys[i]])))
  {
    var keys := NormalizeHeaders(headers);
    var k := FirstPresent(row, keys);
    if k.None? then None else Some(row[keys[k.value]])
  }

  const NameHeaders: seq<string> := ["Borrower Name", "Customer Name", "Name", "customer_name", "BorrowerName"]
  const LoanIdHeaders: seq<string> := ["Loan Number", "Loan ID", "LoanID", "loan_id", "LoanNumber"]
  const PhoneHeaders: seq<string> := ["Phone Number", "Phone", "phone_number", "phone", "PhoneNumber"]
  const AmountHeaders: seq<string> := ["Principal", "Loan Amount", "Amount", "loan_amount", "loanAmount"]
  const DueDateHeaders: seq<string> := [
    "Installment Start Repayment Date", "Next Repayment Date", "Due Date", "DueDate", "due_date", "dueDate",
    "Next Due Date", "Repayment Date", "Last Installment Date", "Disbursal Date", "Next Repayment Da"]
  const EmailHeaders: seq<string> := [
    "Email", "Email ID", "Email Address", "email", "Email Address (If any)", "Email ID (If any)", "EmailAddress"]

  /** JavaScript truthiness of a cell. */
  predicate Truthy(c: Cell) {
    match c
    case Str(s) => s != ""
    case Num(n) => n != 0.0
    case Bool(b) => b
    case Null => false
  }

  predicate TruthyValue(v: Option<Cell>) {
    v.Some? && Truthy(v.value)
  }

  const LastPaymentHeaders: seq<string> := ["Last Payment Date", "last_payment_date", "LastPaymentDate"]

  /** The external operations the upload relies on. */
  datatype UploadEnv = UploadEnv(
    numberText: real -> string,         // String(n)
    parseFloat: string -> Option<real>, // parseFloat(s); None is NaN
    serialDate: real -> Option<int>,    // XLSX.SSF.parse_date_code as a day number; None is its null
    parseDate: Cell -> Option<int>,     // new Date(value) for a cell that is not a number; None is an Invalid Date
    emailMatches: string -> bool,       // the Borrower schema's e-mail pattern
    otherFieldsValid: UploadedBorrower -> bool, // the schema's checks on the fields this model does not keep
    storedLoanIds: set<string>,         // loan ids already in the collection
    storedEmails: set<string>,          // e-mail addresses already in the collection
    today: int,
    uploader: nat)

  /** How a date cell parses. A number goes through `parse_date_code`, whose null result makes the
      following read of `.y` throw; anything else goes through `new Date`, which may give an Invalid Date. */
  datatype DateParse = Day(day: int) | InvalidDate | NullDateCode

  function ParseDateCell(c: Cell, env: UploadEnv): (r: DateParse)
    ensures r == NullDateCode <==> c.Num? && env.serialDate(c.n).None?
    ensures r == InvalidDate <==> !c.Num? && env.parseDate(c).None?
  {
    match c
    case Num(n) => if env.serialDate(n).Some? then Day(env.serialDate(n).value) else NullDateCode
    case _ => if env.parseDate(c).Some? then Day(env.parseDate(c).value) else InvalidDate
  }

  /** The message of the TypeError that reading `.y` of a null date code raises. */
  const NullDateCodeError := "Cannot read properties of null (reading 'y')"

  /** `String(value)`. */
  function CellText(c: Cell, env: UploadEnv): string {
    match c
    case Str(s) => s
    case Num(n) => env.numberText(n)
    case Bool(b) => if b then "true" else "false"
    case Null => "null"
  }

  /** The fields the validation looks at. */
  datatype RowFields = RowFields(
    customerName: Option<Cell>,
    loanId: Option<string>,
    phoneNumber: Option<string>,
    loanAmount: Option<real>,
    dueDate: Option<Cell>,
    email: Option<Cell>,
    lastPaymentDate: Option<Cell>)

  /** Each field is `getValue` of its own header list; the loan id is the text of a truthy cell, the
      phone the digits of the text of a truthy cell, and the amount `parseFloat` of the cell. */
  function ReadFields(row: map<string, Cell>, env: UploadEnv): (f: RowFields)
    ensures f.customerName == GetValue(row, NameHeaders) && f.email == GetValue(row, EmailHeaders)
    ensures f.dueDate == GetValue(row, DueDateHeaders) && f.lastPaymentDate == GetValue(row, LastPaymentHeaders)
    ensures var v := GetValue(row, LoanIdHeaders);
      f.loanId == if TruthyValue(v) then Some(CellText(v.value, env)) else None
    ensures var v := GetValue(row, PhoneHeaders);
      f.phoneNumber == if TruthyValue(v) then Some(Text.DigitsOnly(CellText(v.value, env))) else None
    ensures f.phoneNumber.Some? ==> forall i | 0 <= i < |f.phoneNumber.value| :: Text.IsDigit(f.phoneNumber.value[i])
    ensures var v := GetValue(row, AmountHeaders);
      f.loanAmount == env.parseFloat(if v.None? then "null" else CellText(v.value, env))
  {
    var loanIdRaw := GetValue(row, LoanIdHeaders);
    var phoneRaw := GetValue(row, PhoneHeaders);
    var amountRaw := GetValue(row, AmountHeaders);
    RowFields(
      GetValue(row, NameHeaders),
      if TruthyValue(loanIdRaw) then Some(CellText(loanIdRaw.value, env)) else None,
      if TruthyValue(phoneRaw) then Some(Text.DigitsOnly(CellText(phoneRaw.value, env))) else None,
      env.parseFloat(if amountRaw.None? then "null" else CellText(amountRaw.value, env)),
      GetValue(row, DueDateHeaders),
      GetValue(row, EmailHeaders),
      GetValue(row, LastPaymentHeaders))
  }

  /** The required fields, numbered in the order in which missing ones are reported. */
  datatype Required = CustomerName | LoanId | PhoneNumber | LoanAmount | DueDate | Email {
    function Rank(): nat {
      match this
      case CustomerName => 0
      case LoanId => 1
      case PhoneNumber => 2
      case LoanAmount => 3
      case DueDate => 4
      case Email => 5
    }

    /** The name the error line uses. */
    function Label(): string {
      match this
      case CustomerName => "Name"
      case LoanId => "Loan ID/Number"
      case PhoneNumber => "Phone"
      case LoanAmount => "Amount/Principal"
      case DueDate => "Due Date"
      case Email => "Email"
    }
  }

  const RequiredCount := 6

  /** The required field of each rank. */
  function RequiredAt(k: nat): (fld: Required)
    requires k < RequiredCount
    ensures fld.Rank() == k
  {
    if k == 0 then CustomerName else if k == 1 then LoanId else if k == 2 then PhoneNumber
    else if k == 3 then LoanAmount else if k == 4 then DueDate else Email
  }

  /** The validation test of each required field: a falsy value, or for the amount a NaN; a phone
      with no digits left is the empty string, which is falsy. */
  predicate IsMissing(f: RowFields, fld: Required) {
    match fld
    case CustomerName => !TruthyValue(f.customerName)
    case LoanId => f.loanId.None? || f.loanId.value == ""
    case PhoneNumber => f.phoneNumber.None? || f.phoneNumber.value == ""
    case LoanAmount => f.loanAmount.None?
    case DueDate => !TruthyValue(f.dueDate)
    case Email => !TruthyValue(f.email)
  }

  /** The missing fields of rank `k` and above, in rank order. */
  function MissingFrom(f: RowFields, k: nat): (r: seq<Required>)
    requires k <= RequiredCount
    ensures forall fld :: fld in r <==> k <= fld.Rank() && IsMissing(f, fld)
    ensures forall i, j | 0 <= i < j < |r| :: r[i].Rank() < r[j].Rank()
    decreases RequiredCount - k
  {
    if k == RequiredCount then []
    else
      var fld := RequiredAt(k);
      var rest := MissingFrom(f, k + 1);
      if IsMissing(f, fld) then [fld] + rest else rest
  }

  /** The `missing` list of one row: exactly the fields that fail validation, each once, in the
      order Name, Loan ID/Number, Phone, Amount/Principal, Due Date, Email. */
  function MissingFields(f: RowFields): (r: seq<Required>)
    ensures forall fld :: fld in r <==> IsMissing(f, fld)
    ensures forall i, j | 0 <= i < j < |r| :: r[i].Rank() < r[j].Rank()
  {
    MissingFrom(f, 0)
  }

  /** The labels of a list of fields, in list order. */
  function Labels(fields: seq<Required>): (labels: seq<string>)
    ensures |labels| == |fields|
    ensures forall i | 0 <= i < |fields| :: labels[i] == fields[i].Label()
  {
    seq(|fields|, i requires 0 <= i < |fields| => fields[i].Label())
  }

  /** The error line of a row with missing fields. */
  function MissingLine(i: nat, missing: seq<Required>): string {
    "Row " + Text.IntToString(i + 2) + ": Missing " + Text.JoinWith(Labels(missing), ", ") + " "
  }

  /** Days overdue at upload: an invalid due date gives 0, and a date not yet passed gives 0. */
  function UploadOverdueDays(parsedDue: Option<int>, today: int): (d: nat)
    ensures parsedDue.None? ==> d == 0
    ensures parsedDue.Some? ==> (d > 0 <==> today > parsedDue.value)
  {
    if parsedDue.None? then 0
    else if today - parsedDue.value > 0 then today - parsedDue.value
    else 0
  }

  /** The upload and the daily job compute the same days overdue for a valid due date. */
  lemma UploadAgreesWithDailyJob(due: int, today: int)
    ensures UploadOverdueDays(Some(due), today) == Scheduler.OverdueDays(due, today)
  {
  }

  /** A borrower as the upload prepares it for insertion (the fields this model keeps). The due date
      is None for an Invalid Date; the last payment date is None when the sheet has none. */
  datatype UploadedBorrower = UploadedBorrower(
    customerName: Cell,
    email: Cell,
    loanId: string,
    phoneNumber: string,
    loanAmount: real,
    dueDate: Option<int>,
    lastPaymentDate: Option<DateParse>,
    overdueDays: nat,
    isOverdue: bool,
    uploadedBy: nat)

  datatype RowResult = Parsed(borrower: UploadedBorrower) | Skipped(error: string)

  /** The error line of a row whose processing threw. */
  function ThrownLine(i: nat, message: string): string {
    "Row " + Text.IntToString(i + 2) + ": " + message + " "
  }

  /** Whether parsing a row's dates throws: a numeric due date, or a truthy numeric last payment
      date, that `parse_date_code` cannot decode. */
  predicate DateParseThrows(f: RowFields, env: UploadEnv) {
    || (f.dueDate.Some? && ParseDateCell(f.dueDate.value, env) == NullDateCode)
    || (TruthyValue(f.lastPaymentDate) && ParseDateCell(f.lastPaymentDate.value, env) == NullDateCode)
  }

  function AsDay(d: DateParse): Option<int> {
    if d.Day? then Some(d.day) else None
  }

  /** The outcome for a row with the given fields, at index `i` (reported as spreadsheet row `i + 2`):
      skipped with the list of missing fields; otherwise skipped with the caught error when a date
      parse throws; otherwise a borrower whose days overdue are clamped at 0. */
  function RowFrom(f: RowFields, i: nat, env: UploadEnv): (r: RowResult)
    ensures r.Skipped? <==> (exists fld :: IsMissing(f, fld)) || DateParseThrows(f, env)
    ensures (exists fld :: IsMissing(f, fld)) ==> r == Skipped(MissingLine(i, MissingFields(f)))
    ensures (forall fld :: !IsMissing(f, fld)) && DateParseThrows(f, env) ==> r == Skipped(ThrownLine(i, NullDateCodeError))
    ensures r.Parsed? ==> (r.borrower.isOverdue <==> r.borrower.overdueDays > 0)
    ensures r.Parsed? ==> f.phoneNumber == Some(r.borrower.phoneNumber) && r.borrower.phoneNumber != ""
                          && f.loanId == Some(r.borrower.loanId) && r.borrower.loanId != ""
                          && f.customerName == Some(r.borrower.customerName) && Truthy(r.borrower.customerName)
                          && f.email == Some(r.borrower.email) && Truthy(r.borrower.email)
                          && f.loanAmount == Some(r.borrower.loanAmount) && r.borrower.uploadedBy == env.uploader
    ensures r.Parsed? ==> (f.dueDate.Some? && r.borrower.dueDate == AsDay(ParseDateCell(f.dueDate.value, env))
                           && r.borrower.overdueDays == UploadOverdueDays(r.borrower.dueDate, env.today))
    ensures r.Parsed? ==> r.borrower.lastPaymentDate ==
                            if TruthyValue(f.lastPaymentDate) then Some(ParseDateCell(f.lastPaymentDate.value, env)) else None
  {
    var missing := MissingFields(f);
    if missing != [] then
      assert IsMissing(f, missing[0]);
      Skipped(MissingLine(i, missing))
    else if DateParseThrows(f, env) then
      Skipped(ThrownLine(i, NullDateCodeError))
    else
      assert !IsMissing(f, CustomerName) && !IsMissing(f, LoanId) && !IsMissing(f, PhoneNumber);
      assert !IsMissing(f, LoanAmount) && !IsMissing(f, DueDate) && !IsMissing(f, Email);
      var due := AsDay(ParseDateCell(f.dueDate.value, env));
      var last := if TruthyValue(f.lastPaymentDate) then Some(ParseDateCell(f.lastPaymentDate.value, env)) else None;
      var overdue := UploadOverdueDays(due, env.today);
      Parsed(UploadedBorrower(f.customerName.value, f.email.value, f.loanId.value, f.phoneNumber.value,
                              f.loanAmount.value, due, last, overdue, overdue > 0, env.uploader))
  }

  /** The whole handling of one raw row. */
  function ProcessRow(raw: RawRow, i: nat, env: UploadEnv): RowResult {
    RowFrom(ReadFields(NormalizeRow(raw), env), i, env)
  }

  /** The steps of the loop body for one row: normalise the keys, read the fields, list the missing
      ones, and either report the row or clamp its days overdue. */
  method ParseRow(raw: RawRow, i: nat, env: UploadEnv) returns (result: RowResult)
    ensures result == ProcessRow(raw, i, env)
  {
    var row := BuildRow(raw);
    var fields := ReadFields(row, env);
    result := ParseFields(fields, i, env);
  }

  /** The part of the loop body after the fields are read, with the `catch` that turns an exception
      into the row's error line. */
  method ParseFields(fields: RowFields, i: nat, env: UploadEnv) returns (result: RowResult)
    ensures result == RowFrom(fields, i, env)
  {
    var missing := MissingFields(fields);
    if |missing| > 0 {
      return Skipped("Row " + Text.IntToString(i + 2) + ": Missing " + Text.JoinWith(Labels(missing), ", ") + " ");
    }
    var parsedDueDate := ParseDateCell(fields.dueDate.value, env);
    if parsedDueDate == NullDateCode {
      return Skipped("Row " + Text.IntToString(i + 2) + ": " + NullDateCodeError + " ");
    }
    var parsedLastPaymentDate: Option<DateParse> := None;
    if TruthyValue(fields.lastPaymentDate) {
      var parsed := ParseDateCell(fields.lastPaymentDate.value, env);
      if parsed == NullDateCode {
        return Skipped("Row " + Text.IntToString(i + 2) + ": " + NullDateCodeError + " ");
      }
      parsedLastPaymentDate := Some(parsed);
    }
    var calculatedOverdueDays := if parsedDueDate.InvalidDate? then 0 else env.today - parsedDueDate.day;
    var finalOverdueDays: nat := if calculatedOverdueDays > 0 then calculatedOverdueDays else 0;
    result := Parsed(UploadedBorrower(fields.customerName.value, fields.email.value, fields.loanId.value,
                                      fields.phoneNumber.value, fields.loanAmount.value, AsDay(parsedDueDate),
                                      parsedLastPaymentDate, finalOverdueDays, finalOverdueDays > 0, env.uploader));
  }

  /** The outcome of every row, in row order. */
  function Outcomes(rows: seq<RawRow>, env: UploadEnv): (r: seq<RowResult>)
    ensures |r| == |rows|
  {
    seq(|rows|, i requires 0 <= i < |rows| => ProcessRow(rows[i], i, env))
  }

  /** The borrowers of the parsed rows, in row order. */
  function ParsedOf(results: seq<RowResult>): (r: seq<UploadedBorrower>)
    ensures |r| <= |results|
    ensures forall b | b in r :: exists i | 0 <= i < |results| :: results[i] == Parsed(b)
    decreases |results|
  {
    if results == [] then []
    else
      var n := |results| - 1;
      assert forall i | 0 <= i < n :: results[..n][i] == results[i];
      match results[n]
      case Parsed(b) => ParsedOf(results[..n]) + [b]
      case Skipped(_) => ParsedOf(results[..n])
  }

  /** The error lines of the skipped rows, in row order. */
  function ErrorsOf(results: seq<RowResult>): (r: seq<string>)
    ensures |r| + |ParsedOf(results)| == |results|
    decreases |results|
  {
    if results == [] then []
    else
      var n := |results| - 1;
      match results[n]
      case Parsed(_) => ErrorsOf(results[..n])
      case Skipped(e) => ErrorsOf(results[..n]) + [e]
  }

  lemma PrefixStep<T>(s: seq<T>, i: nat)
    requires i < |s|
    ensures s[..i + 1] == s[..i] + [s[i]]
  {
  }

  lemma PrefixWhole<T>(s: seq<T>)
    ensures s[..|s|] == s
  {
  }

  /** One more row adds its borrower or its error line at the end. */
  lemma AppendOutcome(results: seq<RowResult>, x: RowResult)
    ensures ParsedOf(results + [x]) == ParsedOf(results) + (if x.Parsed? then [x.borrower] else [])
    ensures ErrorsOf(results + [x]) == ErrorsOf(results) + (if x.Skipped? then [x.error] else [])
  {
    assert (results + [x])[..|results|] == results;
  }

  /** No borrower is accepted exactly when every row is skipped. */
  lemma {:induction false} ParsedNoneIffAllSkipped(results: seq<RowResult>)
    ensures ParsedOf(results) == [] <==> forall i | 0 <= i < |results| :: results[i].Skipped?
    decreases |results|
  {
    if results != [] {
      var n := |results| - 1;
      ParsedNoneIffAllSkipped(results[..n]);
      assert forall i | 0 <= i < n :: results[..n][i] == results[i];
    }
  }

  /** The loop over the rows: each row's borrower or error line is appended in row order. */
  method ParseRows(rows: seq<RawRow>, env: UploadEnv) returns (borrowers: seq<UploadedBorrower>, errors: seq<string>)
    ensures borrowers == ParsedOf(Outcomes(rows, env))
    ensures errors == ErrorsOf(Outcomes(rows, env))
  {
    borrowers, errors := [], [];
    ghost var outcomes := Outcomes(rows, env);
    for i := 0 to |rows|
      invariant borrowers == ParsedOf(outcomes[..i])
      invariant errors == ErrorsOf(outcomes[..i])
    {
      var result := ParseRow(rows[i], i, env);
      PrefixStep(outcomes, i);
      AppendOutcome(outcomes[..i], result);
      match result {
        case Skipped(e) => errors := errors + [e];
        case Parsed(b) => borrowers := borrowers + [b];
      }
    }
    PrefixWhole(outcomes);
  }

  /** The rows of the first sheet that has any; no rows when no sheet has one. */
  function FirstNonEmptySheet(sheets: seq<seq<RawRow>>): (rows: seq<RawRow>)
    ensures rows == [] <==> forall k | 0 <= k < |sheets| :: sheets[k] == []
    ensures rows != [] ==> exists k | 0 <= k < |sheets| :: sheets[k] == rows && forall j | 0 <= j < k :: sheets[j] == []
  {
    if sheets == [] then []
    else if sheets[0] != [] then sheets[0]
    else
      var rows := FirstNonEmptySheet(sheets[1..]);
      assert rows != [] ==> exists k | 0 <= k < |sheets| :: sheets[k] == rows && forall j | 0 <= j < k :: sheets[j] == [] by {
        if rows != [] {
          var k :| 0 <= k < |sheets[1..]| && sheets[1..][k] == rows && forall j | 0 <= j < k :: sheets[1..][j] == [];
          assert sheets[k + 1] == rows && forall j | 0 <= j < k + 1 :: sheets[j] == [];
        }
      }
      rows
  }

  // ----- The insert -----

  /** The Borrower schema's phone pattern `^\+?[1-9]\d{1,14}$`, on a phone that holds only digits. */
  predicate PhonePatternOk(phone: string) {
    2 <= |phone| <= 15 && phone[0] != '0' && forall k | 0 <= k < |phone| :: Text.IsDigit(phone[k])
  }

  /** The stored loan id (`trim: true`) and e-mail (`lowercase: true`). */
  function LoanIdKey(b: UploadedBorrower): string {
    Text.TrimJs(b.loanId)
  }
  function EmailKey(b: UploadedBorrower, env: UploadEnv): string {
    Text.Lower(CellText(b.email, env))
  }

  /** Whether the Borrower schema accepts a prepared borrower: a name and a loan id that are not blank
      after trimming, the phone pattern, a non-negative amount, valid dates, the e-mail pattern, and
      the checks on the fields this model does not keep. */
  predicate SchemaAccepts(b: UploadedBorrower, env: UploadEnv) {
    && Text.TrimJs(CellText(b.customerName, env)) != ""
    && LoanIdKey(b) != ""
    && PhonePatternOk(b.phoneNumber)
    && b.loanAmount >= 0.0
    && b.dueDate.Some?
    && b.lastPaymentDate != Some(InvalidDate)
    && env.emailMatches(EmailKey(b, env))
    && env.otherFieldsValid(b)
  }

  /** The documents `insertMany(borrowers, { ordered: false })` keeps: those that pass validation, in order. */
  function Validated(bs: seq<UploadedBorrower>, env: UploadEnv): (r: seq<UploadedBorrower>)
    ensures |r| <= |bs|
    ensures forall b :: b in r <==> b in bs && SchemaAccepts(b, env)
    decreases |bs|
  {
    if bs == [] then []
    else
      var n := |bs| - 1;
      assert bs == bs[..n] + [bs[n]];
      Validated(bs[..n], env) + (if SchemaAccepts(bs[n], env) then [bs[n]] else [])
  }

  /** Whether writing the validated documents breaks a unique index: a loan id or e-mail already
      stored, or shared by two of the documents. */
  predicate DuplicateKey(bs: seq<UploadedBorrower>, env: UploadEnv) {
    || (exists k | 0 <= k < |bs| :: LoanIdKey(bs[k]) in env.storedLoanIds || EmailKey(bs[k], env) in env.storedEmails)
    || (exists j, k | 0 <= j < k < |bs| :: LoanIdKey(bs[j]) == LoanIdKey(bs[k]) || EmailKey(bs[j], env) == EmailKey(bs[k], env))
  }

  /** The response to a valid upload: the error of a duplicate key is passed on; otherwise 201 with
      the documents that passed validation. */
  function InsertOutcome(borrowers: seq<UploadedBorrower>, env: UploadEnv): (r: Response<seq<UploadedBorrower>>)
    ensures r.Forwarded? <==> DuplicateKey(Validated(borrowers, env), env)
    ensures r.Ok? ==> r.code == 201 && forall b :: b in r.data <==> b in borrowers && SchemaAccepts(b, env)
    ensures !r.Err?
  {
    var kept := Validated(borrowers, env);
    if DuplicateKey(kept, env) then Forwarded else Ok(201, kept)
  }

  /** A parsed row whose phone starts with 0 is never inserted: the phone pattern refuses it. */
  lemma LeadingZeroPhoneNotInserted(borrowers: seq<UploadedBorrower>, b: UploadedBorrower, env: UploadEnv)
    requires b in borrowers && b.phoneNumber != [] && b.phoneNumber[0] == '0'
    ensures InsertOutcome(borrowers, env).Ok? ==> b !in InsertOutcome(borrowers, env).data
  {
  }

  /** The error lines a 400 answer for an upload without one valid row shows: the first five. */
  function FirstErrors(errors: seq<string>): (r: seq<string>)
    ensures |r| == if |errors| < 5 then |errors| else 5
    ensures r == errors[..|r|]
  {
    if |errors| < 5 then errors else errors[..5]
  }

  /**
   * `uploadBorrowers`: no file answers 400; the rows are those of the first sheet that has any,
   * and without rows the answer is 400; otherwise every valid row becomes a borrower and every
   * other row an error line. A sheet without one valid row answers 400 with the first five error
   * lines; otherwise the insert decides the answer, which lists every error line.
   */
  method UploadBorrowers(file: Option<seq<seq<RawRow>>>, env: UploadEnv)
    returns (r: Response<seq<UploadedBorrower>>, errors: seq<string>)
    ensures file.None? ==> r == Err(400, "Please upload a file") && errors == []
    ensures file.Some? ==> var rows := FirstNonEmptySheet(file.value);
      var parsed, allErrors := ParsedOf(Outcomes(rows, env)), ErrorsOf(Outcomes(rows, env));
      && (rows == [] ==> r == Err(400, "The uploaded file is empty or has no readable rows in any sheet") && errors == [])
      && (rows != [] && parsed == [] ==> r == Err(400, "No valid borrower data found.") && errors == FirstErrors(allErrors))
      && (rows != [] && parsed != [] ==> r == InsertOutcome(parsed, env) && errors == allErrors)
  {
    if file.None? {
      return Err(400, "Please upload a file"), [];
    }
    var rows := FirstNonEmptySheet(file.value);
    if |rows| == 0 {
      return Err(400, "The uploaded file is empty or has no readable rows in any sheet"), [];
    }
    var borrowers, allErrors := ParseRows(rows, env);
    if |borrowers| == 0 {
      return Err(400, "No valid borrower data found."), FirstErrors(allErrors);
    }
    r := InsertOutcome(borrowers, env);
    errors := allErrors;
  }

  // ----- Field executive assignment -----

  const FieldExecutiveRiskError := "Field Executives can only be assigned to High Risk or Critical Risk borrowers"

  /** `assignFieldExecutive`: only a HIGH_RISK or CRITICAL_RISK borrower gets a field executive, and the
      document save rejects a borrower whose stored plan status is outside the schema. */
  method AssignFieldExecutive(db: Database, borrowerId: nat, fieldExecutiveId: Option<nat>)
    returns (r: Response<BorrowerRecord>)
    requires db.Valid()
    modifies db
    ensures db.Valid()
    ensures borrowerId !in old(db.borrowers) ==> r == Err(404, "Borrower not found") && unchanged(db)
    ensures borrowerId in old(db.borrowers) && !old(db.borrowers)[borrowerId].riskLevel.IsElevated() ==>
              r == Err(400, FieldExecutiveRiskError) && unchanged(db)
    ensures borrowerId in old(db.borrowers) && old(db.borrowers)[borrowerId].riskLevel.IsElevated() ==>
              var b := old(db.borrowers)[borrowerId].(assignedFieldExecutive := fieldExecutiveId);
              && (SaveValidates(b) ==> r == Ok(200, b) && db.borrowers == old(db.borrowers)[borrowerId := b]
                                       && db.recommendations == old(db.recommendations) && db.messages == old(db.messages))
              && (!SaveValidates(b) ==> r == Forwarded && unchanged(db))
    ensures r.Ok? <==> borrowerId in old(db.borrowers) && old(db.borrowers)[borrowerId].riskLevel.IsElevated()
                       && old(db.borrowers)[borrowerId].emiPlanStatus != PlanSuperseded
  {
    if borrowerId !in db.borrowers {
      return Err(404, "Borrower not found");
    }
    var borrower := db.borrowers[borrowerId];
    if !(borrower.riskLevel == HighRisk || borrower.riskLevel == CriticalRisk) {
      return Err(400, FieldExecutiveRiskError);
    }
    borrower := borrower.(assignedFieldExecutive := fieldExecutiveId);
    var saved := db.SaveBorrower(borrower);
    if !saved {
      return Forwarded;
    }
    r := Ok(200, borrower);
  }

  // ----- Automatic plan on a risk update -----

  /** The levels whose update triggers an automatic plan. */
  predicate IsPlanTrigger(level: string) {
    level == "HIGH_RISK" || level == "CRITICAL_RISK" || level == "MODERATE_RISK"
  }

  /** Whether the borrower already has a Pending recommendation. */
  predicate HasPendingPlan(recs: seq<Recommendation>, borrowerId: nat) {
    exists j | 0 <= j < |recs| :: recs[j].borrowerId == borrowerId && recs[j].status == Pending
  }

  /** The plan created for a borrower whose risk level is updated to `level`. */
  function AutoPlanDraft(b: BorrowerRecord, managerId: nat, level: string): (d: Recommendation)
    ensures d.status == Pending && d.borrowerId == b.id && d.managerId == managerId && d.riskLevel == level
    ensures var s := AiService.GenerateEMISuggestion(b.loanAmount, level);
            d.suggestedEMI == s.suggestedEMI && d.extendedTenure == s.extendedTenure && d.gracePeriod == s.gracePeriod
  {
    var s := AiService.GenerateEMISuggestion(b.loanAmount, level);
    NewRecommendation(b.id, managerId, level, s.suggestedEMI, s.extendedTenure, s.gracePeriod, Custom, false)
  }

  /** A triggered plan is never the unreduced default: it always extends the tenure and grants grace. */
  lemma AutoPlanGrantsRelief(b: BorrowerRecord, managerId: nat, level: string)
    requires IsPlanTrigger(level)
    ensures AutoPlanDraft(b, managerId, level).extendedTenure > 0 && AutoPlanDraft(b, managerId, level).gracePeriod > 0
  {
  }

  /**
   * `updateBorrower` for the risk level of the body (the other body fields are not modelled):
   * a label outside the enumeration fails validation, an unknown borrower answers 404, and a
   * HIGH_RISK, CRITICAL_RISK or MODERATE_RISK label creates a Pending plan unless one exists,
   * which puts the borrower's plan status to pending.
   */
  method UpdateBorrowerRisk(db: Database, borrowerId: nat, managerId: nat, riskLevel: Option<string>, now: int)
    returns (r: Response<BorrowerRecord>)
    requires db.Valid() && db.clock <= now
    modifies db
    ensures db.Valid()
    ensures riskLevel.Some? && RiskLevelFromLabel(riskLevel.value).None? ==> r == Forwarded && unchanged(db)
    ensures (riskLevel.None? || RiskLevelFromLabel(riskLevel.value).Some?) && borrowerId !in old(db.borrowers) ==>
              r == Err(404, "Borrower not found") && unchanged(db)
    ensures (riskLevel.None? || RiskLevelFromLabel(riskLevel.value).Some?) && borrowerId in old(db.borrowers) ==>
      var updated := if riskLevel.None? then old(db.borrowers)[borrowerId]
                     else old(db.borrowers)[borrowerId].(riskLevel := RiskLevelFromLabel(riskLevel.value).value);
      var triggered := riskLevel.Some? && IsPlanTrigger(riskLevel.value)
                       && !HasPendingPlan(old(db.recommendations), borrowerId);
      && (!triggered ==> r == Ok(200, updated) && db.borrowers == old(db.borrowers)[borrowerId := updated]
                         && db.recommendations == old(db.recommendations))
      && (triggered ==> r == Ok(200, updated.(emiPlanStatus := PlanPending))
                        && db.borrowers == old(db.borrowers)[borrowerId := updated.(emiPlanStatus := PlanPending)]
                        && db.recommendations == old(db.recommendations)
                             + [AutoPlanDraft(updated, managerId, riskLevel.value).(id := old(db.nextId), createdAt := now)])
    ensures db.messages == old(db.messages)
  {
    var level: Option<RiskLevel> := None;
    if riskLevel.Some? {
      level := RiskLevelFromLabel(riskLevel.value);
      if level.None? {
        return Forwarded;
      }
    }
    if borrowerId !in db.borrowers {
      return Err(404, "Borrower not found");
    }
    var borrower := db.borrowers[borrowerId];
    if level.Some? {
      borrower := borrower.(riskLevel := level.value);
    }
    db.UpdateBorrower(borrower);
    if riskLevel.Some? && IsPlanTrigger(riskLevel.value) {
      var existing := EmiController.FirstWhere(db.recommendations,
                        (rec: Recommendation) => rec.borrowerId == borrowerId && rec.status == Pending);
      if existing.None? {
        var _ := db.InsertRecommendation(AutoPlanDraft(borrower, managerId, riskLevel.value), now);
        borrower := borrower.(emiPlanStatus := PlanPending);
        var _ := db.SaveBorrower(borrower);
      }
    }
    r := Ok(200, borrower);
  }

  // ----- Pagination -----

  /** `(page - 1) * limit` documents are skipped. */
  function Skip(page: int, limit: int): int {
    (page - 1) * limit
  }

  /** `Math.ceil(total / limit)`; a zero limit divides by zero, which is not a finite page count. */
  function Pages(total: nat, limit: int): (p: Option<int>)
    ensures limit == 0 <==> p.None?
    ensures limit > 0 ==> p.value >= 0 && (p.value == 0 <==> total == 0)
    ensures limit > 0 ==> (p.value - 1) * limit < total <= p.value * limit || total == 0
  {
    if limit == 0 then None else Some(JsMath.Ceil(total as real / limit as real))
  }

  lemma MulMonotone(a: int, b: int, c: nat)
    requires a <= b
    ensures a * c <= b * c
  {
  }

  /** With a positive limit every document lies on exactly one page between 1 and the page count:
      the document at position `k` is on page `k / limit + 1`. */
  lemma EveryDocumentOnOnePage(total: nat, limit: int, k: nat)
    requires limit > 0 && k < total
    ensures var page := k / limit + 1;
            1 <= page <= Pages(total, limit).value && Skip(page, limit) <= k < Skip(page, limit) + limit
    ensures forall page: int | Skip(page, limit) <= k < Skip(page, limit) + limit :: page == k / limit + 1
  {
    var q := k / limit;
    assert q * limit <= k < q * limit + limit;
    assert Skip(q + 1, limit) == q * limit;
    var p := Pages(total, limit).value;
    if q >= p {
      MulMonotone(p, q, limit);
    }
    forall page: int | Skip(page, limit) <= k < Skip(page, limit) + limit
      ensures page == q + 1
    {
      assert Skip(page, limit) + limit == page * limit;
      if page <= q {
        MulMonotone(page, q, limit);
      } else if page > q + 1 {
        MulMonotone(q + 1, page - 1, limit);
      }
    }
  }
}

/**
 * The one-shot inference script backend/predict_risk.py: load three pickled artifacts,
 * read one message from standard input, resolve its text and print one JSON object.
 *
 * The pickled vectorizer and classifiers are abstract: each is a datatype of functions whose
 * `Raised` results stand for the exceptions they may throw. `json.loads` is a parameter too
 * (`None` stands for `JSONDecodeError`). The printed JSON object is kept as an `Output` value,
 * one constructor per key set.
 */
module PredictRisk {
  import opened Wrappers
  import Text

  /** A value produced by `json.loads`. Integers and floats are kept apart because their Python type names differ. */
  datatype Json =
    | JNull
    | JBool(b: bool)
    | JInt(i: int)
    | JFloat(x: real)
    | JStr(s: string)
    | JArr(items: seq<Json>)
    | JObj(fields: map<string, Json>)

  /** Python truthiness (`if not text`). */
  predicate Truthy(j: Json) {
    match j
    case JNull => false
    case JBool(b) => b
    case JInt(i) => i != 0
    case JFloat(x) => x != 0.0
    case JStr(s) => s != ""
    case JArr(items) => items != []
    case JObj(fields) => fields != map[]
  }

  /** The Python type name of a decoded JSON value, as it appears in an `AttributeError`. */
  function TypeName(j: Json): string {
    match j
    case JNull => "NoneType"
    case JBool(_) => "bool"
    case JInt(_) => "int"
    case JFloat(_) => "float"
    case JStr(_) => "str"
    case JArr(_) => "list"
    case JObj(_) => "dict"
  }

  /** A computation that returns a value or raises an exception whose `str` is `message`. */
  datatype Raise<T> = Ok(value: T) | Raised(message: string)

  /** The fitted TF-IDF vectorizer: `transform([text])` gives the one row for `text`. */
  datatype Vectorizer = Vectorizer(transform: Json -> Raise<seq<real>>)

  /** A fitted classifier: `predict` gives one label per row, and `proba` is present exactly when the
      object has a `predict_proba` attribute (one probability row per input row). */
  datatype Classifier = Classifier(
    predict: seq<real> -> Raise<seq<string>>,
    proba: Option<seq<real> -> Raise<seq<seq<real>>>>)

  /** The result of unpickling one artifact file. */
  datatype Artifact<T> = Loaded(model: T) | NotFound | Unreadable(reason: string)

  /** The JSON object printed on standard output. */
  datatype Output =
    | NoText                                                          // {"error": "No text provided"}
    | Prediction(riskSeverity: string, bankAction: string, riskConfidence: real)
    | Failure(error: string)                                          // {"error": str(e)}

  /** What one run of the script does. */
  datatype Outcome =
    | Silent                                   // nothing printed, exit status 0
    | Printed(out: Output, exitCode: int)      // one JSON object on standard output
    | LoadFailed(stderr: string)               // one line on standard error, exit status 1

  const VectorizerFile := "tfidf_vectorizer.pkl"
  const RiskModelFile := "risk_severity_model.pkl"
  const ActionModelFile := "bank_action_model.pkl"

  /** Message of the `IndexError` raised by `[0]` on an empty prediction array. */
  const EmptyIndexMessage := "index 0 is out of bounds for axis 0 with size 0"
  /** Message of the `ValueError` raised by `max` on an empty row. */
  const EmptyMaxMessage := "max() arg is an empty sequence"

  /** `os.path.join(base, name)` for a plain file name. */
  function Join(base: string, name: string): (p: string)
    ensures |p| >= |name| && p[|p| - |name|..] == name
    ensures base != "" ==> |p| > |name|
  {
    if base == "" then name
    else if base[|base| - 1] == '/' then base + name
    else base + "/" + name
  }

  /** The message `load_model` writes to standard error before exiting with status 1. */
  function LoadError<T>(path: string, a: Artifact<T>): (msg: string)
    requires !a.Loaded?
    ensures a.NotFound? ==> msg == "Error: Model file " + path + " not found"
    ensures a.Unreadable? ==> msg == "Error loading " + path + ": " + a.reason
  {
    match a
    case NotFound => "Error: Model file " + path + " not found"
    case Unreadable(reason) => "Error loading " + path + ": " + reason
  }

  /** The largest probability in a row (Python's `max`). */
  function Max(row: seq<real>): (m: real)
    requires row != []
    ensures m in row
    ensures forall i :: 0 <= i < |row| ==> row[i] <= m
  {
    if |row| == 1 then row[0]
    else
      var rest := Max(row[1..]);
      if row[0] >= rest then row[0] else rest
  }

  /** `xs[0]`, raising on an empty array. */
  function First(r: Raise<seq<string>>): (f: Raise<string>)
    ensures f.Ok? <==> r.Ok? && r.value != []
    ensures f.Ok? ==> f.value == r.value[0]
    ensures r.Raised? ==> f == Raised(r.message)
  {
    match r
    case Raised(m) => Raised(m)
    case Ok(xs) => if xs == [] then Raised(EmptyIndexMessage) else Ok(xs[0])
  }

  /** `risk_confidence`: 0.0 without `predict_proba`, otherwise the maximum of the first probability row. */
  function Confidence(risk: Classifier, x: seq<real>): (c: Raise<real>)
    ensures risk.proba.None? ==> c == Ok(0.0)
    ensures c.Ok? && risk.proba.Some? ==>
      var p := risk.proba.value(x);
      p.Ok? && p.value != [] && p.value[0] != [] && c.value in p.value[0]
      && forall k :: 0 <= k < |p.value[0]| ==> p.value[0][k] <= c.value
  {
    match risk.proba
    case None => Ok(0.0)
    case Some(f) =>
      match f(x)
      case Raised(m) => Raised(m)
      case Ok(rows) =>
        if rows == [] then Raised(EmptyIndexMessage)
        else if rows[0] == [] then Raised(EmptyMaxMessage)
        else Ok(Max(rows[0]))
  }

  /** The `str` of the `AttributeError` raised by `.get` on a decoded value of Python type `typeName`. */
  function NoGetMessage(typeName: string): string {
    "'" + typeName + "' object has no attribute 'get'"
  }

  /** The text of a non-empty input: the `text` field of a JSON object (default ""), or the stripped raw
      input when it is not JSON. JSON of any other shape raises, since it has no `get`. */
  function ResolveText(input: string, loads: string -> Option<Json>): (t: Raise<Json>)
    ensures loads(input).None? ==> t == Ok(JStr(Text.StripPy(input)))
    ensures loads(input).Some? && loads(input).value.JObj? ==>
      t == Ok(if "text" in loads(input).value.fields then loads(input).value.fields["text"] else JStr(""))
    ensures loads(input).Some? && !loads(input).value.JObj? ==>
      t == Raised(NoGetMessage(TypeName(loads(input).value)))
  {
    match loads(input)
    case None => Ok(JStr(Text.StripPy(input)))
    case Some(data) =>
      match data
      case JObj(fields) => Ok(if "text" in fields then fields["text"] else JStr(""))
      case _ => Raised(NoGetMessage(TypeName(data)))
  }

  /** Vectorize once and predict with both classifiers on that same row. */
  function Classify(text: Json, vec: Vectorizer, risk: Classifier, action: Classifier): (r: Raise<Output>)
    ensures r.Ok? ==> r.value.Prediction?
    ensures r.Ok? ==>
      && vec.transform(text).Ok?
      && var x := vec.transform(text).value;
      && risk.predict(x).Ok? && risk.predict(x).value != []
      && action.predict(x).Ok? && action.predict(x).value != []
      && r.value.riskSeverity == risk.predict(x).value[0]
      && r.value.bankAction == action.predict(x).value[0]
      && Confidence(risk, x) == Ok(r.value.riskConfidence)
  {
    match vec.transform(text)
    case Raised(m) => Raised(m)
    case Ok(x) =>
      match First(risk.predict(x))
      case Raised(m) => Raised(m)
      case Ok(severity) =>
        match First(action.predict(x))
        case Raised(m) => Raised(m)
        case Ok(act) =>
          match Confidence(risk, x)
          case Raised(m) => Raised(m)
          case Ok(c) => Ok(Prediction(severity, act, c))
  }

  /** The body of the `try` block for a non-empty input. */
  function Respond(input: string, loads: string -> Option<Json>, vec: Vectorizer, risk: Classifier, action: Classifier): (r: Raise<Output>)
    ensures r == Ok(NoText) <==> ResolveText(input, loads).Ok? && !Truthy(ResolveText(input, loads).value)
  {
    match ResolveText(input, loads)
    case Raised(m) => Raised(m)
    case Ok(text) => if !Truthy(text) then Ok(NoText) else Classify(text, vec, risk, action)
  }

  /** `main()`: the three loads in order, then standard input. */
  function Run(basePath: string, vec: Artifact<Vectorizer>, risk: Artifact<Classifier>, action: Artifact<Classifier>,
                stdin: string, loads: string -> Option<Json>): (o: Outcome)
    ensures o.LoadFailed? <==> !(vec.Loaded? && risk.Loaded? && action.Loaded?)
    ensures o.Silent? <==> vec.Loaded? && risk.Loaded? && action.Loaded? && stdin == ""
    ensures o.Printed? ==> (o.exitCode == 1 <==> o.out.Failure?) && (o.exitCode == 0 <==> !o.out.Failure?)
  {
    if !vec.Loaded? then LoadFailed(LoadError(Join(basePath, VectorizerFile), vec))
    else if !risk.Loaded? then LoadFailed(LoadError(Join(basePath, RiskModelFile), risk))
    else if !action.Loaded? then LoadFailed(LoadError(Join(basePath, ActionModelFile), action))
    else if stdin == "" then Silent
    else
      match Respond(stdin, loads, vec.model, risk.model, action.model)
      case Ok(out) => Printed(out, 0)
      case Raised(m) => Printed(Failure(m), 1)
  }

  /** All three artifacts are loaded before standard input is looked at: a failed load gives the
      same outcome whatever the input, and the first failing file in load order is the one reported. */
  lemma LoadFailureIgnoresInput(basePath: string, vec: Artifact<Vectorizer>, risk: Artifact<Classifier>,
                                action: Artifact<Classifier>, in1: string, in2: string,
                                loads1: string -> Option<Json>, loads2: string -> Option<Json>)
    requires !(vec.Loaded? && risk.Loaded? && action.Loaded?)
    ensures Run(basePath, vec, risk, action, in1, loads1) == Run(basePath, vec, risk, action, in2, loads2)
    ensures !vec.Loaded? ==> Run(basePath, vec, risk, action, in1, loads1) == LoadFailed(LoadError(Join(basePath, VectorizerFile), vec))
    ensures vec.Loaded? && !risk.Loaded? ==> Run(basePath, vec, risk, action, in1, loads1) == LoadFailed(LoadError(Join(basePath, RiskModelFile), risk))
    ensures vec.Loaded? && risk.Loaded? && !action.Loaded? ==>
              Run(basePath, vec, risk, action, in1, loads1) == LoadFailed(LoadError(Join(basePath, ActionModelFile), action))
  {
  }

  /** A falsy resolved text prints exactly the "No text provided" error, whatever the models are:
      neither the vectorizer nor a classifier is consulted. */
  lemma NoTextIgnoresModels(basePath: string, v1: Vectorizer, r1: Classifier, a1: Classifier,
                            v2: Vectorizer, r2: Classifier, a2: Classifier,
                            stdin: string, loads: string -> Option<Json>)
    requires stdin != ""
    requires ResolveText(stdin, loads).Ok? && !Truthy(ResolveText(stdin, loads).value)
    ensures Run(basePath, Loaded(v1), Loaded(r1), Loaded(a1), stdin, loads) == Printed(NoText, 0)
    ensures Run(basePath, Loaded(v2), Loaded(r2), Loaded(a2), stdin, loads) == Printed(NoText, 0)
  {
  }

  /** Input that is not JSON is stripped: white space around the text is dropped and the
      text itself is classified whole, so raw `"  hi  "` is classified as `"hi"`. */
  lemma RawInputIsStripped(pre: string, text: string, post: string, loads: string -> Option<Json>)
    requires loads(pre + text + post).None?
    requires Text.IsBlankPy(pre) && Text.IsBlankPy(post)
    requires text != [] && !Text.IsPySpace(text[0]) && !Text.IsPySpace(text[|text| - 1])
    ensures ResolveText(pre + text + post, loads) == Ok(JStr(text))
  {
    Text.StripPyExact(pre, text, post);
  }

  /** A JSON `text` field is used verbatim, so `{"text": "   "}` is classified rather than rejected. */
  lemma JsonBlankTextIsClassified(stdin: string, loads: string -> Option<Json>,
                                  vec: Vectorizer, risk: Classifier, action: Classifier)
    requires stdin != ""
    requires loads(stdin) == Some(JObj(map["text" := JStr("   ")]))
    ensures Respond(stdin, loads, vec, risk, action) == Classify(JStr("   "), vec, risk, action)
    ensures Respond(stdin, loads, vec, risk, action) != Ok(NoText)
  {
  }

  /** A top-level JSON array fails with exit status 1, because a list has no `get`. */
  lemma JsonArrayFails(basePath: string, vec: Vectorizer, risk: Classifier, action: Classifier,
                       stdin: string, loads: string -> Option<Json>, items: seq<Json>)
    requires stdin != "" && loads(stdin) == Some(JArr(items))
    ensures Run(basePath, Loaded(vec), Loaded(risk), Loaded(action), stdin, loads)
         == Printed(Failure(NoGetMessage("list")), 1)
  {
    assert ResolveText(stdin, loads) == Raised(NoGetMessage("list"));
  }

  /** A successful prediction's confidence is 0.0 without `predict_proba`; with it, and when the first
      probability row is a distribution over [0, 1], the confidence lies in [0, 1]. */
  lemma ConfidenceRange(risk: Classifier, x: seq<real>)
    requires Confidence(risk, x).Ok?
    requires risk.proba.Some? ==>
      var p := risk.proba.value(x);
      p.Ok? && p.value != [] && forall k :: 0 <= k < |p.value[0]| ==> 0.0 <= p.value[0][k] <= 1.0
    ensures risk.proba.None? ==> Confidence(risk, x).value == 0.0
    ensures 0.0 <= Confidence(risk, x).value <= 1.0
  {
    if risk.proba.Some? {
      var row := risk.proba.value(x).value[0];
      var c := Confidence(risk, x).value;
      var k :| 0 <= k < |row| && row[k] == c;
    }
  }
}

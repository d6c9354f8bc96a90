/** The response derivations of the v2 `/generate-sql` handler
    (app/main_v2.py): which schema the agents see, how many tables retrieval
    contributed, and how the self-correction run becomes the response's
    status, message and history.  The analyzer, the explainer, the clock and
    the web layer are parameters or left out. */
module Pipeline {
  import opened Wrappers
  import opened Strings
  import opened Config
  import opened SelfCorrection
  import opened SchemaRetrieval

  /** The handler builds its agent with this budget. */
  const HandlerMaxAttempts: int := 3

  /** The handler asks retrieval for this many tables, at the default threshold. */
  const RetrievalTopK: nat := 5
  const RetrievalThreshold: real := 0.0

  const MissingSchemaDetail: string := "No database schema provided and sample_schema.sql not found."
  const SuccessMessage: string := "Query executed successfully"
  const UnknownError: string := "Unknown error"

  /** An `HTTPException`: the status code and the detail text. */
  datatype HttpError = HttpError(statusCode: nat, detail: string)

  datatype ValidationStatus = Success | Failed

  /** One entry of the response's `correction_history`. */
  datatype HistoryEntry = HistoryEntry(attempt: nat, error: Option<string>, success: bool)

  /** The schema the agents work on, whether retrieval was on, and how many
      tables it contributed. */
  datatype SchemaChoice = SchemaChoice(focusedSchema: string, ragEnabled: bool, tablesRetrieved: nat)

  /** The fields of `QueryResponse` the handler derives.  The plan is passed
      through from the analyzer, and the explanation from the explainer. */
  datatype QueryResponse = QueryResponse(
    naturalLanguageQuestion: string,
    sqlQuery: string,
    explanation: string,
    validationStatus: ValidationStatus,
    validationMessage: string,
    tablesRetrieved: Option<nat>,
    ragEnabled: bool,
    correctionAttempts: nat,
    selfCorrectionApplied: bool,
    correctionHistory: Option<seq<HistoryEntry>>)

  /** The request's `db_schema` unless it is missing or empty; then the sample
      schema file, and a 400 error when that file is missing too. */
  function ResolveSchema(dbSchema: Option<string>, sampleSchema: Option<string>): (r: Result<string, HttpError>)
    ensures r.Err? <==> (dbSchema.None? || dbSchema.value == "") && sampleSchema.None?
    ensures r.Err? ==> r.error == HttpError(400, MissingSchemaDetail)
    ensures r.Ok? && dbSchema.Some? && dbSchema.value != "" ==> r.value == dbSchema.value
    ensures r.Ok? && (dbSchema.None? || dbSchema.value == "") ==> r.value == sampleSchema.value
  {
    if dbSchema.Some? && dbSchema.value != "" then Ok(dbSchema.value)
    else
      match sampleSchema
      case Some(text) => Ok(text)
      case None => Err(HttpError(400, MissingSchemaDetail))
  }

  /** The schema choice, given the loaded flag and what retrieval returned:
      the retrieved text is used only when retrieval is on and returned
      something, and then `tables_retrieved` is one less than the number of
      pieces it splits into at `CREATE TABLE`. */
  function ChooseSchema(dbSchema: string, ragEnabled: bool, relevant: string): (c: SchemaChoice)
    ensures c.ragEnabled == ragEnabled
    ensures c.focusedSchema == (if ragEnabled && relevant != "" then relevant else dbSchema)
    ensures c.tablesRetrieved == (if ragEnabled && relevant != "" then CountOccurrences(relevant, CreateTable) else 0)
  {
    if ragEnabled && relevant != "" then
      SplitCount(relevant, CreateTable);
      SchemaChoice(relevant, true, |Split(relevant, CreateTable)| - 1)
    else SchemaChoice(dbSchema, ragEnabled, 0)
  }

  /** The schema choice the handler makes against the retrieval state. */
  function SelectSchema(dbSchema: string, st: RagState, question: string, search: Search): SchemaChoice {
    ChooseSchema(dbSchema, st.schemaLoaded, RetrievedSchema(st, question, RetrievalTopK, RetrievalThreshold, search))
  }

  /** Without a usable index, or when nothing reaches the threshold, the full
      schema is used and no table is counted; otherwise the retrieved
      definitions are used and every `CREATE TABLE` in them is counted. */
  lemma SchemaFallback(dbSchema: string, st: RagState, question: string, search: Search)
    ensures var c := SelectSchema(dbSchema, st, question, search);
            var relevant := RetrievedSchema(st, question, RetrievalTopK, RetrievalThreshold, search);
            (!Ready(st) || relevant == "" ==> c.focusedSchema == dbSchema && c.tablesRetrieved == 0) &&
            (Ready(st) && relevant != "" ==>
               c.focusedSchema == relevant && c.tablesRetrieved == CountOccurrences(relevant, CreateTable)) &&
            c.ragEnabled == st.schemaLoaded
  {
    var relevant := RetrievedSchema(st, question, RetrievalTopK, RetrievalThreshold, search);
    if !Ready(st) {
      assert relevant == "";
    }
  }

  /** The message for a finished run: a success mentions the attempt count only
      when correction was applied; a failure names the count and the last
      error. */
  function ValidationMessage(success: bool, history: seq<CorrectionAttempt>): string {
    var n := |history|;
    if success then
      SuccessMessage + (if n > 1 then " after " + NatToString(n) + " attempts" else "")
    else
      "Query validation failed after " + NatToString(n) + " attempts. Last error: " +
      (if history != [] then OptionText(history[n - 1].errorMessage) else UnknownError)
  }

  /** The success message is the bare sentence exactly when at most one
      attempt ran, and it always starts with it. */
  lemma SuccessMessageShape(history: seq<CorrectionAttempt>)
    ensures StartsWith(ValidationMessage(true, history), SuccessMessage)
    ensures ValidationMessage(true, history) == SuccessMessage <==> |history| <= 1
  {
    var m := ValidationMessage(true, history);
    assert m[..|SuccessMessage|] == SuccessMessage;
    if |history| > 1 {
      assert |m| > |SuccessMessage|;
    }
  }

  /** After correction, the success sentence is followed by " after ", the
      number of attempts in decimal, and " attempts". */
  lemma SuccessSuffix(history: seq<CorrectionAttempt>)
    requires |history| > 1
    ensures exists digits :: ValidationMessage(true, history) == SuccessMessage + " after " + digits + " attempts" &&
              (forall i :: 0 <= i < |digits| ==> IsDigit(digits[i])) && DigitsValue(digits) == |history|
  {
    var digits := NatToString(|history|);
    NatToStringRoundTrip(|history|);
    assert ValidationMessage(true, history) == SuccessMessage + " after " + digits + " attempts";
  }

  /** A failure message ends with the last record's error, or with
      "Unknown error" when there is no record. */
  lemma FailureMessageShape(history: seq<CorrectionAttempt>)
    ensures var m := ValidationMessage(false, history);
            var last := if history != [] then OptionText(history[|history| - 1].errorMessage) else UnknownError;
            |last| <= |m| && m[|m| - |last|..] == last
  {
  }

  /** The response's history: one entry per record, in order, or `None` when
      there is none. */
  function FormatHistory(history: seq<CorrectionAttempt>): (r: Option<seq<HistoryEntry>>)
    ensures r.None? <==> history == []
    ensures r.Some? ==> |r.value| == |history|
    ensures r.Some? ==> forall i :: 0 <= i < |history| ==>
              r.value[i] == HistoryEntry(history[i].attemptNumber, history[i].errorMessage, history[i].success)
  {
    if history == [] then None
    else Some(seq(|history|, i requires 0 <= i < |history| =>
                HistoryEntry(history[i].attemptNumber, history[i].errorMessage, history[i].success)))
  }

  /** The response fields derived from the schema choice and the loop's
      returned triple. */
  function BuildResponse(question: string, choice: SchemaChoice, run: Run, explanation: string): (r: QueryResponse)
    ensures r.validationStatus == Success <==> run.success
    ensures r.correctionAttempts == |run.history|
    ensures r.selfCorrectionApplied <==> |run.history| > 1
    ensures r.tablesRetrieved.Some? <==> choice.ragEnabled
    ensures r.sqlQuery == run.finalSql
  {
    var numAttempts := |run.history|;
    var applied := numAttempts > 1;
    QueryResponse(
      question, run.finalSql, explanation,
      if run.success then Success else Failed,
      ValidationMessage(run.success, run.history),
      if choice.ragEnabled then Some(choice.tablesRetrieved) else None,
      choice.ragEnabled,
      numAttempts, applied,
      FormatHistory(run.history))
  }

  /** A question as the handler receives it. */
  datatype QueryRequest = QueryRequest(question: string, dbSchema: Option<string>)

  /** What the handler depends on but does not compute: the sample schema file
      (`None` when it is missing), the retrieval state and search, the
      analyzer (schema and question to plan), the explainer (query to text),
      and the model and database behind the agent. */
  datatype Services = Services(
    sampleSchema: Option<string>,
    rag: RagState,
    search: Search,
    analyze: (string, string) -> string,
    explain: string -> string,
    oracles: Oracles)

  /** `generate_sql`, as a function of the request and the services. */
  function GenerateSql(req: QueryRequest, sv: Services): Result<QueryResponse, HttpError> {
    match ResolveSchema(req.dbSchema, sv.sampleSchema)
    case Err(e) => Err(e)
    case Ok(dbSchema) =>
      var choice := SelectSchema(dbSchema, sv.rag, req.question, sv.search);
      var plan := sv.analyze(choice.focusedSchema, req.question);
      var run := CorrectionRun(Request(choice.focusedSchema, req.question, plan), sv.oracles, HandlerMaxAttempts);
      Ok(BuildResponse(req.question, choice, run, sv.explain(run.finalSql)))
  }

  /** A handled request fails only for a missing schema, and then with a 400.
      Otherwise its response reports between one and three attempts, applies
      correction exactly when the first attempt failed, and its history is
      always present. */
  lemma HandlerOutcome(req: QueryRequest, sv: Services)
    ensures var r := GenerateSql(req, sv);
            (r.Err? <==> (req.dbSchema.None? || req.dbSchema.value == "") && sv.sampleSchema.None?) &&
            (r.Err? ==> r.error.statusCode == 400) &&
            (r.Ok? ==>
               1 <= r.value.correctionAttempts <= 3 &&
               r.value.correctionHistory.Some? &&
               (r.value.selfCorrectionApplied <==> !r.value.correctionHistory.value[0].success) &&
               (r.value.validationStatus == Failed ==> r.value.correctionAttempts == 3))
  {
    if GenerateSql(req, sv).Ok? {
      var dbSchema := ResolveSchema(req.dbSchema, sv.sampleSchema).value;
      var choice := SelectSchema(dbSchema, sv.rag, req.question, sv.search);
      var plan := sv.analyze(choice.focusedSchema, req.question);
      var rq := Request(choice.focusedSchema, req.question, plan);
      var s := AgentSteps(rq, sv.oracles);
      LoopFinishes(s, HandlerMaxAttempts);
      var h := Loop(s, HandlerMaxAttempts).history;
      assert h != [];
      if |h| > 1 {
        assert !h[0].success;
      }
    }
  }

  /** The fixed part of the failure message for three attempts. */
  lemma ThreeAttemptsText()
    ensures "Query validation failed after " + NatToString(3) + " attempts. Last error: " ==
            "Query validation failed after 3 attempts. Last error: "
  {
    SmallNatText();
  }

  /** A failed run of three attempts is reported by the fixed sentence for three
      attempts followed by the third record's error text. */
  lemma FailedAfterThree(question: string, choice: SchemaChoice, run: Run, explanation: string)
    requires !run.success && |run.history| == 3
    ensures var r := BuildResponse(question, choice, run, explanation);
            r.validationMessage ==
              "Query validation failed after 3 attempts. Last error: " + OptionText(r.correctionHistory.value[2].error)
  {
    var r := BuildResponse(question, choice, run, explanation);
    assert r.validationMessage ==
             "Query validation failed after " + NatToString(3) + " attempts. Last error: " +
             OptionText(run.history[2].errorMessage);
    ThreeAttemptsText();
    assert r.correctionHistory.value[2].error == run.history[2].errorMessage;
  }

  /** The run behind a handled request. */
  function HandlerRun(req: QueryRequest, sv: Services, dbSchema: string): Run {
    var choice := SelectSchema(dbSchema, sv.rag, req.question, sv.search);
    var plan := sv.analyze(choice.focusedSchema, req.question);
    CorrectionRun(Request(choice.focusedSchema, req.question, plan), sv.oracles, HandlerMaxAttempts)
  }

  /** A failed request reports its last error: with three attempts used, the
      message is the fixed sentence for three attempts followed by the third
      record's error text. */
  lemma FailureMessageNamesLastError(req: QueryRequest, sv: Services)
    requires GenerateSql(req, sv).Ok? && GenerateSql(req, sv).value.validationStatus == Failed
    ensures var r := GenerateSql(req, sv).value;
            r.validationMessage ==
              "Query validation failed after 3 attempts. Last error: " +
              OptionText(r.correctionHistory.value[2].error)
  {
    var dbSchema := ResolveSchema(req.dbSchema, sv.sampleSchema).value;
    var choice := SelectSchema(dbSchema, sv.rag, req.question, sv.search);
    var plan := sv.analyze(choice.focusedSchema, req.question);
    var run := HandlerRun(req, sv, dbSchema);
    Exhaustion(AgentSteps(Request(choice.focusedSchema, req.question, plan), sv.oracles), HandlerMaxAttempts);
    FailedAfterThree(req.question, choice, run, sv.explain(run.finalSql));
  }

  /** A successful run of one to three attempts is reported by the bare
      sentence, or by the sentence with " after 2 attempts" or " after 3
      attempts" appended. */
  lemma SucceededAfter(question: string, choice: SchemaChoice, run: Run, explanation: string)
    requires run.success && 1 <= |run.history| <= 3
    ensures var r := BuildResponse(question, choice, run, explanation);
            (r.correctionAttempts == 1 && r.validationMessage == "Query executed successfully") ||
            (r.correctionAttempts == 2 && r.validationMessage == "Query executed successfully after 2 attempts") ||
            (r.correctionAttempts == 3 && r.validationMessage == "Query executed successfully after 3 attempts")
  {
    SmallNatText();
  }

  /** A successful request says how many attempts it took: the bare sentence
      after one, and " after 2 attempts" or " after 3 attempts" appended when
      correction was applied. */
  lemma SuccessMessageNamesAttempts(req: QueryRequest, sv: Services)
    requires GenerateSql(req, sv).Ok? && GenerateSql(req, sv).value.validationStatus == Success
    ensures var r := GenerateSql(req, sv).value;
            (r.correctionAttempts == 1 && r.validationMessage == "Query executed successfully") ||
            (r.correctionAttempts == 2 && r.validationMessage == "Query executed successfully after 2 attempts") ||
            (r.correctionAttempts == 3 && r.validationMessage == "Query executed successfully after 3 attempts")
  {
    HandlerOutcome(req, sv);
    var dbSchema := ResolveSchema(req.dbSchema, sv.sampleSchema).value;
    var choice := SelectSchema(dbSchema, sv.rag, req.question, sv.search);
    var run := HandlerRun(req, sv, dbSchema);
    SucceededAfter(req.question, choice, run, sv.explain(run.finalSql));
  }

  /** Without a configured database every request that gets as far as the agent
      fails after three attempts, and the message names the missing database. */
  lemma NoDatabaseResponse(req: QueryRequest, sv: Services)
    requires !DatabaseConfigured(sv.oracles.databaseUrl)
    requires GenerateSql(req, sv).Ok?
    ensures var r := GenerateSql(req, sv).value;
            r.validationStatus == Failed && r.correctionAttempts == 3 && r.selfCorrectionApplied &&
            r.validationMessage ==
              "Query validation failed after 3 attempts. Last error: " + NoDatabaseMessage
  {
    var dbSchema := ResolveSchema(req.dbSchema, sv.sampleSchema).value;
    var choice := SelectSchema(dbSchema, sv.rag, req.question, sv.search);
    var plan := sv.analyze(choice.focusedSchema, req.question);
    var run := HandlerRun(req, sv, dbSchema);
    NoDatabaseConsumesBudget(Request(choice.focusedSchema, req.question, plan), sv.oracles, HandlerMaxAttempts);
    FailedAfterThree(req.question, choice, run, sv.explain(run.finalSql));
  }
}

/** The self-correction loop (agents/self_correction.py).  The language model
    and the database are oracles: the model is a function from the index of the
    call within one run and the prompt to the text it returns, the database a
    function from the attempt number and the query to what running it reports.
    Scripting those two functions is how the loop's own control logic (attempt
    counting, termination, the history) is pinned down independently of them. */
module SelfCorrection {
  import opened Wrappers
  import opened Strings
  import opened Config

  /** `SQLExecutionResult`, without its timestamp. */
  datatype SqlExecutionResult = SqlExecutionResult(
    success: bool,
    sqlQuery: string,
    errorMessage: Option<string>,
    rowCount: Option<nat>,
    executionTimeMs: Option<real>)

  /** `CorrectionAttempt`, without its timestamp. */
  datatype CorrectionAttempt = CorrectionAttempt(
    attemptNumber: nat,
    sqlQuery: string,
    errorMessage: Option<string>,
    success: bool)

  /** What the database reports when a query is run inside a rolled-back
      transaction: the rows fetched (used for SELECT queries only), or the
      exception raised, with the elapsed time either way. */
  datatype DbOutcome =
    | Ran(rows: nat, elapsedMs: real)
    | SqlAlchemyError(orig: Option<string>, text: string, elapsedMs: real)
    | OtherError(text: string, elapsedMs: real)

  const NoDatabaseMessage: string := "No database configured for SQL execution"

  /** `sql_query.strip().upper().startswith('SELECT')` */
  predicate IsSelect(sqlQuery: string) {
    StartsWith(Upper(Strip(sqlQuery)), "SELECT")
  }

  /** `execute_sql`: the no-database guard, then the classification of what
      the database reported.  `outcome` is consulted only when a database is
      configured. */
  function ExecuteSql(databaseUrl: Option<string>, sqlQuery: string, outcome: DbOutcome): (r: SqlExecutionResult)
    ensures r.sqlQuery == sqlQuery
    ensures !DatabaseConfigured(databaseUrl) ==>
              r == SqlExecutionResult(false, sqlQuery, Some(NoDatabaseMessage), None, None)
    ensures r.success <==> DatabaseConfigured(databaseUrl) && outcome.Ran?
    ensures r.success ==> r.errorMessage.None? && r.executionTimeMs == Some(outcome.elapsedMs)
    ensures !r.success ==> r.errorMessage.Some? && r.rowCount.None?
    ensures r.rowCount.Some? <==> r.success && IsSelect(sqlQuery)
    ensures r.rowCount.Some? ==> r.rowCount.value == outcome.rows
    ensures DatabaseConfigured(databaseUrl) && outcome.SqlAlchemyError? ==>
              r.errorMessage == Some(outcome.orig.GetOr(outcome.text))
    ensures DatabaseConfigured(databaseUrl) && outcome.OtherError? ==>
              r.errorMessage == Some(outcome.text)
  {
    if !DatabaseConfigured(databaseUrl) then
      SqlExecutionResult(false, sqlQuery, Some(NoDatabaseMessage), None, None)
    else
      match outcome
      case Ran(rows, elapsed) =>
        var rowCount := if IsSelect(sqlQuery) then Some(rows) else None;
        SqlExecutionResult(true, sqlQuery, None, rowCount, Some(elapsed))
      case SqlAlchemyError(orig, text, elapsed) =>
        var errorMsg := match orig case Some(o) => o case None => text;
        SqlExecutionResult(false, sqlQuery, Some(errorMsg), None, Some(elapsed))
      case OtherError(text, elapsed) =>
        SqlExecutionResult(false, sqlQuery, Some(text), None, Some(elapsed))
  }

  /** `f"{value}"` for an optional string: Python prints `None` as "None". */
  function OptionText(o: Option<string>): string {
    match o
    case Some(s) => s
    case None => "None"
  }

  /** One line of the previous-attempts summary: an empty or missing error
      message reads as "Success" (`att.error_message or 'Success'`). */
  function AttemptLine(a: CorrectionAttempt): string {
    var outcome := if a.errorMessage.None? || a.errorMessage.value == "" then "Success" else a.errorMessage.value;
    "Attempt " + NatToString(a.attemptNumber) + ": " + outcome
  }

  /** `history[-3:]` */
  function LastThree(history: seq<CorrectionAttempt>): (r: seq<CorrectionAttempt>)
    ensures |r| == if |history| < 3 then |history| else 3
    ensures r == history[|history| - |r|..]
  {
    if |history| <= 3 then history else history[|history| - 3..]
  }

  function AttemptLines(attempts: seq<CorrectionAttempt>): (r: seq<string>)
    ensures |r| == |attempts|
    ensures forall i :: 0 <= i < |r| ==> r[i] == AttemptLine(attempts[i])
  {
    if attempts == [] then [] else [AttemptLine(attempts[0])] + AttemptLines(attempts[1..])
  }

  /** The previous-attempts summary handed to the corrector:
      `"\n".join(lines of the last 3 attempts) or "None"`. */
  function PreviousAttempts(history: seq<CorrectionAttempt>): (r: string)
    ensures r != ""
  {
    var joined := Join(AttemptLines(LastThree(history)), "\n");
    if joined == "" then "None" else joined
  }

  /** The summary is "None" exactly when there is no history yet. */
  lemma PreviousAttemptsNone(history: seq<CorrectionAttempt>)
    ensures PreviousAttempts(history) == "None" <==> history == []
  {
    if history != [] {
      var lines := AttemptLines(LastThree(history));
      var first := AttemptLine(LastThree(history)[0]);
      assert first[0] == 'A';
      assert Join(lines, "\n")[0] == first[0];
    }
  }

  /** The summary only ever looks at the last three records: whatever came
      before them does not change it. */
  lemma PreviousAttemptsWindow(earlier: seq<CorrectionAttempt>, recent: seq<CorrectionAttempt>)
    requires |recent| >= 3
    ensures PreviousAttempts(earlier + recent) == PreviousAttempts(recent)
  {
    var h := earlier + recent;
    assert h[|h| - 3..] == recent[|recent| - 3..];
    assert LastThree(h) == LastThree(recent);
  }

  /** When no error message spans several lines, the summary has one line per
      record of the last three, oldest first, each naming its attempt number. */
  lemma PreviousAttemptsLines(history: seq<CorrectionAttempt>)
    requires history != []
    requires forall i :: 0 <= i < |history| ==> '\n' !in OptionText(history[i].errorMessage)
    ensures var k := if |history| < 3 then |history| else 3;
            var lines := Split(PreviousAttempts(history), "\n");
            |lines| == k &&
            forall i :: 0 <= i < k ==> lines[i] == AttemptLine(history[|history| - k + i])
  {
    var recent := LastThree(history);
    var lines := AttemptLines(recent);
    forall i | 0 <= i < |lines| ensures '\n' !in lines[i] {
      AttemptLineSingle(recent[i]);
    }
    SplitJoin(lines, '\n');
    PreviousAttemptsNone(history);
    assert PreviousAttempts(history) == Join(lines, "\n");
  }

  /** A record whose error text has no line break gives a single summary line. */
  lemma AttemptLineSingle(a: CorrectionAttempt)
    requires '\n' !in OptionText(a.errorMessage)
    ensures '\n' !in AttemptLine(a)
  {
    var digits := NatToString(a.attemptNumber);
    assert forall i :: 0 <= i < |digits| ==> digits[i] != '\n';
  }

  /** The prompts sent to the language model. */
  datatype Prompt =
    | InitialPrompt(schema: string, question: string, plan: string)
    | CorrectionPrompt(schema: string, question: string, failedQuery: string,
                       errorMessage: string, previousAttempts: string)

  /** One request to the loop; the structured plan is kept as its JSON text. */
  datatype Request = Request(schema: string, question: string, plan: string)

  /** The collaborators: the configured database URL, the language model
      (called with the index of the call within the run, 0 for the initial
      generation) and the database (called with the attempt number). */
  datatype Oracles = Oracles(
    databaseUrl: Option<string>,
    llm: (nat, Prompt) -> string,
    db: (nat, string) -> DbOutcome)

  /** `generate_initial_sql`: the first call to the model, stripped. */
  function GenerateInitialSql(req: Request, o: Oracles): (r: string)
    ensures IsStripped(r)
  {
    StripResult(o.llm(0, InitialPrompt(req.schema, req.question, req.plan)));
    Strip(o.llm(0, InitialPrompt(req.schema, req.question, req.plan)))
  }

  /** `correct_sql`, as call number `callIndex` to the model: the prompt
      carries the failed query, its error and the summary of `history`; the
      answer is stripped.  The attempt number the source passes along is not
      used by it. */
  function CorrectedSql(req: Request, o: Oracles, callIndex: nat, failedQuery: string,
                        errorMessage: Option<string>, history: seq<CorrectionAttempt>): (r: string)
    ensures IsStripped(r)
  {
    StripResult(o.llm(callIndex, CorrectionPrompt(req.schema, req.question, failedQuery,
                                                  OptionText(errorMessage), PreviousAttempts(history))));
    Strip(o.llm(callIndex, CorrectionPrompt(req.schema, req.question, failedQuery,
                                            OptionText(errorMessage), PreviousAttempts(history))))
  }

  /** The loop's collaborators as the loop sees them: the initial query, the
      executor (attempt number and query) and the corrector (call index, failed
      query, its error, and the history so far). */
  datatype Steps = Steps(
    initialSql: string,
    execute: (nat, string) -> SqlExecutionResult,
    correct: (nat, string, Option<string>, seq<CorrectionAttempt>) -> string)

  /** What one run returns: the final query, whether it succeeded and the
      history, together with the number of calls made to the model. */
  datatype Run = Run(finalSql: string, success: bool, history: seq<CorrectionAttempt>, llmCalls: nat)

  /** The loop from attempt `attempt` on, with `sql` the query to execute
      next.  Before attempt `attempt` the model has been called `attempt`
      times: once for the initial query, once per correction. */
  function RunFrom(s: Steps, maxAttempts: int, attempt: nat, sql: string, history: seq<CorrectionAttempt>): (r: Run)
    ensures |history| <= |r.history| && r.history[..|history|] == history
    ensures |r.history| - |history| <= (if attempt <= maxAttempts then maxAttempts - attempt + 1 else 0)
    ensures attempt <= r.llmCalls
    decreases if attempt <= maxAttempts then maxAttempts - attempt + 1 else 0
  {
    if attempt > maxAttempts then Run(sql, false, history, attempt)
    else
      var result := s.execute(attempt, sql);
      var h := history + [CorrectionAttempt(attempt, sql, result.errorMessage, result.success)];
      if result.success then Run(sql, true, h, attempt)
      else if attempt < maxAttempts then
        RunFrom(s, maxAttempts, attempt + 1, s.correct(attempt, sql, result.errorMessage, h), h)
      else Run(sql, false, h, attempt)
  }

  /** The whole loop, starting from the initial query. */
  function Loop(s: Steps, maxAttempts: int): (r: Run)
    ensures |r.history| <= (if maxAttempts < 1 then 0 else maxAttempts) && 1 <= r.llmCalls
  {
    RunFrom(s, maxAttempts, 1, s.initialSql, [])
  }

  /** The query the loop executes after `history`: the initial one first, then
      the correction of the last failure. */
  function NextSql(s: Steps, history: seq<CorrectionAttempt>): string {
    if history == [] then s.initialSql
    else
      var last := history[|history| - 1];
      s.correct(|history|, last.sqlQuery, last.errorMessage, history)
  }

  /** `history` is what the collaborators produce: record `i` is attempt
      `i + 1`, it executed the query the loop had at that point, and its
      outcome is the executor's. */
  ghost predicate Replays(s: Steps, history: seq<CorrectionAttempt>) {
    forall i :: 0 <= i < |history| ==>
      history[i].attemptNumber == i + 1 &&
      history[i].sqlQuery == NextSql(s, history[..i]) &&
      history[i].success == s.execute(i + 1, history[i].sqlQuery).success &&
      history[i].errorMessage == s.execute(i + 1, history[i].sqlQuery).errorMessage
  }

  /** Every record but the last one failed. */
  predicate EarlierFailed(history: seq<CorrectionAttempt>) {
    forall i :: 0 <= i < |history| - 1 ==> !history[i].success
  }

  /** What a finished run looks like, for a budget of `maxAttempts`. */
  ghost predicate Finished(s: Steps, maxAttempts: int, r: Run) {
    var h := r.history;
    Replays(s, h) &&
    r.llmCalls == (if h == [] then 1 else |h|) &&
    |h| <= (if maxAttempts < 0 then 0 else maxAttempts) &&
    EarlierFailed(h) &&
    (r.success <==> h != [] && h[|h| - 1].success) &&
    (h != [] ==> r.finalSql == h[|h| - 1].sqlQuery) &&
    (h == [] ==> maxAttempts < 1 && r.finalSql == s.initialSql) &&
    (!r.success && maxAttempts >= 1 ==> |h| == maxAttempts)
  }

  /** Appending the record of the next attempt keeps a replayed history replayed. */
  lemma ReplaysStep(s: Steps, history: seq<CorrectionAttempt>, rec: CorrectionAttempt)
    requires Replays(s, history)
    requires rec.attemptNumber == |history| + 1 && rec.sqlQuery == NextSql(s, history)
    requires rec.success == s.execute(rec.attemptNumber, rec.sqlQuery).success
    requires rec.errorMessage == s.execute(rec.attemptNumber, rec.sqlQuery).errorMessage
    ensures Replays(s, history + [rec])
  {
    var h := history + [rec];
    forall i | 0 <= i < |h|
      ensures h[i].attemptNumber == i + 1 && h[i].sqlQuery == NextSql(s, h[..i])
    {
      if i < |history| {
        assert h[..i] == history[..i];
      } else {
        assert h[..i] == history;
      }
    }
  }

  /** From any point of a replayed, all-failed history the loop finishes in
      the shape `Finished` describes. */
  lemma {:induction false} RunFromFinishes(s: Steps, maxAttempts: int, attempt: nat, sql: string,
                                           history: seq<CorrectionAttempt>)
    requires attempt == |history| + 1
    requires Replays(s, history) && sql == NextSql(s, history)
    requires forall i :: 0 <= i < |history| ==> !history[i].success
    requires history == [] || attempt <= maxAttempts
    ensures Finished(s, maxAttempts, RunFrom(s, maxAttempts, attempt, sql, history))
    decreases if attempt <= maxAttempts then maxAttempts - attempt + 1 else 0
  {
    if attempt <= maxAttempts {
      var result := s.execute(attempt, sql);
      var rec := CorrectionAttempt(attempt, sql, result.errorMessage, result.success);
      var h := history + [rec];
      ReplaysStep(s, history, rec);
      if !result.success && attempt < maxAttempts {
        RunFromFinishes(s, maxAttempts, attempt + 1, s.correct(attempt, sql, result.errorMessage, h), h);
      }
    }
  }

  /** Every run finishes in the shape `Finished` describes. */
  lemma LoopFinishes(s: Steps, maxAttempts: int)
    ensures Finished(s, maxAttempts, Loop(s, maxAttempts))
  {
    RunFromFinishes(s, maxAttempts, 1, s.initialSql, []);
  }

  /** One record per executed attempt, numbered 1, 2, ... in order, each
      carrying the executor's verdict on its query, and never more records than
      the budget allows. */
  lemma HistoryNumbering(s: Steps, maxAttempts: int)
    ensures var h := Loop(s, maxAttempts).history;
            (|h| <= maxAttempts || h == []) &&
            forall i :: 0 <= i < |h| ==>
              h[i].attemptNumber == i + 1 &&
              h[i].success == s.execute(i + 1, h[i].sqlQuery).success &&
              h[i].errorMessage == s.execute(i + 1, h[i].sqlQuery).errorMessage
  {
    LoopFinishes(s, maxAttempts);
  }

  /** Success short-circuits: the run succeeds exactly when its last record
      does, every earlier record failed, and the returned query is the one that
      was executed last. */
  lemma SuccessShortCircuit(s: Steps, maxAttempts: int)
    ensures var r := Loop(s, maxAttempts);
            var h := r.history;
            (r.success <==> h != [] && h[|h| - 1].success) &&
            (forall i :: 0 <= i < |h| - 1 ==> !h[i].success) &&
            (h != [] ==> r.finalSql == h[|h| - 1].sqlQuery)
  {
    LoopFinishes(s, maxAttempts);
  }

  /** The first attempt executes the initial query and every later attempt
      the correction of the one before it; the model is called once for the
      initial query and once per correction, so never again after the final
      attempt. */
  lemma CorrectionChain(s: Steps, maxAttempts: int)
    ensures var r := Loop(s, maxAttempts);
            var h := r.history;
            r.llmCalls == (if h == [] then 1 else |h|) &&
            (h != [] ==> h[0].sqlQuery == s.initialSql) &&
            forall i :: 1 <= i < |h| ==>
              h[i].sqlQuery == s.correct(i, h[i - 1].sqlQuery, h[i - 1].errorMessage, h[..i])
  {
    var h := Loop(s, maxAttempts).history;
    LoopFinishes(s, maxAttempts);
    if h != [] {
      assert h[0].sqlQuery == NextSql(s, h[..0]);
    }
    forall i | 1 <= i < |h|
      ensures h[i].sqlQuery == s.correct(i, h[i - 1].sqlQuery, h[i - 1].errorMessage, h[..i])
    {
      assert h[i].sqlQuery == NextSql(s, h[..i]);
      assert h[..i][i - 1] == h[i - 1];
    }
  }

  /** Exhaustion: a failed run with a positive budget used all of it, every
      attempt failed, and it returns the query of its last record. */
  lemma Exhaustion(s: Steps, maxAttempts: int)
    requires maxAttempts >= 1
    ensures var r := Loop(s, maxAttempts);
            !r.success ==>
              |r.history| == maxAttempts && r.finalSql == r.history[maxAttempts - 1].sqlQuery &&
              forall i :: 0 <= i < maxAttempts ==> !r.history[i].success
  {
    LoopFinishes(s, maxAttempts);
  }

  /** With no budget the loop body never runs: the initial query comes back,
      unsuccessful, with an empty history. */
  lemma NoBudget(s: Steps, maxAttempts: int)
    requires maxAttempts <= 0
    ensures Loop(s, maxAttempts) == Run(s.initialSql, false, [], 1)
  {
  }

  /** The agent's own collaborators: `generate_initial_sql`, `execute_sql`
      against the database oracle, and `correct_sql`. */
  function AgentSteps(req: Request, o: Oracles): Steps {
    Steps(GenerateInitialSql(req, o),
          (attempt: nat, q: string) => ExecuteSql(o.databaseUrl, q, o.db(attempt, q)),
          (k: nat, q: string, e: Option<string>, h: seq<CorrectionAttempt>) => CorrectedSql(req, o, k, q, e, h))
  }

  /** `generate_with_correction`, as a function of the request and the oracles. */
  function CorrectionRun(req: Request, o: Oracles, maxAttempts: int): Run {
    Loop(AgentSteps(req, o), maxAttempts)
  }

  /** Each correction prompt carries the query that just failed, its error
      text ("None" when absent) and the summary of the history that already
      holds that failure; each attempt after the first executes the stripped
      answer to it. */
  lemma CorrectionPrompts(req: Request, o: Oracles, maxAttempts: int)
    ensures var h := CorrectionRun(req, o, maxAttempts).history;
            (h != [] ==> h[0].sqlQuery == GenerateInitialSql(req, o)) &&
            forall i :: 1 <= i < |h| ==>
              h[i].sqlQuery == CorrectedSql(req, o, i, h[i - 1].sqlQuery, h[i - 1].errorMessage, h[..i])
  {
    var s := AgentSteps(req, o);
    var h := Loop(s, maxAttempts).history;
    CorrectionChain(s, maxAttempts);
    forall i | 1 <= i < |h|
      ensures h[i].sqlQuery == CorrectedSql(req, o, i, h[i - 1].sqlQuery, h[i - 1].errorMessage, h[..i])
    {
      assert s.correct(i, h[i - 1].sqlQuery, h[i - 1].errorMessage, h[..i])
          == CorrectedSql(req, o, i, h[i - 1].sqlQuery, h[i - 1].errorMessage, h[..i]);
    }
  }

  /** Without a configured database every attempt fails with the no-database
      message, so the whole budget is consumed. */
  lemma NoDatabaseConsumesBudget(req: Request, o: Oracles, maxAttempts: int)
    requires !DatabaseConfigured(o.databaseUrl)
    ensures var r := CorrectionRun(req, o, maxAttempts);
            !r.success &&
            |r.history| == (if maxAttempts < 0 then 0 else maxAttempts) &&
            forall i :: 0 <= i < |r.history| ==> r.history[i].errorMessage == Some(NoDatabaseMessage)
  {
    var s := AgentSteps(req, o);
    var h := Loop(s, maxAttempts).history;
    LoopFinishes(s, maxAttempts);
    forall i | 0 <= i < |h|
      ensures !h[i].success && h[i].errorMessage == Some(NoDatabaseMessage)
    {
      var res := ExecuteSql(o.databaseUrl, h[i].sqlQuery, o.db(i + 1, h[i].sqlQuery));
      assert s.execute(i + 1, h[i].sqlQuery) == res;
    }
  }

  /** The agent: its budget and the history of its latest run.  `llmCalls`
      counts the calls it has made to the language model. */
  class SelfCorrectingAgent {
    const maxAttempts: int
    var correctionHistory: seq<CorrectionAttempt>
    ghost var llmCalls: nat

    constructor (maxAttempts: int)
      ensures this.maxAttempts == maxAttempts && correctionHistory == [] && llmCalls == 0
    {
      this.maxAttempts := maxAttempts;
      correctionHistory := [];
      llmCalls := 0;
    }

    /** `correct_sql`: one call to the model, whose prompt summarises the
        agent's own history.  `callIndex` numbers this call within the run. */
    method CorrectSql(req: Request, o: Oracles, failedQuery: string, errorMessage: Option<string>, callIndex: nat)
      returns (corrected: string)
      modifies this
      ensures corrected == CorrectedSql(req, o, callIndex, failedQuery, errorMessage, correctionHistory)
      ensures correctionHistory == old(correctionHistory) && llmCalls == old(llmCalls) + 1
    {
      corrected := CorrectedSql(req, o, callIndex, failedQuery, errorMessage, correctionHistory);
      llmCalls := llmCalls + 1;
    }

    /** `generate_with_correction`: the history is reset, then each attempt is
        executed, recorded and, unless it succeeded or was the last, corrected. */
    method GenerateWithCorrection(req: Request, o: Oracles)
      returns (finalSql: string, success: bool, history: seq<CorrectionAttempt>)
      modifies this
      ensures var r := CorrectionRun(req, o, maxAttempts);
              finalSql == r.finalSql && success == r.success && history == r.history &&
              llmCalls == old(llmCalls) + r.llmCalls
      ensures correctionHistory == history
    {
      ghost var s := AgentSteps(req, o);
      correctionHistory := [];
      var currentSql := GenerateInitialSql(req, o);
      llmCalls := llmCalls + 1;
      var attempt: nat := 1;
      while attempt <= maxAttempts
        invariant 1 <= attempt
        invariant llmCalls == old(llmCalls) + attempt
        invariant RunFrom(s, maxAttempts, attempt, currentSql, correctionHistory) == CorrectionRun(req, o, maxAttempts)
        decreases maxAttempts - attempt
      {
        var result := ExecuteSql(o.databaseUrl, currentSql, o.db(attempt, currentSql));
        assert s.execute(attempt, currentSql) == result;
        correctionHistory := correctionHistory + [CorrectionAttempt(attempt, currentSql, result.errorMessage, result.success)];
        if result.success {
          return currentSql, true, correctionHistory;
        }
        if attempt == maxAttempts {
          return currentSql, false, correctionHistory;
        }
        currentSql := CorrectSql(req, o, currentSql, result.errorMessage, attempt);
        attempt := attempt + 1;
      }
      return currentSql, false, correctionHistory;
    }
  }
}

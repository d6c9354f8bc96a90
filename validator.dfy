/** SQL validation (db/validator.py): the fixed list of dangerous keyword
    patterns, the safety check that searches for them, and the chain of guarded
    returns in `validate_sql_query` in front of the database check.  The database
    is an oracle: a function from the engine and the query to the outcome. */
module Validator {
  import opened Wrappers
  import opened Strings
  import opened Config

  /** A dangerous pattern: `\bFIRST\s+SECOND\b` or `\bWORD\b`. */
  datatype Pattern = KeywordPair(first: string, second: string) | Keyword(word: string)

  /** `DANGEROUS_PATTERNS`, in list order. */
  const DangerousPatterns: seq<Pattern> := [
    KeywordPair("DROP", "TABLE"),
    KeywordPair("DELETE", "FROM"),
    KeywordPair("TRUNCATE", "TABLE"),
    KeywordPair("INSERT", "INTO"),
    KeywordPair("UPDATE", "SET"),
    KeywordPair("ALTER", "TABLE"),
    KeywordPair("CREATE", "TABLE"),
    Keyword("GRANT"),
    Keyword("REVOKE")
  ]

  /** The pattern's text as written in the list; the safety message quotes it. */
  function PatternSource(p: Pattern): string {
    match p
    case KeywordPair(a, b) => "\\b" + a + "\\s+" + b + "\\b"
    case Keyword(w) => "\\b" + w + "\\b"
  }

  /** A keyword of a pattern: one or more capital ASCII letters. */
  predicate IsKeyword(w: string) {
    |w| >= 1 && forall i :: 0 <= i < |w| ==> 'A' <= w[i] <= 'Z'
  }

  predicate WellFormed(p: Pattern) {
    match p
    case KeywordPair(a, b) => IsKeyword(a) && IsKeyword(b)
    case Keyword(w) => IsKeyword(w)
  }

  predicate WordAt(t: string, i: nat, w: string) {
    i + |w| <= |t| && t[i..i + |w|] == w
  }

  /** `\b` in front of a word character at `i`. */
  predicate BoundaryBefore(t: string, i: nat)
    requires i <= |t|
  {
    i == 0 || !IsWordChar(t[i - 1])
  }

  /** `\b` behind a word character that ends at `j`. */
  predicate BoundaryAfter(t: string, j: nat)
    requires j <= |t|
  {
    j == |t| || !IsWordChar(t[j])
  }

  /** The matcher's test at position `i`: `\s+` takes the whole whitespace run,
      which is the only way the second keyword (a letter) can follow it. */
  predicate MatchesAt(t: string, i: nat, p: Pattern) {
    match p
    case Keyword(w) =>
      WordAt(t, i, w) && BoundaryBefore(t, i) && BoundaryAfter(t, i + |w|)
    case KeywordPair(a, b) =>
      WordAt(t, i, a) && BoundaryBefore(t, i) &&
      var k := SpaceRun(t, i + |a|);
      k >= 1 && WordAt(t, i + |a| + k, b) && BoundaryAfter(t, i + |a| + k + |b|)
  }

  /** The meaning of `\bA\s+B\b` matching at `i` with `k` whitespace characters in between. */
  ghost predicate PairMatchWith(t: string, i: nat, a: string, b: string, k: nat) {
    WordAt(t, i, a) && BoundaryBefore(t, i) && k >= 1 && i + |a| + k <= |t| &&
    (forall m :: i + |a| <= m < i + |a| + k ==> IsSpace(t[m])) &&
    WordAt(t, i + |a| + k, b) && BoundaryAfter(t, i + |a| + k + |b|)
  }

  /** The regular expression's own meaning: some match starts at `i`. */
  ghost predicate RegexMatchAt(t: string, i: nat, p: Pattern) {
    match p
    case Keyword(w) =>
      WordAt(t, i, w) && BoundaryBefore(t, i) && BoundaryAfter(t, i + |w|)
    case KeywordPair(a, b) =>
      exists k: nat :: PairMatchWith(t, i, a, b, k)
  }

  /** `re.search(pattern, t)` finds a match. */
  ghost predicate RegexSearch(t: string, p: Pattern) {
    exists i: nat :: i <= |t| && RegexMatchAt(t, i, p)
  }

  /** A whitespace run found by the matcher is a witness for the regular expression. */
  lemma PairMatchFound(t: string, i: nat, a: string, b: string)
    requires MatchesAt(t, i, KeywordPair(a, b))
    ensures PairMatchWith(t, i, a, b, SpaceRun(t, i + |a|))
  {
    var j := i + |a|;
    var k := SpaceRun(t, j);
    SpaceRunSpec(t, j);
    assert WordAt(t, i, a) && BoundaryBefore(t, i) && k >= 1 && j + k <= |t|;
    assert WordAt(t, j + k, b) && BoundaryAfter(t, j + k + |b|);
  }

  /** Any witness of the regular expression is the whole whitespace run. */
  lemma PairMatchIsWholeRun(t: string, i: nat, a: string, b: string, k: nat)
    requires IsKeyword(b)
    requires PairMatchWith(t, i, a, b, k)
    ensures SpaceRun(t, i + |a|) == k
  {
    var j := i + |a|;
    assert t[j + k] == t[j + k..j + k + |b|][0] == b[0];
    SpaceRunIs(t, j, k);
  }

  /** For a well-formed pattern the matcher's test is exactly the regular
      expression's meaning: taking the whole whitespace run loses no match. */
  lemma MatchesAtIsRegex(t: string, i: nat, p: Pattern)
    requires WellFormed(p)
    ensures MatchesAt(t, i, p) <==> RegexMatchAt(t, i, p)
  {
    match p
    case Keyword(_) =>
    case KeywordPair(a, b) =>
      if MatchesAt(t, i, p) {
        PairMatchFound(t, i, a, b);
      }
      if RegexMatchAt(t, i, p) {
        PairRegexMatches(t, i, a, b);
      }
  }

  /** A match of the regular expression passes the matcher's test. */
  lemma PairRegexMatches(t: string, i: nat, a: string, b: string)
    requires IsKeyword(b)
    requires RegexMatchAt(t, i, KeywordPair(a, b))
    ensures MatchesAt(t, i, KeywordPair(a, b))
  {
    var k: nat :| PairMatchWith(t, i, a, b, k);
    PairMatchIsWholeRun(t, i, a, b, k);
  }

  /** The scan of `re.search`: is there a match starting at `i` or later? */
  function SearchFrom(t: string, p: Pattern, i: nat): bool
    requires i <= |t| + 1
    decreases |t| + 1 - i
  {
    if i > |t| then false
    else MatchesAt(t, i, p) || SearchFrom(t, p, i + 1)
  }

  function Search(t: string, p: Pattern): bool {
    SearchFrom(t, p, 0)
  }

  /** The scan succeeds exactly when the matcher's test holds at some position from `i` on. */
  lemma {:induction false} SearchFromFinds(t: string, p: Pattern, i: nat)
    requires i <= |t| + 1
    ensures SearchFrom(t, p, i) <==> exists j: nat :: i <= j <= |t| && MatchesAt(t, j, p)
    decreases |t| + 1 - i
  {
    if i <= |t| {
      SearchFromFinds(t, p, i + 1);
    }
  }

  /** The scan finds a match exactly when the regular expression has one. */
  lemma SearchIsRegex(t: string, p: Pattern)
    requires WellFormed(p)
    ensures Search(t, p) <==> RegexSearch(t, p)
  {
    SearchFromFinds(t, p, 0);
    if Search(t, p) {
      var j: nat :| j <= |t| && MatchesAt(t, j, p);
      MatchesAtIsRegex(t, j, p);
    }
    if RegexSearch(t, p) {
      var j: nat :| j <= |t| && RegexMatchAt(t, j, p);
      MatchesAtIsRegex(t, j, p);
    }
  }

  /** The index of the first pattern, from `from` on, that the text matches. */
  function FirstMatchFrom(t: string, ps: seq<Pattern>, from: nat): Option<nat>
    requires from <= |ps|
    decreases |ps| - from
  {
    if from == |ps| then None
    else if Search(t, ps[from]) then Some(from)
    else FirstMatchFrom(t, ps, from + 1)
  }

  /** `FirstMatchFrom` returns the first matching index, or nothing when no pattern matches. */
  lemma {:induction false} FirstMatchFromIsFirst(t: string, ps: seq<Pattern>, from: nat)
    requires from <= |ps|
    ensures FirstMatchFrom(t, ps, from).Some? ==>
      var j := FirstMatchFrom(t, ps, from).value;
      from <= j < |ps| && Search(t, ps[j]) && forall j' :: from <= j' < j ==> !Search(t, ps[j'])
    ensures FirstMatchFrom(t, ps, from).None? ==> forall j :: from <= j < |ps| ==> !Search(t, ps[j])
    decreases |ps| - from
  {
    if from < |ps| && !Search(t, ps[from]) {
      FirstMatchFromIsFirst(t, ps, from + 1);
    }
  }

  const UnsafePrefix: string := "Query contains potentially dangerous operation: "
  const SafeMessage: string := "Query passed safety check"

  /** `is_safe_query` */
  function IsSafeQuery(sqlQuery: string): (r: (bool, string))
    ensures r.0 <==> r.1 == SafeMessage
    ensures !r.0 ==> StartsWith(r.1, UnsafePrefix)
  {
    var t := Upper(sqlQuery);
    match FirstMatchFrom(t, DangerousPatterns, 0)
    case Some(j) => (false, UnsafePrefix + PatternSource(DangerousPatterns[j]))
    case None => (true, SafeMessage)
  }

  lemma DangerousPatternsWellFormed()
    ensures forall j :: 0 <= j < |DangerousPatterns| ==> WellFormed(DangerousPatterns[j])
  {
  }

  /** A query is safe exactly when none of the listed regular expressions is
      found in its upper-cased text; otherwise the message quotes the first
      pattern, in list order, that is found. */
  lemma IsSafeQueryMeaning(sqlQuery: string)
    ensures IsSafeQuery(sqlQuery).0 <==>
      forall j :: 0 <= j < |DangerousPatterns| ==> !RegexSearch(Upper(sqlQuery), DangerousPatterns[j])
    ensures !IsSafeQuery(sqlQuery).0 ==>
      exists j :: 0 <= j < |DangerousPatterns| &&
        RegexSearch(Upper(sqlQuery), DangerousPatterns[j]) &&
        (forall j' :: 0 <= j' < j ==> !RegexSearch(Upper(sqlQuery), DangerousPatterns[j'])) &&
        IsSafeQuery(sqlQuery).1 == UnsafePrefix + PatternSource(DangerousPatterns[j])
    ensures IsSafeQuery(sqlQuery).0 ==> IsSafeQuery(sqlQuery).1 == SafeMessage
  {
    var t := Upper(sqlQuery);
    DangerousPatternsWellFormed();
    FirstMatchFromIsFirst(t, DangerousPatterns, 0);
    forall j | 0 <= j < |DangerousPatterns|
      ensures Search(t, DangerousPatterns[j]) <==> RegexSearch(t, DangerousPatterns[j])
    {
      SearchIsRegex(t, DangerousPatterns[j]);
    }
  }

  /** The safety result is decided by the first listed pattern that is found. */
  lemma IsSafeQueryFirstFound(sqlQuery: string, j: nat)
    requires j < |DangerousPatterns| && Search(Upper(sqlQuery), DangerousPatterns[j])
    requires forall j' :: 0 <= j' < j ==> !Search(Upper(sqlQuery), DangerousPatterns[j'])
    ensures IsSafeQuery(sqlQuery) == (false, UnsafePrefix + PatternSource(DangerousPatterns[j]))
  {
    FirstMatchFromIsFirst(Upper(sqlQuery), DangerousPatterns, 0);
  }

  /** A pair pattern is not found from `i` on when its first letter does not occur there. */
  lemma {:induction false} SearchNeedsFirstLetter(t: string, a: string, b: string, i: nat)
    requires |a| >= 1 && i <= |t| + 1
    requires forall j :: i <= j < |t| ==> t[j] != a[0]
    ensures !SearchFrom(t, KeywordPair(a, b), i)
    decreases |t| + 1 - i
  {
    if i <= |t| {
      SearchNeedsFirstLetter(t, a, b, i + 1);
    }
  }

  /** Example: `\bUPDATE\s+SET\b` needs SET right after UPDATE, so the usual
      `UPDATE <table> SET` form is not found by it. */
  lemma UpdatePatternExample()
    ensures !Search("UPDATE T SET", KeywordPair("UPDATE", "SET"))
  {
    var t := "UPDATE T SET";
    assert SpaceRun(t, 7) == 0;
    assert SpaceRun(t, 6) == 1;
    assert !MatchesAt(t, 0, KeywordPair("UPDATE", "SET"));
    SearchNeedsFirstLetter(t, "UPDATE", "SET", 1);
  }

  /** The outcome of running a query on the validation engine (an oracle). */
  datatype SyntaxOutcome =
    | Executed
    | SqlAlchemyFailure(text: string)
    | OtherFailure(text: string)

  /** A validation engine, created for a configured URL. */
  datatype Engine = Engine(url: string)

  /** `get_validation_engine`: no engine for an unconfigured URL, nor when
      creating the engine raises. */
  function GetValidationEngine(databaseUrl: Option<string>, creationFails: bool): (r: Option<Engine>)
    ensures r.Some? <==> DatabaseConfigured(databaseUrl) && !creationFails
    ensures r.Some? ==> r.value.url == databaseUrl.value
  {
    if !DatabaseConfigured(databaseUrl) then None
    else if creationFails then None
    else Some(Engine(databaseUrl.value))
  }

  /** The text up to the first newline: `text.split('\n')[0]`. */
  function FirstLine(text: string): (r: string)
    ensures '\n' !in r
    ensures StartsWith(text, r)
    ensures |r| == |text| || text[|r|] == '\n'
  {
    var parts := Split(text, "\n");
    SplitPiecesWithout(text, '\n');
    JoinSplit(text, "\n");
    JoinStartsWithFirst(parts, "\n");
    parts[0]
  }

  lemma JoinStartsWithFirst(parts: seq<string>, sep: string)
    requires |parts| >= 1
    ensures StartsWith(Join(parts, sep), parts[0])
  {
  }

  const NoDatabaseForValidation: string := "No database configured for validation"
  const SyntaxOkMessage: string := "SQL syntax validation successful"
  const SkippedMessage: string := "Safety check passed (database validation skipped)"
  const EmptyQueryMessage: string := "Empty query provided"

  /** `validate_sql_syntax`, with the engine passed in and the database an oracle. */
  function ValidateSqlSyntax(sqlQuery: string, engine: Option<Engine>,
                             execute: (Engine, string) -> SyntaxOutcome): (r: (bool, string))
    ensures engine.None? ==> r == (false, NoDatabaseForValidation)
    ensures r.0 <==> engine.Some? && execute(engine.value, sqlQuery).Executed?
    ensures r.0 ==> r.1 == SyntaxOkMessage
    ensures engine.Some? && execute(engine.value, sqlQuery).SqlAlchemyFailure? ==>
              r.1 == "SQL syntax error: " + FirstLine(execute(engine.value, sqlQuery).text)
    ensures engine.Some? && execute(engine.value, sqlQuery).OtherFailure? ==>
              r.1 == "Validation error: " + execute(engine.value, sqlQuery).text
  {
    match engine
    case None => (false, NoDatabaseForValidation)
    case Some(e) =>
      match execute(e, sqlQuery)
      case Executed => (true, SyntaxOkMessage)
      case SqlAlchemyFailure(text) => (false, "SQL syntax error: " + FirstLine(text))
      case OtherFailure(text) => (false, "Validation error: " + text)
  }

  /** `sql_query.strip().rstrip(';')` */
  function NormalizeQuery(sqlQuery: string): (r: string)
    ensures r == [] || r[|r| - 1] != ';'
    ensures StartsWith(Strip(sqlQuery), r)
    ensures forall i :: |r| <= i < |Strip(sqlQuery)| ==> Strip(sqlQuery)[i] == ';'
  {
    StripRightChar(Strip(sqlQuery), ';')
  }

  /** An absent, empty or all-whitespace query. */
  predicate IsBlank(sqlQuery: Option<string>) {
    sqlQuery.None? || sqlQuery.value == "" || Strip(sqlQuery.value) == ""
  }

  /** `validate_sql_query`: blank input is refused; then the query is normalised,
      checked for dangerous patterns and only then, if an engine exists, run. */
  function ValidateSqlQuery(sqlQuery: Option<string>, engine: Option<Engine>,
                            execute: (Engine, string) -> SyntaxOutcome): (r: (bool, string))
    ensures IsBlank(sqlQuery) ==> r == (false, EmptyQueryMessage)
    ensures !IsBlank(sqlQuery) && !IsSafeQuery(NormalizeQuery(sqlQuery.value)).0 ==>
              r == IsSafeQuery(NormalizeQuery(sqlQuery.value))
    ensures r.0 ==> !IsBlank(sqlQuery) && IsSafeQuery(NormalizeQuery(sqlQuery.value)).0
    ensures r.0 <==> !IsBlank(sqlQuery) && IsSafeQuery(NormalizeQuery(sqlQuery.value)).0 &&
                     (engine.None? || execute(engine.value, NormalizeQuery(sqlQuery.value)).Executed?)
    ensures !IsBlank(sqlQuery) && IsSafeQuery(NormalizeQuery(sqlQuery.value)).0 ==>
              r == (if engine.None? then (true, SkippedMessage)
                    else ValidateSqlSyntax(NormalizeQuery(sqlQuery.value), engine, execute))
  {
    if IsBlank(sqlQuery) then (false, EmptyQueryMessage)
    else
      var q := NormalizeQuery(sqlQuery.value);
      var (isSafe, safetyMessage) := IsSafeQuery(q);
      if !isSafe then (false, safetyMessage)
      else if engine.None? then (true, SkippedMessage)
      else ValidateSqlSyntax(q, engine, execute)
  }

  /** The database is consulted only for a non-blank, safe query with an engine:
      otherwise any two database oracles give the same verdict. */
  lemma DatabaseConsultedOnlyWhenSafe(sqlQuery: Option<string>, engine: Option<Engine>,
                                      f: (Engine, string) -> SyntaxOutcome,
                                      g: (Engine, string) -> SyntaxOutcome)
    requires IsBlank(sqlQuery) || engine.None? || !IsSafeQuery(NormalizeQuery(sqlQuery.value)).0
    ensures ValidateSqlQuery(sqlQuery, engine, f) == ValidateSqlQuery(sqlQuery, engine, g)
  {
  }

  /** The safety messages are never as long as the missing-database message. */
  lemma SafetyMessageLength(q: string)
    ensures |IsSafeQuery(q).1| != |NoDatabaseForValidation|
  {
  }

  /** Without an engine a safe query is accepted with the "skipped" message, so
      the full validation never reports the missing database the way
      `validate_sql_syntax` on its own does. */
  lemma NoEngineMessages(sqlQuery: Option<string>, execute: (Engine, string) -> SyntaxOutcome)
    ensures ValidateSqlQuery(sqlQuery, None, execute).1 != NoDatabaseForValidation
    ensures !IsBlank(sqlQuery) && IsSafeQuery(NormalizeQuery(sqlQuery.value)).0 ==>
              ValidateSqlQuery(sqlQuery, None, execute) == (true, SkippedMessage)
    ensures ValidateSqlSyntax(NormalizeQuery(sqlQuery.GetOr("")), None, execute) == (false, NoDatabaseForValidation)
  {
    if !IsBlank(sqlQuery) {
      SafetyMessageLength(NormalizeQuery(sqlQuery.value));
    }
  }
}

/** The schema chunker and the retrieval state (db/schema_rag.py).  The DDL
    scan is a hand-written matcher for the one table pattern and the one column
    pattern the parser uses; the vector store is the list of chunks it holds,
    and similarity search is an oracle returning scored chunks. */
module SchemaRetrieval {
  import opened Wrappers
  import opened Strings

  /** One parsed column definition. */
  datatype Column = Column(name: string, colType: string, constraints: string)

  /** One match of the table scan: the table name, and the text between the
      opening parenthesis and the first `);`. */
  datatype TableMatch = TableMatch(name: string, body: string)

  datatype Metadata = Metadata(tableName: string, columnCount: nat, columns: seq<string>, fullDefinition: string)

  /** A `Document`: the searchable summary and its metadata. */
  datatype Chunk = Chunk(pageContent: string, metadata: Metadata)

  const CreateTable: string := "CREATE TABLE"

  predicate IsWord(w: string) {
    w != [] && forall i :: 0 <= i < |w| ==> IsWordChar(w[i])
  }

  predicate AllSpace(w: string) {
    forall i :: 0 <= i < |w| ==> IsSpace(w[i])
  }

  /** `);` at position `k`. */
  predicate CloseAt(t: string, k: int) {
    0 <= k && k + 1 < |t| && t[k] == ')' && t[k + 1] == ';'
  }

  /** `t` holds no `);`. */
  predicate NoClose(t: string) {
    forall k :: 0 <= k < |t| ==> !CloseAt(t, k)
  }

  /** The first `);` at or after `j`: where the lazy `(.*?)\);` stops. */
  function FindClose(t: string, j: nat): (r: Option<nat>)
    ensures r.Some? ==> j <= r.value && CloseAt(t, r.value) && forall k :: j <= k < r.value ==> !CloseAt(t, k)
    ensures r.None? ==> forall k :: j <= k ==> !CloseAt(t, k)
    decreases |t| - j
  {
    if j + 1 >= |t| then None
    else if CloseAt(t, j) then Some(j)
    else FindClose(t, j + 1)
  }

  /** `CREATE TABLE` at `p`, in any letter case. */
  predicate KeywordAt(t: string, p: nat) {
    p + |CreateTable| <= |t| && Upper(t[p..p + |CreateTable|]) == CreateTable
  }

  /** The match of `CREATE TABLE\s+(\w+)\s*\((.*?)\);` (ignoring case, `.`
      matching line breaks) that starts at `p`, with the position behind it.
      `\s+` has to take the whole whitespace run for a word to follow, `\w+`
      the whole word for `\s*\(` to follow, and the lazy body ends at the
      first `);`. */
  function TableAt(t: string, p: nat): (r: Option<(TableMatch, nat)>)
    requires p <= |t|
    ensures r.Some? ==> p < r.value.1 <= |t|
  {
    if p + |CreateTable| > |t| || !KeywordAt(t, p) then None
    else
      var q := p + |CreateTable|;
      var a := q + SpaceRun(t, q);
      var b := a + WordRun(t, a);
      var o := b + SpaceRun(t, b);
      if a == q || b == a || o == |t| || t[o] != '(' then None
      else BodyAt(t, a, b, o)
  }

  /** The lazy body behind the `(` at `o`, for the name from `a` to `b`. */
  function BodyAt(t: string, a: nat, b: nat, o: nat): (r: Option<(TableMatch, nat)>)
    requires a <= b <= o < |t|
    ensures r.Some? ==> o < r.value.1 <= |t|
  {
    match FindClose(t, o + 1)
    case None => None
    case Some(c) => Some((TableMatch(t[a..b], t[o + 1..c]), c + 2))
  }

  /** `re.findall` of the table pattern from `p` on: after a match the scan
      resumes behind it, otherwise one character further. */
  function FindTablesFrom(t: string, p: nat): seq<TableMatch>
    requires p <= |t|
    decreases |t| - p
  {
    if p == |t| then []
    else
      match TableAt(t, p)
      case None => FindTablesFrom(t, p + 1)
      case Some((m, e)) => [m] + FindTablesFrom(t, e)
  }

  function FindTables(t: string): seq<TableMatch> {
    FindTablesFrom(t, 0)
  }

  /** The pattern's own reading of a match at `p`: the keyword, a non-empty
      whitespace run, a word, optional whitespace, `(`, a body holding no
      `);`, and `);`. */
  ghost predicate TableMatchWith(t: string, p: nat, ws1: string, name: string, ws2: string, body: string) {
    KeywordAt(t, p) && ws1 != [] && AllSpace(ws1) && IsWord(name) && AllSpace(ws2) && NoClose(body) &&
    StartsWith(t[p + |CreateTable|..], ws1 + name + ws2 + "(" + body + ");")
  }

  /** The length of a match read as `TableMatchWith` describes it. */
  function MatchLength(ws1: string, name: string, ws2: string, body: string): nat {
    |CreateTable| + |ws1| + |name| + |ws2| + 1 + |body| + 2
  }

  /** `u` occurs in `t` at `x`, character by character. */
  lemma OccursAt(t: string, x: nat, u: string)
    requires x <= |t| && StartsWith(t[x..], u)
    ensures x + |u| <= |t| && forall i :: 0 <= i < |u| ==> t[x + i] == u[i]
  {
    forall i | 0 <= i < |u| ensures t[x + i] == u[i] {
      assert t[x..][..|u|][i] == u[i];
    }
  }

  /** The runs the scanner measures behind the keyword are exactly the parts
      the pattern reads there. */
  lemma HeaderRuns(t: string, q: nat, ws1: string, name: string, ws2: string)
    requires q + |ws1| + |name| + |ws2| < |t|
    requires forall i :: 0 <= i < |ws1| ==> t[q + i] == ws1[i]
    requires forall i :: 0 <= i < |name| ==> t[q + |ws1| + i] == name[i]
    requires forall i :: 0 <= i < |ws2| ==> t[q + |ws1| + |name| + i] == ws2[i]
    requires t[q + |ws1| + |name| + |ws2|] == '('
    requires AllSpace(ws1) && IsWord(name) && AllSpace(ws2)
    ensures SpaceRun(t, q) == |ws1|
    ensures WordRun(t, q + |ws1|) == |name|
    ensures SpaceRun(t, q + |ws1| + |name|) == |ws2|
    ensures t[q + |ws1|..q + |ws1| + |name|] == name
  {
    var a := q + |ws1|;
    var b := a + |name|;
    assert t[a] == name[0];
    forall i | q <= i < a ensures IsSpace(t[i]) {
      assert t[q + (i - q)] == ws1[i - q];
    }
    SpaceRunIs(t, q, |ws1|);
    forall i | a <= i < b ensures IsWordChar(t[i]) {
      assert t[a + (i - a)] == name[i - a];
    }
    if ws2 != [] {
      assert t[b + 0] == ws2[0];
    }
    WordRunIs(t, a, |name|);
    forall i | b <= i < b + |ws2| ensures IsSpace(t[i]) {
      assert t[b + (i - b)] == ws2[i - b];
    }
    SpaceRunIs(t, b, |ws2|);
    assert t[a..b] == name;
  }

  /** The first `);` behind a body without one is the one that ends it. */
  lemma BodyClose(t: string, j: nat, body: string)
    requires j + |body| + 2 <= |t|
    requires forall i :: 0 <= i < |body| ==> t[j + i] == body[i]
    requires t[j + |body|] == ')' && t[j + |body| + 1] == ';'
    requires NoClose(body)
    ensures FindClose(t, j) == Some(j + |body|)
    ensures t[j..j + |body|] == body
  {
    var c := j + |body|;
    forall k | j <= k < c ensures !CloseAt(t, k) {
      assert t[j + (k - j)] == body[k - j];
      if k + 1 < c {
        assert t[j + (k + 1 - j)] == body[k + 1 - j];
        assert !CloseAt(body, k - j);
      }
    }
    assert CloseAt(t, c);
  }

  /** An occurrence of `x + y` is an occurrence of `x`. */
  lemma OccursPrefix(t: string, p: nat, x: string, y: string)
    requires p + |x| + |y| <= |t|
    requires forall i :: 0 <= i < |x + y| ==> t[p + i] == (x + y)[i]
    ensures forall i :: 0 <= i < |x| ==> t[p + i] == x[i]
  {
    forall i | 0 <= i < |x| ensures t[p + i] == x[i] {
      assert (x + y)[i] == x[i];
    }
  }

  /** An occurrence of `x + y` holds an occurrence of `y` behind `x`. */
  lemma OccursSuffix(t: string, p: nat, x: string, y: string)
    requires p + |x| + |y| <= |t|
    requires forall i :: 0 <= i < |x + y| ==> t[p + i] == (x + y)[i]
    ensures forall i :: 0 <= i < |y| ==> t[p + |x| + i] == y[i]
  {
    forall i | 0 <= i < |y| ensures t[p + |x| + i] == y[i] {
      assert (x + y)[|x| + i] == y[i];
    }
  }

  /** The scanner's result at `p` once the positions it reaches are known:
      the name runs from `a` to `b`, `(` sits at `o`, and `c` is the close. */
  lemma TableAtIs(t: string, p: nat, a: nat, b: nat, o: nat, c: nat, name: string, body: string)
    requires KeywordAt(t, p)
    requires p + |CreateTable| < a < b <= o < |t|
    requires SpaceRun(t, p + |CreateTable|) == a - (p + |CreateTable|)
    requires WordRun(t, a) == b - a
    requires SpaceRun(t, b) == o - b
    requires t[o] == '('
    requires FindClose(t, o + 1) == Some(c)
    requires t[a..b] == name && t[o + 1..c] == body
    ensures TableAt(t, p) == Some((TableMatch(name, body), c + 2))
  {
    assert BodyAt(t, a, b, o) == Some((TableMatch(name, body), c + 2));
  }

  /** Behind the keyword of a pattern match at `p` (from `q`), the scanner's
      runs end where the pattern's whitespace, name and whitespace end (at `a`,
      `b` and `o`), and `(` follows. */
  lemma CompleteHeader(t: string, p: nat, ws1: string, name: string, ws2: string, body: string,
                       q: nat, a: nat, b: nat, o: nat)
    requires p <= |t| && TableMatchWith(t, p, ws1, name, ws2, body)
    requires q == p + |CreateTable| && a == q + |ws1| && b == a + |name| && o == b + |ws2|
    ensures o < |t| && SpaceRun(t, q) == a - q && WordRun(t, a) == b - a && SpaceRun(t, b) == o - b
    ensures t[o] == '(' && t[a..b] == name
  {
    var head := ws1 + name + ws2 + "(";
    var u := head + body + ");";
    OccursAt(t, q, u);
    OccursPrefix(t, q, head + body, ");");
    OccursPrefix(t, q, head, body);
    OccursSuffix(t, q, ws1 + name + ws2, "(");
    OccursPrefix(t, q, ws1 + name + ws2, "(");
    OccursSuffix(t, q, ws1 + name, ws2);
    OccursPrefix(t, q, ws1 + name, ws2);
    OccursSuffix(t, q, ws1, name);
    OccursPrefix(t, q, ws1, name);
    assert t[o + 0] == "("[0];
    HeaderRuns(t, q, ws1, name, ws2);
  }

  /** Behind the `(` of a pattern match at `p` (at `o`), the first `);` is the
      one that ends the pattern's body (at `c`). */
  lemma CompleteBody(t: string, p: nat, ws1: string, name: string, ws2: string, body: string,
                     q: nat, o: nat, c: nat)
    requires p <= |t| && TableMatchWith(t, p, ws1, name, ws2, body)
    requires q == p + |CreateTable| && o == q + |ws1| + |name| + |ws2| && c == o + 1 + |body|
    ensures c + 2 <= |t| && FindClose(t, o + 1) == Some(c) && t[o + 1..c] == body
  {
    var head := ws1 + name + ws2 + "(";
    var u := head + body + ");";
    OccursAt(t, q, u);
    OccursSuffix(t, q, head + body, ");");
    OccursPrefix(t, q, head + body, ");");
    OccursSuffix(t, q, head, body);
    assert t[c + 0] == ");"[0];
    assert t[c + 1] == ");"[1];
    BodyClose(t, o + 1, body);
  }

  /** Whatever the pattern matches at `p`, the scanner finds, with the same
      name and body and the same end. */
  lemma TableAtComplete(t: string, p: nat, ws1: string, name: string, ws2: string, body: string)
    requires p <= |t| && TableMatchWith(t, p, ws1, name, ws2, body)
    ensures TableAt(t, p) == Some((TableMatch(name, body), p + MatchLength(ws1, name, ws2, body)))
  {
    var q := p + |CreateTable|;
    var a := q + |ws1|;
    var b := a + |name|;
    var o := b + |ws2|;
    var c := o + 1 + |body|;
    CompleteHeader(t, p, ws1, name, ws2, body, q, a, b, o);
    CompleteBody(t, p, ws1, name, ws2, body, q, o, c);
    TableAtIs(t, p, a, b, o, c, name, body);
  }

  /** Adjacent slices join up. */
  lemma SliceJoin(t: string, i: nat, j: nat, k: nat)
    requires i <= j <= k <= |t|
    ensures t[i..j] + t[j..k] == t[i..k]
  {
    assert forall m :: 0 <= m < k - i ==> (t[i..j] + t[j..k])[m] == t[i + m];
  }

  /** A slice of `t` from `q` is a prefix of `t[q..]`. */
  lemma SlicePrefix(t: string, q: nat, e: nat)
    requires q <= e <= |t|
    ensures StartsWith(t[q..], t[q..e])
  {
    assert t[q..][..e - q] == t[q..e];
  }

  /** The text from `q` to the close at `c` reads as whitespace, name,
      whitespace, `(`, body and `);` cut at `a`, `b`, `o` and `c`. */
  lemma SoundText(t: string, q: nat, a: nat, b: nat, o: nat, c: nat)
    requires q <= a <= b <= o && o + 1 <= c && c + 2 <= |t|
    requires t[o] == '(' && CloseAt(t, c)
    ensures StartsWith(t[q..], t[q..a] + t[a..b] + t[b..o] + "(" + t[o + 1..c] + ");")
  {
    assert t[o..o + 1] == "(" && t[c..c + 2] == ");";
    SliceJoin(t, q, a, b);
    SliceJoin(t, q, b, o);
    SliceJoin(t, q, o, o + 1);
    SliceJoin(t, q, o + 1, c);
    SliceJoin(t, q, c, c + 2);
    SlicePrefix(t, q, c + 2);
  }

  /** A stretch the runs cover is whitespace, or a word. */
  lemma SoundRuns(t: string, q: nat, a: nat, b: nat, o: nat)
    requires q <= a <= b <= o <= |t|
    requires forall i :: q <= i < a ==> IsSpace(t[i])
    requires forall i :: a <= i < b ==> IsWordChar(t[i])
    requires forall i :: b <= i < o ==> IsSpace(t[i])
    ensures AllSpace(t[q..a]) && AllSpace(t[b..o])
    ensures a < b ==> IsWord(t[a..b])
  {
    assert forall i :: 0 <= i < a - q ==> t[q..a][i] == t[q + i];
    assert forall i :: 0 <= i < b - a ==> t[a..b][i] == t[a + i];
    assert forall i :: 0 <= i < o - b ==> t[b..o][i] == t[b + i];
  }

  /** A body that stops at the first close holds none. */
  lemma SoundBody(t: string, j: nat, c: nat)
    requires j <= c <= |t|
    requires forall k :: j <= k < c ==> !CloseAt(t, k)
    ensures NoClose(t[j..c])
  {
    forall k | 0 <= k < c - j ensures !CloseAt(t[j..c], k) {
      assert !CloseAt(t, j + k);
      assert k + 1 < c - j ==> t[j..c][k] == t[j + k] && t[j..c][k + 1] == t[j + k + 1];
    }
  }

  /** Text cut at positions the scanner reached reads as a match of the
      pattern at `p`. */
  lemma SoundAt(t: string, p: nat, q: nat, a: nat, b: nat, o: nat, c: nat)
    requires KeywordAt(t, p) && q == p + |CreateTable|
    requires q < a < b <= o && o + 1 <= c && c + 2 <= |t|
    requires forall i :: q <= i < a ==> IsSpace(t[i])
    requires forall i :: a <= i < b ==> IsWordChar(t[i])
    requires forall i :: b <= i < o ==> IsSpace(t[i])
    requires t[o] == '(' && CloseAt(t, c)
    requires forall k :: o + 1 <= k < c ==> !CloseAt(t, k)
    ensures TableMatchWith(t, p, t[q..a], t[a..b], t[b..o], t[o + 1..c])
    ensures c + 2 == p + MatchLength(t[q..a], t[a..b], t[b..o], t[o + 1..c])
  {
    SoundText(t, q, a, b, o, c);
    SoundRuns(t, q, a, b, o);
    SoundBody(t, o + 1, c);
  }

  /** Whatever the scanner finds at `p`, the pattern matches there. */
  lemma TableAtSound(t: string, p: nat)
    requires p <= |t| && TableAt(t, p).Some?
    ensures var m := TableAt(t, p).value.0;
            exists ws1, ws2 :: TableMatchWith(t, p, ws1, m.name, ws2, m.body) &&
                               TableAt(t, p).value.1 == p + MatchLength(ws1, m.name, ws2, m.body)
  {
    var q := p + |CreateTable|;
    var a := q + SpaceRun(t, q);
    var b := a + WordRun(t, a);
    var o := b + SpaceRun(t, b);
    assert TableAt(t, p) == BodyAt(t, a, b, o);
    var c := FindClose(t, o + 1).value;
    assert TableAt(t, p).value == (TableMatch(t[a..b], t[o + 1..c]), c + 2);
    SpaceRunSpec(t, q);
    WordRunSpec(t, a);
    SpaceRunSpec(t, b);
    SoundAt(t, p, q, a, b, o, c);
  }

  /** Every table the scan finds has a word for a name and a body without `);`. */
  lemma {:induction false} FindTablesShape(t: string, p: nat)
    requires p <= |t|
    ensures forall i :: 0 <= i < |FindTablesFrom(t, p)| ==>
              IsWord(FindTablesFrom(t, p)[i].name) && NoClose(FindTablesFrom(t, p)[i].body)
    decreases |t| - p
  {
    if p < |t| {
      match TableAt(t, p)
      case None =>
        FindTablesShape(t, p + 1);
      case Some((m, e)) =>
        TableAtSound(t, p);
        FindTablesShape(t, e);
        assert FindTablesFrom(t, p) == [m] + FindTablesFrom(t, e);
    }
  }

  /** `f"CREATE TABLE {table_name} ({columns_def});"`: always the upper-case keyword. */
  function Definition(name: string, body: string): string {
    "CREATE TABLE " + name + " (" + body + ");"
  }

  /** The keyword is its own upper-case form. */
  lemma KeywordUpper()
    ensures Upper(CreateTable) == CreateTable
  {
  }

  /** A definition reads as a match of the table pattern at its start. */
  lemma DefinitionMatches(name: string, body: string)
    requires IsWord(name) && NoClose(body)
    ensures TableMatchWith(Definition(name, body), 0, " ", name, " ", body)
  {
    var t := Definition(name, body);
    var rest := " " + name + " " + "(" + body + ");";
    assert t == CreateTable + rest;
    assert t[..|CreateTable|] == CreateTable;
    KeywordUpper();
    assert t[|CreateTable|..] == rest;
    assert IsSpace(' ');
  }

  /** Scanning a definition built from a found table finds exactly that table again. */
  lemma DefinitionRoundTrip(name: string, body: string)
    requires IsWord(name) && NoClose(body)
    ensures FindTables(Definition(name, body)) == [TableMatch(name, body)]
  {
    var t := Definition(name, body);
    DefinitionMatches(name, body);
    TableAtComplete(t, 0, " ", name, " ", body);
    assert MatchLength(" ", name, " ", body) == |t|;
    assert FindTablesFrom(t, |t|) == [];
  }

  /** `\(\d+\)` at `b`: its length, or 0 when it is not there. */
  function SizeSuffix(line: string, b: nat): (n: nat)
    requires b <= |line|
    ensures b + n <= |line|
    ensures forall k :: b <= k < b + n ==> line[k] == '(' || line[k] == ')' || IsDigit(line[k])
  {
    if b < |line| && line[b] == '(' then
      var d := DigitRun(line, b + 1);
      DigitRunSpec(line, b + 1);
      if d > 0 && b + 1 + d < |line| && line[b + 1 + d] == ')' then d + 2 else 0
    else 0
  }

  /** The text before the first line break: what `.*` takes when `.` does not
      match line breaks. */
  function UpToNewline(s: string): (r: string)
    ensures |r| <= |s| && r == s[..|r|] && '\n' !in r && (|r| == |s| || s[|r|] == '\n')
  {
    if s == [] || s[0] == '\n' then [] else [s[0]] + UpToNewline(s[1..])
  }

  /** `constraints.strip()` of what `(.*)` captured from `rest`: stripped, and
      on one line. */
  function Constraints(rest: string): (r: string)
    ensures IsStripped(r) && '\n' !in r
  {
    StripResult(UpToNewline(rest));
    StripKeepsAbsent(UpToNewline(rest), '\n');
    Strip(UpToNewline(rest))
  }

  /** `re.match(r'(\w+)\s+(\w+(?:\(\d+\))?)(.*)', line)`: the name, the
      whitespace after it and the type word are whole runs, a `(digits)` size
      directly after the type belongs to it, and the rest of the line, up to a
      line break and stripped, is the constraints.  `(.*)` always matches, so
      no part ever gives anything back. */
  function ParseColumn(line: string): Option<Column> {
    match ColumnBounds(line)
    case None => None
    case Some((n, a, e)) => Some(ColumnAt(line, n, a, e))
  }

  /** Where the groups end: the name at `n`, the whitespace at `a`, and the
      type word with its size at `e`; `None` when a run is empty. */
  function ColumnBounds(line: string): (r: Option<(nat, nat, nat)>)
    ensures r.Some? ==> 0 < r.value.0 < r.value.1 < r.value.2 <= |line|
  {
    var n := WordRun(line, 0);
    var a := n + SpaceRun(line, n);
    var b := a + WordRun(line, a);
    if n == 0 || a == n || b == a then None
    else Some((n, a, b + SizeSuffix(line, b)))
  }

  /** The column whose name ends at `n` and whose type spans `a` to `e`; the
      rest of the line holds its constraints. */
  function ColumnAt(line: string, n: nat, a: nat, e: nat): Column
    requires n <= a <= e <= |line|
  {
    Column(line[..n], line[a..e], Constraints(line[e..]))
  }

  /** A parsed column: the line starts with its name, which is a word; its type
      starts with a word character; nothing in it spans two lines; and its
      constraints are stripped. */
  lemma ParseColumnShape(line: string)
    requires ParseColumn(line).Some?
    ensures var c := ParseColumn(line).value;
            IsWord(c.name) && StartsWith(line, c.name) && c.colType != [] && IsWordChar(c.colType[0]) &&
            IsStripped(c.constraints) &&
            '\n' !in c.name && '\n' !in c.colType && '\n' !in c.constraints
  {
    var n := WordRun(line, 0);
    var a := n + SpaceRun(line, n);
    var b := a + WordRun(line, a);
    var e := b + SizeSuffix(line, b);
    assert ColumnBounds(line) == Some((n, a, e));
    WordRunSpec(line, 0);
    WordRunSpec(line, a);
    var ty := line[a..e];
    forall k | 0 <= k < |ty| ensures ty[k] != '\n' {
      assert ty[k] == line[a + k];
    }
  }

  /** `\(\d+\)` as a whole: a parenthesis, one or more digits, a parenthesis. */
  predicate IsSize(s: string) {
    |s| >= 3 && s[0] == '(' && s[|s| - 1] == ')' && forall k :: 1 <= k < |s| - 1 ==> IsDigit(s[k])
  }

  /** The size suffix behind the type word is `\(\d+\)` when one follows there,
      and then all of it. */
  lemma SizeSuffixSpec(line: string, b: nat)
    requires b <= |line|
    ensures var n := SizeSuffix(line, b);
            (n == 0 || IsSize(line[b..b + n])) &&
            forall e :: b < e <= |line| && IsSize(line[b..e]) ==> e == b + n
  {
    var n := SizeSuffix(line, b);
    if b < |line| && line[b] == '(' {
      var d := DigitRun(line, b + 1);
      DigitRunSpec(line, b + 1);
      if n > 0 {
        var s := line[b..b + n];
        forall k | 1 <= k < |s| - 1 ensures IsDigit(s[k]) {
          assert s[k] == line[b + k];
        }
      }
      forall e | b < e <= |line| && IsSize(line[b..e]) ensures e == b + n {
        var s := line[b..e];
        forall m | b + 1 <= m < e - 1 ensures IsDigit(line[m]) {
          assert line[m] == s[m - b];
        }
        assert line[e - 1] == s[|s| - 1];
        DigitRunIs(line, b + 1, e - b - 2);
      }
    } else if b < |line| {
      assert forall e :: b < e <= |line| ==> line[b..e][0] == line[b];
    }
  }

  /** A match of `(\w+)\s+(\w+(?:\(\d+\))?)(.*)` at the start of `line` whose
      groups end at `n` (the name), `a` (the whitespace), `b` (the type word)
      and `e` (the size): any way the pattern can match, with no preference
      among its choices.  The third group takes what `.*` can of the rest. */
  ghost predicate ColumnPatternAt(line: string, n: nat, a: nat, b: nat, e: nat) {
    0 < n < a < b <= e <= |line| &&
    IsWord(line[..n]) && AllSpace(line[n..a]) && IsWord(line[a..b]) &&
    (e == b || IsSize(line[b..e]))
  }

  /** The match `re.match` reports: the greedy type word takes the whole run of
      word characters, and the optional size is taken whenever one follows.
      The name and the whitespace have no choice: whitespace must follow the
      one and a word character the other. */
  ghost predicate GreedyColumnAt(line: string, n: nat, a: nat, b: nat, e: nat) {
    ColumnPatternAt(line, n, a, b, e) &&
    (b == |line| || !IsWordChar(line[b])) &&
    (e == b ==> forall e' :: b < e' <= |line| ==> !IsSize(line[b..e']))
  }

  /** The parser returns exactly the groups of the match `re.match` reports:
      the name, the type word with its size, and the rest of the line up to a
      line break, stripped. */
  lemma ParseColumnGreedy(line: string, n: nat, a: nat, b: nat, e: nat)
    requires GreedyColumnAt(line, n, a, b, e)
    ensures ParseColumn(line) == Some(Column(line[..n], line[a..e], Strip(UpToNewline(line[e..]))))
  {
    ColumnRunsAt(line, n, a, b, e);
    TypeRunAt(line, a, b);
    SizeAt(line, b, e);
    ParseColumnOfRuns(line, n, a, b, e);
  }

  /** The parser's column, once the runs it measures are known. */
  lemma ParseColumnOfRuns(line: string, n: nat, a: nat, b: nat, e: nat)
    requires 0 < n < a < b <= e <= |line|
    requires WordRun(line, 0) == n && n + SpaceRun(line, n) == a
    requires a + WordRun(line, a) == b && b + SizeSuffix(line, b) == e
    ensures ParseColumn(line) == Some(Column(line[..n], line[a..e], Strip(UpToNewline(line[e..]))))
  {
    assert ColumnBounds(line) == Some((n, a, e));
  }


  /** A type word that cannot be extended is the run the parser measures. */
  lemma TypeRunAt(line: string, a: nat, b: nat)
    requires a <= b <= |line|
    requires forall i :: a <= i < b ==> IsWordChar(line[i])
    requires b == |line| || !IsWordChar(line[b])
    ensures WordRun(line, a) == b - a
  {
    WordRunIs(line, a, b - a);
  }

  /** A size the greedy match takes, or leaves because there is none, is the
      one the parser measures. */
  lemma SizeAt(line: string, b: nat, e: nat)
    requires b <= e <= |line|
    requires e == b || IsSize(line[b..e])
    requires e == b ==> forall e' :: b < e' <= |line| ==> !IsSize(line[b..e'])
    ensures SizeSuffix(line, b) == e - b
  {
    SizeSuffixSpec(line, b);
  }

  /** The name and the whitespace of any match of the column pattern are the
      runs the parser measures, and the type word starts a run of its own. */
  lemma ColumnRunsAt(line: string, n: nat, a: nat, b: nat, e: nat)
    requires ColumnPatternAt(line, n, a, b, e)
    ensures WordRun(line, 0) == n && SpaceRun(line, n) == a - n
    ensures forall i :: a <= i < b ==> IsWordChar(line[i])
  {
    forall i | 0 <= i < n ensures IsWordChar(line[i]) {
      assert line[i] == line[..n][i];
    }
    forall i | n <= i < a ensures IsSpace(line[i]) {
      assert line[i] == line[n..a][i - n];
    }
    forall i | a <= i < b ensures IsWordChar(line[i]) {
      assert line[i] == line[a..b][i - a];
    }
    WordRunIs(line, 0, n);
    SpaceRunIs(line, n, a - n);
  }

  /** Whenever the column pattern matches at all, the parser finds a column. */
  lemma ParseColumnComplete(line: string, n: nat, a: nat, b: nat, e: nat)
    requires ColumnPatternAt(line, n, a, b, e)
    ensures ParseColumn(line).Some?
  {
    ColumnRunsAt(line, n, a, b, e);
    WordRunSpec(line, a);
  }

  /** Whatever the parser returns is the match `re.match` reports. */
  lemma ParseColumnSound(line: string)
    requires ParseColumn(line).Some?
    ensures exists n: nat, a: nat, b: nat, e: nat :: GreedyColumnAt(line, n, a, b, e) &&
              ParseColumn(line).value == Column(line[..n], line[a..e], Strip(UpToNewline(line[e..])))
  {
    var n := WordRun(line, 0);
    var a := n + SpaceRun(line, n);
    var b := a + WordRun(line, a);
    var e := b + SizeSuffix(line, b);
    RunsAreGreedy(line, n, a, b, e);
    ParseColumnOfRuns(line, n, a, b, e);
  }

  /** The runs the parser measures form the match `re.match` reports. */
  lemma RunsAreGreedy(line: string, n: nat, a: nat, b: nat, e: nat)
    requires 0 < n < a < b <= |line|
    requires WordRun(line, 0) == n && n + SpaceRun(line, n) == a
    requires a + WordRun(line, a) == b && e == b + SizeSuffix(line, b)
    ensures GreedyColumnAt(line, n, a, b, e)
  {
    WordRunSpec(line, 0);
    SpaceRunSpec(line, n);
    WordRunSpec(line, a);
    SizeSuffixSpec(line, b);
    assert IsWord(line[..n]);
    assert AllSpace(line[n..a]);
    assert IsWord(line[a..b]);
  }

  const VarcharLine: string := "name VARCHAR(100)"

  /** A size directly behind the type belongs to the type. */
  lemma VarcharSizeKept()
    ensures ParseColumn(VarcharLine) == Some(Column("name", "VARCHAR(100)", ""))
  {
    var l := VarcharLine;
    assert l[..4] == "name";
    assert l[4..5] == " ";
    assert l[5..12] == "VARCHAR";
    assert l[12..17] == "(100)";
    assert l[5..17] == "VARCHAR(100)";
    assert l[17..] == "";
    assert UpToNewline("") == "";
    ParseColumnGreedy(l, 4, 5, 12, 17);
  }

  const DecimalFragment: string := "price DECIMAL(10"

  lemma DecimalFragmentNameRun()
    ensures WordRun(DecimalFragment, 0) == 5
  {
    WordRunIs(DecimalFragment, 0, 5);
  }

  lemma DecimalFragmentGapRun()
    ensures SpaceRun(DecimalFragment, 5) == 1
  {
    SpaceRunIs(DecimalFragment, 5, 1);
  }

  lemma DecimalFragmentTypeRun()
    ensures WordRun(DecimalFragment, 6) == 7
  {
    WordRunIs(DecimalFragment, 6, 7);
  }

  lemma DecimalFragmentSizeRun()
    ensures SizeSuffix(DecimalFragment, 13) == 0
  {
    assert DigitRun(DecimalFragment, 14) == 2;
  }

  lemma DecimalFragmentName()
    ensures DecimalFragment[..5] == "price"
  {
    var f := DecimalFragment;
    assert f[..5] == [f[0], f[1], f[2], f[3], f[4]];
  }

  lemma DecimalFragmentType()
    ensures DecimalFragment[6..13] == "DECIMAL"
  {
    var f := DecimalFragment;
    assert f[6..13] == [f[6], f[7], f[8], f[9], f[10], f[11], f[12]];
  }

  lemma DecimalFragmentRest()
    ensures Constraints(DecimalFragment[13..]) == "(10"
  {
    var f := DecimalFragment;
    assert f[13..] == [f[13], f[14], f[15]];
    assert UpToNewline("(10") == "(10";
    StripStripped("(10");
  }

  /** A size suffix with a comma in it is cut at the comma: the fragment
      `price DECIMAL(10` keeps the type `DECIMAL` and the constraints `(10`. */
  lemma CommaSplitsSize()
    ensures ParseColumn(DecimalFragment) == Some(Column("price", "DECIMAL", "(10"))
  {
    DecimalFragmentNameRun();
    DecimalFragmentGapRun();
    DecimalFragmentTypeRun();
    DecimalFragmentSizeRun();
    DecimalFragmentName();
    DecimalFragmentType();
    DecimalFragmentRest();
  }

  /** ... and the fragment `2)` after the comma is not a column. */
  lemma SizeTailDropped()
    ensures ParseColumn("2)") == None
  {
    assert WordRun("2)", 0) == 1;
    assert SpaceRun("2)", 1) == 0;
  }

  /** `[line.strip() for line in columns_def.split(',')]` */
  function ColumnLines(body: string): (r: seq<string>)
    ensures |r| == |Split(body, ",")|
  {
    var parts := Split(body, ",");
    seq(|parts|, i requires 0 <= i < |parts| => Strip(parts[i]))
  }

  /** The column pattern tried on each stripped line. */
  function ColumnMatches(lines: seq<string>): (r: seq<Option<Column>>)
    ensures |r| == |lines|
  {
    seq(|lines|, i requires 0 <= i < |lines| => ParseColumn(Strip(lines[i])))
  }

  /** The columns of the lines that matched, in order. */
  function Present(matches: seq<Option<Column>>): (r: seq<Column>)
    ensures |r| <= |matches|
  {
    if matches == [] then []
    else
      var init := Present(matches[..|matches| - 1]);
      match matches[|matches| - 1]
      case Some(c) => init + [c]
      case None => init
  }

  /** When every line matched, there is one column per line, in declaration order. */
  lemma {:induction false} PresentInOrder(matches: seq<Option<Column>>)
    requires forall i :: 0 <= i < |matches| ==> matches[i].Some?
    ensures |Present(matches)| == |matches|
    ensures forall i :: 0 <= i < |matches| ==> Present(matches)[i] == matches[i].value
  {
    if matches != [] {
      PresentInOrder(matches[..|matches| - 1]);
    }
  }

  /** A column is kept exactly when the pattern matched some line with it. */
  lemma {:induction false} PresentFromMatches(matches: seq<Option<Column>>)
    ensures forall c :: c in Present(matches) <==> Some(c) in matches
  {
    if matches != [] {
      var init := matches[..|matches| - 1];
      PresentFromMatches(init);
      assert matches == init + [matches[|matches| - 1]];
      forall c ensures c in Present(matches) <==> Some(c) in matches {
        if c in Present(init) {
          assert Some(c) in init;
        }
      }
    }
  }

  /** The columns of two runs of lines are those of the first run followed by
      those of the second: matched lines are kept in declaration order. */
  lemma {:induction false} PresentAppend(a: seq<Option<Column>>, b: seq<Option<Column>>)
    ensures Present(a + b) == Present(a) + Present(b)
    decreases |b|
  {
    if b != [] {
      var b' := b[..|b| - 1];
      PresentAppend(a, b');
      assert (a + b)[..|a + b| - 1] == a + b';
    } else {
      assert a + b == a;
    }
  }

  /** One line keeps its column when it matched and nothing otherwise. */
  lemma PresentSingle(m: Option<Column>)
    ensures Present([m]) == (if m.Some? then [m.value] else [])
  {
    assert [m][..0] == [];
  }

  /** The columns of a table body. */
  function ParseColumns(body: string): seq<Column> {
    Present(ColumnMatches(ColumnLines(body)))
  }

  function Names(columns: seq<Column>): (r: seq<string>)
    ensures |r| == |columns| && forall i :: 0 <= i < |r| ==> r[i] == columns[i].name
  {
    seq(|columns|, i requires 0 <= i < |columns| => columns[i].name)
  }

  /** One column's line of the summary, without its line break. */
  function DetailText(c: Column): string {
    "  - " + c.name + " (" + c.colType + ")" + (if c.constraints != "" then " " + c.constraints else "")
  }

  /** The lines of the column-details block. */
  function DetailTexts(columns: seq<Column>): (r: seq<string>)
    ensures |r| == |columns| && forall i :: 0 <= i < |r| ==> r[i] == DetailText(columns[i])
  {
    seq(|columns|, i requires 0 <= i < |columns| => DetailText(columns[i]))
  }

  /** The summary's lines, without their line breaks: three header lines,
      then one line per column. */
  function SummaryLines(name: string, columns: seq<Column>): seq<string> {
    ["Table: " + name, "Columns: " + Join(Names(columns), ", "), "Column details:"] + DetailTexts(columns)
  }

  /** Text made of the given lines, each one ended by a line break. */
  function Lines(ls: seq<string>): string {
    if ls == [] then "" else ls[0] + "\n" + Lines(ls[1..])
  }

  /** The searchable summary of one table. */
  function PageContent(name: string, columns: seq<Column>): string {
    Lines(SummaryLines(name, columns))
  }

  /** The chunk built from one match of the table scan. */
  function ChunkOf(m: TableMatch): Chunk {
    var columns := ParseColumns(m.body);
    Chunk(PageContent(m.name, columns),
          Metadata(m.name, |columns|, Names(columns), Definition(m.name, m.body)))
  }

  /** `f` applied to every element, built one element at a time in order. */
  function MapSeq<A, B>(xs: seq<A>, f: A -> B): (r: seq<B>)
    ensures |r| == |xs|
  {
    if xs == [] then [] else MapSeq(xs[..|xs| - 1], f) + [f(xs[|xs| - 1])]
  }

  /** The element at each index is `f` of the input element there. */
  lemma {:induction false} MapSeqIndex<A, B>(xs: seq<A>, f: A -> B)
    ensures forall i :: 0 <= i < |xs| ==> MapSeq(xs, f)[i] == f(xs[i])
  {
    if xs != [] {
      var n := |xs| - 1;
      MapSeqIndex(xs[..n], f);
      forall i | 0 <= i < n ensures MapSeq(xs, f)[i] == f(xs[i]) {
        assert MapSeq(xs, f)[i] == MapSeq(xs[..n], f)[i];
        assert xs[..n][i] == xs[i];
      }
    }
  }

  /** Mapping one more element appends its image. */
  lemma MapSeqSnoc<A, B>(xs: seq<A>, f: A -> B, t: nat)
    requires t < |xs|
    ensures MapSeq(xs[..t + 1], f) == MapSeq(xs[..t], f) + [f(xs[t])]
  {
    assert xs[..t + 1][..t] == xs[..t];
  }

  /** `parse_schema_to_chunks`, as a function of the schema text: one chunk per
      match of the table scan, in order. */
  function ParseSchema(schemaSql: string): (r: seq<Chunk>)
    ensures |r| == |FindTables(schemaSql)|
  {
    MapSeq(FindTables(schemaSql), ChunkOf)
  }

  /** Every chunk's metadata agrees with its columns: the count, the names in
      order, and a definition that parses back to the very same chunk. */
  lemma ChunkRoundTrip(schemaSql: string)
    ensures var chunks := ParseSchema(schemaSql);
            forall i :: 0 <= i < |chunks| ==>
              ParseSchema(chunks[i].metadata.fullDefinition) == [chunks[i]] &&
              chunks[i].metadata.tableName == FindTables(schemaSql)[i].name &&
              chunks[i].metadata.columnCount == |chunks[i].metadata.columns|
  {
    var tables := FindTables(schemaSql);
    var chunks := ParseSchema(schemaSql);
    FindTablesShape(schemaSql, 0);
    MapSeqIndex(tables, ChunkOf);
    forall i | 0 <= i < |chunks|
      ensures ParseSchema(chunks[i].metadata.fullDefinition) == [chunks[i]]
    {
      DefinitionRoundTrip(tables[i].name, tables[i].body);
      MapSeqSingle(TableMatch(tables[i].name, tables[i].body), ChunkOf);
    }
  }

  lemma MapSeqSingle<A, B>(x: A, f: A -> B)
    ensures MapSeq([x], f) == [f(x)]
  {
    assert [x][..0] == [];
  }

  /** `sep.join` of pieces without a character has no such character. */
  lemma {:induction false} JoinWithout(parts: seq<string>, sep: string, c: char)
    requires c !in sep && forall i :: 0 <= i < |parts| ==> c !in parts[i]
    ensures c !in Join(parts, sep)
  {
    if |parts| > 1 {
      JoinWithout(parts[1..], sep, c);
    }
  }

  /** One more line at the end adds that line and its line break. */
  lemma {:induction false} LinesSnoc(ls: seq<string>, x: string)
    ensures Lines(ls + [x]) == Lines(ls) + x + "\n"
  {
    if ls != [] {
      assert (ls + [x])[1..] == ls[1..] + [x];
      LinesSnoc(ls[1..], x);
    }
  }

  /** Lines ended by line breaks are the lines and one empty piece, joined by line breaks. */
  lemma {:induction false} LinesJoin(ls: seq<string>)
    ensures Lines(ls) == Join(ls + [""], "\n")
  {
    if ls != [] {
      LinesJoin(ls[1..]);
      assert (ls + [""])[1..] == ls[1..] + [""];
    }
  }

  /** Splitting text made of lines without line breaks of their own gives the
      lines back, and the empty piece behind the last break. */
  lemma LinesSplit(ls: seq<string>)
    requires forall i :: 0 <= i < |ls| ==> '\n' !in ls[i]
    ensures Split(Lines(ls), "\n") == ls + [""]
  {
    var parts := ls + [""];
    forall i | 0 <= i < |parts| ensures '\n' !in parts[i] {
      if i < |ls| {
        assert parts[i] == ls[i];
      }
    }
    LinesJoin(ls);
    SplitJoin(parts, '\n');
  }

  /** A column with no line break in any part gives a one-line detail. */
  lemma DetailTextSingle(c: Column)
    requires SingleLine(c)
    ensures '\n' !in DetailText(c)
  {
  }

  /** No part of a parsed column spans two lines. */
  predicate SingleLine(c: Column) {
    '\n' !in c.name && '\n' !in c.colType && '\n' !in c.constraints
  }

  lemma ColumnsSingleLine(body: string)
    ensures forall c :: c in ParseColumns(body) ==> SingleLine(c)
  {
    var fragments := ColumnLines(body);
    var matches := ColumnMatches(fragments);
    PresentFromMatches(matches);
    forall c | c in ParseColumns(body) ensures SingleLine(c) {
      var i :| 0 <= i < |matches| && matches[i] == Some(c);
      ParseColumnShape(Strip(fragments[i]));
    }
  }

  /** The summary's lines hold no line break of their own. */
  lemma SummaryLinesSingle(name: string, columns: seq<Column>)
    requires IsWord(name)
    requires forall c :: c in columns ==> SingleLine(c)
    ensures var lines := SummaryLines(name, columns);
            forall i :: 0 <= i < |lines| ==> '\n' !in lines[i]
  {
    var lines := SummaryLines(name, columns);
    forall i | 0 <= i < |columns| ensures '\n' !in Names(columns)[i] {
      assert columns[i] in columns;
    }
    JoinWithout(Names(columns), ", ", '\n');
    assert '\n' !in name by {
      assert forall k :: 0 <= k < |name| ==> IsWordChar(name[k]);
    }
    forall i | 0 <= i < |lines| ensures '\n' !in lines[i] {
      if 3 <= i {
        assert lines[i] == DetailTexts(columns)[i - 3];
        assert columns[i - 3] in columns;
        DetailTextSingle(columns[i - 3]);
      }
    }
  }

  /** The header lines, appended one after the other. */
  lemma HeaderSteps(name: string, columns: seq<Column>)
    ensures ("Table: " + name + "\n") + "Columns: " + Join(Names(columns), ", ") + "\n" + "Column details:\n" ==
            Lines(SummaryLines(name, columns)[..3])
  {
    var l1, l2, l3 := "Table: " + name, "Columns: " + Join(Names(columns), ", "), "Column details:";
    var ls := SummaryLines(name, columns)[..3];
    assert ls == [l1, l2, l3];
    assert [l1, l2, l3][1..] == [l2, l3] && [l2, l3][1..] == [l3] && [l3][1..] == [];
    assert Lines([l3]) == "Column details:\n";
    assert Lines(ls) == l1 + "\n" + (l2 + "\n" + "Column details:\n");
  }

  /** A column's line, appended piece by piece. */
  lemma DetailStep(before: string, c: Column)
    ensures c.constraints != "" ==>
              before + "  - " + c.name + " (" + c.colType + ")" + " " + c.constraints + "\n" ==
              before + DetailText(c) + "\n"
    ensures c.constraints == "" ==>
              before + "  - " + c.name + " (" + c.colType + ")" + "\n" == before + DetailText(c) + "\n"
  {
  }

  /** One more column's line extends the summary by that column's line. */
  lemma SummaryStep(name: string, columns: seq<Column>, j: nat)
    requires j < |columns|
    ensures Lines(SummaryLines(name, columns)[..3 + j + 1]) ==
            Lines(SummaryLines(name, columns)[..3 + j]) + DetailText(columns[j]) + "\n"
  {
    var ls := SummaryLines(name, columns);
    assert ls[..3 + j + 1] == ls[..3 + j] + [ls[3 + j]];
    LinesSnoc(ls[..3 + j], ls[3 + j]);
  }

  /** The summary reads line by line as `Table: <name>`, `Columns: <names>`,
      `Column details:` and one `  - name (type)[ constraints]` line per
      column, each line ended by a line break. */
  lemma PageContentLines(m: TableMatch)
    requires IsWord(m.name)
    ensures var columns := ParseColumns(m.body);
            Split(ChunkOf(m).pageContent, "\n") ==
              ["Table: " + m.name, "Columns: " + Join(Names(columns), ", "), "Column details:"] +
              DetailTexts(columns) + [""]
  {
    var columns := ParseColumns(m.body);
    ColumnsSingleLine(m.body);
    SummaryLinesSingle(m.name, columns);
    LinesSplit(SummaryLines(m.name, columns));
  }

  /** The state of the retrieval object: the store (the chunks it holds, in
      insertion order) and the loaded flag. */
  datatype RagState = RagState(vectorstore: Option<seq<Chunk>>, schemaLoaded: bool)

  /** Retrieval is possible: loaded, and a store is present. */
  predicate Ready(st: RagState) {
    st.schemaLoaded && st.vectorstore.Some?
  }

  /** The state every operation keeps: a store is present exactly when loaded. */
  predicate Coherent(st: RagState) {
    st.schemaLoaded <==> st.vectorstore.Some?
  }

  /** The state after `index_schema` with the parsed `documents`: no tables
      leaves everything as it was. */
  function Indexed(st: RagState, documents: seq<Chunk>): RagState {
    if documents == [] then st else RagState(Some(documents), true)
  }

  /** The state after `clear_index`. */
  function Cleared(st: RagState): RagState {
    if st.vectorstore.Some? then RagState(None, false) else st
  }

  /** The similarity-search oracle: the store, the question and `k`. */
  type Search = (seq<Chunk>, string, nat) -> seq<(Chunk, real)>

  /** A search that honours `k` and returns only chunks of the store it searched. */
  ghost predicate ValidSearch(search: Search) {
    (forall docs, question, k :: |search(docs, question, k)| <= k) &&
    (forall docs, question, k, x :: x in search(docs, question, k) ==> x.0 in docs)
  }

  /** The results whose score reaches the threshold, in the store's order. */
  function Relevant(results: seq<(Chunk, real)>, threshold: real): (r: seq<(Chunk, real)>)
    ensures |r| <= |results|
  {
    if results == [] then []
    else if results[0].1 >= threshold then [results[0]] + Relevant(results[1..], threshold)
    else Relevant(results[1..], threshold)
  }

  function Definitions(relevant: seq<(Chunk, real)>): (r: seq<string>)
    ensures |r| == |relevant| && forall i :: 0 <= i < |r| ==> r[i] == relevant[i].0.metadata.fullDefinition
  {
    seq(|relevant|, i requires 0 <= i < |relevant| => relevant[i].0.metadata.fullDefinition)
  }

  /** `retrieve_relevant_schema`, as a function of the state. */
  function RetrievedSchema(st: RagState, question: string, topK: nat, threshold: real, search: Search): string {
    if !Ready(st) then ""
    else
      var relevant := Relevant(search(st.vectorstore.value, question, topK), threshold);
      if relevant == [] then "" else Join(Definitions(relevant), "\n\n")
  }

  /** `get_all_table_names`, as a function of the state. */
  function TableNames(st: RagState): seq<string> {
    if !Ready(st) then []
    else
      var docs := st.vectorstore.value;
      seq(|docs|, i requires 0 <= i < |docs| => docs[i].metadata.tableName)
  }

  /** Filtering two runs of results filters each in turn: the survivors keep
      the search's order. */
  lemma {:induction false} RelevantAppend(a: seq<(Chunk, real)>, b: seq<(Chunk, real)>, threshold: real)
    ensures Relevant(a + b, threshold) == Relevant(a, threshold) + Relevant(b, threshold)
  {
    if a == [] {
      assert a + b == b;
    } else {
      var x, t := a[0], a[1..];
      assert a == [x] + t;
      assert a + b == [x] + (t + b);
      RelevantCons(x, t, threshold);
      RelevantCons(x, t + b, threshold);
      RelevantAppend(t, b, threshold);
      var head := if x.1 >= threshold then [x] else [];
      assert head + (Relevant(t, threshold) + Relevant(b, threshold))
          == (head + Relevant(t, threshold)) + Relevant(b, threshold);
    }
  }

  /** One result in front is kept or dropped on its own score. */
  lemma RelevantCons(x: (Chunk, real), t: seq<(Chunk, real)>, threshold: real)
    ensures Relevant([x] + t, threshold) == (if x.1 >= threshold then [x] else []) + Relevant(t, threshold)
  {
    assert ([x] + t)[1..] == t;
  }


  /** One result survives exactly when its score reaches the threshold. */
  lemma RelevantSingle(x: (Chunk, real), threshold: real)
    ensures Relevant([x], threshold) == (if x.1 >= threshold then [x] else [])
  {
    assert [x][1..] == [];
  }

  /** The filter keeps exactly the results that reach the threshold, in order,
      so never more than the search returned. */
  lemma {:induction false} RelevantFilter(results: seq<(Chunk, real)>, threshold: real)
    ensures |Relevant(results, threshold)| <= |results|
    ensures forall x :: x in Relevant(results, threshold) <==> x in results && x.1 >= threshold
    ensures (forall i :: 0 <= i < |results| ==> results[i].1 >= threshold) ==> Relevant(results, threshold) == results
  {
    if results != [] {
      RelevantFilter(results[1..], threshold);
      assert results == [results[0]] + results[1..];
    }
  }

  /** What retrieval returns: nothing unless loaded; otherwise the
      definitions of the search results that reach the threshold, in the
      search's order (filtering any prefix and the rest of the results gives
      the two parts of the list), joined by blank lines, at most `topK` of
      them, and each one a definition of a chunk in the store. */
  lemma RetrievedSchemaShape(st: RagState, question: string, topK: nat, threshold: real, search: Search)
    requires ValidSearch(search)
    ensures !Ready(st) ==> RetrievedSchema(st, question, topK, threshold, search) == ""
    ensures Ready(st) ==>
              var results := search(st.vectorstore.value, question, topK);
              var relevant := Relevant(results, threshold);
              |relevant| <= topK &&
              (forall x :: x in relevant <==> x in results && x.1 >= threshold) &&
              (forall x :: x in relevant ==> x.0 in st.vectorstore.value) &&
              (forall i :: 0 <= i <= |results| ==>
                 relevant == Relevant(results[..i], threshold) + Relevant(results[i..], threshold)) &&
              RetrievedSchema(st, question, topK, threshold, search) == Join(Definitions(relevant), "\n\n")
  {
    if Ready(st) {
      var results := search(st.vectorstore.value, question, topK);
      RelevantFilter(results, threshold);
      forall i | 0 <= i <= |results|
        ensures Relevant(results, threshold) == Relevant(results[..i], threshold) + Relevant(results[i..], threshold)
      {
        RelevantAppend(results[..i], results[i..], threshold);
        assert results[..i] + results[i..] == results;
      }
    }
  }

  /** Indexing a schema with tables makes its table names, in order, the ones
      listed; indexing one without tables leaves the listing as it was. */
  lemma IndexThenTableNames(st: RagState, schemaSql: string)
    ensures var tables := FindTables(schemaSql);
            var names := TableNames(Indexed(st, ParseSchema(schemaSql)));
            if tables == [] then names == TableNames(st)
            else |names| == |tables| && forall i :: 0 <= i < |tables| ==> names[i] == tables[i].name
  {
    var tables := FindTables(schemaSql);
    var docs := ParseSchema(schemaSql);
    if tables != [] {
      assert docs != [];
      MapSeqIndex(tables, ChunkOf);
      var names := TableNames(Indexed(st, docs));
      forall i | 0 <= i < |tables| ensures names[i] == tables[i].name {
        assert names[i] == docs[i].metadata.tableName;
        assert docs[i] == ChunkOf(tables[i]);
      }
    }
  }

  /** Indexing and clearing keep the state coherent; clearing is idempotent
      and leaves nothing to retrieve or list. */
  lemma ClearedState(st: RagState, documents: seq<Chunk>, question: string, topK: nat, threshold: real, search: Search)
    requires Coherent(st)
    ensures Coherent(Indexed(st, documents)) && Coherent(Cleared(st))
    ensures Cleared(Cleared(st)) == Cleared(st)
    ensures RetrievedSchema(Cleared(st), question, topK, threshold, search) == ""
    ensures TableNames(Cleared(st)) == []
  {
  }

  /** `SchemaRAG`: the store and the loaded flag.  The embedding model and the
      persist directory belong to the vector-store library. */
  class SchemaRag {
    var vectorstore: Option<seq<Chunk>>
    var schemaLoaded: bool

    function State(): RagState
      reads this
    {
      RagState(vectorstore, schemaLoaded)
    }

    constructor ()
      ensures State() == RagState(None, false)
    {
      vectorstore := None;
      schemaLoaded := false;
    }

    /** The column loop of `parse_schema_to_chunks`: every comma-separated
        fragment is stripped and tried against the column pattern, and the
        ones that match are kept in order. */
    method CollectColumns(columnsDef: string) returns (columns: seq<Column>)
      ensures columns == ParseColumns(columnsDef)
    {
      var columnLines := ColumnLines(columnsDef);
      ghost var matches := ColumnMatches(columnLines);
      columns := [];
      var i := 0;
      while i < |columnLines|
        invariant 0 <= i <= |columnLines|
        invariant columns == Present(matches[..i])
      {
        assert matches[..i + 1][..i] == matches[..i];
        var colMatch := ParseColumn(Strip(columnLines[i]));
        assert colMatch == matches[i];
        if colMatch.Some? {
          columns := columns + [colMatch.value];
        }
        i := i + 1;
      }
      assert matches[..i] == matches;
    }

    /** The summary loop of `parse_schema_to_chunks`: the three header lines,
        then one line per column. */
    method BuildPageContent(tableName: string, columns: seq<Column>) returns (pageContent: string)
      ensures pageContent == PageContent(tableName, columns)
    {
      pageContent := "Table: " + tableName + "\n";
      pageContent := pageContent + "Columns: " + Join(Names(columns), ", ") + "\n";
      pageContent := pageContent + "Column details:\n";
      HeaderSteps(tableName, columns);
      var j := 0;
      while j < |columns|
        invariant 0 <= j <= |columns|
        invariant pageContent == Lines(SummaryLines(tableName, columns)[..3 + j])
      {
        var col := columns[j];
        SummaryStep(tableName, columns, j);
        ghost var before := pageContent;
        pageContent := pageContent + "  - " + col.name + " (" + col.colType + ")";
        if col.constraints != "" {
          pageContent := pageContent + " " + col.constraints;
        }
        pageContent := pageContent + "\n";
        DetailStep(before, col);
        j := j + 1;
      }
      assert SummaryLines(tableName, columns)[..3 + j] == SummaryLines(tableName, columns);
    }

    /** The body of the table loop of `parse_schema_to_chunks`: the columns,
        the summary and the metadata of one found table. */
    method BuildChunk(tableName: string, columnsDef: string) returns (chunk: Chunk)
      ensures chunk == ChunkOf(TableMatch(tableName, columnsDef))
    {
      var columns := CollectColumns(columnsDef);
      var pageContent := BuildPageContent(tableName, columns);
      var metadata := Metadata(tableName, |columns|, Names(columns), Definition(tableName, columnsDef));
      chunk := Chunk(pageContent, metadata);
    }

    /** The table loop of `parse_schema_to_chunks`: one chunk per match, in
        order. */
    method BuildChunks(tables: seq<TableMatch>) returns (documents: seq<Chunk>)
      ensures documents == MapSeq(tables, ChunkOf)
    {
      documents := [];
      var t := 0;
      while t < |tables|
        invariant 0 <= t <= |tables|
        invariant documents == MapSeq(tables[..t], ChunkOf)
      {
        var chunk := BuildChunk(tables[t].name, tables[t].body);
        assert TableMatch(tables[t].name, tables[t].body) == tables[t];
        MapSeqSnoc(tables, ChunkOf, t);
        documents := documents + [chunk];
        t := t + 1;
      }
      assert tables[..t] == tables;
    }

    /** `parse_schema_to_chunks`: one chunk per table the scan finds, in
        order. */
    method ParseSchemaToChunks(schemaSql: string) returns (documents: seq<Chunk>)
      ensures documents == ParseSchema(schemaSql)
    {
      var tables := FindTables(schemaSql);
      documents := BuildChunks(tables);
    }

    /** `index_schema` */
    method IndexSchema(schemaSql: string)
      modifies this
      ensures State() == Indexed(old(State()), ParseSchema(schemaSql))
    {
      var documents := ParseSchemaToChunks(schemaSql);
      if documents == [] {
        return;
      }
      vectorstore := Some(documents);
      schemaLoaded := true;
    }

    /** `retrieve_relevant_schema` */
    method RetrieveRelevantSchema(question: string, topK: nat, scoreThreshold: real, search: Search)
      returns (focused: string)
      ensures focused == RetrievedSchema(State(), question, topK, scoreThreshold, search)
    {
      if !schemaLoaded || vectorstore.None? {
        return "";
      }
      var results := search(vectorstore.value, question, topK);
      var relevant := Relevant(results, scoreThreshold);
      if relevant == [] {
        return "";
      }
      var schemaParts: seq<string> := [];
      var i := 0;
      while i < |relevant|
        invariant 0 <= i <= |relevant|
        invariant |schemaParts| == i
        invariant forall k :: 0 <= k < i ==> schemaParts[k] == relevant[k].0.metadata.fullDefinition
      {
        schemaParts := schemaParts + [relevant[i].0.metadata.fullDefinition];
        i := i + 1;
      }
      assert schemaParts == Definitions(relevant);
      focused := Join(schemaParts, "\n\n");
    }

    /** `get_all_table_names` */
    method GetAllTableNames() returns (names: seq<string>)
      ensures names == TableNames(State())
    {
      if !schemaLoaded || vectorstore.None? {
        return [];
      }
      var docs := vectorstore.value;
      names := seq(|docs|, i requires 0 <= i < |docs| => docs[i].metadata.tableName);
    }

    /** `clear_index` */
    method ClearIndex()
      modifies this
      ensures State() == Cleared(old(State()))
    {
      if vectorstore.Some? {
        vectorstore := None;
        schemaLoaded := false;
      }
    }
  }

  /** The module-level slot behind `get_schema_rag`. */
  class Registry {
    var schemaRag: SchemaRag?

    constructor ()
      ensures schemaRag == null
    {
      schemaRag := null;
    }

    /** `get_schema_rag`: the instance is created on the first call only. */
    method GetSchemaRag() returns (rag: SchemaRag)
      modifies this
      ensures old(schemaRag) != null ==> rag == old(schemaRag)
      ensures old(schemaRag) == null ==> fresh(rag) && rag.State() == RagState(None, false)
      ensures schemaRag == rag
    {
      if schemaRag == null {
        schemaRag := new SchemaRag();
      }
      rag := schemaRag;
    }

    /** `initialize_schema_rag`: index the schema in the shared instance. */
    method InitializeSchemaRag(schemaSql: string)
      modifies this, schemaRag
      ensures old(schemaRag) != null ==>
                schemaRag == old(schemaRag) && schemaRag.State() == Indexed(old(schemaRag.State()), ParseSchema(schemaSql))
      ensures old(schemaRag) == null ==>
                schemaRag != null && schemaRag.State() == Indexed(RagState(None, false), ParseSchema(schemaSql))
    {
      var rag := GetSchemaRag();
      rag.IndexSchema(schemaSql);
    }
  }
}

/** The text pipeline between the completion service and the router:
    normalising and checking a classification, cleaning up and
    shape-checking a generated SQL or ADQL query, and passing a tutor
    answer through.  Each of `classify_question`, `get_sql`, `get_adql`
    and `answer_general` is a method that appends to the caller's history
    list; what it computes from the service's reply is a function here. */
module Translator {
  import opened Text
  import opened Conversation

  /** The last message of a completion request, after the context turns.
      The prompt texts themselves are not modelled; what matters is which
      instruction is sent and which user text it embeds. */
  datatype Prompt =
    | ClassifierInstruction
    | SqlRequest(nl: string)
    | AdqlRequest(nl: string)
    | TutorRequest(nl: string)

  /** The completion service: given the context turns and the final
      prompt, the raw completion text, or the exception raised on the way
      (transport, status or response-shape failure). */
  type Completer = (seq<Turn>, Prompt) -> Result<string>

  // ---------------------------------------------------------------------
  // Classification

  datatype Label = SQL | GAIA | IMAGE | GENERAL | INVALID

  function LabelText(l: Label): string {
    match l
    case SQL => "SQL"
    case GAIA => "GAIA"
    case IMAGE => "IMAGE"
    case GENERAL => "GENERAL"
    case INVALID => "INVALID"
  }

  const LabelTexts: set<string> := {"SQL", "GAIA", "IMAGE", "GENERAL", "INVALID"}

  /** The completion text as `classify_question` normalises it: surrounding
      whitespace stripped, upper-cased, and then every `.` deleted
      wherever it stands. */
  function NormalizeLabel(content: string): (r: string)
    ensures '.' !in r
    ensures forall c :: c in r ==> !IsLowerChar(c)
  {
    var u := Upper(Strip(content));
    assert forall c :: c in u ==> !IsLowerChar(c) by {
      forall c | c in u ensures !IsLowerChar(c) {
        var i :| 0 <= i < |u| && u[i] == c;
      }
    }
    RemoveAll(u, '.')
  }

  /** The membership test against the five labels; anything else is the
      `ValueError` "Unexpected classification". */
  function ParseLabel(s: string): (r: Result<Label>)
    ensures r.Ok? <==> s in LabelTexts
    ensures r.Ok? ==> LabelText(r.value) == s
    ensures r.Err? ==> r.error == UnexpectedClassification(s)
  {
    if s == "SQL" then Ok(SQL)
    else if s == "GAIA" then Ok(GAIA)
    else if s == "IMAGE" then Ok(IMAGE)
    else if s == "GENERAL" then Ok(GENERAL)
    else if s == "INVALID" then Ok(INVALID)
    else Err(UnexpectedClassification(s))
  }

  /** What `classify_question` makes of the service's reply: a failed call
      propagates; otherwise the normalised text must be one of the five
      labels, and the label is exactly that text. */
  function Classify(reply: Result<string>): (r: Result<Label>)
    ensures reply.Err? ==> r == Err(reply.error)
    ensures reply.Ok? ==> (r.Ok? <==> NormalizeLabel(reply.value) in LabelTexts)
    ensures r.Ok? ==> LabelText(r.value) == NormalizeLabel(reply.value)
    ensures reply.Ok? && r.Err? ==> r.error == UnexpectedClassification(NormalizeLabel(reply.value))
  {
    match reply
    case Err(e) => Err(e)
    case Ok(content) => ParseLabel(NormalizeLabel(content))
  }

  /** Each label is recognised as itself, and only as itself. */
  lemma ParseLabelText(l: Label, s: string)
    ensures ParseLabel(LabelText(l)) == Ok(l)
    ensures ParseLabel(s) == Ok(l) <==> s == LabelText(l)
  {
  }

  /** Dots are deleted everywhere, after stripping: " s.q.l. " is SQL, but
      in "SQL ." the space before the dot survives the strip and the
      result "SQL " is refused. */
  lemma ClassifyDeletesEveryDot()
    ensures Classify(Ok(" s.q.l. ")) == Ok(SQL)
    ensures Classify(Ok("SQL .")) == Err(UnexpectedClassification("SQL "))
  {
    NormalizeSpacedDots();
    NormalizeTrailingDot();
  }

  lemma NormalizeSpacedDots()
    ensures NormalizeLabel(" s.q.l. ") == "SQL"
  {
    assert TrimLeft(" s.q.l. ") == "s.q.l. " by {
      assert " s.q.l. "[1..] == "s.q.l. ";
      assert LeadingSpace(" s.q.l. ") == 1;
    }
    assert TrimRight("s.q.l. ") == "s.q.l." by {
      assert "s.q.l. "[..6] == "s.q.l.";
      assert KeptLength("s.q.l. ") == 6;
    }
    assert Upper("s.q.l.") == "S.Q.L.";
    RemoveDots();
  }

  lemma RemoveDots()
    ensures RemoveAll("S.Q.L.", '.') == "SQL"
  {
    assert "S.Q.L."[1..] == ".Q.L.";
    assert ".Q.L."[1..] == "Q.L.";
    assert "Q.L."[1..] == ".L.";
    assert ".L."[1..] == "L.";
    assert "L."[1..] == ".";
    assert "."[1..] == "";
  }

  lemma NormalizeTrailingDot()
    ensures NormalizeLabel("SQL .") == "SQL "
  {
    assert IsStripped("SQL .");
    assert Upper("SQL .") == "SQL .";
    assert RemoveAll("SQL .", '.') == "SQL " by {
      assert "SQL ."[1..] == "QL .";
      assert "QL ."[1..] == "L .";
      assert "L ."[1..] == " .";
      assert " ."[1..] == ".";
      assert "."[1..] == "";
    }
  }

  /** `classify_question(nl, history)`.  The request is built on a copy of
      the history with the utterance added; the caller's list gains the
      label turn on success and is untouched on any failure. */
  method ClassifyQuestion(nl: string, history: History, complete: Completer) returns (r: Result<Label>)
    modifies history
    ensures r == Classify(complete(old(history.turns) + [Turn(User, nl)], ClassifierInstruction))
    ensures r.Ok? ==> history.turns == old(history.turns) + [Turn(Assistant, LabelText(r.value))]
    ensures r.Err? ==> history.turns == old(history.turns)
  {
    var fullHistory := history.turns + [Turn(User, nl)];
    var reply := complete(fullHistory, ClassifierInstruction);
    r := Classify(reply);
    if r.Ok? {
      history.Append(Turn(Assistant, LabelText(r.value)));
    }
  }

  // ---------------------------------------------------------------------
  // Query cleanup and shape validation

  /** What the cleanup guarantees: one statement on one line, with no
      surrounding whitespace. */
  predicate IsCleaned(q: string) {
    && ';' !in q
    && OneLine(q)
    && IsStripped(q)
  }

  /** The cleanup of `get_sql` and `get_adql`: the stripped completion's
      first line, stripped, then cut before its first `;` and stripped
      again.  `splitlines()[0]` has no element when the stripped completion
      is empty, which raises `IndexError`. */
  function CleanQuery(content: string): (r: Result<string>)
    ensures r.Err? <==> AllSpace(content)
    ensures r.Err? ==> r.error == NoFirstLine
    ensures r.Ok? ==> IsCleaned(r.value)
  {
    var raw := Strip(content);
    if raw == [] then Err(NoFirstLine)
    else
      var line := Strip(FirstLine(raw));
      if ';' in line then
        var cut := Strip(Before(line, ';'));
        assert forall c :: c in cut ==> c in line;
        Ok(cut)
      else
        Ok(line)
  }

  /** The two cleanup steps are one formula: first line of the stripped
      completion, text before the first `;`, stripped. */
  lemma CleanQueryIsFirstStatement(content: string)
    requires !AllSpace(content)
    ensures CleanQuery(content) == Ok(Strip(Before(Strip(FirstLine(Strip(content))), ';')))
  {
    var line := Strip(FirstLine(Strip(content)));
    if ';' !in line {
      BeforeAbsent(line, ';');
    }
  }

  lemma FirstLineOfOneLine(s: string)
    requires OneLine(s)
    ensures FirstLine(s) == s
  {
  }

  lemma BeforeAbsent(s: string, c: char)
    requires c !in s
    ensures Before(s, c) == s
  {
  }

  /** Cleaning an already cleaned query gives it back (an empty one has no
      first line, as before). */
  lemma CleanQueryIdempotent(content: string, q: string)
    requires CleanQuery(content) == Ok(q)
    ensures CleanQuery(q) == if q == [] then Err(NoFirstLine) else Ok(q)
  {
    if q != [] {
      assert !IsSpace(q[0]);
      FirstLineOfOneLine(q);
    }
  }

  /** The cleanup example: a trailing `;` and a second line of commentary are
      cut off. */
  lemma CleanQueryDropsCommentary()
    ensures CleanQuery("SELECT pl_name FROM ps;\nNote: this filters") == Ok("SELECT pl_name FROM ps")
  {
    var content := "SELECT pl_name FROM ps;\nNote: this filters";
    CommentaryFirstLine();
    CommentaryCut();
    assert content[0] == 'S';
    CleanQueryIsFirstStatement(content);
  }

  lemma CommentaryFirstLine()
    ensures Strip(Strip("SELECT pl_name FROM ps;\nNote: this filters")) == "SELECT pl_name FROM ps;\nNote: this filters"
    ensures FirstLine("SELECT pl_name FROM ps;\nNote: this filters") == "SELECT pl_name FROM ps;"
  {
    CommentaryStripped();
    CommentaryPrefix();
    CommentaryOneLine();
    FirstLineExtend("SELECT pl_name FROM ps;", "SELECT pl_name FROM ps;\nNote: this filters");
  }

  lemma CommentaryStripped()
    ensures IsStripped("SELECT pl_name FROM ps;\nNote: this filters")
  {
  }

  lemma CommentaryPrefix()
    ensures var content := "SELECT pl_name FROM ps;\nNote: this filters";
            |content| == 42 && content[..23] == "SELECT pl_name FROM ps;" && IsLineBreak(content[23])
  {
  }

  lemma CommentaryOneLine()
    ensures OneLine("SELECT pl_name FROM ps;")
  {
    assert "SELECT pl_name " + "FROM ps;" == "SELECT pl_name FROM ps;";
    OneLineConcat("SELECT pl_name ", "FROM ps;");
  }

  lemma CommentaryCut()
    ensures Strip(Before(Strip("SELECT pl_name FROM ps;"), ';')) == "SELECT pl_name FROM ps"
  {
    assert IsStripped("SELECT pl_name FROM ps;");
    BeforeExtend("SELECT pl_name FROM ps", "SELECT pl_name FROM ps;", ';');
    assert IsStripped("SELECT pl_name FROM ps");
  }

  /** The first line of `p + break + rest` is `p` when `p` has no break. */
  lemma {:induction false} FirstLineExtend(p: string, s: string)
    requires |p| < |s| && s[..|p|] == p && IsLineBreak(s[|p|])
    requires OneLine(p)
    ensures FirstLine(s) == p
  {
    if p != [] {
      assert s[0] == p[0] && p[0] in p;
      assert s[1..][..|p| - 1] == p[1..];
      FirstLineExtend(p[1..], s[1..]);
    }
  }

  /** The text before the first `c` of `p + c + rest` is `p` when `p`
      has no `c`. */
  lemma {:induction false} BeforeExtend(p: string, s: string, c: char)
    requires |p| < |s| && s[..|p|] == p && s[|p|] == c && c !in p
    ensures Before(s, c) == p
  {
    if p != [] {
      assert s[0] == p[0] && p[0] in p;
      assert s[1..][..|p| - 1] == p[1..];
      BeforeExtend(p[1..], s[1..], c);
    }
  }

  /** The two archives a query can be generated for. */
  datatype Target = Exoplanet | Gaia

  /** The table reference each target's query must contain, in lower case. */
  function TableRef(t: Target): string {
    match t
    case Exoplanet => "from ps"
    case Gaia => "from gaiadr3.gaia_source"
  }

  /** The name used in the "Invalid ... from Claude" message. */
  function Dialect(t: Target): string {
    match t
    case Exoplanet => "SQL"
    case Gaia => "ADQL"
  }

  /** The allow-list check: lower-cased, the query starts with `select`
      and contains the target's table reference somewhere. */
  predicate ShapeOk(q: string, t: Target) {
    StartsWith(Lower(q), "select") && Contains(Lower(q), TableRef(t))
  }

  /** The shape check ignores ASCII case. */
  lemma ShapeOkIgnoresCase(q: string, t: Target)
    ensures ShapeOk(Lower(q), t) == ShapeOk(q, t)
  {
    LowerIdempotent(q);
  }

  /** What `get_sql` / `get_adql` make of the service's reply: a failed
      call or an empty completion propagates; otherwise the cleaned text
      is returned, in its original case, exactly when it passes the shape
      check, and is refused with `ValueError` carrying it when not. */
  function GenerateQuery(t: Target, reply: Result<string>): (r: Result<string>)
    ensures reply.Err? ==> r == Err(reply.error)
    ensures reply.Ok? && CleanQuery(reply.value).Err? ==> r == Err(NoFirstLine)
    ensures reply.Ok? && CleanQuery(reply.value).Ok? ==>
              var q := CleanQuery(reply.value).value;
              r == if ShapeOk(q, t) then Ok(q) else Err(InvalidQuery(Dialect(t), q))
    ensures r.Ok? ==> ShapeOk(r.value, t) && IsCleaned(r.value)
  {
    match reply
    case Err(e) => Err(e)
    case Ok(content) =>
      match CleanQuery(content)
      case Err(e) => Err(e)
      case Ok(q) => if ShapeOk(q, t) then Ok(q) else Err(InvalidQuery(Dialect(t), q))
  }

  /** The allow-list check on four completions: the verb must be SELECT,
      the table reference must be the target's, and an accepted query
      keeps its case. */
  lemma ShapeRejectsDelete()
    ensures GenerateQuery(Exoplanet, Ok("DELETE FROM ps")) == Err(InvalidQuery("SQL", "DELETE FROM ps"))
  {
    assert IsCleaned("DELETE FROM ps");
    assert !ShapeOk("DELETE FROM ps", Exoplanet) by {
      assert Lower("DELETE FROM ps")[0] == 'd';
    }
    GenerateOnCleaned(Exoplanet, "DELETE FROM ps");
  }

  lemma ShapeAcceptsSelectFromPs()
    ensures GenerateQuery(Exoplanet, Ok("SELECT pl_name FROM ps LIMIT 5")) == Ok("SELECT pl_name FROM ps LIMIT 5")
  {
    PsQueryCleaned();
    SelectFromPs();
    GenerateOnCleaned(Exoplanet, "SELECT pl_name FROM ps LIMIT 5");
  }

  lemma PsQueryCleaned()
    ensures IsCleaned("SELECT pl_name FROM ps LIMIT 5")
  {
  }

  lemma SelectFromPs()
    ensures ShapeOk("SELECT pl_name FROM ps LIMIT 5", Exoplanet)
  {
    var q := "SELECT pl_name FROM ps LIMIT 5";
    LowerSlice(q, 0, 6);
    assert q[0..6] == "SELECT";
    assert Lower("SELECT") == "select";
    assert OccursAt(Lower(q), "from ps", 15) by {
      assert Lower(q)[15..22] == "from ps";
    }
  }

  lemma ShapeRejectsOtherTable()
    ensures GenerateQuery(Gaia, Ok("SELECT * FROM stars")) == Err(InvalidQuery("ADQL", "SELECT * FROM stars"))
  {
    StarsQueryCleaned();
    assert !ShapeOk("SELECT * FROM stars", Gaia) by {
      assert |Lower("SELECT * FROM stars")| < |TableRef(Gaia)|;
    }
    GenerateOnCleaned(Gaia, "SELECT * FROM stars");
  }

  lemma StarsQueryCleaned()
    ensures IsCleaned("SELECT * FROM stars")
  {
  }

  lemma ShapeAcceptsSelectFromGaia()
    ensures GenerateQuery(Gaia, Ok("SELECT ra, dec FROM gaiadr3.gaia_source WHERE phot_g_mean_mag < 10"))
              == Ok("SELECT ra, dec FROM gaiadr3.gaia_source WHERE phot_g_mean_mag < 10")
  {
    GaiaQueryCleaned();
    SelectFromGaia();
    GenerateOnCleaned(Gaia, "SELECT ra, dec FROM gaiadr3.gaia_source WHERE phot_g_mean_mag < 10");
  }

  /** The accepted ADQL example, in three pieces: the select list, the
      table and the filter. */
  lemma GaiaQueryPieces()
    ensures "SELECT ra, dec FROM " + "gaiadr3.gaia_source" == "SELECT ra, dec FROM gaiadr3.gaia_source"
    ensures "SELECT ra, dec FROM gaiadr3.gaia_source" + " WHERE phot_g_mean_mag < 10"
              == "SELECT ra, dec FROM gaiadr3.gaia_source WHERE phot_g_mean_mag < 10"
  {
  }

  lemma GaiaQueryCleaned()
    ensures IsCleaned("SELECT ra, dec FROM gaiadr3.gaia_source WHERE phot_g_mean_mag < 10")
  {
    var a, b, c := "SELECT ra, dec FROM ", "gaiadr3.gaia_source", " WHERE phot_g_mean_mag < 10";
    GaiaQueryPieces();
    GaiaSelectPart();
    GaiaTablePart();
    GaiaFilterPart();
    OneLineConcat(a, b);
    OneLineConcat(a + b, c);
    assert ';' !in a + b;
    assert ';' !in a + b + c;
    assert (a + b + c)[0] == 'S' && (a + b + c)[|a + b + c| - 1] == c[|c| - 1] == '0';
  }

  lemma GaiaSelectPart()
    ensures OneLine("SELECT ra, dec FROM ") && ';' !in "SELECT ra, dec FROM "
  {
  }

  lemma GaiaTablePart()
    ensures OneLine("gaiadr3.gaia_source") && ';' !in "gaiadr3.gaia_source"
  {
  }

  lemma GaiaFilterPart()
    ensures OneLine(" WHERE phot_g_mean_mag < 10") && ';' !in " WHERE phot_g_mean_mag < 10"
  {
  }

  /** The select at the start and the table reference in the first 39
      characters survive appending the filter. */
  lemma SelectFromGaia()
    ensures ShapeOk("SELECT ra, dec FROM gaiadr3.gaia_source WHERE phot_g_mean_mag < 10", Gaia)
  {
    var ab, c := "SELECT ra, dec FROM gaiadr3.gaia_source", " WHERE phot_g_mean_mag < 10";
    GaiaQueryPieces();
    GaiaQuerySelects();
    GaiaQueryNamesTable();
    LowerStartsWithConcat(ab, c, "select");
    LowerOccursConcat(ab, c, TableRef(Gaia), 15);
  }

  lemma GaiaQuerySelects()
    ensures StartsWith(Lower("SELECT ra, dec FROM gaiadr3.gaia_source"), "select")
  {
    var q := "SELECT ra, dec FROM gaiadr3.gaia_source";
    assert q[0] == 'S' && q[1] == 'E' && q[2] == 'L' && q[3] == 'E' && q[4] == 'C' && q[5] == 'T';
    LowerSlice(q, 0, 6);
    assert Lower("SELECT") == "select";
  }

  lemma GaiaQueryNamesTable()
    ensures OccursAt(Lower("SELECT ra, dec FROM gaiadr3.gaia_source"), "from gaiadr3.gaia_source", 15)
  {
    var q := "SELECT ra, dec FROM gaiadr3.gaia_source";
    GaiaQueryTail();
    GaiaTableLower();
    assert |q| == 39;
    LowerSlice(q, 15, 39);
  }

  lemma GaiaQueryTail()
    ensures "SELECT ra, dec FROM gaiadr3.gaia_source"[15..] == "FROM gaiadr3.gaia_source"
  {
  }

  lemma GaiaTableLower()
    ensures Lower("FROM gaiadr3.gaia_source") == "from gaiadr3.gaia_source"
  {
  }

  /** A completion that is already one clean statement is accepted or
      refused as it stands. */
  lemma GenerateOnCleaned(t: Target, q: string)
    requires q != [] && IsCleaned(q)
    ensures GenerateQuery(t, Ok(q)) == if ShapeOk(q, t) then Ok(q) else Err(InvalidQuery(Dialect(t), q))
  {
    OneLineCleans(q);
  }

  /** A completion that is already one clean statement is its own cleanup. */
  lemma OneLineCleans(q: string)
    requires q != [] && IsCleaned(q)
    ensures CleanQuery(q) == Ok(q)
  {
    assert !IsSpace(q[0]);
    FirstLineOfOneLine(q);
  }

  /** `get_sql(nl, history)`: the exoplanet query, appended to the caller's
      history as an assistant turn when it is accepted and not otherwise. */
  method GetSql(nl: string, history: History, complete: Completer) returns (r: Result<string>)
    modifies history
    ensures r == GenerateQuery(Exoplanet, complete(old(history.turns), SqlRequest(nl)))
    ensures r.Ok? ==> history.turns == old(history.turns) + [Turn(Assistant, r.value)]
    ensures r.Err? ==> history.turns == old(history.turns)
  {
    var reply := complete(history.turns, SqlRequest(nl));
    r := GenerateQuery(Exoplanet, reply);
    if r.Ok? {
      history.Append(Turn(Assistant, r.value));
    }
  }

  /** `get_adql(nl, history)`: the same for the star catalogue. */
  method GetAdql(nl: string, history: History, complete: Completer) returns (r: Result<string>)
    modifies history
    ensures r == GenerateQuery(Gaia, complete(old(history.turns), AdqlRequest(nl)))
    ensures r.Ok? ==> history.turns == old(history.turns) + [Turn(Assistant, r.value)]
    ensures r.Err? ==> history.turns == old(history.turns)
  {
    var reply := complete(history.turns, AdqlRequest(nl));
    r := GenerateQuery(Gaia, reply);
    if r.Ok? {
      history.Append(Turn(Assistant, r.value));
    }
  }

  // ---------------------------------------------------------------------
  // General answers

  /** What `answer_general` makes of the reply: the completion, stripped;
      there is no shape check. */
  function TutorAnswer(reply: Result<string>): (r: Result<string>)
    ensures r.Ok? <==> reply.Ok?
    ensures reply.Err? ==> r.error == reply.error
    ensures r.Ok? ==> IsStripped(r.value) && Strip(reply.value) == r.value
  {
    match reply
    case Err(e) => Err(e)
    case Ok(content) => Ok(Strip(content))
  }

  /** `answer_general(nl, history)`: the answer is appended as it is
      returned. */
  method AnswerGeneral(nl: string, history: History, complete: Completer) returns (r: Result<string>)
    modifies history
    ensures r == TutorAnswer(complete(old(history.turns), TutorRequest(nl)))
    ensures r.Ok? ==> history.turns == old(history.turns) + [Turn(Assistant, r.value)]
    ensures r.Err? ==> history.turns == old(history.turns)
  {
    var reply := complete(history.turns, TutorRequest(nl));
    r := TutorAnswer(reply);
    if r.Ok? {
      history.Append(Turn(Assistant, r.value));
    }
  }
}

/** The `/query` endpoint: a store of conversation histories keyed by
    user id, and one request that records the utterance, classifies it,
    dispatches on the label and maps every exception to one error reply. */
module App {
  import opened Text
  import opened Conversation
  import opened Translator

  /** The only user id the endpoint ever uses. */
  const DefaultUser: string := "default_user"

  /** What the INVALID branch records and what it answers. */
  const InvalidTurn: string := "Invalid question."
  const InvalidMessage: string := "Please ask an astronomy-related question."

  /** The name the IMAGE branch calls without importing it. */
  const MissingName: string := "fetch_image"

  /** The reply of the endpoint: one of the typed payloads, or the HTTP
      error that the catch-all handler raises. */
  datatype Response<D> =
    | SqlAnswer(sql: string, data: D)
    | GaiaAnswer(adql: string, data: D)
    | GeneralAnswer(answer: string)
    | InvalidAnswer(message: string)
    | HttpError(status: int, detail: string)

  /** `HTTPException(status_code=500, detail=f"Internal error: {str(e)}")` */
  function Failure<D>(e: Error): Response<D> {
    HttpError(500, "Internal error: " + Message(e))
  }

  /** An outbound call.  The trace of these lets the contracts say which
      query reached which archive, and that some branches reach none. */
  datatype Call =
    | AskModel(prompt: Prompt)
    | QueryExoplanet(sql: string)
    | QueryGaia(adql: string)

  /** One request's effect, given the user's history before it: the reply,
      the whole history after it, and the outbound calls in order. */
  datatype Exchange<D> = Exchange(response: Response<D>, history: seq<Turn>, calls: seq<Call>)

  /** An archive call only ever carries a query that passed its target's
      shape check and the cleanup. */
  predicate Checked(c: Call) {
    match c
    case AskModel(_) => true
    case QueryExoplanet(sql) => ShapeOk(sql, Exoplanet) && IsCleaned(sql)
    case QueryGaia(adql) => ShapeOk(adql, Gaia) && IsCleaned(adql)
  }

  /** `h` extended by `n` assistant turns, for some `n` in `lo..hi`. */
  predicate ExtendsByAssistant(h: seq<Turn>, h': seq<Turn>, lo: nat, hi: nat) {
    |h| + lo <= |h'| <= |h| + hi && h'[..|h|] == h
    && forall i :: |h| <= i < |h'| ==> h'[i].role == Assistant
  }

  /** The completion request, the archive call, the reply and the history
      tag of the two query branches. */
  function QueryPrompt(t: Target, q: string): Prompt {
    match t
    case Exoplanet => SqlRequest(q)
    case Gaia => AdqlRequest(q)
  }

  function Fetch(t: Target, query: string): Call {
    match t
    case Exoplanet => QueryExoplanet(query)
    case Gaia => QueryGaia(query)
  }

  function Answer<D>(t: Target, query: string, data: D): Response<D> {
    match t
    case Exoplanet => SqlAnswer(query, data)
    case Gaia => GaiaAnswer(query, data)
  }

  function Tag(t: Target): string {
    match t
    case Exoplanet => "SQL: "
    case Gaia => "ADQL: "
  }

  /** The label the endpoint dispatches on for utterance `q` after `h0`:
      the classifier sees the history with the utterance recorded, and the
      utterance once more after it. */
  function Intent(h0: seq<Turn>, q: string, complete: Completer): Result<Label> {
    Classify(complete(h0 + [Turn(User, q)] + [Turn(User, q)], ClassifierInstruction))
  }

  /** The SQL and GAIA branches once the label is recorded in `h2` and
      `gen` is what became of the reply to `QueryPrompt(t, q)`: fetch the
      query, record it, then record it again tagged "SQL: "/"ADQL: ". */
  function QueryCycle<D>(t: Target, h2: seq<Turn>, q: string, gen: Result<string>,
                         fetch: string -> Result<D>): Exchange<D>
  {
    var calls := [AskModel(QueryPrompt(t, q))];
    match gen
    case Err(e) => Exchange(Failure(e), h2, calls)
    case Ok(query) =>
      var h3 := h2 + [Turn(Assistant, query)];
      match fetch(query)
      case Err(e) => Exchange(Failure(e), h3, calls + [Fetch(t, query)])
      case Ok(data) => Exchange(Answer(t, query, data), h3 + [Turn(Assistant, Tag(t) + query)], calls + [Fetch(t, query)])
  }

  /** The query the service's reply to `QueryPrompt(t, q)` makes. */
  function Generated(t: Target, h2: seq<Turn>, q: string, complete: Completer): Result<string> {
    GenerateQuery(t, complete(h2, QueryPrompt(t, q)))
  }

  /** The GENERAL branch once the label is recorded in `h2` and `ans` is
      what became of the tutor's reply: the answer is recorded once by the
      translator and once more by the handler. */
  function GeneralCycle<D>(h2: seq<Turn>, q: string, ans: Result<string>): Exchange<D>
  {
    var calls := [AskModel(TutorRequest(q))];
    match ans
    case Err(e) => Exchange(Failure(e), h2, calls)
    case Ok(answer) => Exchange(GeneralAnswer(answer), h2 + [Turn(Assistant, answer), Turn(Assistant, answer)], calls)
  }

  /** The answer the tutor's reply makes. */
  function Tutored(h2: seq<Turn>, q: string, complete: Completer): Result<string> {
    TutorAnswer(complete(h2, TutorRequest(q)))
  }

  /** The dispatch on the label, once it is recorded in `h2`. */
  function Route<D>(intent: Label, h2: seq<Turn>, q: string, complete: Completer,
                    exoplanets: string -> Result<D>, gaia: string -> Result<D>): Exchange<D>
  {
    match intent
    case SQL => QueryCycle(Exoplanet, h2, q, Generated(Exoplanet, h2, q, complete), exoplanets)
    case GAIA => QueryCycle(Gaia, h2, q, Generated(Gaia, h2, q, complete), gaia)
    case GENERAL => GeneralCycle(h2, q, Tutored(h2, q, complete))
    case IMAGE =>
      // `fetch_image` is not imported: looking the name up raises.
      Exchange(Failure(NameNotDefined(MissingName)), h2, [])
    case INVALID =>
      Exchange(InvalidAnswer(InvalidMessage), h2 + [Turn(Assistant, InvalidTurn)], [])
  }

  /** A classified request: the branch's effect, with the classifier's
      call ahead of the branch's own calls. */
  function Classified<D>(x: Exchange<D>): Exchange<D> {
    Exchange(x.response, x.history, [AskModel(ClassifierInstruction)] + x.calls)
  }

  /** The reference meaning of one request.  `h0` is the user's history
      beforehand, `complete` the completion service and `exoplanets`,
      `gaia` the two archive fetchers. */
  function Serve<D>(h0: seq<Turn>, q: string, complete: Completer,
                    exoplanets: string -> Result<D>, gaia: string -> Result<D>): Exchange<D>
  {
    var h1 := h0 + [Turn(User, q)];
    match Intent(h0, q, complete)
    case Err(e) => Exchange(Failure(e), h1, [AskModel(ClassifierInstruction)])
    case Ok(intent) => Classified(Route(intent, h1 + [Turn(Assistant, LabelText(intent))], q, complete, exoplanets, gaia))
  }

  /** The body of the handler once the user's history list is found: the
      turns it appends and the reply it gives are those of `Serve`. */
  method Respond<D>(history: History, userQuery: string, complete: Completer,
                    exoplanets: string -> Result<D>, gaia: string -> Result<D>)
    returns (resp: Response<D>, ghost calls: seq<Call>)
    modifies history
    ensures var x := Serve(old(history.turns), userQuery, complete, exoplanets, gaia);
            resp == x.response && calls == x.calls && history.turns == x.history
  {
    ghost var h0 := history.turns;
    history.Append(Turn(User, userQuery));
    calls := [AskModel(ClassifierInstruction)];
    var qtype := ClassifyQuestion(userQuery, history, complete);
    assert qtype == Intent(h0, userQuery, complete);
    if qtype.Err? {
      resp := Failure(qtype.error);
      return;
    }
    ghost var h2 := history.turns;
    ghost var x := Serve(h0, userQuery, complete, exoplanets, gaia);
    ServeRoutes(h0, userQuery, complete, exoplanets, gaia, qtype.value);
    match qtype.value {
      case SQL =>
        RouteSql(h2, userQuery, complete, exoplanets, gaia);
        ghost var branch;
        resp, branch := RunQuery(Exoplanet, history, userQuery, complete, exoplanets);
        calls := calls + branch;
      case IMAGE =>
        RouteImage(h2, userQuery, complete, exoplanets, gaia);
        // `fetch_image` is not imported: looking the name up raises.
        resp := Failure(NameNotDefined(MissingName));
      case GENERAL =>
        RouteGeneral(h2, userQuery, complete, exoplanets, gaia);
        ghost var branch;
        resp, branch := RunGeneral(history, userQuery, complete);
        calls := calls + branch;
      case GAIA =>
        RouteGaia(h2, userQuery, complete, exoplanets, gaia);
        ghost var branch;
        resp, branch := RunQuery(Gaia, history, userQuery, complete, gaia);
        calls := calls + branch;
      case INVALID =>
        RouteInvalid(h2, userQuery, complete, exoplanets, gaia);
        history.Append(Turn(Assistant, InvalidTurn));
        resp := InvalidAnswer(InvalidMessage);
    }
  }

  /** The SQL and GAIA branches of the handler, for target `t`: generate
      the query (which records it), fetch it, record it tagged.  The calls
      returned are the branch's own. */
  method RunQuery<D>(t: Target, history: History, userQuery: string, complete: Completer,
                     fetch: string -> Result<D>)
    returns (resp: Response<D>, ghost calls: seq<Call>)
    modifies history
    ensures var x := QueryCycle(t, old(history.turns), userQuery,
                                Generated(t, old(history.turns), userQuery, complete), fetch);
            resp == x.response && calls == x.calls && history.turns == x.history
  {
    ghost var h2 := history.turns;
    var query;
    if t == Exoplanet {
      query := GetSql(userQuery, history, complete);
    } else {
      query := GetAdql(userQuery, history, complete);
    }
    assert query == Generated(t, h2, userQuery, complete);
    QueryCycleOutcome(t, h2, userQuery, query, fetch);
    calls := [AskModel(QueryPrompt(t, userQuery))];
    if query.Err? {
      resp := Failure(query.error);
    } else {
      var data := fetch(query.value);
      calls := calls + [Fetch(t, query.value)];
      if data.Err? {
        resp := Failure(data.error);
      } else {
        history.Append(Turn(Assistant, Tag(t) + query.value));
        assert history.turns == h2 + [Turn(Assistant, query.value), Turn(Assistant, Tag(t) + query.value)];
        resp := Answer(t, query.value, data.value);
      }
    }
  }

  /** The GENERAL branch of the handler: the tutor's answer, recorded
      by the translator and once more here. */
  method RunGeneral<D>(history: History, userQuery: string, complete: Completer)
    returns (resp: Response<D>, ghost calls: seq<Call>)
    modifies history
    ensures var x := GeneralCycle<D>(old(history.turns), userQuery, Tutored(old(history.turns), userQuery, complete));
            resp == x.response && calls == x.calls && history.turns == x.history
  {
    ghost var h2 := history.turns;
    var answer := AnswerGeneral(userQuery, history, complete);
    GeneralCycleOutcome<D>(h2, userQuery, answer);
    calls := [AskModel(TutorRequest(userQuery))];
    if answer.Err? {
      resp := Failure(answer.error);
    } else {
      history.Append(Turn(Assistant, answer.value));
      assert history.turns == h2 + [Turn(Assistant, answer.value), Turn(Assistant, answer.value)];
      resp := GeneralAnswer(answer.value);
    }
  }

  /** `user_histories = {}` plus the handler. */
  class Server {
    var histories: map<string, History>

    /** No two users share one history list. */
    ghost predicate Valid()
      reads this
    {
      forall u, v :: u in histories && v in histories && u != v ==> histories[u] != histories[v]
    }

    /** The store as a map from user id to turns. */
    ghost function Store(): map<string, seq<Turn>>
      reads this, histories.Values
    {
      map u | u in histories :: histories[u].turns
    }

    /** The turns of user `u`, or none before their first request. */
    ghost function TurnsOf(u: string): seq<Turn>
      reads this, histories.Values
    {
      if u in histories then histories[u].turns else []
    }

    constructor ()
      ensures Valid() && histories == map[] && Store() == map[]
    {
      histories := map[];
    }

    /** `unified_query(req)`.  The default user's history is created empty
        on first use; the request's turns are appended to it as `Serve`
        says; every other user's history is left as it was. */
    method UnifiedQuery<D>(userQuery: string, complete: Completer,
                           exoplanets: string -> Result<D>, gaia: string -> Result<D>)
      returns (resp: Response<D>, ghost calls: seq<Call>)
      requires Valid()
      modifies this, histories.Values
      ensures Valid()
      ensures histories.Keys == old(histories.Keys) + {DefaultUser}
      ensures forall h :: h in histories.Values ==> h in old(histories.Values) || fresh(h)
      ensures var x := Serve(old(TurnsOf(DefaultUser)), userQuery, complete, exoplanets, gaia);
              resp == x.response && calls == x.calls && Store() == old(Store())[DefaultUser := x.history]
    {
      var userId := DefaultUser;
      if userId !in histories {
        var created := new History();
        histories := histories[userId := created];
      }
      var history := histories[userId];
      ghost var h0 := history.turns;
      assert h0 == old(TurnsOf(DefaultUser));

      resp, calls := Respond(history, userQuery, complete, exoplanets, gaia);
      forall u | u in histories && u != userId
        ensures u in old(histories) && histories[u] == old(histories[u])
        ensures histories[u].turns == old(histories[u].turns)
      {
      }
    }
  }

  /** The store lives across requests: two requests in a row on a new
      server leave the default user's history as `Serve` applied twice,
      the second time on the history the first one left. */
  method TwoRequests<D>(first: string, second: string, complete: Completer,
                        exoplanets: string -> Result<D>, gaia: string -> Result<D>)
    returns (srv: Server, resp1: Response<D>, resp2: Response<D>)
    ensures var x1 := Serve([], first, complete, exoplanets, gaia);
            var x2 := Serve(x1.history, second, complete, exoplanets, gaia);
            && resp1 == x1.response && resp2 == x2.response
            && srv.Valid() && srv.Store() == map[DefaultUser := x2.history]
  {
    srv := new Server();
    ghost var calls;
    resp1, calls := srv.UnifiedQuery(first, complete, exoplanets, gaia);
    resp2, calls := srv.UnifiedQuery(second, complete, exoplanets, gaia);
  }

  // -----------------------------------------------------------------------
  // What one request does, by branch

  /** A request only appends: it first records the utterance, then one to
      three assistant turns (the label and up to two more), or none when
      the classification fails. */
  lemma ServeAppendsOnly<D>(h0: seq<Turn>, q: string, complete: Completer,
                            exoplanets: string -> Result<D>, gaia: string -> Result<D>)
    ensures ExtendsByAssistant(h0 + [Turn(User, q)], Serve(h0, q, complete, exoplanets, gaia).history, 0, 3)
  {
    var h1 := h0 + [Turn(User, q)];
    match Intent(h0, q, complete)
    case Err(_) =>
      AppendAssistant(h1, [], 0, 3);
      assert h1 + [] == h1;
    case Ok(intent) =>
      var labelTurn := Turn(Assistant, LabelText(intent));
      RouteExtends(intent, h1 + [labelTurn], q, complete, exoplanets, gaia);
      ExtendsAfterOne(h1, labelTurn, Route(intent, h1 + [labelTurn], q, complete, exoplanets, gaia).history);
  }

  /** `h + tail` extends `h` when `tail` is a short run of assistant turns. */
  lemma AppendAssistant(h: seq<Turn>, tail: seq<Turn>, lo: nat, hi: nat)
    requires lo <= |tail| <= hi
    requires forall i :: 0 <= i < |tail| ==> tail[i].role == Assistant
    ensures ExtendsByAssistant(h, h + tail, lo, hi)
  {
    assert (h + tail)[..|h|] == h;
  }

  /** Extending after one more assistant turn extends by one more. */
  lemma ExtendsAfterOne(h: seq<Turn>, t: Turn, h': seq<Turn>)
    requires t.role == Assistant && ExtendsByAssistant(h + [t], h', 0, 2)
    ensures ExtendsByAssistant(h, h', 1, 3)
  {
    assert h'[..|h|] == (h + [t])[..|h|];
  }

  /** Each branch appends at most two assistant turns after the label. */
  lemma RouteExtends<D>(intent: Label, h2: seq<Turn>, q: string, complete: Completer,
                        exoplanets: string -> Result<D>, gaia: string -> Result<D>)
    ensures ExtendsByAssistant(h2, Route(intent, h2, q, complete, exoplanets, gaia).history, 0, 2)
  {
    match intent
    case SQL => QueryExtends(Exoplanet, h2, q, Generated(Exoplanet, h2, q, complete), exoplanets);
    case GAIA => QueryExtends(Gaia, h2, q, Generated(Gaia, h2, q, complete), gaia);
    case GENERAL =>
      var ans := Tutored(h2, q, complete);
      if ans.Ok? {
        AppendAssistant(h2, [Turn(Assistant, ans.value), Turn(Assistant, ans.value)], 0, 2);
      } else {
        AppendAssistant(h2, [], 0, 2);
        assert h2 + [] == h2;
      }
    case IMAGE =>
      AppendAssistant(h2, [], 0, 2);
      assert h2 + [] == h2;
    case INVALID =>
      AppendAssistant(h2, [Turn(Assistant, InvalidTurn)], 0, 2);
  }

  lemma QueryExtends<D>(t: Target, h2: seq<Turn>, q: string, gen: Result<string>,
                        fetch: string -> Result<D>)
    ensures ExtendsByAssistant(h2, QueryCycle(t, h2, q, gen, fetch).history, 0, 2)
  {
    if gen.Err? {
      AppendAssistant(h2, [], 0, 2);
      assert h2 + [] == h2;
    } else if fetch(gen.value).Err? {
      AppendAssistant(h2, [Turn(Assistant, gen.value)], 0, 2);
    } else {
      AppendAssistant(h2, [Turn(Assistant, gen.value), Turn(Assistant, Tag(t) + gen.value)], 0, 2);
      assert h2 + [Turn(Assistant, gen.value)] + [Turn(Assistant, Tag(t) + gen.value)]
          == h2 + [Turn(Assistant, gen.value), Turn(Assistant, Tag(t) + gen.value)];
    }
  }

  /** Once classified, the request is the dispatch on its label, with
      the utterance and the label recorded. */
  lemma ServeRoutes<D>(h0: seq<Turn>, q: string, complete: Completer,
                       exoplanets: string -> Result<D>, gaia: string -> Result<D>, intent: Label)
    requires Intent(h0, q, complete) == Ok(intent)
    ensures Serve(h0, q, complete, exoplanets, gaia)
            == Classified(Route(intent, h0 + [Turn(User, q), Turn(Assistant, LabelText(intent))], q, complete, exoplanets, gaia))
  {
    assert h0 + [Turn(User, q)] + [Turn(Assistant, LabelText(intent))]
        == h0 + [Turn(User, q), Turn(Assistant, LabelText(intent))];
  }

  /** What `Route` is on each label. */
  lemma RouteSql<D>(h2: seq<Turn>, q: string, complete: Completer,
                    exoplanets: string -> Result<D>, gaia: string -> Result<D>)
    ensures Route(SQL, h2, q, complete, exoplanets, gaia)
            == QueryCycle(Exoplanet, h2, q, Generated(Exoplanet, h2, q, complete), exoplanets)
  {
  }

  lemma RouteGaia<D>(h2: seq<Turn>, q: string, complete: Completer,
                     exoplanets: string -> Result<D>, gaia: string -> Result<D>)
    ensures Route(GAIA, h2, q, complete, exoplanets, gaia)
            == QueryCycle(Gaia, h2, q, Generated(Gaia, h2, q, complete), gaia)
  {
  }

  lemma RouteGeneral<D>(h2: seq<Turn>, q: string, complete: Completer,
                        exoplanets: string -> Result<D>, gaia: string -> Result<D>)
    ensures Route(GENERAL, h2, q, complete, exoplanets, gaia) == GeneralCycle(h2, q, Tutored(h2, q, complete))
  {
  }

  lemma RouteImage<D>(h2: seq<Turn>, q: string, complete: Completer,
                      exoplanets: string -> Result<D>, gaia: string -> Result<D>)
    ensures Route(IMAGE, h2, q, complete, exoplanets, gaia)
            == Exchange(Failure(NameNotDefined(MissingName)), h2, [])
  {
  }

  lemma RouteInvalid<D>(h2: seq<Turn>, q: string, complete: Completer,
                        exoplanets: string -> Result<D>, gaia: string -> Result<D>)
    ensures Route(INVALID, h2, q, complete, exoplanets, gaia)
            == Exchange(InvalidAnswer(InvalidMessage), h2 + [Turn(Assistant, InvalidTurn)], [])
  {
  }

  /** A classification failure ends the request with the error reply and
      leaves the utterance without any assistant turn after it. */
  lemma ServeClassificationFailure<D>(h0: seq<Turn>, q: string, complete: Completer,
                                      exoplanets: string -> Result<D>, gaia: string -> Result<D>)
    requires Intent(h0, q, complete).Err?
    ensures var x := Serve(h0, q, complete, exoplanets, gaia);
            && x.response == Failure(Intent(h0, q, complete).error)
            && x.history == h0 + [Turn(User, q)]
            && x.calls == [AskModel(ClassifierInstruction)]
  {
  }

  /** An SQL label sends the request down the exoplanet branch with the
      utterance and the label recorded; a GAIA label down the Gaia branch. */
  lemma ServeSql<D>(h0: seq<Turn>, q: string, complete: Completer,
                    exoplanets: string -> Result<D>, gaia: string -> Result<D>)
    requires Intent(h0, q, complete) == Ok(SQL)
    ensures var h2 := h0 + [Turn(User, q), Turn(Assistant, "SQL")];
            Serve(h0, q, complete, exoplanets, gaia)
            == Classified(QueryCycle(Exoplanet, h2, q, GenerateQuery(Exoplanet, complete(h2, SqlRequest(q))), exoplanets))
  {
    ServeRoutes(h0, q, complete, exoplanets, gaia, SQL);
    RouteSql(h0 + [Turn(User, q), Turn(Assistant, "SQL")], q, complete, exoplanets, gaia);
  }

  lemma ServeGaia<D>(h0: seq<Turn>, q: string, complete: Completer,
                     exoplanets: string -> Result<D>, gaia: string -> Result<D>)
    requires Intent(h0, q, complete) == Ok(GAIA)
    ensures var h2 := h0 + [Turn(User, q), Turn(Assistant, "GAIA")];
            Serve(h0, q, complete, exoplanets, gaia)
            == Classified(QueryCycle(Gaia, h2, q, GenerateQuery(Gaia, complete(h2, AdqlRequest(q))), gaia))
  {
    ServeRoutes(h0, q, complete, exoplanets, gaia, GAIA);
    RouteGaia(h0 + [Turn(User, q), Turn(Assistant, "GAIA")], q, complete, exoplanets, gaia);
  }

  /** One query cycle: the archive receives exactly the generated query;
      a success records the query and then the tagged query and replies
      with both the query and the rows; a failed fetch keeps the query turn
      but not the tagged one; a failed generation reaches no archive and
      records nothing. */
  lemma QueryCycleOutcome<D>(t: Target, h2: seq<Turn>, q: string, gen: Result<string>,
                             fetch: string -> Result<D>)
    ensures var x := QueryCycle(t, h2, q, gen, fetch);
            && (gen.Err? ==> x.response == Failure(gen.error) && x.history == h2
                             && x.calls == [AskModel(QueryPrompt(t, q))])
            && (gen.Ok? ==>
                  && x.calls == [AskModel(QueryPrompt(t, q)), Fetch(t, gen.value)]
                  && (fetch(gen.value).Err? ==>
                        x.response == Failure(fetch(gen.value).error)
                        && x.history == h2 + [Turn(Assistant, gen.value)])
                  && (fetch(gen.value).Ok? ==>
                        x.response == Answer(t, gen.value, fetch(gen.value).value)
                        && x.history == h2 + [Turn(Assistant, gen.value), Turn(Assistant, Tag(t) + gen.value)]))
  {
  }

  /** The GENERAL branch records the answer twice: once in the translator
      and once in the router. */
  lemma GeneralCycleOutcome<D>(h2: seq<Turn>, q: string, ans: Result<string>)
    ensures var x := GeneralCycle<D>(h2, q, ans);
            && x.calls == [AskModel(TutorRequest(q))]
            && (ans.Err? ==> x.response == Failure(ans.error) && x.history == h2)
            && (ans.Ok? ==> x.response == GeneralAnswer(ans.value)
                            && x.history == h2 + [Turn(Assistant, ans.value), Turn(Assistant, ans.value)])
  {
  }

  lemma ServeGeneralRoute<D>(h0: seq<Turn>, q: string, complete: Completer,
                             exoplanets: string -> Result<D>, gaia: string -> Result<D>)
    requires Intent(h0, q, complete) == Ok(GENERAL)
    ensures var h2 := h0 + [Turn(User, q), Turn(Assistant, LabelText(GENERAL))];
            Serve(h0, q, complete, exoplanets, gaia) == Classified(GeneralCycle(h2, q, Tutored(h2, q, complete)))
  {
    ServeRoutes(h0, q, complete, exoplanets, gaia, GENERAL);
    RouteGeneral(h0 + [Turn(User, q), Turn(Assistant, LabelText(GENERAL))], q, complete, exoplanets, gaia);
  }

  /** The INVALID branch answers with the fixed message, records
      "Invalid question." and calls nothing after the classifier. */
  lemma ServeInvalid<D>(h0: seq<Turn>, q: string, complete: Completer,
                        exoplanets: string -> Result<D>, gaia: string -> Result<D>)
    requires Intent(h0, q, complete) == Ok(INVALID)
    ensures var x := Serve(h0, q, complete, exoplanets, gaia);
            && x.response == InvalidAnswer(InvalidMessage)
            && x.history == h0 + [Turn(User, q), Turn(Assistant, "INVALID"), Turn(Assistant, InvalidTurn)]
            && x.calls == [AskModel(ClassifierInstruction)]
  {
    ServeRoutes(h0, q, complete, exoplanets, gaia, INVALID);
    RouteInvalid(h0 + [Turn(User, q), Turn(Assistant, "INVALID")], q, complete, exoplanets, gaia);
    var h2 := h0 + [Turn(User, q), Turn(Assistant, "INVALID")];
    assert h2 + [Turn(Assistant, InvalidTurn)]
        == h0 + [Turn(User, q), Turn(Assistant, "INVALID"), Turn(Assistant, InvalidTurn)];
  }

  /** As written, the IMAGE branch always ends in the error reply for the
      undefined `fetch_image`; the label turn stays recorded. */
  lemma ServeImageAlwaysFails<D>(h0: seq<Turn>, q: string, complete: Completer,
                                 exoplanets: string -> Result<D>, gaia: string -> Result<D>)
    requires Intent(h0, q, complete) == Ok(IMAGE)
    ensures var x := Serve(h0, q, complete, exoplanets, gaia);
            && x.response == Failure(NameNotDefined("fetch_image"))
            && x.history == h0 + [Turn(User, q), Turn(Assistant, "IMAGE")]
            && x.calls == [AskModel(ClassifierInstruction)]
  {
    ServeRoutes(h0, q, complete, exoplanets, gaia, IMAGE);
    RouteImage(h0 + [Turn(User, q), Turn(Assistant, "IMAGE")], q, complete, exoplanets, gaia);
  }

  /** The error reply: status 500 and a detail that starts "Internal error: ". */
  predicate IsErrorReply<D>(r: Response<D>) {
    r.HttpError? && r.status == 500 && StartsWith(r.detail, "Internal error: ")
  }

  lemma FailureIsErrorReply<D>(e: Error)
    ensures IsErrorReply(Failure<D>(e))
  {
    var p := "Internal error: ";
    assert (p + Message(e))[..|p|] == p;
  }

  /** Every error a request can end in is the one error reply. */
  lemma ServeErrorReply<D>(h0: seq<Turn>, q: string, complete: Completer,
                           exoplanets: string -> Result<D>, gaia: string -> Result<D>)
    ensures var x := Serve(h0, q, complete, exoplanets, gaia);
            x.response.HttpError? ==> IsErrorReply(x.response)
  {
    var h1 := h0 + [Turn(User, q)];
    match Intent(h0, q, complete)
    case Err(e) => FailureIsErrorReply<D>(e);
    case Ok(intent) =>
      var h2 := h1 + [Turn(Assistant, LabelText(intent))];
      match intent {
        case SQL => QueryErrorReply(Exoplanet, h2, q, Generated(Exoplanet, h2, q, complete), exoplanets);
        case GAIA => QueryErrorReply(Gaia, h2, q, Generated(Gaia, h2, q, complete), gaia);
        case GENERAL =>
          var ans := Tutored(h2, q, complete);
          if ans.Err? { FailureIsErrorReply<D>(ans.error); }
        case IMAGE => FailureIsErrorReply<D>(NameNotDefined(MissingName));
        case INVALID =>
      }
  }

  lemma QueryErrorReply<D>(t: Target, h2: seq<Turn>, q: string, gen: Result<string>,
                           fetch: string -> Result<D>)
    ensures var x := QueryCycle(t, h2, q, gen, fetch);
            x.response.HttpError? ==> IsErrorReply(x.response)
  {
    if gen.Err? {
      FailureIsErrorReply<D>(gen.error);
    } else if fetch(gen.value).Err? {
      FailureIsErrorReply<D>(fetch(gen.value).error);
    }
  }

  /** An archive call carrying an accepted query is a checked call. */
  lemma FetchChecked(t: Target, query: string)
    requires ShapeOk(query, t) && IsCleaned(query)
    ensures Checked(Fetch(t, query))
  {
    match t
    case Exoplanet => assert Fetch(t, query) == QueryExoplanet(query);
    case Gaia => assert Fetch(t, query) == QueryGaia(query);
  }

  lemma QueryChecked<D>(t: Target, h2: seq<Turn>, q: string, gen: Result<string>,
                        fetch: string -> Result<D>)
    requires gen.Ok? ==> ShapeOk(gen.value, t) && IsCleaned(gen.value)
    ensures forall c :: c in QueryCycle(t, h2, q, gen, fetch).calls ==> Checked(c)
  {
    var x := QueryCycle(t, h2, q, gen, fetch);
    var asks := [AskModel(QueryPrompt(t, q))];
    assert Checked(asks[0]);
    if gen.Ok? {
      FetchChecked(t, gen.value);
      assert x.calls == asks + [Fetch(t, gen.value)];
    } else {
      assert x.calls == asks;
    }
  }

  /** Only queries that passed their target's shape check, and the
      cleanup, ever reach an archive; IMAGE and INVALID, and a failed
      classification, reach nothing after the classifier. */
  lemma ServeOnlyCheckedQueriesReachArchives<D>(h0: seq<Turn>, q: string, complete: Completer,
                                                exoplanets: string -> Result<D>, gaia: string -> Result<D>)
    ensures var x := Serve(h0, q, complete, exoplanets, gaia);
            && (forall c :: c in x.calls ==> Checked(c))
            && (x.calls == [AskModel(ClassifierInstruction)]
                <==> Intent(h0, q, complete) !in {Ok(SQL), Ok(GAIA), Ok(GENERAL)})
  {
    var h1 := h0 + [Turn(User, q)];
    var x := Serve(h0, q, complete, exoplanets, gaia);
    var ask := AskModel(ClassifierInstruction);
    assert Checked(ask);
    match Intent(h0, q, complete)
    case Err(_) =>
    case Ok(intent) =>
      var h2 := h1 + [Turn(Assistant, LabelText(intent))];
      match intent {
        case SQL =>
          QueryChecked(Exoplanet, h2, q, Generated(Exoplanet, h2, q, complete), exoplanets);
          QueryCycleOutcome(Exoplanet, h2, q, Generated(Exoplanet, h2, q, complete), exoplanets);
        case GAIA =>
          QueryChecked(Gaia, h2, q, Generated(Gaia, h2, q, complete), gaia);
          QueryCycleOutcome(Gaia, h2, q, Generated(Gaia, h2, q, complete), gaia);
        case GENERAL =>
          assert x.calls == [ask] + [AskModel(TutorRequest(q))];
          assert Checked(AskModel(TutorRequest(q)));
        case IMAGE =>
        case INVALID =>
      }
  }
}

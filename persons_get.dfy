/** persons/Get.java: fetch one person by id and return it in the shape the
    fetch type asks for (new-style task). */
module PersonsGet {
  import opened Model
  import opened Text
  import opened Client
  import opened TaskCommon

  /** Kestra's `FetchType`: STORE, FETCH, FETCH_ONE and NONE. */
  datatype FetchType = Store | Fetch | FetchOne | NoFetch

  datatype Config = Config(apiToken: Prop<string>, apiUrl: Prop<string>, personId: Prop<int>,
                           fetchType: Prop<FetchType>)

  /** What the internal storage gives back for the STORE branch: the URI of
      the file the person was written to, and the count `writeAll`
      reported, which may be null. */
  datatype Stored = Stored(uri: string, written: Option<int>)

  /** The task output: one person, a list of persons, or a stored file, and
      a count. */
  datatype Output = Output(person: Option<Person>, persons: Option<seq<Person>>, uri: Option<string>,
                           count: Option<int>)

  const PersonIdRequired := "Person ID is required"
  const FailurePrefix := "Failed to get person: "

  /** The path of the person: "/persons/" followed by the id's decimal text. */
  function PersonPath(id: int): (path: string)
    ensures |path| > 9 && path[..9] == "/persons/" && ParseInt(path[9..]) == Some(id)
  {
    IntToStringRoundTrip(id);
    "/persons/" + IntToString(id)
  }

  /** The fetch type in force: the rendered one, FETCH_ONE when it renders
      to nothing. */
  function EffectiveFetchType(p: Prop<FetchType>): (t: FetchType)
    ensures Rendered(p).Some? ==> t == Rendered(p).value
    ensures Rendered(p).None? ==> t == FetchOne
  {
    match Rendered(p)
    case Some(t) => t
    case None => FetchOne
  }

  /** The `switch` on the fetch type; NONE falls to the default branch,
      which answers like FETCH_ONE. */
  function Shape(person: Person, t: FetchType, stored: Stored): (out: Output)
    ensures t == Store ==> out.uri == Some(stored.uri) && out.person.None? && out.persons.None?
    ensures t == Store ==> out.count == Some(if stored.written.Some? then stored.written.value else 0)
    ensures t == Fetch ==> out.persons == Some([person]) && out.person.None? && out.uri.None?
    ensures t == FetchOne || t == NoFetch ==> out.person == Some(person) && out.persons.None? && out.uri.None?
    ensures t != Store ==> out.count == Some(1)
  {
    match t
    case Store => Output(None, None, Some(stored.uri), Some(match stored.written case Some(n) => n case None => 0))
    case Fetch => Output(None, Some([person]), None, Some(1))
    case FetchOne => Output(Some(person), None, None, Some(1))
    case NoFetch => Output(Some(person), None, None, Some(1))
  }

  /** Every branch but STORE hands back the fetched person itself, once. */
  lemma FetchedPersonReturned(person: Person, t: FetchType, stored: Stored)
    requires t != Store
    ensures var out := Shape(person, t, stored);
            (out.person == Some(person)) != (out.persons == Some([person]))
  {
  }

  /** Everything after the response: the success check, the dereference of
      `data` (its name is logged), and the switch. */
  function Finish(reply: Reply<Person>, t: FetchType, stored: Stored): (r: Result<Output, TaskError>)
    ensures r.Ok? <==> CheckStrict(reply, FailurePrefix).Ok?
    ensures r.Err? ==> r.error == CheckStrict(reply, FailurePrefix).error
    ensures r.Ok? ==> r.value == Shape(reply.value.data.value, t, stored)
  {
    match CheckStrict(reply, FailurePrefix)
    case Err(e) => Err(e)
    case Ok(p) => Ok(Shape(p, t, stored))
  }

  /** A rejected or empty response fails the same way whatever the fetch
      type: the type is rendered only after the success check. */
  lemma FailureIgnoresFetchType(reply: Reply<Person>, t1: FetchType, s1: Stored, t2: FetchType, s2: Stored)
    requires Finish(reply, t1, s1).Err?
    ensures Finish(reply, t2, s2) == Finish(reply, t1, s1)
  {
  }

  predicate Accepted(cfg: Config)
  {
    Rendered(cfg.apiToken).Some? && Rendered(cfg.personId).Some?
  }

  /** `run`, given what `client.get` returns and what the storage answers.
      The client is built, and closed by try-with-resources, exactly when
      the token and the id are there; the request has no body. */
  method Run(cfg: Config, reply: Reply<Person>, stored: Stored)
    returns (dispatch: Option<Dispatch<Person>>, closed: bool, r: Result<Output, TaskError>)
    ensures Rendered(cfg.apiToken).None? ==> r == Err(IllegalArgument(TokenRequired))
    ensures Rendered(cfg.apiToken).Some? && Rendered(cfg.personId).None? ==> r == Err(IllegalArgument(PersonIdRequired))
    ensures closed <==> Accepted(cfg)
    ensures dispatch.Some? <==> Accepted(cfg)
    ensures Accepted(cfg) ==>
              && dispatch.value == Dispatch(RenderApiUrl(cfg.apiUrl), Rendered(cfg.apiToken).value,
                                            ApiCall(GET, PersonPath(Rendered(cfg.personId).value), None))
              && r == Finish(reply, EffectiveFetchType(cfg.fetchType), stored)
  {
    dispatch, closed := None, false;
    var token := Require(cfg.apiToken, TokenRequired);
    if token.Err? {
      return dispatch, closed, Err(token.error);
    }
    var base := RenderApiUrl(cfg.apiUrl);
    var id := Require(cfg.personId, PersonIdRequired);
    if id.Err? {
      return dispatch, closed, Err(id.error);
    }
    dispatch := Some(Dispatch(base, token.value, ApiCall(GET, PersonPath(id.value), None)));
    r := Finish(reply, EffectiveFetchType(cfg.fetchType), stored);
    closed := true;
  }

  /** The fetch test: person 12 stored, one record written. */
  lemma StoreScenario(reply: Reply<Person>, base: string, uri: string)
    requires reply == Ok(Envelope(Some(true), Some(EmptyPerson.(id := Some(12), name := Some("Jane Doe"),
                                                                firstName := Some("Jane"), lastName := Some("Doe"))),
                                  None, None))
    ensures BuildUrl(base, PersonPath(12), "token") == base + "/persons/12?api_token=token"
    ensures Finish(reply, Store, Stored(uri, Some(1))) == Ok(Output(None, None, Some(uri), Some(1)))
  {
    PathOfTwelve();
    PersonUrlShape(base);
  }

  lemma PathOfTwelve()
    ensures PersonPath(12) == "/persons/12"
  {
    assert IntToString(12) == "12" by {
      assert NatToString(12) == NatToString(1) + [DigitChar(2)];
    }
  }
}

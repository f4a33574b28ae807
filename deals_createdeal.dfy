/** deals/CreateDeal.java: the legacy deal creation. It sends the same body
    as deals/Create.java, unboxes `success`, and echoes more of the created
    deal. */
module CreateDeal {
  import opened Model
  import opened Text
  import opened Client
  import opened TaskCommon
  import DealsCreate

  datatype Config = Config(apiToken: Prop<string>, title: Prop<string>, extras: DealsCreate.Extras)

  datatype Output = Output(dealId: Option<int>, title: Option<string>, value: Option<Decimal>,
                           currency: Option<string>, status: Option<string>)

  const FailurePrefix := "Failed to create deal: "

  /** The builder: the title, then a setter for each configured property,
      called with its rendering, with "USD" for the currency, or null. */
  method AssembleBody(dealTitle: string, x: DealsCreate.Extras) returns (deal: Deal)
    ensures deal == DealsCreate.Body(dealTitle, x)
  {
    // `Deal.builder().title(dealTitle)`: the title slot set, every other one null
    var title: Option<string> := Some(dealTitle);
    var value: Option<Decimal>, currency: Option<string> := None, None;
    var personId: Option<int>, orgId: Option<int>, userId: Option<int>, stageId: Option<int> := None, None, None, None;
    var status: Option<string>, expectedCloseDate: Option<string>, probability: Option<Decimal> := None, None, None;
    var visibleTo: Option<string>, customFields: Option<Fields> := None, None;
    value := SetIfConfigured(value, x.value);
    currency := SetIfConfiguredElse(currency, x.currency, DealsCreate.DefaultCurrency);
    personId := SetIfConfigured(personId, x.personId);
    orgId := SetIfConfigured(orgId, x.orgId);
    userId := SetIfConfigured(userId, x.userId);
    stageId := SetIfConfigured(stageId, x.stageId);
    status := SetIfConfigured(status, x.status);
    expectedCloseDate := SetIfConfigured(expectedCloseDate, x.expectedCloseDate);
    probability := SetIfConfigured(probability, x.probability);
    visibleTo := SetIfConfigured(visibleTo, x.visibleTo);
    customFields := SetIfPresent(customFields, x.customFields);
    // `build()`
    deal := Deal(None, title, value, currency, userId, personId, orgId, stageId, status, probability,
                 expectedCloseDate, None, visibleTo, None, None, customFields);
  }

  function Finish(reply: Reply<Deal>): (r: Result<Output, TaskError>)
    ensures r.Ok? <==> CheckUnboxed(reply, FailurePrefix).Ok?
    ensures r.Err? ==> r.error == CheckUnboxed(reply, FailurePrefix).error
    ensures r.Ok? ==> var d := reply.value.data.value;
                      r.value == Output(d.id, d.title, d.value, d.currency, d.status)
  {
    match CheckUnboxed(reply, FailurePrefix)
    case Err(e) => Err(e)
    case Ok(d) => Ok(Output(d.id, d.title, d.value, d.currency, d.status))
  }

  predicate Accepted(cfg: Config)
  {
    Rendered(cfg.apiToken).Some? && Rendered(cfg.title).Some?
  }

  /** `run`, given what `client.post` returns. The token and the title are
      checked before the client is built; `finally` closes it after that. */
  method Run(cfg: Config, reply: Reply<Deal>)
    returns (dispatch: Option<Dispatch<Deal>>, closed: bool, r: Result<Output, TaskError>)
    ensures Rendered(cfg.apiToken).None? ==> r == Err(IllegalArgument(TokenRequired))
    ensures Rendered(cfg.apiToken).Some? && Rendered(cfg.title).None?
            ==> r == Err(IllegalArgument(DealsCreate.TitleRequired))
    ensures closed <==> Accepted(cfg)
    ensures dispatch.Some? <==> Accepted(cfg)
    ensures Accepted(cfg) ==>
              && dispatch.value == Dispatch(BaseUrl, Rendered(cfg.apiToken).value,
                                            ApiCall(POST, "/deals", Some(DealsCreate.Body(Rendered(cfg.title).value, cfg.extras))))
              && r == Finish(reply)
  {
    dispatch, closed := None, false;
    var token := Require(cfg.apiToken, TokenRequired);
    if token.Err? {
      return dispatch, closed, Err(token.error);
    }
    var title := Require(cfg.title, DealsCreate.TitleRequired);
    if title.Err? {
      return dispatch, closed, Err(title.error);
    }
    var deal := AssembleBody(title.value, cfg.extras);
    dispatch := Some(Dispatch(BaseUrl, token.value, ApiCall(POST, "/deals", Some(deal))));
    r := Finish(reply);
    closed := true;
  }

  /** A created deal that comes back without `success` fails with a
      NullPointerException here, where deals/Create.java reports the
      server's error. */
  lemma MissingSuccessUnboxed(d: Deal, error: Option<string>)
    ensures Finish(Ok(Envelope(None, Some(d), error, None))) == Err(NullPointer)
    ensures DealsCreate.Finish(Ok(Envelope(None, Some(d), error, None)))
            == Err(IllegalState(DealsCreate.FailurePrefix + JavaString(error)))
  {
  }
}

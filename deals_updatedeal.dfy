/** deals/UpdateDeal.java: the legacy deal update. It sends the same body as
    deals/Update.java but makes no at-least-one check, and it unboxes
    `success`. */
module UpdateDeal {
  import opened Model
  import opened Text
  import opened Client
  import opened TaskCommon
  import DealsUpdate

  /** The legacy task has its own token and no API URL: its two-argument
      client always talks to the default base URL. */
  datatype Config = Config(apiToken: Prop<string>, dealId: Prop<int>, changes: DealsUpdate.Changes)

  datatype Output = Output(dealId: Option<int>, title: Option<string>, value: Option<Decimal>, status: Option<string>)

  const FailurePrefix := "Failed to update deal: "

  /** The builder: a setter for each configured property, called with its
      rendering or null. It gives the body of the new task. */
  method AssembleBody(c: DealsUpdate.Changes) returns (deal: Deal)
    ensures deal == DealsUpdate.Body(c)
  {
    // `Deal.builder()`: one slot per field, all null
    var title: Option<string>, value: Option<Decimal>, stageId: Option<int> := None, None, None;
    var status: Option<string>, expectedCloseDate: Option<string> := None, None;
    var probability: Option<Decimal>, lostReason: Option<string>, customFields: Option<Fields> := None, None, None;
    title := SetIfConfigured(title, c.title);
    value := SetIfConfigured(value, c.value);
    stageId := SetIfConfigured(stageId, c.stageId);
    status := SetIfConfigured(status, c.status);
    expectedCloseDate := SetIfConfigured(expectedCloseDate, c.expectedCloseDate);
    probability := SetIfConfigured(probability, c.probability);
    lostReason := SetIfConfigured(lostReason, c.lostReason);
    customFields := SetIfPresent(customFields, c.customFields);
    // `build()`
    deal := Deal(None, title, value, None, None, None, None, stageId, status, probability,
                 expectedCloseDate, lostReason, None, None, None, customFields);
  }

  function Finish(reply: Reply<Deal>): (r: Result<Output, TaskError>)
    ensures r.Ok? <==> CheckUnboxed(reply, FailurePrefix).Ok?
    ensures r.Err? ==> r.error == CheckUnboxed(reply, FailurePrefix).error
    ensures r.Ok? ==> var d := reply.value.data.value;
                      r.value == Output(d.id, d.title, d.value, d.status)
  {
    match CheckUnboxed(reply, FailurePrefix)
    case Err(e) => Err(e)
    case Ok(d) => Ok(Output(d.id, d.title, d.value, d.status))
  }

  predicate Accepted(cfg: Config)
  {
    Rendered(cfg.apiToken).Some? && Rendered(cfg.dealId).Some?
  }

  /** `run`, given what `client.put` returns. The client is built once the
      token and the id are there, and the `finally` block closes it on
      every path after that. */
  method Run(cfg: Config, reply: Reply<Deal>)
    returns (dispatch: Option<Dispatch<Deal>>, closed: bool, r: Result<Output, TaskError>)
    ensures Rendered(cfg.apiToken).None? ==> r == Err(IllegalArgument(TokenRequired))
    ensures Rendered(cfg.apiToken).Some? && Rendered(cfg.dealId).None?
            ==> r == Err(IllegalArgument(DealsUpdate.DealIdRequired))
    ensures closed <==> Accepted(cfg)
    ensures dispatch.Some? <==> Accepted(cfg)
    ensures Accepted(cfg) ==>
              && dispatch.value == Dispatch(BaseUrl, Rendered(cfg.apiToken).value,
                                            ApiCall(PUT, DealsUpdate.DealPath(Rendered(cfg.dealId).value),
                                                    Some(DealsUpdate.Body(cfg.changes))))
              && r == Finish(reply)
  {
    dispatch, closed := None, false;
    var token := Require(cfg.apiToken, TokenRequired);
    if token.Err? {
      return dispatch, closed, Err(token.error);
    }
    var id := Require(cfg.dealId, DealsUpdate.DealIdRequired);
    if id.Err? {
      return dispatch, closed, Err(id.error);
    }
    var deal := AssembleBody(cfg.changes);
    dispatch := Some(Dispatch(BaseUrl, token.value, ApiCall(PUT, DealsUpdate.DealPath(id.value), Some(deal))));
    r := Finish(reply);
    closed := true;
  }

  /** With no field configured, the legacy task still sends a PUT, with an
      empty body, where deals/Update.java refuses before building a client. */
  lemma NoChangesStillSent(c: DealsUpdate.Changes)
    requires !DealsUpdate.AnyConfigured(c)
    ensures DealKeys(DealsUpdate.Body(c)) == {}
  {
  }
}

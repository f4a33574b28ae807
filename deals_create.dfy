/** deals/Create.java: create a deal from a required title and optional
    fields (new-style task). */
module DealsCreate {
  import opened Model
  import opened Text
  import opened Client
  import opened TaskCommon

  /** The optional fields; the legacy deals/CreateDeal.java has the same list. */
  datatype Extras = Extras(
    value: Prop<Decimal>,
    currency: Prop<string>,
    personId: Prop<int>,
    orgId: Prop<int>,
    userId: Prop<int>,
    stageId: Prop<int>,
    status: Prop<string>,
    expectedCloseDate: Prop<string>,
    probability: Prop<Decimal>,
    visibleTo: Prop<string>,
    customFields: Option<Fields>)

  /** Extras with nothing configured. */
  const NoExtras := Extras(Unset, Unset, Unset, Unset, Unset, Unset, Unset, Unset, Unset, Unset, None)

  datatype Config = Config(apiToken: Prop<string>, apiUrl: Prop<string>, title: Prop<string>, extras: Extras)

  datatype Output = Output(dealId: Option<int>, addTime: Option<string>, updateTime: Option<string>)

  const TitleRequired := "Deal title is required"
  const FailurePrefix := "Failed to create deal: "
  const DefaultCurrency := "USD"

  /** The JSON keys a creation body may carry. */
  const CreatableKeys := {Title, Value, Currency, PersonId, OrgId, UserId, StageId,
                          Status, ExpectedCloseDate, Probability, VisibleTo, CustomFields}

  /** The request body: the title and the rendering of each optional field,
      with "USD" standing in for a configured currency that renders to
      nothing. */
  function Body(title: string, x: Extras): (d: Deal)
    ensures d.title == Some(title)
    ensures x.currency == Set(None) ==> d.currency == Some(DefaultCurrency)
  {
    Deal(id := None, title := Some(title), value := Rendered(x.value),
         currency := RenderedElse(x.currency, DefaultCurrency), userId := Rendered(x.userId),
         personId := Rendered(x.personId), orgId := Rendered(x.orgId), stageId := Rendered(x.stageId),
         status := Rendered(x.status), probability := Rendered(x.probability),
         expectedCloseDate := Rendered(x.expectedCloseDate), lostReason := None,
         visibleTo := Rendered(x.visibleTo), addTime := None, updateTime := None,
         customFields := x.customFields)
  }

  /** The keys of the body: the title always, the currency exactly when it is
      configured, every other optional field exactly when it renders to a
      value, and nothing outside the creatable fields (never `lost_reason`
      or the server-set ones). */
  lemma BodyKeys(title: string, x: Extras)
    ensures var keys := DealKeys(Body(title, x));
            && keys <= CreatableKeys
            && Title in keys
            && (Currency in keys <==> x.currency.Set?)
            && (Value in keys <==> Rendered(x.value).Some?)
            && (PersonId in keys <==> Rendered(x.personId).Some?)
            && (OrgId in keys <==> Rendered(x.orgId).Some?)
            && (UserId in keys <==> Rendered(x.userId).Some?)
            && (StageId in keys <==> Rendered(x.stageId).Some?)
            && (Status in keys <==> Rendered(x.status).Some?)
            && (ExpectedCloseDate in keys <==> Rendered(x.expectedCloseDate).Some?)
            && (Probability in keys <==> Rendered(x.probability).Some?)
            && (VisibleTo in keys <==> Rendered(x.visibleTo).Some?)
            && (CustomFields in keys <==> x.customFields.Some?)
  {
  }

  /** The values the body carries are the rendered ones. */
  lemma BodyValues(title: string, x: Extras)
    ensures var d := Body(title, x);
            && d.value == Rendered(x.value) && d.personId == Rendered(x.personId)
            && d.orgId == Rendered(x.orgId) && d.userId == Rendered(x.userId)
            && d.stageId == Rendered(x.stageId) && d.status == Rendered(x.status)
            && d.expectedCloseDate == Rendered(x.expectedCloseDate)
            && d.probability == Rendered(x.probability) && d.visibleTo == Rendered(x.visibleTo)
            && d.customFields == x.customFields
            && (Rendered(x.currency).Some? ==> d.currency == Rendered(x.currency))
  {
  }

  /** With only a title configured the body is the title alone. */
  lemma TitleOnlyBody(title: string)
    ensures DealKeys(Body(title, NoExtras)) == {Title}
  {
  }

  /** The builder: the title first, then one conditional setter per
      rendered value. */
  method AssembleBody(dealTitle: string, x: Extras) returns (deal: Deal)
    ensures deal == Body(dealTitle, x)
  {
    var rValue := Rendered(x.value);
    var rCurrency := RenderedElse(x.currency, DefaultCurrency);
    var rPersonId := Rendered(x.personId);
    var rOrgId := Rendered(x.orgId);
    var rUserId := Rendered(x.userId);
    var rStageId := Rendered(x.stageId);
    var rStatus := Rendered(x.status);
    var rExpectedCloseDate := Rendered(x.expectedCloseDate);
    var rProbability := Rendered(x.probability);
    var rVisibleTo := Rendered(x.visibleTo);
    // `Deal.builder().title(dealTitle)`: the title slot set, every other one null
    var title: Option<string> := Some(dealTitle);
    var value: Option<Decimal>, currency: Option<string> := None, None;
    var personId: Option<int>, orgId: Option<int>, userId: Option<int>, stageId: Option<int> := None, None, None, None;
    var status: Option<string>, expectedCloseDate: Option<string>, probability: Option<Decimal> := None, None, None;
    var visibleTo: Option<string>, customFields: Option<Fields> := None, None;
    value := SetIfPresent(value, rValue);
    currency := SetIfPresent(currency, rCurrency);
    personId := SetIfPresent(personId, rPersonId);
    orgId := SetIfPresent(orgId, rOrgId);
    userId := SetIfPresent(userId, rUserId);
    stageId := SetIfPresent(stageId, rStageId);
    status := SetIfPresent(status, rStatus);
    expectedCloseDate := SetIfPresent(expectedCloseDate, rExpectedCloseDate);
    probability := SetIfPresent(probability, rProbability);
    visibleTo := SetIfPresent(visibleTo, rVisibleTo);
    customFields := SetIfPresent(customFields, x.customFields);
    // `build()`
    deal := Deal(None, title, value, currency, userId, personId, orgId, stageId, status, probability,
                 expectedCloseDate, None, visibleTo, None, None, customFields);
  }

  function Finish(reply: Reply<Deal>): (r: Result<Output, TaskError>)
    ensures r.Ok? <==> CheckStrict(reply, FailurePrefix).Ok?
    ensures r.Err? ==> r.error == CheckStrict(reply, FailurePrefix).error
    ensures r.Ok? ==> var d := reply.value.data.value;
                      r.value == Output(d.id, d.addTime, d.updateTime)
  {
    match CheckStrict(reply, FailurePrefix)
    case Err(e) => Err(e)
    case Ok(d) => Ok(Output(d.id, d.addTime, d.updateTime))
  }

  predicate Accepted(cfg: Config)
  {
    Rendered(cfg.apiToken).Some? && Rendered(cfg.title).Some?
  }

  /** `run`, given what `client.post` returns for the request it sends. */
  method Run(cfg: Config, reply: Reply<Deal>)
    returns (dispatch: Option<Dispatch<Deal>>, closed: bool, r: Result<Output, TaskError>)
    ensures Rendered(cfg.apiToken).None? ==> r == Err(IllegalArgument(TokenRequired))
    ensures Rendered(cfg.apiToken).Some? && Rendered(cfg.title).None? ==> r == Err(IllegalArgument(TitleRequired))
    ensures closed <==> Accepted(cfg)
    ensures dispatch.Some? <==> Accepted(cfg)
    ensures Accepted(cfg) ==>
              && dispatch.value == Dispatch(RenderApiUrl(cfg.apiUrl), Rendered(cfg.apiToken).value,
                                            ApiCall(POST, "/deals", Some(Body(Rendered(cfg.title).value, cfg.extras))))
              && r == Finish(reply)
  {
    dispatch, closed := None, false;
    var token := Require(cfg.apiToken, TokenRequired);
    if token.Err? {
      return dispatch, closed, Err(token.error);
    }
    var base := RenderApiUrl(cfg.apiUrl);
    var title := Require(cfg.title, TitleRequired);
    if title.Err? {
      return dispatch, closed, Err(title.error);
    }
    var deal := AssembleBody(title.value, cfg.extras);
    dispatch := Some(Dispatch(base, token.value, ApiCall(POST, "/deals", Some(deal))));
    r := Finish(reply);
    closed := true;
  }

  /** The creation test: title, value, currency "EUR" and stage 2. */
  lemma CreateScenario(reply: Reply<Deal>)
    requires reply == Ok(Envelope(Some(true), Some(EmptyDeal.(id := Some(321), status := Some("open"),
                                                              addTime := Some("2024-01-01T00:00:00Z"),
                                                              updateTime := Some("2024-01-01T00:00:00Z"))), None, None))
    ensures var x := NoExtras.(value := Set(Some(Decimal("1000"))), currency := Set(Some("EUR")),
                               stageId := Set(Some(2)));
            var d := Body("Test Deal", x);
            && DealKeys(d) == {Title, Value, Currency, StageId}
            && d.currency == Some("EUR") && d.stageId == Some(2)
            && Finish(reply) == Ok(Output(Some(321), Some("2024-01-01T00:00:00Z"), Some("2024-01-01T00:00:00Z")))
  {
  }
}

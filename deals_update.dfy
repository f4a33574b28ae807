/** deals/Update.java: update an existing deal with the fields that are
    configured (new-style task). */
module DealsUpdate {
  import opened Model
  import opened Text
  import opened Client
  import opened TaskCommon

  /** The updatable fields; the legacy deals/UpdateDeal.java has the same list.
      A configured `customFields` always renders to a map. */
  datatype Changes = Changes(
    title: Prop<string>,
    value: Prop<Decimal>,
    stageId: Prop<int>,
    status: Prop<string>,
    expectedCloseDate: Prop<string>,
    probability: Prop<Decimal>,
    lostReason: Prop<string>,
    customFields: Option<Fields>)

  datatype Config = Config(apiToken: Prop<string>, apiUrl: Prop<string>, dealId: Prop<int>, changes: Changes)

  datatype Output = Output(dealId: Option<int>, updateTime: Option<string>)

  const DealIdRequired := "Deal ID is required"
  const NothingToUpdate := "At least one field must be provided to update the deal"
  const FailurePrefix := "Failed to update deal: "

  /** The JSON keys an update body may carry. */
  const UpdatableKeys := {Title, Value, StageId, Status, ExpectedCloseDate,
                          Probability, LostReason, CustomFields}

  /** The guard of the at-least-one check: it asks whether a property is
      configured, not what it renders to. */
  predicate AnyConfigured(c: Changes)
  {
    c.title.Set? || c.value.Set? || c.stageId.Set? || c.status.Set?
    || c.expectedCloseDate.Set? || c.probability.Set? || c.lostReason.Set? || c.customFields.Some?
  }

  /** The request body: the rendering of each updatable field. */
  function Body(c: Changes): (d: Deal)
    ensures d.id.None? && d.currency.None? && d.personId.None? && d.orgId.None? && d.userId.None?
  {
    EmptyDeal.(title := Rendered(c.title), value := Rendered(c.value), stageId := Rendered(c.stageId),
               status := Rendered(c.status), expectedCloseDate := Rendered(c.expectedCloseDate),
               probability := Rendered(c.probability), lostReason := Rendered(c.lostReason),
               customFields := c.customFields)
  }

  /** The keys of the body: exactly the updatable fields that rendered to a
      value, and nothing else (never `currency` or `person_id`). */
  lemma BodyKeys(c: Changes)
    ensures var keys := DealKeys(Body(c));
            && keys <= UpdatableKeys
            && (Title in keys <==> Rendered(c.title).Some?)
            && (Value in keys <==> Rendered(c.value).Some?)
            && (StageId in keys <==> Rendered(c.stageId).Some?)
            && (Status in keys <==> Rendered(c.status).Some?)
            && (ExpectedCloseDate in keys <==> Rendered(c.expectedCloseDate).Some?)
            && (Probability in keys <==> Rendered(c.probability).Some?)
            && (LostReason in keys <==> Rendered(c.lostReason).Some?)
            && (CustomFields in keys <==> c.customFields.Some?)
  {
  }

  /** The values the body carries are the rendered ones. */
  lemma BodyValues(c: Changes)
    ensures var d := Body(c);
            && d.title == Rendered(c.title) && d.value == Rendered(c.value)
            && d.stageId == Rendered(c.stageId) && d.status == Rendered(c.status)
            && d.expectedCloseDate == Rendered(c.expectedCloseDate)
            && d.probability == Rendered(c.probability) && d.lostReason == Rendered(c.lostReason)
            && d.customFields == c.customFields
  {
  }

  /** A property that is configured but renders to nothing passes the
      at-least-one check and is then left out of the body. */
  lemma ConfiguredButEmptyTitle(c: Changes)
    requires c == Changes(Set(None), Unset, Unset, Unset, Unset, Unset, Unset, None)
    ensures AnyConfigured(c) && DealKeys(Body(c)) == {}
  {
  }

  /** The builder: one conditional setter per rendered value. */
  method AssembleBody(c: Changes) returns (deal: Deal)
    ensures deal == Body(c)
  {
    var rTitle := Rendered(c.title);
    var rValue := Rendered(c.value);
    var rStageId := Rendered(c.stageId);
    var rStatus := Rendered(c.status);
    var rExpectedCloseDate := Rendered(c.expectedCloseDate);
    var rProbability := Rendered(c.probability);
    var rLostReason := Rendered(c.lostReason);
    // `Deal.builder()`: one slot per field, all null
    var title: Option<string>, value: Option<Decimal>, stageId: Option<int> := None, None, None;
    var status: Option<string>, expectedCloseDate: Option<string> := None, None;
    var probability: Option<Decimal>, lostReason: Option<string>, customFields: Option<Fields> := None, None, None;
    title := SetIfPresent(title, rTitle);
    value := SetIfPresent(value, rValue);
    stageId := SetIfPresent(stageId, rStageId);
    status := SetIfPresent(status, rStatus);
    expectedCloseDate := SetIfPresent(expectedCloseDate, rExpectedCloseDate);
    probability := SetIfPresent(probability, rProbability);
    lostReason := SetIfPresent(lostReason, rLostReason);
    customFields := SetIfPresent(customFields, c.customFields);
    // `build()`
    deal := Deal(None, title, value, None, None, None, None, stageId, status, probability,
                 expectedCloseDate, lostReason, None, None, None, customFields);
  }

  /** The path of the deal: "/deals/" followed by the id's decimal text. */
  function DealPath(id: int): (path: string)
    ensures |path| > 7 && path[..7] == "/deals/" && ParseInt(path[7..]) == Some(id)
  {
    IntToStringRoundTrip(id);
    "/deals/" + IntToString(id)
  }

  /** Everything after the response: the success check and the output copy. */
  function Finish(reply: Reply<Deal>): (r: Result<Output, TaskError>)
    ensures r.Ok? <==> CheckStrict(reply, FailurePrefix).Ok?
    ensures r.Err? ==> r.error == CheckStrict(reply, FailurePrefix).error
    ensures r.Ok? ==> r.value.dealId == reply.value.data.value.id
                      && r.value.updateTime == reply.value.data.value.updateTime
  {
    match CheckStrict(reply, FailurePrefix)
    case Err(e) => Err(e)
    case Ok(d) => Ok(Output(d.id, d.updateTime))
  }

  /** The checks that must pass before the client is built. */
  predicate Accepted(cfg: Config)
  {
    Rendered(cfg.apiToken).Some? && Rendered(cfg.dealId).Some? && AnyConfigured(cfg.changes)
  }

  /** `run`, given what `client.put` returns for the request it sends. The
      client is built, and closed by try-with-resources, exactly when the
      checks pass. */
  method Run(cfg: Config, reply: Reply<Deal>)
    returns (dispatch: Option<Dispatch<Deal>>, closed: bool, r: Result<Output, TaskError>)
    ensures Rendered(cfg.apiToken).None? ==> r == Err(IllegalArgument(TokenRequired))
    ensures Rendered(cfg.apiToken).Some? && Rendered(cfg.dealId).None? ==> r == Err(IllegalArgument(DealIdRequired))
    ensures Rendered(cfg.apiToken).Some? && Rendered(cfg.dealId).Some? && !AnyConfigured(cfg.changes)
            ==> r == Err(IllegalArgument(NothingToUpdate))
    ensures closed <==> Accepted(cfg)
    ensures dispatch.Some? <==> Accepted(cfg)
    ensures Accepted(cfg) ==>
              && dispatch.value == Dispatch(RenderApiUrl(cfg.apiUrl), Rendered(cfg.apiToken).value,
                                            ApiCall(PUT, DealPath(Rendered(cfg.dealId).value), Some(Body(cfg.changes))))
              && r == Finish(reply)
  {
    dispatch, closed := None, false;
    var token := Require(cfg.apiToken, TokenRequired);
    if token.Err? {
      return dispatch, closed, Err(token.error);
    }
    var base := RenderApiUrl(cfg.apiUrl);
    var id := Require(cfg.dealId, DealIdRequired);
    if id.Err? {
      return dispatch, closed, Err(id.error);
    }
    if !AnyConfigured(cfg.changes) {
      return dispatch, closed, Err(IllegalArgument(NothingToUpdate));
    }
    var deal := AssembleBody(cfg.changes);
    dispatch := Some(Dispatch(base, token.value, ApiCall(PUT, DealPath(id.value), Some(deal))));
    r := Finish(reply);
    closed := true;
  }

  /** The update test: status and value configured, deal 987. */
  lemma UpdateScenario(reply: Reply<Deal>)
    requires reply == Ok(Envelope(Some(true), Some(EmptyDeal.(id := Some(987), status := Some("won"),
                                                              updateTime := Some("2024-02-01T00:00:00Z"))), None, None))
    ensures var c := Changes(Unset, Set(Some(Decimal("25000"))), Unset, Set(Some("won")), Unset, Unset, Unset, None);
            && DealKeys(Body(c)) == {Value, Status}
            && Finish(reply) == Ok(Output(Some(987), Some("2024-02-01T00:00:00Z")))
  {
  }
}

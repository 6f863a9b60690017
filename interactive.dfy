/**
 * The interactivity endpoint: decode the form's `payload` field, look the workspace
 * up, then handle each block action in order, one Slack call at most per action.
 */
module Interactive {
  import opened Results
  import opened Storage
  import opened Slack
  import opened Models
  import opened Http
  import opened Views
  import opened Server
  import opened Events

  /** A block action: its action ID, a button's value, and a select menu's chosen option value. */
  datatype BlockAction = BlockAction(actionID: string, value: string, selectedOptionValue: string)

  /** The fields of an interaction callback that the handler reads. */
  datatype InteractionCallback = InteractionCallback(teamID: string, userID: string, triggerID: string, viewID: string,
                                                     blockActions: seq<BlockAction>)

  /** The request body: unreadable, not valid form encoding (with the error's text), or decoded form values. */
  datatype FormBody = ReadFailed(err: string) | ParseFailed(err: string) | Parsed(values: Values)

  /**
   * `parseInteractivePayload`: `decoded` is what decoding the `payload` field's JSON
   * gives, the callback or the decoder's error text.  Every failure is a 400.
   */
  function ParseInteractivePayload(body: FormBody, decoded: Result<InteractionCallback, string>): (r: Result<InteractionCallback, Response>)
    ensures r.Ok? <==> body.Parsed? && Get(body.values, "payload") != "" && decoded.Ok?
    ensures r.Ok? ==> r.value == decoded.value
    ensures r.Err? ==> r.error.status == StatusBadRequest && r.error.body.Json?
    ensures body.Parsed? && Get(body.values, "payload") == "" ==>
              r == Err(JsonReply(StatusBadRequest, HttpError("form must have non-empty payload field", "")))
  {
    match body
    case ReadFailed(e) => Err(JsonReply(StatusBadRequest, NewHttpError("failed to read request body", Some(e))))
    case ParseFailed(e) => Err(JsonReply(StatusBadRequest, NewHttpError("failed to parse request body as form-urlencoded", Some(e))))
    case Parsed(values) =>
      if Get(values, "payload") == "" then
        Err(JsonReply(StatusBadRequest, NewHttpError("form must have non-empty payload field", None)))
      else if decoded.Err? then
        Err(JsonReply(StatusBadRequest, NewHttpError("invalid interaction json payload", Some(decoded.error))))
      else Ok(decoded.value)
  }

  /** The toggle is stateless: the clicked button's value says which version to show next. */
  function ToggleVersion(value: string): (v: int)
    ensures v == 1 || v == 2
    ensures v == 2 <==> value == Version1Value
  {
    if value == Version1Value then 2 else 1
  }

  /** The Slack call one block action makes, if any. */
  function ActionCall(token: string, cb: InteractionCallback, act: BlockAction): (r: seq<SlackCall>)
    ensures |r| <= 1
    ensures r != [] <==> act.actionID in {ActionToggleText, ActionOpenModal, ActionModalTopicSelect}
    ensures forall c :: c in r ==> c.IsOutbound() && c.token == token
    ensures act.actionID == ActionToggleText ==> r == [PublishView(token, cb.userID, HomeTabViewFor(ToggleVersion(act.value)))]
    ensures act.actionID == ActionOpenModal ==> r == [OpenView(token, cb.triggerID, NewModalView(""))]
    ensures act.actionID == ActionModalTopicSelect ==> r == [UpdateView(token, cb.viewID, NewModalView(act.selectedOptionValue))]
  {
    if act.actionID == ActionToggleText then
      if act.value == Version1Value then [PublishHomeView(token, cb.userID, 2)] else [PublishHomeView(token, cb.userID, 1)]
    else if act.actionID == ActionOpenModal then
      [OpenView(token, cb.triggerID, NewModalView(""))]
    else if act.actionID == ActionModalTopicSelect then
      [UpdateView(token, cb.viewID, NewModalView(act.selectedOptionValue))]
    else []
  }

  /** The Slack calls a list of block actions makes, in list order. */
  function ActionCalls(token: string, cb: InteractionCallback, acts: seq<BlockAction>): (r: seq<SlackCall>)
    ensures |r| <= |acts|
    ensures forall c :: c in r ==> c.IsOutbound() && c.token == token
  {
    if acts == [] then [] else ActionCall(token, cb, acts[0]) + ActionCalls(token, cb, acts[1..])
  }

  /** Handling two lists of actions one after the other makes the calls of each, in order. */
  lemma {:induction false} ActionCallsAppend(token: string, cb: InteractionCallback, a: seq<BlockAction>, b: seq<BlockAction>)
    ensures ActionCalls(token, cb, a + b) == ActionCalls(token, cb, a) + ActionCalls(token, cb, b)
    decreases |a|
  {
    if a == [] {
      assert a + b == b;
    } else {
      assert (a + b)[1..] == a[1..] + b;
      ActionCallsAppend(token, cb, a[1..], b);
    }
  }

  /** An action with an unrecognised ID makes no call and does not stop the actions after it. */
  lemma UnknownActionIsSkipped(token: string, cb: InteractionCallback, before: seq<BlockAction>, act: BlockAction, after: seq<BlockAction>)
    requires act.actionID !in {ActionToggleText, ActionOpenModal, ActionModalTopicSelect}
    ensures ActionCalls(token, cb, before + [act] + after) == ActionCalls(token, cb, before + after)
  {
    var one := [act];
    assert ActionCall(token, cb, act) == [];
    assert one[1..] == [];
    assert ActionCalls(token, cb, one) == [];
    ActionCallsAppend(token, cb, before + one, after);
    ActionCallsAppend(token, cb, before, one);
    ActionCallsAppend(token, cb, before, after);
  }

  /**
   * Clicking the toggle button of the view published for version `v` publishes the
   * other variant, and clicking the toggle of that one brings back the first view.
   */
  lemma ToggleRoundTrip(token: string, cb: InteractionCallback, v: int, selected: string)
    ensures var first := HomeTabViewFor(v);
            var clicked := ActionCall(token, cb, BlockAction(ActionToggleText, ToggleButtonValue(first), selected));
            && clicked == [PublishView(token, cb.userID, HomeTabViewFor(ToggleVersion(ToggleButtonValue(first))))]
            && clicked[0].homeView.toggledText != first.toggledText
            && HomeTabViewFor(ToggleVersion(ToggleButtonValue(clicked[0].homeView))) == first
  {
  }

  /**
   * `Interactive`: `decoded` is what decoding the payload gives, `lookupFault` the
   * fault of the workspace lookup's GET.  The token is used as stored: this
   * endpoint does not run the refresh check.
   */
  method Interactive(s: Server, body: FormBody, decoded: Result<InteractionCallback, string>, lookupFault: Option<string>)
    returns (resp: Response, calls: seq<SlackCall>)
    ensures ParseInteractivePayload(body, decoded).Err? ==> resp == ParseInteractivePayload(body, decoded).error && calls == []
    ensures ParseInteractivePayload(body, decoded).Ok? ==>
              var cb := decoded.value;
              var found := Lookup(s.st.teams, cb.teamID, lookupFault);
              && (found.Err? ==> resp == LookupErrorReply(cb.teamID, found.error) && calls == [])
              && (found.Ok? ==> resp == Response(StatusOK, NoBody) && calls == ActionCalls(found.value.accessToken, cb, cb.blockActions))
  {
    calls := [];
    var parsed := ParseInteractivePayload(body, decoded);
    if parsed.Err? {
      return parsed.error, calls;
    }
    var cb := parsed.value;
    var found := s.st.GetSlackTeam(cb.teamID, lookupFault);
    if found.Err? {
      return LookupErrorReply(cb.teamID, found.error), calls;
    }
    var team := found.value;
    var token := team.accessToken;
    assert token == team.Record().accessToken == Lookup(s.st.teams, cb.teamID, lookupFault).value.accessToken;
    var acts := cb.blockActions;
    if |acts| > 0 {
      var i := 0;
      while i < |acts|
        invariant 0 <= i <= |acts|
        invariant calls == ActionCalls(token, cb, acts[..i])
      {
        ActionCallsAppend(token, cb, acts[..i], [acts[i]]);
        assert acts[..i + 1] == acts[..i] + [acts[i]];
        calls := calls + ActionCall(token, cb, acts[i]);
        i := i + 1;
      }
      assert acts[..i] == acts;
    } else {
      assert calls == ActionCalls(token, cb, acts);
    }
    return Response(StatusOK, NoBody), calls;
  }
}

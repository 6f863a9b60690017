/**
 * The Events API endpoint: echo a URL-verification challenge, drop events written
 * by bots, look the workspace up, check its tokens, then reply according to the
 * event type.
 */
module Events {
  import opened Results
  import opened Text
  import opened Storage
  import opened Slack
  import opened Models
  import opened Http
  import opened Views
  import opened Server

  const DirectReplyPrefix := "Got your message:\n```"
  const ThreadReplyPrefix := "Got thread your message:\n```"
  const QuoteEnd := "```"

  /** The reply to a direct message: the message's text quoted verbatim in a code block. */
  function DirectReplyText(text: string): (r: string)
    ensures |r| == |DirectReplyPrefix| + |text| + |QuoteEnd|
    ensures IsPrefix(DirectReplyPrefix, r) && r[|r| - |QuoteEnd|..] == QuoteEnd
    ensures r[|DirectReplyPrefix|..|r| - |QuoteEnd|] == text
  {
    DirectReplyPrefix + text + QuoteEnd
  }

  /** The reply to a message in a thread: the message's text quoted verbatim in a code block. */
  function ThreadReplyText(text: string): (r: string)
    ensures |r| == |ThreadReplyPrefix| + |text| + |QuoteEnd|
    ensures IsPrefix(ThreadReplyPrefix, r) && r[|r| - |QuoteEnd|..] == QuoteEnd
    ensures r[|ThreadReplyPrefix|..|r| - |QuoteEnd|] == text
  {
    ThreadReplyPrefix + text + QuoteEnd
  }

  /** Different messages get different replies, and a direct reply never reads as a thread reply. */
  lemma RepliesTellMessagesApart(a: string, b: string)
    ensures DirectReplyText(a) == DirectReplyText(b) ==> a == b
    ensures ThreadReplyText(a) == ThreadReplyText(b) ==> a == b
    ensures DirectReplyText(a) != ThreadReplyText(b)
  {
    var d, t := DirectReplyText(a), ThreadReplyText(b);
    assert d[4] == DirectReplyPrefix[4] == 'y';
    assert t[4] == ThreadReplyPrefix[4] == 't';
  }

  /** `publishHomeView`: publish the home tab for `userID` with the given toggled-text version. */
  function PublishHomeView(token: string, userID: string, toggleTextVersion: int): (c: SlackCall)
    ensures c.PublishView? && c.token == token && c.userID == userID
    ensures c.homeView.toggledText == (if toggleTextVersion == 1 then Version1Text else Version2Text)
  {
    PublishView(token, userID, HomeTabViewFor(toggleTextVersion))
  }

  /** `handleDirectMessage`: an unthreaded reply in the event's channel. */
  function HandleDirectMessage(token: string, event: EventBody): (c: SlackCall)
    ensures c.SendMessage? && c.token == token && c.channel == event.channel && c.threadTS.None?
    ensures |c.text| >= |DirectReplyPrefix| + |QuoteEnd| && c.text[|DirectReplyPrefix|..|c.text| - |QuoteEnd|] == event.text
  {
    SendMessage(token, event.channel, DirectReplyText(event.text), None)
  }

  /** `handleThreadMessage`: a reply in the event's channel, threaded on the event's `thread_ts`. */
  function HandleThreadMessage(token: string, event: EventBody): (c: SlackCall)
    ensures c.SendMessage? && c.token == token && c.channel == event.channel && c.threadTS == Some(event.threadTS)
    ensures |c.text| >= |ThreadReplyPrefix| + |QuoteEnd| && c.text[|ThreadReplyPrefix|..|c.text| - |QuoteEnd|] == event.text
  {
    SendMessage(token, event.channel, ThreadReplyText(event.text), Some(event.threadTS))
  }

  /** The replies an event gets once its workspace's token is known to be live. */
  function Dispatch(event: EventBody, token: string): (r: seq<SlackCall>)
    ensures |r| <= 1
    ensures r != [] <==> event.eventType == "app_home_opened" || event.eventType == "message"
    ensures forall c :: c in r ==> c.IsOutbound() && c.token == token
    ensures event.eventType == "app_home_opened" ==> r == [PublishView(token, event.user, HomeTabViewFor(1))]
    ensures event.eventType == "message" ==>
              && r[0].SendMessage? && r[0].channel == event.channel
              && (r[0].threadTS.None? <==> event.threadTS == "")
              && (event.threadTS == "" ==> r[0].text == DirectReplyText(event.text))
              && (event.threadTS != "" ==> r[0] == SendMessage(token, event.channel, ThreadReplyText(event.text), Some(event.threadTS)))
  {
    if event.eventType == "app_home_opened" then [PublishHomeView(token, event.user, 1)]
    else if event.eventType == "message" then
      if event.threadTS == "" then [HandleDirectMessage(token, event)] else [HandleThreadMessage(token, event)]
    else []
  }

  /** The reply to a failed workspace lookup: 404 naming the workspace for `ErrNotFound`, 500 otherwise. */
  function LookupErrorReply(teamID: string, e: StoreError): (r: Response)
    ensures r.status == (if e.NotFound? then StatusNotFound else StatusInternalServerError)
    ensures r.body.Json? && r.body.envelope.error == e.Error()
    ensures e.NotFound? ==> r.body.envelope.message == "team with ID '" + teamID + "' not found"
    ensures e.Failure? ==> r.body.envelope.message == "failed to find team with ID '" + teamID + "'"
  {
    if e.NotFound? then JsonReply(StatusNotFound, NewHttpError("team with ID '" + teamID + "' not found", Some(e.Error())))
    else JsonReply(StatusInternalServerError, NewHttpError("failed to find team with ID '" + teamID + "'", Some(e.Error())))
  }

  /** The event is neither a challenge nor written by a bot, so it needs its workspace. */
  predicate NeedsTeam(event: SlackEvent) {
    event.challenge == "" && event.event.botProfile.name == ""
  }

  /**
   * `Events`: `parsed` is the decoded request body or the parse error's text, and
   * `lookupFault` the fault of the workspace lookup's GET.
   */
  method Events(s: Server, parsed: Result<SlackEvent, string>, lookupFault: Option<string>, o: RefreshOracle)
    returns (resp: Response, calls: seq<SlackCall>)
    requires s.st.Valid()
    modifies s.st
    ensures s.st.Valid()
    ensures parsed.Err? ==>
              resp == JsonReply(StatusBadRequest, NewHttpError("failed to parse request body", Some(parsed.error)))
              && calls == [] && s.st.teams == old(s.st.teams)
    ensures parsed.Ok? && parsed.value.challenge != "" ==>
              resp == Response(StatusOK, Raw(parsed.value.challenge)) && calls == [] && s.st.teams == old(s.st.teams)
    ensures parsed.Ok? && parsed.value.challenge == "" && parsed.value.event.botProfile.name != "" ==>
              resp == Response(StatusOK, NoBody) && calls == [] && s.st.teams == old(s.st.teams)
    ensures parsed.Ok? && NeedsTeam(parsed.value) && Lookup(old(s.st.teams), parsed.value.teamID, lookupFault).Err? ==>
              resp == LookupErrorReply(parsed.value.teamID, Lookup(old(s.st.teams), parsed.value.teamID, lookupFault).error)
              && calls == [] && s.st.teams == old(s.st.teams)
    ensures parsed.Ok? && NeedsTeam(parsed.value) && Lookup(old(s.st.teams), parsed.value.teamID, lookupFault).Ok? ==>
              var r := RefreshIfRequired(s.cfg, old(s.st.teams)[parsed.value.teamID], old(s.st.teams), o);
              && s.st.teams == r.teams
              && (r.err.Some? ==>
                    resp == JsonReply(StatusInternalServerError, NewHttpError("failed to refresh team tokens", r.err)) && calls == r.calls)
              && (r.err.None? ==>
                    resp == Response(StatusOK, NoBody) && calls == r.calls + Dispatch(parsed.value.event, r.team.accessToken))
  {
    calls := [];
    if parsed.Err? {
      return JsonReply(StatusBadRequest, NewHttpError("failed to parse request body", Some(parsed.error))), calls;
    }
    var event := parsed.value;
    if event.challenge != "" {
      return Response(StatusOK, Raw(event.challenge)), calls;
    }
    if event.event.botProfile.name != "" {
      return Response(StatusOK, NoBody), calls;
    }
    var found := s.st.GetSlackTeam(event.teamID, lookupFault);
    if found.Err? {
      return LookupErrorReply(event.teamID, found.error), calls;
    }
    var team := found.value;
    var err;
    err, calls := s.RefreshTeamTokensIfRequired(team, o);
    if err.Some? {
      return JsonReply(StatusInternalServerError, NewHttpError("failed to refresh team tokens", err)), calls;
    }
    if event.event.eventType == "app_home_opened" {
      calls := calls + [PublishHomeView(team.accessToken, event.event.user, 1)];
    } else if event.event.eventType == "message" {
      if event.event.threadTS == "" {
        calls := calls + [HandleDirectMessage(team.accessToken, event.event)];
      } else {
        calls := calls + [HandleThreadMessage(team.accessToken, event.event)];
      }
    }
    return Response(StatusOK, NoBody), calls;
  }

  /**
   * When the token check fails, the reply is a 500 and no call that users would see
   * is made; when it succeeds, every reply uses the access token the check left.
   */
  lemma RefreshFailureSendsNothing(cfg: Config, team: TeamRecord, teams: map<string, TeamRecord>, o: RefreshOracle, event: EventBody)
    requires KeyedById(teams)
    ensures var r := RefreshIfRequired(cfg, team, teams, o);
            && (r.err.Some? ==> forall c :: c in r.calls ==> !c.IsOutbound())
            && (r.err.None? ==> forall c :: c in Dispatch(event, r.team.accessToken) ==> c.token == r.team.accessToken)
  {
  }
}

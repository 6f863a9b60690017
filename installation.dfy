/**
 * The OAuth redirect endpoint that installs the app in a workspace: check the
 * `code` query parameter, exchange it for tokens, store them, and send the browser
 * to the app's About tab in the Slack client.
 */
module Installation {
  import opened Results
  import opened Text
  import opened Storage
  import opened Slack
  import opened Models
  import opened Http
  import opened Server

  const RedirectPrefix := "slack://app?team="
  const AppIDParam := "&id="
  const AboutTabSuffix := "&tab=about"

  /** The deep link to the About tab of app `appID` in workspace `teamID`. */
  function RedirectURL(teamID: string, appID: string): (u: string)
    ensures |u| == |RedirectPrefix| + |teamID| + |AppIDParam| + |appID| + |AboutTabSuffix|
    ensures IsPrefix(RedirectPrefix, u)
    ensures u[|RedirectPrefix|..|RedirectPrefix| + |teamID|] == teamID
    ensures u[|RedirectPrefix| + |teamID|..|RedirectPrefix| + |teamID| + |AppIDParam|] == AppIDParam
    ensures u[|RedirectPrefix| + |teamID| + |AppIDParam|..|u| - |AboutTabSuffix|] == appID
    ensures u[|u| - |AboutTabSuffix|..] == AboutTabSuffix
  {
    RedirectPrefix + teamID + AppIDParam + appID + AboutTabSuffix
  }

  /**
   * The deep link names its workspace and app unambiguously as long as the team ID has
   * no `&` in it (Slack team IDs are alphanumeric): different installs redirect differently.
   */
  lemma {:induction false} RedirectURLInjective(t1: string, a1: string, t2: string, a2: string)
    requires '&' !in t1 && '&' !in t2
    requires RedirectURL(t1, a1) == RedirectURL(t2, a2)
    ensures t1 == t2 && a1 == a2
  {
    var u, p := RedirectURL(t1, a1), |RedirectPrefix|;
    // The first `&` after the prefix ends the team ID in both readings of `u`.
    forall k | p <= k < p + |t1| ensures u[k] != '&' {
      assert u[k] == t1[k - p];
    }
    forall k | p <= k < p + |t2| ensures u[k] != '&' {
      assert u[k] == RedirectURL(t2, a2)[k] == t2[k - p];
    }
    assert u[p + |t1|] == '&' && RedirectURL(t2, a2)[p + |t2|] == '&';
    assert |t1| == |t2|;
    assert t1 == u[p..p + |t1|] == t2;
  }

  /** A workspace whose team ID contains `&` can be mistaken for another: the condition above is needed. */
  lemma AmpersandMakesRedirectAmbiguous()
    ensures RedirectURL("T1&id=A1", "A2") == RedirectURL("T1", "A1&id=A2")
  {
  }

  /**
   * `AppInstallation`: `query` is the request's decoded query string, `exchange` the
   * code exchange's response or its error text, `writeFault` the fault of the SET
   * that stores the new record.
   */
  method AppInstallation(s: Server, query: Values, exchange: Result<OAuthV2Response, string>, writeFault: Option<string>)
    returns (resp: Response, calls: seq<SlackCall>)
    requires s.st.Valid()
    modifies s.st
    ensures s.st.Valid()
    ensures Get(query, "code") == "" ==>
              resp == JsonReply(StatusBadRequest, NewHttpError("missing 'code' url parameter for app installation", None))
              && calls == [] && s.st.teams == old(s.st.teams)
    ensures Get(query, "code") != "" ==>
              calls == [GetOAuthV2Response(s.cfg.slackClientID, s.cfg.slackClientSecret, Get(query, "code"))]
    ensures Get(query, "code") != "" && exchange.Err? ==>
              resp == JsonReply(StatusInternalServerError, NewHttpError("error exchanging authorization code with access token", Some(exchange.error)))
              && s.st.teams == old(s.st.teams)
    ensures Get(query, "code") != "" && exchange.Ok? && writeFault.Some? ==>
              resp == JsonReply(StatusInternalServerError,
                                NewHttpError("error storing slack team information", Some("error setting team data on redis: " + writeFault.value)))
              && s.st.teams == old(s.st.teams)
    ensures Get(query, "code") != "" && exchange.Ok? && writeFault.None? ==>
              var stored := exchange.value;
              && s.st.teams == old(s.st.teams)[stored.teamID := TeamRecord(stored.teamID, stored.appID, stored.accessToken, stored.refreshToken)]
              && resp == Response(StatusFound, Redirect(RedirectURL(stored.teamID, stored.appID)))
    ensures resp.status == StatusFound <==> Get(query, "code") != "" && exchange.Ok? && writeFault.None?
    ensures resp.status != StatusFound ==> s.st.teams == old(s.st.teams)
  {
    calls := [];
    var code := Get(query, "code");
    if code == "" {
      return JsonReply(StatusBadRequest, NewHttpError("missing 'code' url parameter for app installation", None)), calls;
    }
    calls := [GetOAuthV2Response(s.cfg.slackClientID, s.cfg.slackClientSecret, code)];
    if exchange.Err? {
      return JsonReply(StatusInternalServerError, NewHttpError("error exchanging authorization code with access token", Some(exchange.error))), calls;
    }
    var r := exchange.value;
    var added := s.st.AddSlackTeam(r.teamID, r.appID, r.accessToken, r.refreshToken, writeFault);
    if added.Err? {
      return JsonReply(StatusInternalServerError, NewHttpError("error storing slack team information", Some(added.error.Error()))), calls;
    }
    return Response(StatusFound, Redirect(RedirectURL(r.teamID, r.appID))), calls;
  }
}

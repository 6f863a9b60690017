/**
 * The server object shared by all handlers, and the token refresh check that the
 * event handler runs before dispatching: probe the access token with `team.info`,
 * and only when the probe fails with `token_expired` exchange the refresh token for
 * a new pair, store it, and copy it into the caller's in-memory team.
 */
module Server {
  import opened Results
  import opened Text
  import opened Storage
  import opened Slack

  /** The OAuth client credentials the server is configured with. */
  datatype Config = Config(slackClientID: string, slackClientSecret: string)

  /**
   * What the outside world answers during one refresh check: the `team.info`
   * probe's error text (`None` on success), the token refresh response, and the
   * faults of the GET and SET that the token update makes.
   */
  datatype RefreshOracle = RefreshOracle(probe: Option<string>, refreshed: Result<OAuthTokens, string>,
                                         readFault: Option<string>, writeFault: Option<string>)

  /** The substring of the probe's error that marks an expired access token. */
  const TokenExpired := "token_expired"

  /** The probe failed because the access token expired, so a refresh is due. */
  predicate Expired(o: RefreshOracle) {
    o.probe.Some? && Contains(o.probe.value, TokenExpired)
  }

  /**
   * The outcome of one refresh check: the error returned, the in-memory team
   * afterwards, the database afterwards, and the Slack calls made.
   */
  datatype Refresh = Refresh(err: Option<string>, team: TeamRecord, teams: map<string, TeamRecord>, calls: seq<SlackCall>)

  /** What `refreshTeamTokensIfRequired` does to `team` against a database holding `teams`. */
  function RefreshIfRequired(cfg: Config, team: TeamRecord, teams: map<string, TeamRecord>, o: RefreshOracle): (r: Refresh)
    requires KeyedById(teams)
    ensures KeyedById(r.teams)
    ensures r.team.id == team.id && r.team.appID == team.appID
    ensures 1 <= |r.calls| <= 2 && r.calls[0] == GetTeamInfo(team.accessToken)
    ensures |r.calls| == 2 <==> Expired(o)
    ensures |r.calls| == 2 ==> r.calls[1] == RefreshOAuthV2Token(cfg.slackClientID, cfg.slackClientSecret, team.refreshToken)
    ensures forall c :: c in r.calls ==> !c.IsOutbound()
    ensures r.err.Some? ==> r.team == team && r.teams == teams
    ensures r.err.None? <==>
              o.probe.None? || (Expired(o) && o.refreshed.Ok? && o.readFault.None? && o.writeFault.None? && team.id in teams)
    ensures r.err.None? && Expired(o) ==>
              && r.team == WithTokens(team, o.refreshed.value.accessToken, o.refreshed.value.refreshToken)
              && r.teams == teams[team.id := WithTokens(teams[team.id], o.refreshed.value.accessToken, o.refreshed.value.refreshToken)]
              && r.teams[team.id].accessToken == r.team.accessToken
              && r.teams[team.id].refreshToken == r.team.refreshToken
  {
    var probed := [GetTeamInfo(team.accessToken)];
    if o.probe.None? then Refresh(None, team, teams, probed)
    else if !Contains(o.probe.value, TokenExpired) then
      Refresh(Some("slack client unable to retrieve team info: " + o.probe.value), team, teams, probed)
    else
      var calls := probed + [RefreshOAuthV2Token(cfg.slackClientID, cfg.slackClientSecret, team.refreshToken)];
      if o.refreshed.Err? then
        Refresh(Some("slack client unable to refresh tokens: " + o.refreshed.error), team, teams, calls)
      else
        var u := UpdateTokens(teams, team.id, o.refreshed.value.accessToken, o.refreshed.value.refreshToken, o.readFault, o.writeFault);
        if u.result.Err? then
          Refresh(Some("error updating team tokens in storage: " + u.result.error.Error()), team, u.teams, calls)
        else
          Refresh(None, team.(accessToken := u.result.value.accessToken, refreshToken := u.result.value.refreshToken), u.teams, calls)
  }

  /** The bot's HTTP server: its configuration and its credential store. */
  class Server {
    const cfg: Config
    const st: RedisStorage

    constructor (cfg: Config, st: RedisStorage)
      ensures this.cfg == cfg && this.st == st
    {
      this.cfg := cfg;
      this.st := st;
    }

    /** Refreshes `team`'s tokens in the store and in place when its access token has expired. */
    method RefreshTeamTokensIfRequired(team: SlackTeam, o: RefreshOracle) returns (err: Option<string>, calls: seq<SlackCall>)
      requires st.Valid()
      modifies team, st
      ensures st.Valid()
      ensures var r := RefreshIfRequired(cfg, old(team.Record()), old(st.teams), o);
              err == r.err && calls == r.calls && team.Record() == r.team && st.teams == r.teams
    {
      calls := [GetTeamInfo(team.accessToken)];
      if o.probe.Some? {
        if !Contains(o.probe.value, TokenExpired) {
          return Some("slack client unable to retrieve team info: " + o.probe.value), calls;
        }
        calls := calls + [RefreshOAuthV2Token(cfg.slackClientID, cfg.slackClientSecret, team.refreshToken)];
        if o.refreshed.Err? {
          return Some("slack client unable to refresh tokens: " + o.refreshed.error), calls;
        }
        var resp := o.refreshed.value;
        var updatedTeam := st.UpdateSlackTeamTokens(team.id, resp.accessToken, resp.refreshToken, o.readFault, o.writeFault);
        if updatedTeam.Err? {
          return Some("error updating team tokens in storage: " + updatedTeam.error.Error()), calls;
        }
        team.accessToken := updatedTeam.value.accessToken;
        team.refreshToken := updatedTeam.value.refreshToken;
      }
      return None, calls;
    }
  }

  /** A live token: no error, no refresh call, and neither the store nor the team changes. */
  lemma LiveTokenChangesNothing(cfg: Config, team: TeamRecord, teams: map<string, TeamRecord>, o: RefreshOracle)
    requires KeyedById(teams) && o.probe.None?
    ensures RefreshIfRequired(cfg, team, teams, o) == Refresh(None, team, teams, [GetTeamInfo(team.accessToken)])
  {
  }

  /** A probe error other than `token_expired` is returned wrapped, with no refresh and no change. */
  lemma OtherProbeErrorIsFatal(cfg: Config, team: TeamRecord, teams: map<string, TeamRecord>, o: RefreshOracle)
    requires KeyedById(teams) && o.probe.Some? && !Contains(o.probe.value, TokenExpired)
    ensures RefreshIfRequired(cfg, team, teams, o)
            == Refresh(Some("slack client unable to retrieve team info: " + o.probe.value), team, teams, [GetTeamInfo(team.accessToken)])
  {
  }

  /** A failed refresh call is returned wrapped; neither the store nor the team changes. */
  lemma FailedRefreshChangesNothing(cfg: Config, team: TeamRecord, teams: map<string, TeamRecord>, o: RefreshOracle)
    requires KeyedById(teams) && Expired(o) && o.refreshed.Err?
    ensures var r := RefreshIfRequired(cfg, team, teams, o);
            r.err == Some("slack client unable to refresh tokens: " + o.refreshed.error) && r.team == team && r.teams == teams
  {
  }

  /** A failed token update is returned wrapped, and the in-memory team keeps its old tokens. */
  lemma FailedUpdateKeepsOldTokens(cfg: Config, team: TeamRecord, teams: map<string, TeamRecord>, o: RefreshOracle)
    requires KeyedById(teams) && Expired(o) && o.refreshed.Ok?
    requires o.readFault.Some? || o.writeFault.Some? || team.id !in teams
    ensures var r := RefreshIfRequired(cfg, team, teams, o);
            var u := UpdateTokens(teams, team.id, o.refreshed.value.accessToken, o.refreshed.value.refreshToken, o.readFault, o.writeFault);
            && u.result.Err?
            && r.err == Some("error updating team tokens in storage: " + u.result.error.Error())
            && r.team == team && r.teams == teams
  {
  }

  /** An expired token whose refresh and store update succeed: exactly one refresh call, and the new pair everywhere. */
  lemma ExpiredTokenIsRefreshed(cfg: Config, team: TeamRecord, teams: map<string, TeamRecord>, o: RefreshOracle)
    requires KeyedById(teams) && team.id in teams
    requires Expired(o) && o.refreshed.Ok? && o.readFault.None? && o.writeFault.None?
    ensures var r := RefreshIfRequired(cfg, team, teams, o);
            && r.err.None?
            && r.calls == [GetTeamInfo(team.accessToken), RefreshOAuthV2Token(cfg.slackClientID, cfg.slackClientSecret, team.refreshToken)]
            && r.team.accessToken == o.refreshed.value.accessToken && r.team.refreshToken == o.refreshed.value.refreshToken
            && r.teams[team.id].accessToken == o.refreshed.value.accessToken
            && r.teams[team.id].refreshToken == o.refreshed.value.refreshToken
            && (forall k :: k in teams && k != team.id ==> k in r.teams && r.teams[k] == teams[k])
  {
  }

  /** Any error text containing `token_expired` triggers the refresh, wherever the marker stands. */
  lemma ExpiryMarkerAnywhere(pre: string, post: string)
    ensures Contains(pre + TokenExpired + post, TokenExpired)
  {
    ContainsInContext(pre, TokenExpired, post);
  }
}

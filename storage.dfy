/**
 * The credential store: one `SlackTeam` record per workspace, kept in Redis under
 * the workspace (team) ID.  The Redis database is modelled as a map from keys to
 * already-decoded records (the JSON encoding is taken to be the identity), and the
 * outcome of each round trip to the Redis server is a parameter: `readFault` /
 * `writeFault` are `Some(text)` when the GET / SET fails with an error other than
 * "key absent", and `None` when the server answers.
 */
module Storage {
  import opened Results

  /** A stored workspace credential, as decoded from its JSON value. */
  datatype TeamRecord = TeamRecord(id: string, appID: string, accessToken: string, refreshToken: string)

  /** The record with its two token fields replaced and every other field kept. */
  function WithTokens(t: TeamRecord, accessToken: string, refreshToken: string): (r: TeamRecord)
    ensures r.id == t.id && r.appID == t.appID
    ensures r.accessToken == accessToken && r.refreshToken == refreshToken
  {
    t.(accessToken := accessToken, refreshToken := refreshToken)
  }

  /** Errors the store returns: `ErrNotFound`, or a wrapped Redis error. */
  datatype StoreError = NotFound | Failure(text: string) {
    /** The error's text, as Go's `err.Error()` gives it. */
    function Error(): string {
      match this
      case NotFound => "entry not found"
      case Failure(text) => text
    }
  }

  /** Every record is stored under its own team ID, the only key `setSlackTeam` ever writes. */
  predicate KeyedById(teams: map<string, TeamRecord>) {
    forall id :: id in teams ==> teams[id].id == id
  }

  /** What `GetSlackTeam(teamID)` returns against a database holding `teams`. */
  function Lookup(teams: map<string, TeamRecord>, teamID: string, readFault: Option<string>): (r: Result<TeamRecord, StoreError>)
    ensures r.Ok? <==> readFault.None? && teamID in teams
    ensures r.Ok? ==> r.value == teams[teamID]
    ensures r == Err(NotFound) <==> readFault.None? && teamID !in teams
  {
    if readFault.Some? then Err(Failure("failed to get slack team: " + readFault.value))
    else if teamID !in teams then Err(NotFound)
    else Ok(teams[teamID])
  }

  /** The outcome of `UpdateSlackTeamTokens`: what it returns and the database afterwards. */
  datatype Update = Update(result: Result<TeamRecord, StoreError>, teams: map<string, TeamRecord>)

  /** Read the record, replace its tokens, write it back under its own ID. */
  function UpdateTokens(teams: map<string, TeamRecord>, teamID: string, accessToken: string, refreshToken: string,
                        readFault: Option<string>, writeFault: Option<string>): (u: Update)
    requires KeyedById(teams)
    ensures KeyedById(u.teams)
    ensures u.result.Err? ==> u.teams == teams
    ensures u.result.Ok? <==> readFault.None? && writeFault.None? && teamID in teams
    ensures u.result.Ok? ==>
              u.result.value == WithTokens(teams[teamID], accessToken, refreshToken) &&
              u.teams == teams[teamID := u.result.value]
  {
    match Lookup(teams, teamID, readFault)
    case Err(e) => Update(Err(e), teams)
    case Ok(t) =>
      var updated := WithTokens(t, accessToken, refreshToken);
      if writeFault.Some? then Update(Err(Failure("error setting team data on redis: " + writeFault.value)), teams)
      else Update(Ok(updated), teams[updated.id := updated])
  }

  /** Go's `*SlackTeam`: an in-memory copy of a record whose fields callers assign. */
  class SlackTeam {
    var id: string
    var appID: string
    var accessToken: string
    var refreshToken: string

    constructor (r: TeamRecord)
      ensures Record() == r
    {
      id, appID, accessToken, refreshToken := r.id, r.appID, r.accessToken, r.refreshToken;
    }

    /** The record this object holds right now. */
    function Record(): TeamRecord
      reads this
    {
      TeamRecord(id, appID, accessToken, refreshToken)
    }
  }

  /** The Redis-backed implementation of the `Storage` interface. */
  class RedisStorage {
    /** The Redis database: team ID to the record stored under it. */
    var teams: map<string, TeamRecord>

    ghost predicate Valid()
      reads this
    {
      KeyedById(teams)
    }

    /** A store over a database that already holds `initial`. */
    constructor (initial: map<string, TeamRecord>)
      requires KeyedById(initial)
      ensures Valid() && teams == initial
    {
      teams := initial;
    }

    /** Writes `team` under the key `team.ID`, overwriting whatever was there. */
    method SetSlackTeam(team: SlackTeam, writeFault: Option<string>) returns (err: Option<StoreError>)
      requires Valid()
      modifies this
      ensures Valid()
      ensures err.None? <==> writeFault.None?
      ensures err.Some? ==> err.value == Failure("error setting team data on redis: " + writeFault.value) && teams == old(teams)
      ensures err.None? ==> teams == old(teams)[team.id := team.Record()]
    {
      if writeFault.Some? {
        return Some(Failure("error setting team data on redis: " + writeFault.value));
      }
      teams := teams[team.id := team.Record()];
      return None;
    }

    /** Stores a new record built from the four arguments and returns it. */
    method AddSlackTeam(teamID: string, appID: string, accessToken: string, refreshToken: string, writeFault: Option<string>)
      returns (r: Result<SlackTeam, StoreError>)
      requires Valid()
      modifies this
      ensures Valid()
      ensures r.Ok? <==> writeFault.None?
      ensures r.Ok? ==> fresh(r.value) && r.value.Record() == TeamRecord(teamID, appID, accessToken, refreshToken)
      ensures r.Ok? ==> teams == old(teams)[teamID := TeamRecord(teamID, appID, accessToken, refreshToken)]
      ensures r.Err? ==> r.error == Failure("error setting team data on redis: " + writeFault.value) && teams == old(teams)
    {
      var team := new SlackTeam(TeamRecord(teamID, appID, accessToken, refreshToken));
      var err := SetSlackTeam(team, writeFault);
      if err.Some? {
        return Err(err.value);
      }
      return Ok(team);
    }

    /** Reads the record stored under `teamID` into a new object; `NotFound` when the key is absent. */
    method GetSlackTeam(teamID: string, readFault: Option<string>) returns (r: Result<SlackTeam, StoreError>)
      ensures r.Ok? <==> Lookup(teams, teamID, readFault).Ok?
      ensures r.Ok? ==> fresh(r.value) && r.value.Record() == Lookup(teams, teamID, readFault).value
      ensures r.Err? ==> r.error == Lookup(teams, teamID, readFault).error
    {
      if readFault.Some? {
        return Err(Failure("failed to get slack team: " + readFault.value));
      }
      if teamID !in teams {
        return Err(NotFound);
      }
      var team := new SlackTeam(teams[teamID]);
      return Ok(team);
    }

    /** Read-modify-write of the two token fields of the record stored under `teamID`. */
    method UpdateSlackTeamTokens(teamID: string, accessToken: string, refreshToken: string,
                                 readFault: Option<string>, writeFault: Option<string>)
      returns (r: Result<SlackTeam, StoreError>)
      requires Valid()
      modifies this
      ensures Valid()
      ensures teams == UpdateTokens(old(teams), teamID, accessToken, refreshToken, readFault, writeFault).teams
      ensures r.Ok? <==> UpdateTokens(old(teams), teamID, accessToken, refreshToken, readFault, writeFault).result.Ok?
      ensures r.Ok? ==> fresh(r.value) &&
                        r.value.Record() == UpdateTokens(old(teams), teamID, accessToken, refreshToken, readFault, writeFault).result.value
      ensures r.Err? ==> r.error == UpdateTokens(old(teams), teamID, accessToken, refreshToken, readFault, writeFault).result.error
    {
      var got := GetSlackTeam(teamID, readFault);
      if got.Err? {
        return Err(got.error);
      }
      var team := got.value;
      team.accessToken := accessToken;
      team.refreshToken := refreshToken;
      var err := SetSlackTeam(team, writeFault);
      if err.Some? {
        return Err(err.value);
      }
      return Ok(team);
    }
  }

  /** After an add, a get of the same ID returns exactly the added record. */
  lemma GetAfterAdd(teams: map<string, TeamRecord>, teamID: string, appID: string, accessToken: string, refreshToken: string)
    ensures Lookup(teams[teamID := TeamRecord(teamID, appID, accessToken, refreshToken)], teamID, None)
            == Ok(TeamRecord(teamID, appID, accessToken, refreshToken))
  {
  }

  /** An add overwrites only the key it names: every other key reads as before. */
  lemma AddLeavesOtherKeys(teams: map<string, TeamRecord>, t: TeamRecord, other: string, readFault: Option<string>)
    requires other != t.id
    ensures Lookup(teams[t.id := t], other, readFault) == Lookup(teams, other, readFault)
  {
  }

  /** A get of an absent key reports `ErrNotFound`; a get never changes the database. */
  lemma GetAbsentIsNotFound(teams: map<string, TeamRecord>, teamID: string)
    requires teamID !in teams
    ensures Lookup(teams, teamID, None) == Err(NotFound)
  {
  }

  /** An update of an absent key reports `ErrNotFound` and writes nothing. */
  lemma UpdateAbsentIsNotFound(teams: map<string, TeamRecord>, teamID: string, accessToken: string, refreshToken: string,
                               writeFault: Option<string>)
    requires KeyedById(teams) && teamID !in teams
    ensures UpdateTokens(teams, teamID, accessToken, refreshToken, None, writeFault) == Update(Err(NotFound), teams)
  {
  }

  /**
   * A successful update changes the tokens of `teamID` and nothing else, and a get
   * afterwards returns the record the update returned.
   */
  lemma UpdateThenGet(teams: map<string, TeamRecord>, teamID: string, accessToken: string, refreshToken: string, other: string)
    requires KeyedById(teams) && teamID in teams
    ensures var u := UpdateTokens(teams, teamID, accessToken, refreshToken, None, None);
            && u.result.Ok?
            && Lookup(u.teams, teamID, None) == u.result
            && u.result.value.id == teamID && u.result.value.appID == teams[teamID].appID
            && (other != teamID ==> Lookup(u.teams, other, None) == Lookup(teams, other, None))
  {
  }

  /** Updating twice with the same tokens leaves the same database as updating once. */
  lemma UpdateIdempotent(teams: map<string, TeamRecord>, teamID: string, accessToken: string, refreshToken: string)
    requires KeyedById(teams)
    ensures var once := UpdateTokens(teams, teamID, accessToken, refreshToken, None, None);
            UpdateTokens(once.teams, teamID, accessToken, refreshToken, None, None) == once
  {
  }
}

/**
 * What the pages keep in Web Storage and what they get back from the database: the stored
 * records, the storage keys, the JSON codec (an oracle: parsing and printing are library
 * calls), the remote calls they make, and the decision rules both pages share.
 */
module Remote {
  import opened Wrappers
  import opened WebStorage

  /** `game_status` of the database schema. */
  datatype GameStatus = LobbyStatus | ActiveStatus | FinishedStatus

  /** A `games` row as selected by id: `id, code, status`. */
  datatype GameRow = GameRow(id: string, code: string, status: GameStatus)

  /** One row returned by `create_game`. */
  datatype CreatedGame = CreatedGame(code: string, gameId: string, playerId: string)

  /** The `create_game` reply: an error (with its message) and the returned rows. */
  datatype CreateGameResult = CreateGameResult(error: Option<string>, rows: seq<CreatedGame>)

  datatype StoredProfile = StoredProfile(name: string, avatar: Option<string>, color: Option<string>)
  datatype StoredHostLobby = StoredHostLobby(gameId: string, code: string, playerId: string)
  datatype StoredPlayer = StoredPlayer(gameId: string, playerId: string)

  /** A parsed JSON value read as a profile: each field present or absent (`null`, `undefined`). */
  datatype ParsedProfile = ParsedProfile(name: Option<string>, avatar: Option<string>, color: Option<string>)
  datatype ParsedHostLobby = ParsedHostLobby(gameId: Option<string>, code: Option<string>, playerId: Option<string>)

  /**
   * `JSON.parse` (None: it throws) and `JSON.stringify` for each record; a parsed `null`
   * is a record with every field absent.
   */
  datatype Codec = Codec(
    parseProfile: string -> Option<ParsedProfile>,
    parseHostLobby: string -> Option<ParsedHostLobby>,
    profileJson: StoredProfile -> string,
    hostLobbyJson: StoredHostLobby -> string,
    playerJson: StoredPlayer -> string)

  /** The database and auth calls, in the order a page makes them. */
  datatype RemoteCall =
    | GetSession
    | SignInAnonymously
    | SelectGame(id: string)
    | UpdatePlayer(playerId: string, name: string, avatar: Option<string>, color: Option<string>)
    | UpdatePlayerName(playerId: string, name: string)
    | CreateGame(name: string, avatar: Option<string>, color: Option<string>)

  const ProfileKey: string := "7score_profile"
  const LegacyProfileKey: string := "flip7_profile"
  const HostLobbyKey: string := "flip7_host_lobby"
  const PlayerKeyPrefix: string := "flip7_player_"
  const FailedToCreate: string := "Failed to create game."
  const LobbyPrefix: string := "/lobby/"

  /** The per-game player record key `flip7_player_{code}`. */
  function PlayerKey(code: string): string {
    PlayerKeyPrefix + code
  }

  /** The lobby route for a game code. */
  function LobbyPath(code: string): string {
    LobbyPrefix + code
  }

  /** No player key collides with the host-lobby or profile keys, and distinct codes give distinct keys. */
  lemma PlayerKeyDistinct(code: string, other: string)
    ensures PlayerKey(code) != HostLobbyKey && PlayerKey(code) != ProfileKey && PlayerKey(code) != LegacyProfileKey
    ensures code != other ==> PlayerKey(code) != PlayerKey(other)
  {
    assert PlayerKey(code)[6] == 'p' && HostLobbyKey[6] == 'h';
    assert PlayerKey(code)[0] == 'f' && ProfileKey[0] == '7';
    assert PlayerKey(code)[6] == 'p' && LegacyProfileKey[6] == 'p' && PlayerKey(code)[7] == 'l' && LegacyProfileKey[7] == 'r';
    assert PlayerKey(code)[|PlayerKeyPrefix|..] == code;
    assert PlayerKey(other)[|PlayerKeyPrefix|..] == other;
  }

  /**
   * The stored host lobby a page may reuse: the parse succeeded and `gameId`, `code` and
   * `playerId` are all present and non-empty.
   */
  function ReusableLobby(p: Option<ParsedHostLobby>): (r: Option<StoredHostLobby>)
    ensures r.Some? <==> p.Some? && Truthy(p.value.gameId) && Truthy(p.value.code) && Truthy(p.value.playerId)
    ensures r.Some? ==> r.value == StoredHostLobby(p.value.gameId.value, p.value.code.value, p.value.playerId.value)
    ensures r.Some? ==> r.value.gameId != "" && r.value.code != "" && r.value.playerId != ""
  {
    if p.Some? && Truthy(p.value.gameId) && Truthy(p.value.code) && Truthy(p.value.playerId) then
      Some(StoredHostLobby(p.value.gameId.value, p.value.code.value, p.value.playerId.value))
    else None
  }

  /** The selected game exists and is not finished. */
  predicate Unfinished(g: Option<GameRow>) {
    g.Some? && g.value.status != FinishedStatus
  }

  /**
   * The error a failed `create_game` reports: the RPC message when there is an error,
   * else `"Failed to create game."` when no row came back; nothing on success.
   */
  function CreateFailure(res: CreateGameResult): (m: Option<string>)
    ensures m.None? <==> res.error.None? && |res.rows| > 0
    ensures res.error.Some? ==> m == res.error
    ensures res.error.None? && res.rows == [] ==> m == Some(FailedToCreate)
  {
    if res.error.Some? then res.error
    else if res.rows == [] then Some(FailedToCreate)
    else None
  }

  /**
   * The stored host lobby a page tries to resume (`if (stored)`, then the parse and the
   * three-field check): none without stored text, else the reusable lobby it parses to.
   */
  function Candidate(codec: Codec, stored: string): (c: Option<StoredHostLobby>)
    ensures stored == "" ==> c.None?
    ensures c.Some? <==> stored != "" && ReusableLobby(codec.parseHostLobby(stored)).Some?
    ensures c.Some? ==> c == ReusableLobby(codec.parseHostLobby(stored))
    ensures c.Some? ==> c.value.gameId != "" && c.value.code != "" && c.value.playerId != ""
  {
    if stored == "" then None else ReusableLobby(codec.parseHostLobby(stored))
  }
}

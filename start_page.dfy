/**
 * The host start page: a one-time `initGame` that signs in anonymously when needed,
 * resumes the host lobby kept in localStorage when its game is not finished or else
 * creates a game as "Host", and the name form that renames the host player.
 */
module StartPage {
  import opened Wrappers
  import opened Text
  import opened WebStorage
  import opened Remote

  datatype InitState = Idle | Creating | Ready | Error

  const HostName: string := "Host"

  /** The two localStorage writes after a successful `create_game`, each outside any try block. */
  function LocalRecordWrites(codec: Codec, created: CreatedGame): seq<WriteOp> {
    [ SetOp(Local, HostLobbyKey, codec.hostLobbyJson(StoredHostLobby(created.gameId, created.code, created.playerId)))
    , SetOp(Local, PlayerKey(created.code), codec.playerJson(StoredPlayer(created.gameId, created.playerId))) ]
  }

  /** `localStorage.getItem("flip7_host_lobby") ?? ""`; None when the read throws. */
  function StoredLocalLobby(b: Browser): (r: Option<string>)
    ensures r.None? <==> b.local.readThrows
    ensures r.Some? ==> r.value == Get(b.local, HostLobbyKey).GetOr("")
  {
    if b.local.readThrows then None else Some(Get(b.local, HostLobbyKey).GetOr(""))
  }

  /** With a localStorage that accepts `setItem`, a created game leaves both of its records there. */
  lemma LocalRecordsStored(b: Browser, codec: Codec, created: CreatedGame)
    requires !b.local.setThrows
    ensures var w := RunWrites(b, LocalRecordWrites(codec, created));
      && !w.threw
      && Get(w.browser.local, HostLobbyKey) ==
           Some(codec.hostLobbyJson(StoredHostLobby(created.gameId, created.code, created.playerId)))
      && Get(w.browser.local, PlayerKey(created.code)) ==
           Some(codec.playerJson(StoredPlayer(created.gameId, created.playerId)))
      && w.browser.session == b.session
  {
    var ops := LocalRecordWrites(codec, created);
    PlayerKeyDistinct(created.code, created.code);
    var b1 := With(b, Local, Apply(b.local, ops[0]));
    var b2 := With(b1, Local, Apply(b1.local, ops[1]));
    assert RunWrites(b, ops) == RunWrites(b1, ops[1..]);
    assert RunWrites(b1, ops[1..]) == RunWrites(b2, []);
    assert Get(b2.local, HostLobbyKey) == Get(b1.local, HostLobbyKey);
  }

  class Page {
    var browser: Browser
    var state: InitState
    var error: string
    var code: string
    var playerId: string
    var hostName: string
    /** The `hasInitialized` ref. */
    var hasInitialized: bool
    /** Remote and auth calls made, in order. */
    var calls: seq<RemoteCall>
    /** The last `router.push` target. */
    var navigation: Option<string>

    constructor(b: Browser)
      ensures browser == b && state == Idle && error == "" && code == "" && playerId == "" && hostName == ""
      ensures !hasInitialized && calls == [] && navigation.None?
    {
      browser := b;
      state := Idle;
      error := "";
      code := "";
      playerId := "";
      hostName := "";
      hasInitialized := false;
      calls := [];
      navigation := None;
    }

    /**
     * The mount effect and `initGame`. It runs once per mount. Without a session it signs
     * in, stopping in Error on a sign-in error. Then it resumes or creates (see
     * `AfterAuth`). `threw`: a storage call outside any try block threw, so the promise
     * rejected at that point.
     */
    method InitGame(hasSession: bool, signInError: Option<string>, codec: Codec,
                    existingGame: Option<GameRow>, result: CreateGameResult) returns (threw: bool)
      modifies this
      ensures old(hasInitialized) ==> unchanged(this) && !threw
      ensures !old(hasInitialized) ==> hasInitialized && hostName == old(hostName) && navigation == old(navigation)
      ensures !old(hasInitialized) && !hasSession && signInError.Some? ==>
        && state == Error && error == signInError.value && !threw
        && calls == old(calls) + [GetSession, SignInAnonymously]
        && browser == old(browser) && code == old(code) && playerId == old(playerId)
      ensures !old(hasInitialized) && (hasSession || signInError.None?) ==>
        old(calls) + (if hasSession then [GetSession] else [GetSession, SignInAnonymously]) <= calls
    {
      threw := false;
      if hasInitialized {
        return;
      }
      hasInitialized := true;
      state := Creating;
      calls := calls + [GetSession];
      if !hasSession {
        calls := calls + [SignInAnonymously];
        if signInError.Some? {
          state := Error;
          error := signInError.value;
          return;
        }
      }
      threw := AfterAuth(codec, existingGame, result);
    }

    /**
     * `initGame` after authentication, in state Creating. A stored host lobby whose game
     * is unfinished is resumed: its code and player id are taken and the player record is
     * written, ending in Ready without `create_game`. When that `setItem` throws (a full
     * quota), the surrounding try block swallows it and the page goes on as if nothing
     * could be resumed. Otherwise the stored host lobby is removed (outside any try block,
     * so a throwing removal rejects the promise) and a game is created as "Host": on
     * failure Error with the RPC message (or "Failed to create game."), on success Ready
     * with the new code and player, and then both records are written to localStorage.
     */
    method AfterAuth(codec: Codec, existingGame: Option<GameRow>, result: CreateGameResult) returns (threw: bool)
      modifies this
      ensures hasInitialized == old(hasInitialized) && hostName == old(hostName) && navigation == old(navigation)
      ensures old(calls) <= calls
      ensures old(browser).local.readThrows ==> threw && unchanged(this)
      ensures !old(browser).local.readThrows ==>
        var stored := Get(old(browser).local, HostLobbyKey).GetOr("");
        var lobby := Candidate(codec, stored);
        var selected := if lobby.Some? then [SelectGame(lobby.value.gameId)] else [];
        var resumed := lobby.Some? && Unfinished(existingGame);
        var takenCode := if resumed then existingGame.value.code else old(code);
        var takenPlayer := if resumed then lobby.value.playerId else old(playerId);
        var removalThrows := stored != "" && old(browser).local.removeThrows;
        && (resumed && !old(browser).local.setThrows ==>
              && !threw && state == Ready && code == existingGame.value.code && playerId == lobby.value.playerId
              && calls == old(calls) + selected && error == old(error)
              && browser == RunWrites(old(browser), [SetOp(Local, PlayerKey(existingGame.value.code),
                   codec.playerJson(StoredPlayer(lobby.value.gameId, lobby.value.playerId)))]).browser)
        && ((!resumed || old(browser).local.setThrows) && removalThrows ==>
              && threw && state == old(state) && error == old(error) && calls == old(calls) + selected
              && browser == old(browser) && code == takenCode && playerId == takenPlayer)
        && ((!resumed || old(browser).local.setThrows) && !removalThrows ==>
              var cleared := if stored != "" then RunWrites(old(browser), [RemoveOp(Local, HostLobbyKey)]).browser
                             else old(browser);
              && calls == old(calls) + selected + [CreateGame(HostName, None, None)]
              && (CreateFailure(result).Some? ==>
                    && !threw && state == Error && error == CreateFailure(result).value
                    && code == takenCode && playerId == takenPlayer && browser == cleared)
              && (CreateFailure(result).None? ==>
                    var w := RunWrites(cleared, LocalRecordWrites(codec, result.rows[0]));
                    && threw == w.threw && state == Ready && error == old(error)
                    && code == result.rows[0].code && playerId == result.rows[0].playerId
                    && browser == w.browser))
    {
      var stored := StoredLocalLobby(browser);
      if stored.None? {
        return true;
      }
      var lobby := Candidate(codec, stored.value);
      if lobby.Some? {
        calls := calls + [SelectGame(lobby.value.gameId)];
        if Unfinished(existingGame) {
          var resumed := ResumeStored(codec, lobby.value, existingGame.value.code);
          if resumed {
            return false;
          }
          // The throwing setItem is caught; the removal below runs next, and a game is created.
        }
      }
      threw := ClearHostLobby(stored.value);
      if threw {
        return;
      }
      threw := CreateHostGame(codec, result);
    }

    /**
     * The resume branch of `initGame`: the stored lobby's code and player id are taken, and
     * its player record is written to localStorage. `resumed` says the write went through,
     * and then the page is Ready; a throwing write (a full quota) changes nothing else.
     */
    method ResumeStored(codec: Codec, lobby: StoredHostLobby, gameCode: string) returns (resumed: bool)
      modifies this`code, this`playerId, this`browser, this`state
      ensures resumed <==> !old(browser).local.setThrows
      ensures code == gameCode && playerId == lobby.playerId
      ensures resumed ==> state == Ready && browser == RunWrites(old(browser), [SetOp(Local, PlayerKey(gameCode),
                            codec.playerJson(StoredPlayer(lobby.gameId, lobby.playerId)))]).browser
      ensures !resumed ==> state == old(state) && browser == old(browser)
    {
      code := gameCode;
      playerId := lobby.playerId;
      var write := SetOp(Local, PlayerKey(code), codec.playerJson(StoredPlayer(lobby.gameId, lobby.playerId)));
      RunWritesSingle(browser, write);
      var w := RunWrites(browser, [write]);
      resumed := !w.threw;
      if resumed {
        browser := w.browser;
        state := Ready;
      }
    }

    /**
     * `localStorage.removeItem("flip7_host_lobby")` when a host lobby was stored, outside any
     * try block: `threw` says the removal threw, and then nothing changed.
     */
    method ClearHostLobby(stored: string) returns (threw: bool)
      modifies this`browser
      ensures threw <==> stored != "" && old(browser).local.removeThrows
      ensures browser == if stored != "" && !threw then RunWrites(old(browser), [RemoveOp(Local, HostLobbyKey)]).browser
                         else old(browser)
    {
      threw := false;
      if stored != "" {
        RunWritesSingle(browser, RemoveOp(Local, HostLobbyKey));
        var w := RunWrites(browser, [RemoveOp(Local, HostLobbyKey)]);
        if w.threw {
          return true;
        }
        browser := w.browser;
      }
    }

    /** `create_game` as "Host", the Ready or Error state, then the two localStorage records. */
    method CreateHostGame(codec: Codec, result: CreateGameResult) returns (threw: bool)
      modifies this
      ensures hasInitialized == old(hasInitialized) && hostName == old(hostName) && navigation == old(navigation)
      ensures calls == old(calls) + [CreateGame(HostName, None, None)]
      ensures CreateFailure(result).Some? ==>
        && !threw && state == Error && error == CreateFailure(result).value
        && code == old(code) && playerId == old(playerId) && browser == old(browser)
      ensures CreateFailure(result).None? ==>
        var w := RunWrites(old(browser), LocalRecordWrites(codec, result.rows[0]));
        && threw == w.threw && state == Ready && error == old(error)
        && code == result.rows[0].code && playerId == result.rows[0].playerId && browser == w.browser
    {
      calls := calls + [CreateGame(HostName, None, None)];
      var failure := CreateFailure(result);
      if failure.Some? {
        state := Error;
        error := failure.value;
        return false;
      }
      var created := result.rows[0];
      code := created.code;
      playerId := created.playerId;
      state := Ready;
      var w := RunWrites(browser, LocalRecordWrites(codec, created));
      browser := w.browser;
      threw := w.threw;
    }

    /** The name input. */
    method SetHostName(v: string)
      modifies this`hostName
      ensures hostName == v
    {
      hostName := v;
    }

    /**
     * `handleSubmit`: nothing for a blank name; otherwise the host player is renamed to the
     * trimmed name, and an update error ends in Error while success opens the lobby.
     */
    method HandleSubmit(updateError: Option<string>)
      modifies this
      ensures browser == old(browser) && code == old(code) && playerId == old(playerId)
      ensures hostName == old(hostName) && hasInitialized == old(hasInitialized)
      ensures Trim(hostName) == "" ==> unchanged(this)
      ensures Trim(hostName) != "" ==> calls == old(calls) + [UpdatePlayerName(playerId, Trim(hostName))]
      ensures Trim(hostName) != "" && updateError.Some? ==>
        state == Error && error == updateError.value && navigation == old(navigation)
      ensures Trim(hostName) != "" && updateError.None? ==>
        state == old(state) && error == old(error) && navigation == Some(LobbyPath(code))
    {
      var name := Trim(hostName);
      if name == "" {
        return;
      }
      calls := calls + [UpdatePlayerName(playerId, name)];
      if updateError.Some? {
        state := Error;
        error := updateError.value;
        return;
      }
      navigation := Some(LobbyPath(code));
    }
  }
}

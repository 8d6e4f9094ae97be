/**
 * The home page: the profile-load effect (with migration of the legacy key), creating or
 * resuming a hosted lobby, saving and forgetting the profile, and the join-code drawer.
 * Remote replies are inputs; the calls made are recorded in order.
 */
module HomePage {
  import opened Wrappers
  import opened Text
  import opened WebStorage
  import opened Remote

  const LoadingMessage: string := "Setting up your session. Try again in a moment."

  /** The profile-load chain: the current key before the legacy one, session before local. */
  const ProfileReads: seq<(Area, string)> :=
    [(Session, ProfileKey), (Local, ProfileKey), (Session, LegacyProfileKey), (Local, LegacyProfileKey)]

  /** The catch block of the profile load: every profile key, in both stores. */
  const ProfileRemovals: seq<WriteOp> :=
    [RemoveOp(Session, ProfileKey), RemoveOp(Local, ProfileKey),
     RemoveOp(Session, LegacyProfileKey), RemoveOp(Local, LegacyProfileKey)]

  const HostLobbyReads: seq<(Area, string)> := [(Session, HostLobbyKey), (Local, HostLobbyKey)]

  const HostLobbyRemovals: seq<WriteOp> := [RemoveOp(Session, HostLobbyKey), RemoveOp(Local, HostLobbyKey)]

  /** The block of `handleNotThisUser`: the current profile key only. */
  const CurrentProfileRemovals: seq<WriteOp> := [RemoveOp(Session, ProfileKey), RemoveOp(Local, ProfileKey)]

  /** The profile write of the migration, of saving and of creating: the current key in both stores. */
  function ProfileWrites(v: string): seq<WriteOp> {
    [SetOp(Session, ProfileKey, v), SetOp(Local, ProfileKey, v)]
  }

  /** Host lobby, player record and profile, each to sessionStorage then localStorage. */
  function CreatedWrites(codec: Codec, created: CreatedGame, profile: StoredProfile): seq<WriteOp> {
    var host := codec.hostLobbyJson(StoredHostLobby(created.gameId, created.code, created.playerId));
    var player := codec.playerJson(StoredPlayer(created.gameId, created.playerId));
    var prof := codec.profileJson(profile);
    [ SetOp(Session, HostLobbyKey, host), SetOp(Local, HostLobbyKey, host)
    , SetOp(Session, PlayerKey(created.code), player), SetOp(Local, PlayerKey(created.code), player)
    , SetOp(Session, ProfileKey, prof), SetOp(Local, ProfileKey, prof) ]
  }

  /** The profile re-stored from a parsed one: `avatar ?? null`, `color ?? null`. */
  function Migrated(p: ParsedProfile): StoredProfile
    requires Truthy(p.name)
  {
    StoredProfile(p.name.value, p.avatar, p.color)
  }

  /** `getItem(..) ?? getItem(..) ?? ""` for the host lobby; None when a read throws. */
  function StoredLobby(b: Browser): (r: Option<string>)
    ensures r.None? <==> ReadFirst(b, HostLobbyReads).ReadThrew?
  {
    var rd := ReadFirst(b, HostLobbyReads);
    if rd.ReadThrew? then None else Some(rd.value.GetOr(""))
  }

  // ---------------------------------------------------------------------------
  // What the storage blocks leave behind when the stores accept their calls
  // ---------------------------------------------------------------------------

  /** With stores accepting `setItem`, the migration (or a save) stores `v` under the current key in both. */
  lemma ProfileWritesStore(b: Browser, v: string)
    requires !b.session.setThrows && !b.local.setThrows
    ensures var w := RunWrites(b, ProfileWrites(v));
      && !w.threw
      && Get(w.browser.session, ProfileKey) == Some(v) && Get(w.browser.local, ProfileKey) == Some(v)
      && Get(w.browser.session, LegacyProfileKey) == Get(b.session, LegacyProfileKey)
      && Get(w.browser.local, LegacyProfileKey) == Get(b.local, LegacyProfileKey)
  {
    var ops := ProfileWrites(v);
    RunWritesApplied(b, ops, 0);
    RunWritesApplied(b, ops, 1);
    RunWritesUntouched(b, ops, Session, LegacyProfileKey);
    RunWritesUntouched(b, ops, Local, LegacyProfileKey);
  }

  /**
   * With stores accepting `removeItem` (stores over their quota do), the catch block of the
   * profile load removes all four profile items.
   */
  lemma ProfileRemovalsClear(b: Browser)
    requires !b.session.removeThrows && !b.local.removeThrows
    ensures var c := RunWrites(b, ProfileRemovals).browser;
      && Get(c.session, ProfileKey).None? && Get(c.local, ProfileKey).None?
      && Get(c.session, LegacyProfileKey).None? && Get(c.local, LegacyProfileKey).None?
  {
    RunWritesApplied(b, ProfileRemovals, 0);
    RunWritesApplied(b, ProfileRemovals, 1);
    RunWritesApplied(b, ProfileRemovals, 2);
    RunWritesApplied(b, ProfileRemovals, 3);
  }

  /**
   * With stores accepting `removeItem` (stores over their quota do), the host-lobby block
   * of `createLobby` clears `flip7_host_lobby` in both stores and leaves every other item.
   */
  lemma {:induction false} HostLobbyRemovalsClear(b: Browser)
    requires !b.session.removeThrows && !b.local.removeThrows
    ensures var c := RunWrites(b, HostLobbyRemovals).browser;
      && Get(c.session, HostLobbyKey).None? && Get(c.local, HostLobbyKey).None?
      && forall a, k :: k != HostLobbyKey ==> Get(At(c, a), k) == Get(At(b, a), k)
  {
    RunWritesApplied(b, HostLobbyRemovals, 0);
    RunWritesApplied(b, HostLobbyRemovals, 1);
    forall a, k | k != HostLobbyKey
      ensures Get(At(RunWrites(b, HostLobbyRemovals).browser, a), k) == Get(At(b, a), k)
    {
      RunWritesUntouched(b, HostLobbyRemovals, a, k);
    }
  }

  /**
   * With stores accepting `removeItem` (stores over their quota do), the block of
   * `handleNotThisUser` clears `7score_profile` in both stores.
   */
  lemma {:induction false} CurrentProfileRemovalsClear(b: Browser)
    requires !b.session.removeThrows && !b.local.removeThrows
    ensures var c := RunWrites(b, CurrentProfileRemovals).browser;
      Get(c.session, ProfileKey).None? && Get(c.local, ProfileKey).None?
  {
    RunWritesApplied(b, CurrentProfileRemovals, 0);
    RunWritesApplied(b, CurrentProfileRemovals, 1);
  }

  /** Whether or not they throw, the removals of `handleNotThisUser` touch only `7score_profile`. */
  lemma CurrentProfileRemovalsKeep(b: Browser)
    ensures var c := RunWrites(b, CurrentProfileRemovals).browser;
      forall a, k :: k != ProfileKey ==> Get(At(c, a), k) == Get(At(b, a), k)
  {
    forall a, k | k != ProfileKey
      ensures Get(At(RunWrites(b, CurrentProfileRemovals).browser, a), k) == Get(At(b, a), k)
    {
      RunWritesUntouched(b, CurrentProfileRemovals, a, k);
    }
  }

  /**
   * A re-store that throws because a store is over its quota is followed by the catch
   * block, and that block, whose removals the full stores accept, clears all four items.
   */
  lemma {:induction false} QuotaRestoreClears(b: Browser, v: string)
    requires b.session.setThrows || b.local.setThrows
    requires !b.session.removeThrows && !b.local.removeThrows
    ensures var w := RunWrites(b, ProfileWrites(v));
      var c := RunWrites(w.browser, ProfileRemovals).browser;
      && w.threw
      && Get(c.session, ProfileKey).None? && Get(c.local, ProfileKey).None?
      && Get(c.session, LegacyProfileKey).None? && Get(c.local, LegacyProfileKey).None?
  {
    var ops := ProfileWrites(v);
    RunWritesThrows(b, ops);
    assert !Accepts(b, ops) by {
      if !b.session.setThrows {
        assert Rejects(At(b, ops[1].area), ops[1]);
      } else {
        assert Rejects(At(b, ops[0].area), ops[0]);
      }
    }
    ProfileRemovalsClear(RunWrites(b, ops).browser);
  }

  /** The six writes of a created game name six different items. */
  lemma CreatedWritesDistinct(codec: Codec, created: CreatedGame, profile: StoredProfile)
    ensures Distinct(CreatedWrites(codec, created, profile))
  {
    PlayerKeyDistinct(created.code, created.code);
  }

  /** With stores accepting `setItem`, a created game leaves its three records in both stores. */
  lemma CreatedWritesStore(b: Browser, codec: Codec, created: CreatedGame, profile: StoredProfile)
    requires !b.session.setThrows && !b.local.setThrows
    ensures var w := RunWrites(b, CreatedWrites(codec, created, profile));
      var host := codec.hostLobbyJson(StoredHostLobby(created.gameId, created.code, created.playerId));
      var player := codec.playerJson(StoredPlayer(created.gameId, created.playerId));
      && !w.threw
      && Get(w.browser.session, HostLobbyKey) == Some(host) && Get(w.browser.local, HostLobbyKey) == Some(host)
      && Get(w.browser.session, PlayerKey(created.code)) == Some(player)
      && Get(w.browser.local, PlayerKey(created.code)) == Some(player)
      && Get(w.browser.session, ProfileKey) == Some(codec.profileJson(profile))
      && Get(w.browser.local, ProfileKey) == Some(codec.profileJson(profile))
  {
    var ops := CreatedWrites(codec, created, profile);
    CreatedWritesDistinct(codec, created, profile);
    assert Accepts(b, ops);
    RunWritesApplied(b, ops, 0);
    RunWritesApplied(b, ops, 1);
    RunWritesApplied(b, ops, 2);
    RunWritesApplied(b, ops, 3);
    RunWritesApplied(b, ops, 4);
    RunWritesApplied(b, ops, 5);
  }

  // ---------------------------------------------------------------------------
  // The join-code drawer
  // ---------------------------------------------------------------------------

  /** The join button is enabled exactly when the trimmed code has six characters. */
  function JoinEnabled(code: string): bool {
    |Trim(code)| == 6
  }

  /** The join button's navigation: `/lobby/{trimmed}` when enabled, nothing otherwise. */
  function JoinTarget(code: string): (t: Option<string>)
    ensures t.Some? <==> JoinEnabled(code)
    ensures t.Some? ==> t.value == LobbyPath(Trim(code)) && |t.value| == |LobbyPrefix| + 6
  {
    if JoinEnabled(code) && Trim(code) != "" then Some(LobbyPath(Trim(code))) else None
  }

  /** A typed code is upper-cased, so an enabled join never targets a code with a lower-case letter. */
  lemma JoinTargetUpperCase(typed: string)
    requires JoinEnabled(ToUpper(typed))
    ensures JoinTarget(ToUpper(typed)) == Some(LobbyPath(Trim(ToUpper(typed))))
    ensures forall i :: 0 <= i < |Trim(ToUpper(typed))| ==> !('a' <= Trim(ToUpper(typed))[i] <= 'z')
  {
    var u := ToUpper(typed);
    forall i | 0 <= i < |Trim(u)| ensures !('a' <= Trim(u)[i] <= 'z') {
      assert Trim(u)[i] == u[TrimStartIndex(u) + i];
    }
  }

  datatype DrawerMode = Create | Update

  class Page {
    var browser: Browser
    var profileName: string
    var profileAvatar: Option<string>
    var profileColor: Option<string>
    var createError: string
    var isCreating: bool
    var lobbyCode: string
    var isJoinDrawerOpen: bool
    var isProfileDrawerOpen: bool
    var isProfileMenuOpen: bool
    var drawerMode: DrawerMode
    /** Remote calls made, in order. */
    var calls: seq<RemoteCall>
    /** The last `router.push` target. */
    var navigation: Option<string>

    /** The drawers and the join code stay as they were. */
    twostate predicate DrawersKept()
      reads this
    {
      && lobbyCode == old(lobbyCode) && isJoinDrawerOpen == old(isJoinDrawerOpen)
      && isProfileDrawerOpen == old(isProfileDrawerOpen) && isProfileMenuOpen == old(isProfileMenuOpen)
      && drawerMode == old(drawerMode)
    }

    twostate predicate ProfileKept()
      reads this
    {
      profileName == old(profileName) && profileAvatar == old(profileAvatar) && profileColor == old(profileColor)
    }

    /** First render: every state hook at its initial value. */
    constructor(b: Browser)
      ensures browser == b && profileName == "" && profileAvatar.None? && profileColor.None?
      ensures createError == "" && !isCreating && lobbyCode == "" && !isJoinDrawerOpen
      ensures !isProfileDrawerOpen && !isProfileMenuOpen && drawerMode == Create
      ensures calls == [] && navigation.None?
    {
      browser := b;
      profileName := "";
      profileAvatar := None;
      profileColor := None;
      createError := "";
      isCreating := false;
      lobbyCode := "";
      isJoinDrawerOpen := false;
      isProfileDrawerOpen := false;
      isProfileMenuOpen := false;
      drawerMode := Create;
      calls := [];
      navigation := None;
    }

    /**
     * The profile-load effect. A throwing read escapes (`threw`). No stored text: nothing.
     * A parsed profile with a name fills the profile state and is re-stored under the
     * current key; a failed parse, or a throwing re-store, runs the four removals of the
     * catch block, which stop at the first one that throws.
     */
    method LoadProfile(codec: Codec) returns (threw: bool)
      modifies this
      ensures DrawersKept() && createError == old(createError) && isCreating == old(isCreating)
      ensures calls == old(calls) && navigation == old(navigation)
      ensures threw <==> ReadFirst(old(browser), ProfileReads).ReadThrew?
      ensures threw ==> unchanged(this)
      ensures var rd := ReadFirst(old(browser), ProfileReads);
        rd.ReadValue? && !Truthy(rd.value) ==> unchanged(this)
      ensures var rd := ReadFirst(old(browser), ProfileReads);
        rd.ReadValue? && Truthy(rd.value) && codec.parseProfile(rd.value.value).None? ==>
          ProfileKept() && browser == RunWrites(old(browser), ProfileRemovals).browser
      ensures var rd := ReadFirst(old(browser), ProfileReads);
        rd.ReadValue? && Truthy(rd.value) && codec.parseProfile(rd.value.value).Some? ==>
          var p := codec.parseProfile(rd.value.value).value;
          && (!Truthy(p.name) ==> unchanged(this))
          && (Truthy(p.name) ==>
                var w := RunWrites(old(browser), ProfileWrites(codec.profileJson(Migrated(p))));
                && profileName == p.name.value && profileAvatar == p.avatar && profileColor == p.color
                && browser == (if w.threw then RunWrites(w.browser, ProfileRemovals).browser else w.browser))
    {
      var rd := ReadFirst(browser, ProfileReads);
      if rd.ReadThrew? {
        return true;
      }
      threw := false;
      if !Truthy(rd.value) {
        return;
      }
      var parsed := codec.parseProfile(rd.value.value);
      if parsed.Some? {
        var p := parsed.value;
        if !Truthy(p.name) {
          return;
        }
        profileName := p.name.value;
        profileAvatar := p.avatar;
        profileColor := p.color;
        var w := RunWrites(browser, ProfileWrites(codec.profileJson(Migrated(p))));
        browser := w.browser;
        if !w.threw {
          return;
        }
      }
      // The catch block: its own try swallows a throwing removal.
      browser := RunWrites(browser, ProfileRemovals).browser;
    }

    /**
     * `createLobby`. Blank name or a create in progress: nothing. Session loading or in
     * error: that error, and `isCreating` reset. Otherwise a stored unfinished host lobby is
     * resumed (player update, then navigation); else the stored host lobby is dropped and a
     * game created, its records stored and its lobby opened. A throwing host-lobby read
     * escapes with `isCreating` left set.
     */
    method CreateLobby(
      nextName: string, nextAvatar: Option<string>, nextColor: Option<string>,
      sessionLoading: bool, sessionError: Option<string>, codec: Codec,
      existingGame: Option<GameRow>, updateError: Option<string>, result: CreateGameResult)
      returns (threw: bool)
      modifies this
      ensures DrawersKept() && ProfileKept()
      ensures Trim(nextName) == "" || old(isCreating) ==> unchanged(this) && !threw
      ensures Trim(nextName) != "" && !old(isCreating) && sessionLoading ==>
        && createError == LoadingMessage && !isCreating && !threw
        && browser == old(browser) && calls == old(calls) && navigation == old(navigation)
      ensures Trim(nextName) != "" && !old(isCreating) && !sessionLoading && Truthy(sessionError) ==>
        && createError == sessionError.value && !isCreating && !threw
        && browser == old(browser) && calls == old(calls) && navigation == old(navigation)
      ensures Trim(nextName) != "" && !old(isCreating) && !sessionLoading && !Truthy(sessionError) ==>
        (threw <==> StoredLobby(old(browser)).None?)
      ensures (&& Trim(nextName) != "" && !old(isCreating) && !sessionLoading && !Truthy(sessionError)
               && StoredLobby(old(browser)).None?) ==>
          && createError == "" && isCreating
          && browser == old(browser) && calls == old(calls) && navigation == old(navigation)
      ensures (&& Trim(nextName) != "" && !old(isCreating) && !sessionLoading && !Truthy(sessionError)
               && StoredLobby(old(browser)).Some?) ==>
          var stored := StoredLobby(old(browser)).value;
          var lobby := Candidate(codec, stored);
          var selected := if lobby.Some? then [SelectGame(lobby.value.gameId)] else [];
          && (lobby.Some? && Unfinished(existingGame) ==>
                && browser == old(browser)
                && calls == old(calls) + selected + [UpdatePlayer(lobby.value.playerId, Trim(nextName), nextAvatar, nextColor)]
                && (updateError.Some? ==>
                      createError == updateError.value && !isCreating && navigation == old(navigation))
                && (updateError.None? ==>
                      createError == "" && isCreating && navigation == Some(LobbyPath(existingGame.value.code))))
          && (!(lobby.Some? && Unfinished(existingGame)) ==>
                var cleared := if stored != "" then RunWrites(old(browser), HostLobbyRemovals).browser else old(browser);
                && calls == old(calls) + selected + [CreateGame(Trim(nextName), nextAvatar, nextColor)]
                && (CreateFailure(result).Some? ==>
                      && createError == CreateFailure(result).value && !isCreating
                      && browser == cleared && navigation == old(navigation))
                && (CreateFailure(result).None? ==>
                      && createError == "" && isCreating
                      && browser == RunWrites(cleared, CreatedWrites(codec, result.rows[0],
                                                   StoredProfile(Trim(nextName), nextAvatar, nextColor))).browser
                      && navigation == Some(LobbyPath(result.rows[0].code))))
    {
      threw := false;
      var name := Trim(nextName);
      if name == "" || isCreating {
        return;
      }
      createError := "";
      isCreating := true;
      if sessionLoading {
        createError := LoadingMessage;
        isCreating := false;
        return;
      }
      if Truthy(sessionError) {
        createError := sessionError.value;
        isCreating := false;
        return;
      }
      threw := ResumeOrCreate(name, nextAvatar, nextColor, codec, existingGame, updateError, result);
    }

    /**
     * The part of `createLobby` after the session checks: read the stored host lobby, then
     * resume it or create a new game.
     */
    method ResumeOrCreate(
      name: string, nextAvatar: Option<string>, nextColor: Option<string>, codec: Codec,
      existingGame: Option<GameRow>, updateError: Option<string>, result: CreateGameResult)
      returns (threw: bool)
      modifies this
      ensures DrawersKept() && ProfileKept()
      ensures threw <==> StoredLobby(old(browser)).None?
      ensures threw ==> unchanged(this)
      ensures StoredLobby(old(browser)).Some? ==>
        var stored := StoredLobby(old(browser)).value;
        var lobby := Candidate(codec, stored);
        var selected := if lobby.Some? then [SelectGame(lobby.value.gameId)] else [];
        && (lobby.Some? && Unfinished(existingGame) ==>
              && browser == old(browser)
              && calls == old(calls) + selected + [UpdatePlayer(lobby.value.playerId, name, nextAvatar, nextColor)]
              && (updateError.Some? ==>
                    createError == updateError.value && !isCreating && navigation == old(navigation))
              && (updateError.None? ==>
                    && createError == old(createError) && isCreating == old(isCreating)
                    && navigation == Some(LobbyPath(existingGame.value.code))))
        && (!(lobby.Some? && Unfinished(existingGame)) ==>
              var cleared := if stored != "" then RunWrites(old(browser), HostLobbyRemovals).browser else old(browser);
              && calls == old(calls) + selected + [CreateGame(name, nextAvatar, nextColor)]
              && (CreateFailure(result).Some? ==>
                    && createError == CreateFailure(result).value && !isCreating
                    && browser == cleared && navigation == old(navigation))
              && (CreateFailure(result).None? ==>
                    && createError == old(createError) && isCreating == old(isCreating)
                    && browser == RunWrites(cleared, CreatedWrites(codec, result.rows[0],
                                                 StoredProfile(name, nextAvatar, nextColor))).browser
                    && navigation == Some(LobbyPath(result.rows[0].code))))
    {
      var stored := StoredLobby(browser);
      if stored.None? {
        return true;
      }
      threw := false;
      var lobby := Candidate(codec, stored.value);
      if lobby.Some? {
        calls := calls + [SelectGame(lobby.value.gameId)];
        if Unfinished(existingGame) {
          Resume(lobby.value, existingGame.value, name, nextAvatar, nextColor, updateError);
          return;
        }
      }
      if stored.value != "" {
        browser := RunWrites(browser, HostLobbyRemovals).browser;
      }
      CreateNew(name, nextAvatar, nextColor, codec, result);
    }

    /** Resuming a stored, unfinished host lobby: update the player, then open its lobby. */
    method Resume(
      lobby: StoredHostLobby, game: GameRow, name: string, nextAvatar: Option<string>, nextColor: Option<string>,
      updateError: Option<string>)
      modifies this
      ensures DrawersKept() && ProfileKept() && browser == old(browser)
      ensures calls == old(calls) + [UpdatePlayer(lobby.playerId, name, nextAvatar, nextColor)]
      ensures updateError.Some? ==> createError == updateError.value && !isCreating && navigation == old(navigation)
      ensures updateError.None? ==>
        createError == old(createError) && isCreating == old(isCreating) && navigation == Some(LobbyPath(game.code))
    {
      calls := calls + [UpdatePlayer(lobby.playerId, name, nextAvatar, nextColor)];
      if updateError.Some? {
        createError := updateError.value;
        isCreating := false;
        return;
      }
      navigation := Some(LobbyPath(game.code));
    }

    /** `create_game`, then on success the three records (failures swallowed) and the new lobby. */
    method CreateNew(name: string, nextAvatar: Option<string>, nextColor: Option<string>, codec: Codec, result: CreateGameResult)
      modifies this
      ensures DrawersKept() && ProfileKept()
      ensures calls == old(calls) + [CreateGame(name, nextAvatar, nextColor)]
      ensures CreateFailure(result).Some? ==>
        && createError == CreateFailure(result).value && !isCreating
        && browser == old(browser) && navigation == old(navigation)
      ensures CreateFailure(result).None? ==>
        && createError == old(createError) && isCreating == old(isCreating)
        && browser == RunWrites(old(browser), CreatedWrites(codec, result.rows[0], StoredProfile(name, nextAvatar, nextColor))).browser
        && navigation == Some(LobbyPath(result.rows[0].code))
    {
      calls := calls + [CreateGame(name, nextAvatar, nextColor)];
      var failure := CreateFailure(result);
      if failure.Some? {
        createError := failure.value;
        isCreating := false;
        return;
      }
      var created := result.rows[0];
      browser := RunWrites(browser, CreatedWrites(codec, created, StoredProfile(name, nextAvatar, nextColor))).browser;
      navigation := Some(LobbyPath(created.code));
    }

    /** `handleCreateLobby`: `createLobby` with the profile state, the name trimmed. */
    method HandleCreateLobby(
      sessionLoading: bool, sessionError: Option<string>, codec: Codec,
      existingGame: Option<GameRow>, updateError: Option<string>, result: CreateGameResult)
      returns (threw: bool)
      modifies this
      ensures DrawersKept() && ProfileKept()
      ensures Trim(profileName) == "" || old(isCreating) ==> unchanged(this) && !threw
      ensures Trim(profileName) != "" && !old(isCreating) && !sessionLoading && !Truthy(sessionError) &&
              StoredLobby(old(browser)).Some? && Candidate(codec, StoredLobby(old(browser)).value).None? ==>
        calls == old(calls) + [CreateGame(Trim(profileName), profileAvatar, profileColor)]
    {
      TrimIdempotent(profileName);
      threw := CreateLobby(Trim(profileName), profileAvatar, profileColor, sessionLoading, sessionError,
                           codec, existingGame, updateError, result);
    }

    /**
     * `handleSaveProfile`: nothing for a blank name; otherwise the error is cleared, the
     * trimmed profile is stored under the current key (a throwing write is swallowed) and
     * the profile drawer closes.
     */
    method HandleSaveProfile(codec: Codec)
      modifies this
      ensures ProfileKept() && isCreating == old(isCreating) && calls == old(calls) && navigation == old(navigation)
      ensures Trim(old(profileName)) == "" ==> unchanged(this)
      ensures Trim(old(profileName)) != "" ==>
        && createError == "" && !isProfileDrawerOpen
        && browser == RunWrites(old(browser), ProfileWrites(codec.profileJson(
             StoredProfile(Trim(profileName), profileAvatar, profileColor)))).browser
        && lobbyCode == old(lobbyCode) && isJoinDrawerOpen == old(isJoinDrawerOpen)
        && isProfileMenuOpen == old(isProfileMenuOpen) && drawerMode == old(drawerMode)
    {
      if Trim(profileName) == "" {
        return;
      }
      createError := "";
      var v := codec.profileJson(StoredProfile(Trim(profileName), profileAvatar, profileColor));
      browser := RunWrites(browser, ProfileWrites(v)).browser;
      isProfileDrawerOpen := false;
    }

    /**
     * `handleNotThisUser`: the current profile key is removed from both stores (the legacy
     * key and everything else stay; a throwing removal ends the block), the profile state
     * is cleared and the drawer reopens in update mode.
     */
    method HandleNotThisUser()
      modifies this
      ensures browser == RunWrites(old(browser), CurrentProfileRemovals).browser
      ensures forall a, k :: k != ProfileKey ==> Get(At(browser, a), k) == Get(At(old(browser), a), k)
      ensures profileName == "" && profileAvatar.None? && profileColor.None?
      ensures !isProfileMenuOpen && drawerMode == Update && isProfileDrawerOpen
      ensures createError == old(createError) && isCreating == old(isCreating)
      ensures lobbyCode == old(lobbyCode) && isJoinDrawerOpen == old(isJoinDrawerOpen)
      ensures calls == old(calls) && navigation == old(navigation)
    {
      CurrentProfileRemovalsKeep(browser);
      browser := RunWrites(browser, CurrentProfileRemovals).browser;
      profileName := "";
      profileAvatar := None;
      profileColor := None;
      isProfileMenuOpen := false;
      drawerMode := Update;
      isProfileDrawerOpen := true;
    }

    /** The code input's `onChange`: the typed value, upper-cased. */
    method ChangeJoinCode(value: string)
      modifies this`lobbyCode
      ensures lobbyCode == ToUpper(value)
    {
      lobbyCode := ToUpper(value);
    }

    /** The join drawer's `onOpenChange`: closing it also clears the code. */
    method SetJoinDrawerOpen(open: bool)
      modifies this`isJoinDrawerOpen, this`lobbyCode
      ensures isJoinDrawerOpen == open
      ensures lobbyCode == if open then old(lobbyCode) else ""
    {
      isJoinDrawerOpen := open;
      if !open {
        lobbyCode := "";
      }
    }

    /** The join button: disabled unless the trimmed code has six characters; else it navigates. */
    method JoinClick()
      modifies this`navigation
      ensures navigation == if JoinEnabled(lobbyCode) then JoinTarget(lobbyCode) else old(navigation)
    {
      if !JoinEnabled(lobbyCode) {
        return;
      }
      if Trim(lobbyCode) != "" {
        navigation := Some(LobbyPath(Trim(lobbyCode)));
      }
    }
  }
}

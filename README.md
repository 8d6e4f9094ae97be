# 7 Score web client: session, storage, realtime and lobby logic in Dafny

This project models the client-side logic of the 7 Score web app (a Next.js front end over
Supabase) that runs in sequence and has branches with outcomes you can state. The model covers:

- **The realtime-channel hook** (`RealtimeChannel`). One room subscription is a class. Its
  state is the effect run's `isActive`, the live channel (a generation number), the
  `subscribed` ref, at most one pending reconnect timer, and the client's registry of
  channels with their listeners.
  - Its methods are the effect, `subscribe`, `cleanup`, `scheduleReconnect`, the timer
    callback, the status callback, teardown, re-rendering and `broadcastMessage`.
  - A shared invariant `Valid()` ties them together.
- **The auth storage adapter** of the browser client (`SupabaseStorage`). It sits on top of
  a shared model of the two Web Storage areas (`WebStorage`). Each area is a map plus three
  failure flags, one per call: `getItem`, `setItem` and `removeItem` may each throw. A store
  over its quota throws only on `setItem`; a blocked store throws on all three.
- **The lobby avatar helpers and seeded hash and generator** (`Seeds`, `Avatar`), and the
  orbit layout (`OrbitLayout`). The layout uses reals, and takes `Math.cos`, `Math.sin`,
  `Math.hypot` and `Math.PI` as parameters.
- **The session bootstrap of `useAnonSession`** (`AnonSessionHook`). It is a pure run
  function over an environment of auth replies, clock readings, random draws and the unmount
  point, with a flag choosing the loop as written or with `isMounted` also read after the
  backoff sleep. A class method implements the guarded loop and is proved equal to that
  function; the loop as written is modelled by the function only.
- **The simpler session panel** (`AnonSessionPanel`) and the three-way `SessionGate`.
- **The home page and the host start page** (`HomePage`, `StartPage`). They cover profile
  migration, reuse of the stored host lobby versus creating a game, the stored records, and
  the join-code and name rules. The decision rules and records they share are in `Remote`.
- **The project-id helper script** of the database package (`ProjectId`).

The model leaves out the authoritative game logic (rounds, scores, the win threshold). It
lives in database procedures and pages that are not part of this model.

External services are inputs:

- every reply of Supabase's auth, table and RPC calls;
- `JSON.parse`/`JSON.stringify` (the record `Remote.Codec`);
- the `URL` constructor;
- `Date.now`, `Math.random`, and the point at which a component unmounts.

Calls that leave the program are appended to a log (`calls`, `log`) so their order can be
stated.

## Model

| member | source | states |
|---|---|---|
| Text.Trim | apps/web/app/page.tsx:120 | `trim()` drops exactly the leading and trailing JavaScript whitespace; the result is empty iff the string is all whitespace, and otherwise starts and ends on a non-whitespace character |
| Text.TrimIdempotent | apps/web/app/page.tsx:223 | trimming a trimmed name changes nothing (`handleCreateLobby` trims before `createLobby` trims again) |
| Text.Words | apps/web/components/lobby-player-bubbles.tsx:58 | `trim().split(/\s+/).filter(Boolean)` gives non-empty, whitespace-free words; none iff the name is all whitespace; the first word starts with the trimmed name's first character |
| Text.WordsSplitTrim | apps/web/components/lobby-player-bubbles.tsx:58 | the words with the whitespace gaps between them put back give exactly the trimmed name |
| Text.SplitUnique | apps/web/components/lobby-player-bubbles.tsx:58 | a string splits into non-empty whitespace-free words separated by non-empty whitespace gaps in only one way |
| Text.WordsUnique | apps/web/components/lobby-player-bubbles.tsx:58 | the words are exactly the maximal whitespace-free runs of the trimmed name, in order: any such split of `trim()` is `Words` with `Gaps` |
| Text.WordsExample | apps/web/components/lobby-player-bubbles.tsx:58 | "ab cd" splits into "ab" and "cd" |
| Text.UpperChar | apps/web/app/page.tsx:575 | upper-casing maps each of a-z to the capital at the same place in A-Z, keeps every other character, and never turns whitespace into non-whitespace or back |
| Text.ToUpper | apps/web/app/page.tsx:575 | `toUpperCase()` keeps the length and upper-cases character by character |
| Seeds.SeedHash | apps/web/components/lobby-player-bubbles.tsx:40-46 | the base-31 hash reduced mod 10000 at each step always lies in [0, 9999] |
| Seeds.HashSeed | apps/web/components/lobby-player-bubbles.tsx:40-46 | the left-to-right loop computes `SeedHash`, lies in [0, 9999] and is 0 on the empty string |
| Seeds.SeedHashAppend | apps/web/components/lobby-orbit-layout.ts:27-33 | one more character steps the hash by `(h * 31 + code) % 10000`, the loop body of both copies of `hashSeed` |
| Avatar.FindColor | apps/web/components/lobby-player-bubbles.tsx:66 | `AVATAR_COLORS.find` returns the first entry whose key equals the colour, or none when no key does |
| Avatar.GetAvatarClass | apps/web/components/lobby-player-bubbles.tsx:27-71 | the result is always one of the eight classes; a known colour key gives its class whatever the seed; a missing or unknown colour gives `AVATAR_COLORS[hashSeed(seed) % 8]` |
| Avatar.AvatarClassDependsOnSeedOnly | apps/web/components/lobby-player-bubbles.tsx:68-70 | without a known colour, the class depends on the seed alone |
| Avatar.GetInitials | apps/web/components/lobby-player-bubbles.tsx:57-62 | "--" for an empty or whitespace-only name; otherwise one or two upper-cased, whitespace-free characters: the first letters of the first two words, or the first two letters of a single word |
| Avatar.GetAvatarLabel | apps/web/components/lobby-player-bubbles.tsx:73-76 | a non-empty avatar wins; otherwise the initials; never empty |
| Avatar.JsRem | apps/web/components/lobby-player-bubbles.tsx:49-52 | JavaScript `%` on integers: the Euclidean remainder for a non-negative dividend, never positive for a negative one, and strictly inside (-m, m) |
| Avatar.InitialState | apps/web/components/lobby-player-bubbles.tsx:48-50 | a non-negative seed gives a state in [1, 2147483646]; seed 0 gives 2147483646; other seeds that are not multiples of the modulus keep `seed % 2147483647` |
| Avatar.NextStateInRange | apps/web/components/lobby-player-bubbles.tsx:52 | one step keeps a state in [0, 2147483646] |
| Avatar.NextStateNonZero | apps/web/components/lobby-player-bubbles.tsx:52 | one step maps [1, 2147483646] into itself, because 16807 is invertible modulo the prime 2147483647 |
| Avatar.SeededRandom.constructor | apps/web/components/lobby-player-bubbles.tsx:48-50 | the closure's captured `value` starts at the normalised seed |
| Avatar.SeededRandom.Next | apps/web/components/lobby-player-bubbles.tsx:51-54 | a call advances `value` by one step and returns `(value - 1) / 2147483646`, which lies in [0, 1) when the state was in range |
| OrbitLayout.Clamp | apps/web/components/lobby-orbit-layout.ts:35-36 | the result lies in [lo, hi] when lo ≤ hi, equals the value when it is already in range, is lo below the range and hi above it, and never exceeds hi |
| OrbitLayout.ClampIdempotent | apps/web/components/lobby-orbit-layout.ts:35-36 | clamping twice is clamping once |
| OrbitLayout.MakeFrame | apps/web/components/lobby-orbit-layout.ts:48-63 | the derived core size is at most 220 and the padding at least 20 |
| OrbitLayout.Place | apps/web/components/lobby-orbit-layout.ts:65-85 | the initial bubble of player i carries that player's id, the shared bubble size and `duration = 10 + seed % 8`, which lies in [10, 17] |
| OrbitLayout.Distance | apps/web/components/lobby-orbit-layout.ts:96-125 | `Math.hypot(..) \|\| 1` is always positive, so the divisions by it are defined |
| OrbitLayout.AddRepulsion | apps/web/components/lobby-orbit-layout.ts:107-121 | the inner `forEach`, skipping `i === j`, adds to the acceleration the sum of `PairPush` from every other bubble (`Repulsion`, whose properties are `PairPushAway` and `RepulsionCancels`) |
| OrbitLayout.PairPushAway | apps/web/components/lobby-orbit-layout.ts:108-120 | bubbles whose centres are at least `minDist` apart do not push each other; a closer bubble is pushed away from the other, each component of the push having the sign of the offset between the centres |
| OrbitLayout.PairPushAntisymmetric | apps/web/components/lobby-orbit-layout.ts:108-120 | swapping the two bubbles negates the push: the pair pushes each other with opposite forces of equal size |
| OrbitLayout.TotalSumZero | apps/web/components/lobby-orbit-layout.ts:107-121 | the forces of an antisymmetric table, each row summed without its diagonal, add up to zero over all rows |
| OrbitLayout.RepulsionCancels | apps/web/components/lobby-orbit-layout.ts:107-121 | at any one configuration the pairwise repulsions on all bubbles, each computed from the same positions, sum to zero, because the pushes are antisymmetric |
| OrbitLayout.Moved | apps/web/components/lobby-orbit-layout.ts:134-150 | moving and clamping a bubble changes only `left` and `top`, and leaves them within their clamp bounds whenever those bounds are non-empty |
| OrbitLayout.Relax | apps/web/components/lobby-orbit-layout.ts:87-152 | the 40 in-place sweeps keep every bubble equal to its initial placement except for `left` and `top`, and leave every bubble within its bounds |
| OrbitLayout.ComputeLobbyLayout | apps/web/components/lobby-orbit-layout.ts:38-155 | zero width, zero height or no players gives `{coreSize: 200, bubbles: []}`; otherwise the core size is at most 220 and there is exactly one bubble per player, in player order, with the player's id, one common size, a duration in [10, 17] and a position within its bounds, and only `left`/`top` differ from the initial placement |
| RealtimeChannel.Listeners | apps/web/hooks/use-realtime-channel.ts:149-210 | a fresh channel gets one listener per postgres handler in order, then one per broadcast handler, then three presence listeners exactly when presence is set |
| RealtimeChannel.RegisterListeners | apps/web/hooks/use-realtime-channel.ts:149-210 | the two `forEach` loops and the presence chain build exactly `Listeners` |
| RealtimeChannel.PresenceKey | apps/web/hooks/use-realtime-channel.ts:141-147 | the channel gets a presence key config iff the presence handler has a non-empty key, and it is that key |
| RealtimeChannel.ListenerUsesCurrentHandler | apps/web/hooks/use-realtime-channel.ts:161-174 | listener i dispatches to the handler at index i of the current refs, not the one present at subscribe time, and to nothing once the list is shorter |
| RealtimeChannel.StatusReaction | apps/web/hooks/use-realtime-channel.ts:214-241 | SUBSCRIBED sets the flag, notifies `onSubscribed` and tracks the presence payload if there is one; CLOSED clears the flag, reports an error iff it was subscribed and reconnects; CHANNEL_ERROR and TIMED_OUT clear the flag, report and reconnect; any other status changes nothing |
| RealtimeChannel.ReactionEvents | apps/web/hooks/use-realtime-channel.ts:213-239 | `onStatusChange` is called first, and `onError` and `onSubscribed` are called iff the reaction asks for them and they are set |
| RealtimeChannel.Route | apps/web/hooks/use-realtime-channel.ts:264-282 | the socket when there is a channel and it is subscribed; HTTP when there is a channel, it is not subscribed and `httpSend` exists; nothing otherwise |
| RealtimeChannel.SafePayload | apps/web/hooks/use-realtime-channel.ts:266 | a missing payload becomes `{}` and a given one is kept |
| RealtimeChannel.Signature | apps/web/hooks/use-realtime-channel.ts:92-109 | the dependency signature has one filter per postgres handler, one event per broadcast handler, and a presence part iff presence is set |
| RealtimeChannel.Hook.constructor | apps/web/hooks/use-realtime-channel.ts:111-246 | mounting disabled or with an empty key creates no channel and arms no timer; otherwise exactly one channel is created, with the first run's listeners |
| RealtimeChannel.Hook.Effect | apps/web/hooks/use-realtime-channel.ts:111-246 | disabled or with an empty key, the effect changes nothing; otherwise it starts a new active run with no timer and subscribes once |
| RealtimeChannel.Hook.Subscribe | apps/web/hooks/use-realtime-channel.ts:140-244 | a brand-new channel with the current refs' listeners becomes the only live channel, and the subscribed flag is cleared |
| RealtimeChannel.Hook.Cleanup | apps/web/hooks/use-realtime-channel.ts:117-128 | the timer is cleared, the channel removed from the client and forgotten, and the subscribed flag cleared |
| RealtimeChannel.Hook.ScheduleReconnect | apps/web/hooks/use-realtime-channel.ts:130-131 | a timer is armed only while active; with one already pending, or after teardown, nothing changes |
| RealtimeChannel.Hook.TimerFires | apps/web/hooks/use-realtime-channel.ts:132-137 | a firing timer cleans up and subscribes again on a new channel that becomes the only live one; with no timer pending nothing happens |
| RealtimeChannel.Hook.OnStatus | apps/web/hooks/use-realtime-channel.ts:211-242 | a callback from a run that is no longer active changes nothing; otherwise the flag, the timer and the log follow `StatusReaction` and `ReactionEvents` |
| RealtimeChannel.Hook.Teardown | apps/web/hooks/use-realtime-channel.ts:248-251 | after teardown the run is inactive, with no timer, no live channel and no subscribed flag |
| RealtimeChannel.Hook.Rerender | apps/web/hooks/use-realtime-channel.ts:77-260 | the refs always take the new handlers; an unchanged signature keeps the subscription; a changed one tears the run down and sets up a new one |
| RealtimeChannel.Hook.BroadcastMessage | apps/web/hooks/use-realtime-channel.ts:262-285 | returns true iff `Route` finds a transport, and then logs exactly one send of `payload ?? {}` on the live channel; the hook's state is unchanged |
| WebStorage.With | apps/web/app/page.tsx:100-101 | replacing one area leaves the other as it was |
| WebStorage.Get | apps/web/app/page.tsx:84 | `getItem` on a working store gives the stored value, or null iff the key is absent |
| WebStorage.ReadFirstSpec | apps/web/app/page.tsx:83-87 | in a `getItem(..) ?? getItem(..)` chain outside a try block, the first hit wins, a throwing read ends the chain with a throw, and a miss passes on to the next read |
| WebStorage.ReadFirstNull | apps/web/app/page.tsx:83-88 | the chain yields null iff every read misses |
| WebStorage.Apply | apps/web/app/page.tsx:100-108 | a set or remove that its store accepts changes only its own key and none of the failure flags |
| WebStorage.RunWritesSingle | apps/web/app/start/page.tsx:61-75 | a single storage call outside a try block throws iff its store rejects that call, and otherwise applies |
| WebStorage.RunWritesThrows | apps/web/app/page.tsx:195-218 | a block of storage calls inside one try throws iff one of them is a call its store rejects (`setItem` on a store over its quota or blocked, `removeItem` on a blocked one); the failure flags do not change |
| WebStorage.RunWritesApplied | apps/web/app/page.tsx:195-218 | when every call is one its store accepts, a block of calls on distinct items does not throw and leaves each item as its call says |
| WebStorage.RunWritesUntouched | apps/web/app/page.tsx:243-249 | an item that no write in the block names keeps its value, whether or not the block throws |
| WebStorage.RunWritesStopsAtFailure | apps/web/app/page.tsx:195-218 | a block stops at its first rejected call, with the stores as the earlier calls left them |
| SupabaseStorage.GetStorage | apps/web/utils/supabase/client.ts:8-11 | no adapter iff there is no `window` |
| SupabaseStorage.Lookup | apps/web/utils/supabase/client.ts:14-28 | sessionStorage's value if that read works and finds one, else localStorage's likewise, else the memory value, else null; a throwing store is skipped |
| SupabaseStorage.TryApply | apps/web/utils/supabase/client.ts:31-54 | a store that rejects the call is left alone; otherwise the call applies to its key only; so a removal still applies on a store over its quota, where a set does not |
| SupabaseStorage.SetThenGet | apps/web/utils/supabase/client.ts:16-40 | after `setItem(k, v)`, `getItem(k)` returns v whenever neither store can serve an older value: each store accepts the set, throws on reads, or never held k |
| SupabaseStorage.RemoveThenGet | apps/web/utils/supabase/client.ts:27-54 | after `removeItem(k)`, `getItem(k)` is null whenever neither store can serve an older value: each store accepts the removal (a store over its quota does), throws on reads, or never held k |
| SupabaseStorage.RemoveUnderFullQuota | apps/web/utils/supabase/client.ts:42-55 | with both stores over their quota, `removeItem(k)` still removes k from both, and `getItem(k)` is then null |
| SupabaseStorage.OtherKeysUnchanged | apps/web/utils/supabase/client.ts:29-54 | `setItem` and `removeItem` on k leave every other key unchanged in all three stores and in what `getItem` returns |
| SupabaseStorage.StaleReadWhenWritesFail | apps/web/utils/supabase/client.ts:16-35 | a store over its quota that still serves reads shadows the newer value held in memory |
| SupabaseStorage.LayeredStorage.constructor | apps/web/utils/supabase/client.ts:6 | the memory store starts empty |
| SupabaseStorage.LayeredStorage.GetItem | apps/web/utils/supabase/client.ts:14-28 | the three guarded reads return `Lookup` |
| SupabaseStorage.LayeredStorage.SetItem | apps/web/utils/supabase/client.ts:29-41 | memory takes the value first, then each browser store takes it unless that store rejects `setItem`; never throws |
| SupabaseStorage.LayeredStorage.RemoveItem | apps/web/utils/supabase/client.ts:42-55 | memory drops the key first, then each browser store drops it unless that store rejects `removeItem` (a full quota does not); never throws |
| Remote.PlayerKeyDistinct | apps/web/app/page.tsx:207-208 | `flip7_player_{code}` never collides with the host-lobby or profile keys, and distinct codes give distinct keys |
| Remote.ReusableLobby | apps/web/app/page.tsx:145-146 | a stored host lobby is reusable iff it parsed and `gameId`, `code` and `playerId` are all non-empty, and then it carries those three fields |
| Remote.CreateFailure | apps/web/app/page.tsx:188-189 | the call fails iff there is an RPC error or no row; the message is the RPC's, else "Failed to create game." |
| Remote.Candidate | apps/web/app/page.tsx:143-146 | the `if (stored)` gate, the parse and the three-field check, shared with start/page.tsx:48-51: no candidate without stored text; otherwise a candidate iff the text parses to a reusable lobby, which it then is, with `gameId`, `code` and `playerId` non-empty |
| HomePage.StoredLobby | apps/web/app/page.tsx:136-141 | the host-lobby read escapes with a throw iff the `??` chain throws; otherwise its value, or "" |
| HomePage.ProfileWritesStore | apps/web/app/page.tsx:100-101 | with stores that accept `setItem`, a profile write stores the value under `7score_profile` in both stores and leaves the legacy key as it was |
| HomePage.ProfileRemovalsClear | apps/web/app/page.tsx:104-108 | with stores that accept `removeItem` (stores over their quota do), the catch block removes all four profile items |
| HomePage.QuotaRestoreClears | apps/web/app/page.tsx:98-108 | when either store is over its quota and both accept removals, the re-store throws and the catch block then clears all four profile items |
| HomePage.HostLobbyRemovalsClear | apps/web/app/page.tsx:174-177 | with stores that accept `removeItem` (stores over their quota do), the block clears `flip7_host_lobby` in both stores and leaves every other item |
| HomePage.CurrentProfileRemovalsClear | apps/web/app/page.tsx:244-247 | with stores that accept `removeItem`, `7score_profile` is cleared in both stores |
| HomePage.CreatedWritesStore | apps/web/app/page.tsx:195-215 | with stores that accept `setItem`, a created game leaves the host-lobby, `flip7_player_{code}` and profile records in both stores |
| HomePage.JoinTarget | apps/web/app/page.tsx:610-615 | the join button navigates iff the trimmed code has six characters, and then to `/lobby/{trimmed}` |
| HomePage.JoinTargetUpperCase | apps/web/app/page.tsx:575-615 | a code typed into the input is upper-cased, so an enabled join never targets a code with a lower-case letter |
| HomePage.Page.constructor | apps/web/app/page.tsx:61-72 | every state hook starts at its initial value |
| HomePage.Page.LoadProfile | apps/web/app/page.tsx:81-113 | reads `7score_profile` (session, local) before `flip7_profile` (session, local); a parsed profile with a name fills the state and is re-stored as `{name, avatar ?? null, color ?? null}` under `7score_profile`; a failed parse or a throwing re-store runs the four removals of the catch block, which stop at the first that throws (under a full quota none does: `QuotaRestoreClears`); no stored text does nothing; a throwing read escapes |
| HomePage.Page.CreateLobby | apps/web/app/page.tsx:115-220 | no-op on a blank name or while creating; the loading or session error sets its message and resets `isCreating` before any call; a reusable, unfinished stored lobby leads to a player update and navigation, with no `create_game`; otherwise the host-lobby removals run before `create_game` (with stores that accept removals, a full quota included, they clear it: `HostLobbyRemovalsClear`), a failure reports its message, and a success runs the record writes and opens `/lobby/{code}` |
| HomePage.Page.ResumeOrCreate | apps/web/app/page.tsx:135-219 | the stored host lobby is resumed when it parses and its game is unfinished; otherwise the host-lobby removals run (clearing it wherever `removeItem` is accepted) and a game is created |
| HomePage.Page.Resume | apps/web/app/page.tsx:153-168 | the host player is updated with the trimmed name, avatar and colour; an error is shown and ends the create, success opens the stored game's lobby |
| HomePage.Page.CreateNew | apps/web/app/page.tsx:182-219 | `create_game` is called once; a failure shows its message and ends the create; success writes the three records, swallowing storage failures, and opens the new lobby |
| HomePage.Page.HandleCreateLobby | apps/web/app/page.tsx:222-224 | `createLobby` runs on the profile state with the trimmed name |
| HomePage.Page.HandleSaveProfile | apps/web/app/page.tsx:226-241 | no-op on a blank name; otherwise the error is cleared, the trimmed profile is stored under `7score_profile` (failures swallowed), and the drawer closes |
| HomePage.Page.HandleNotThisUser | apps/web/app/page.tsx:243-256 | the two `7score_profile` removals run (with accepting stores, a full quota included, they clear it in both: `CurrentProfileRemovalsClear`); every other item stays; name, avatar and colour are cleared, and the drawer reopens in update mode |
| HomePage.Page.ChangeJoinCode | apps/web/app/page.tsx:575 | the join code is stored upper-cased |
| HomePage.Page.SetJoinDrawerOpen | apps/web/app/page.tsx:562-565 | closing the join drawer clears the code |
| HomePage.Page.JoinClick | apps/web/app/page.tsx:609-616 | the join button navigates only when enabled, to `JoinTarget` |
| StartPage.StoredLocalLobby | apps/web/app/start/page.tsx:44-47 | the read throws iff localStorage reads throw; otherwise the stored host lobby, or "" |
| StartPage.LocalRecordsStored | apps/web/app/start/page.tsx:100-104 | with a localStorage that accepts `setItem`, both records of a created game are stored there, and sessionStorage is untouched |
| StartPage.Page.constructor | apps/web/app/start/page.tsx:18-23 | state idle, empty fields, `hasInitialized` false |
| StartPage.Page.InitGame | apps/web/app/start/page.tsx:26-108 | runs at most once per mount; with no session a failed sign-in ends in "error" with its message after exactly `getSession` and the sign-in; otherwise it goes on to `AfterAuth` |
| StartPage.Page.AfterAuth | apps/web/app/start/page.tsx:44-104 | a reusable stored lobby whose game is unfinished ends "ready" with its code and player id, writes `flip7_player_{code}` and skips `create_game`; when that write throws (a full quota) the try block swallows it, and as when nothing is reusable, `flip7_host_lobby` is removed and a second game created as "Host", keeping the taken code and player id if that fails; a removal outside the try block that throws rejects the promise at that point |
| StartPage.Page.ResumeStored | apps/web/app/start/page.tsx:58-70 | the code and player id are taken from the game and the stored lobby; the write of `flip7_player_{code}` goes through iff localStorage does not reject `setItem`, and then that record is stored and the page is "ready"; a rejected write leaves the state and both stores as they were |
| StartPage.Page.ClearHostLobby | apps/web/app/start/page.tsx:75 | with a stored host lobby, `removeItem("flip7_host_lobby")` throws iff localStorage rejects removals, and otherwise clears that item; the stores are unchanged when it throws or nothing was stored |
| StartPage.Page.CreateHostGame | apps/web/app/start/page.tsx:78-104 | `create_game` as "Host"; a failure ends "error" with the RPC message or "Failed to create game."; success ends "ready" with the new code and player, then both records go to localStorage |
| StartPage.Page.SetHostName | apps/web/app/start/page.tsx:195 | the input sets the host name |
| StartPage.Page.HandleSubmit | apps/web/app/start/page.tsx:110-126 | no-op on a blank name; otherwise the host player is renamed to the trimmed name; an update error ends in "error", success opens `/lobby/{code}` |
| AnonSessionHook.BaseDelay | apps/web/hooks/use-anon-session.ts:108-109 | `min(500 * 2^(attempt-1), 2500)` lies in [500, 2500] |
| AnonSessionHook.Backoff | apps/web/hooks/use-anon-session.ts:108-110 | for a `Math.random()` draw in [0, 1), the backoff lies between the base delay and the base delay plus 249 |
| AnonSessionHook.BackoffBounds | apps/web/hooks/use-anon-session.ts:107-110 | the backoff after an attempt is its base delay plus a jitter in [0, 249]; the bases are 500 ms and 1000 ms |
| AnonSessionHook.AttemptHead | apps/web/hooks/use-anon-session.ts:89-113 | one attempt issues its sign-in first and at most one sleep after it, the sleep exactly when the sign-in failed while mounted before the last attempt; its setter batch is late iff the hook has unmounted; a sign-in without error while mounted ends "ready", origin "new", with the returned session, loading off and the attempt number recorded |
| AnonSessionHook.Attempts | apps/web/hooks/use-anon-session.ts:79-117 | the loop from attempt a on makes at most two calls per remaining attempt and one for the last (none past `MAX_ATTEMPTS`); its views and calls are characterised by `AttemptsViews` and `AttemptsFollowSchedule` |
| AnonSessionHook.Run | apps/web/hooks/use-anon-session.ts:45-118 | the run starts with the "checking" view and `getSession`; a `getSession` error ends in "error" with that message, and a stored session ends in "ready" with origin "existing"; both happen with no sign-in; an unmount during `getSession` ends the run silently |
| AnonSessionHook.ScheduleShape | apps/web/hooks/use-anon-session.ts:81-113 | the full call schedule is `getSession`, then sign-in 1, sleep, sign-in 2, sleep, sign-in 3 |
| AnonSessionHook.AttemptsFollowSchedule | apps/web/hooks/use-anon-session.ts:81-113 | the loop's calls from any attempt on are a prefix of the schedule from that attempt |
| AnonSessionHook.CallsFollowSchedule | apps/web/hooks/use-anon-session.ts:59-113 | whatever the replies, clock and unmount, the calls are a prefix of the schedule: at most three sign-ins, and a backoff only between two attempts, never after the last |
| AnonSessionHook.SucceedsFrom | apps/web/hooks/use-anon-session.ts:81-103 | from attempt a, failures up to s followed by success at s end "ready" with the new session after 2(s-a)+1 calls |
| AnonSessionHook.TimesOutFrom | apps/web/hooks/use-anon-session.ts:81-87 | from attempt a, failures up to t and a passed deadline at t end "timeout" after 2(t-a) calls |
| AnonSessionHook.FailsFrom | apps/web/hooks/use-anon-session.ts:81-117 | from attempt a, failures through the last attempt end "error" with the last attempt's message |
| AnonSessionHook.RunSucceeds | apps/web/hooks/use-anon-session.ts:89-103 | the first successful sign-in, at attempt s, ends "ready" with origin "new", its session and `attempts == s`, after exactly the first 2s scheduled calls |
| AnonSessionHook.RunTimesOut | apps/web/hooks/use-anon-session.ts:82-87 | more than 8000 ms elapsed before attempt t ends "timeout" with the fixed message, after t-1 sign-ins |
| AnonSessionHook.RunFailsAll | apps/web/hooks/use-anon-session.ts:105-117 | three failed attempts end "error" with the last error message, after the whole schedule |
| AnonSessionHook.HeadViews | apps/web/hooks/use-anon-session.ts:89-103 | an attempt renders its own view (attempt number, "signing-in" or "retrying"), then possibly one terminal "ready" view |
| AnonSessionHook.AttemptsViews | apps/web/hooks/use-anon-session.ts:81-117 | the loop renders one view per attempt, in order, possibly followed by one terminal view |
| AnonSessionHook.RunViews | apps/web/hooks/use-anon-session.ts:47-117 | the views are "checking", then views i = 1, 2, … with `attempts == i` and status "signing-in" for attempt 1 and "retrying" after, possibly ending on a terminal non-loading view |
| AnonSessionHook.GuardedAttempts | apps/web/hooks/use-anon-session.ts:81-113 | with `isMounted` read after the sleep too, the loop issues no setter after unmount and signs in only while mounted |
| AnonSessionHook.GuardedNoEffectsAfterUnmount | apps/web/hooks/use-anon-session.ts:62-124 | with the guard also after the sleep, no state update happens after unmount and every sign-in is issued while mounted |
| AnonSessionHook.AsWrittenSignsInAfterUnmount | apps/web/hooks/use-anon-session.ts:107-113 | as written, an unmount during the first backoff still leads to a second sign-in and an ignored setter batch; the guarded loop stops after the sleep |
| AnonSessionHook.Hook.constructor | apps/web/hooks/use-anon-session.ts:35-40 | the hook state starts idle and loading, with no session, error, attempts or origin |
| AnonSessionHook.Hook.Render | apps/web/hooks/use-anon-session.ts:47-51 | a batch of setters is one rendered view |
| AnonSessionHook.Hook.EnsureSession | apps/web/hooks/use-anon-session.ts:42-125 | the loop, guarded after every await, ends in the state `Run` describes, having rendered exactly its views and made exactly its calls, with no setter after unmount |
| AnonSessionHook.Hook.SignInAttempts | apps/web/hooks/use-anon-session.ts:79-117 | the guarded `for` loop ends in the state `Attempts` describes from attempt 1, having rendered exactly its views and made exactly its calls, with no setter after unmount |
| AnonSessionHook.Hook.Attempt | apps/web/hooks/use-anon-session.ts:89-113 | one iteration that has not timed out renders and calls exactly what `AttemptHead` says; it reports the loop ending iff the attempt does not go on (unmounted, signed in, or unmounted after the sleep), and returns the sign-in's error |
| AnonSessionPanel.Display | apps/web/components/anon-session.tsx:43 | "Signing in..." exactly while signing in, otherwise the message |
| AnonSessionPanel.Settled | apps/web/components/anon-session.tsx:19-33 | an existing session gives "ready" / "Anonymous session active."; otherwise a sign-in error gives "error" with its message, and success gives "ready" / "Anonymous session created."; "error" iff there is no session and the sign-in failed |
| AnonSessionPanel.Steps | apps/web/components/anon-session.tsx:15-34 | the status becomes "signing-in" before any auth call; `getSession` comes first; the anonymous sign-in happens iff no session was stored; the last two steps set the settled status and message |
| AnonSessionPanel.Panel.constructor | apps/web/components/anon-session.tsx:9-10 | status idle, empty message |
| AnonSessionPanel.Panel.EnsureSession | apps/web/components/anon-session.tsx:15-34 | the panel settles as `Settled` says, after exactly the steps `Steps` lists |
| SessionGate.Gate | apps/web/components/session-gate.tsx:19-34 | the error view iff the error is a non-empty string, even while loading; the caller's fallback or the default loading view iff there is no such error and it is loading; the children iff neither |
| ProjectId.MatchProjectId | packages/database/scripts/get-project-id.js:20 | a match yields a non-empty, dot-free label that gives the hostname back once `.supabase.co` is appended |
| ProjectId.MatchComplete | packages/database/scripts/get-project-id.js:20-22 | every such label followed by `.supabase.co` matches, with the label as the group |
| ProjectId.RejectedHosts | packages/database/scripts/get-project-id.js:20-28 | "a.b.supabase.co", "supabase.co", ".supabase.co" and "x.supabase.com" are rejected; "abcdefghijklmnop.supabase.co" yields "abcdefghijklmnop" |
| ProjectId.GetProjectId | packages/database/scripts/get-project-id.js:7-32 | a missing or empty argument prints usage and exits 1; the exit code is 0 iff the URL parses and its hostname matches, and then only the id is printed, which round-trips; an unparseable URL and a non-matching hostname exit 1 with their messages on standard error and nothing on standard output |

## Left out

- The game-round logic (scores, totals, the 200-point win) runs in database procedures and
  on pages that are not part of this model.
- All network I/O, both auth and database, is an input or an oracle: table queries, RPCs,
  `signInAnonymously`, `getSession`, `channel.send`, `httpSend` and presence `track`. A
  rejected promise from these calls is not modelled; only their returned `error` is.
- Calls that throw inside a `try` are covered only for Web Storage. A thrown
  `getSession` on the start page, or a rejected `httpSend` in `broadcastMessage`, is not
  modelled.
- `JSON.parse`/`JSON.stringify` and the `URL` constructor are oracles. The model therefore
  does not prove that a stored record parses back to what was written.
- Upper-casing is ASCII-only. `toUpperCase` on other scripts, and strings as UTF-16 code
  units rather than Dafny characters, are not modelled.
- Floating point is modelled as exact reals. `Math.cos`, `Math.sin`, `Math.hypot` and
  `Math.PI` are uninterpreted parameters, and `Math.hypot` is required to be non-negative (`HypotNonNegative`) and, for the
  cancellation lemmas, to give the same length for opposite vectors (`HypotEven`). Of the
  forces, the pairwise push is characterised (`PairPushAway`, `PairPushAntisymmetric`,
  `RepulsionCancels`). Nothing is proved about where the bubbles end up beyond the clamp
  bounds.
- `OrbitLayout.RepulsionCancels`: the cancellation holds for one fixed configuration. The
  in-place sweep (lobby-orbit-layout.ts:88-151, `Relax`) moves bubble i before bubble i + 1
  reads its position, so the repulsions a sweep applies come from successively updated
  positions, and their applied sum is not claimed to be zero.
- `AnonSessionHook.Hook.EnsureSession`: the class implements only the guarded loop
  (`Run(env, true, ..)`); the loop as written, which goes on after the backoff sleep without
  reading `isMounted`, is modelled as the function `Run(env, false, ..)` alone, so its late
  setter batches are not replayed on the class's fields.
- `OrbitLayout.Acceleration`: its contract only sums the core push, the repulsion and the
  pull the way the loop body does; the core push and the pulls have no lemmas of their own.
- `OrbitLayout.Place`: the seed is `hashSeed(player.id)`. The source's `player.id ??
  player.name` falls back to the name only when the id is missing, and a player here always
  has an id.
- The float layout inside the `LobbyPlayerBubbles` component itself (its `ResizeObserver`
  effect) is not modelled.
- `RealtimeChannel`: the hook's dependencies omit `reconnectDelayMs` and the `supabase`
  client, as no caller changes either after mounting.
- `SupabaseStorage.LayeredStorage`: `memoryStore` is module-level in the source and shared by
  every client of the page; here each adapter object holds its own memory map and its own copy
  of the browser stores, so one client's writes are not seen through another.
- `WebStorage`: a store's failure flags are fixed for the whole of a block; a quota that
  fills up or frees space between two calls is not modelled.
- Timers are not modelled as time:
  - the realtime hook's `reconnectDelayMs` only orders events: a pending timer fires when
    `TimerFires` is called;
  - `setTimeout` in `useAnonSession` is one numbered await.
- React scheduling is simplified:
  - setters in one synchronous stretch are one render;
  - effects run in order;
  - the interleaving of async continuations is fixed by the environment's unmount point.
- `RealtimeChannel.Signature`: the `JSON.stringify` signatures are compared as structured
  values. Two filters that differ only in key order or in an explicit `undefined` field
  count as different.
- `RealtimeChannel.Hook.OnStatus`: status callbacks are delivered only when called. Whether
  the client delivers CLOSED synchronously from `removeChannel` is not modelled. A callback
  of an earlier channel of the same run is accepted, as in the source, since there it is
  guarded only by `isActive`.
- The second effect of `useAnonSession` (apps/web/hooks/use-anon-session.ts:127-143)
  subscribes to auth state changes. It is not modelled.
- `anon-session.tsx` has no unmount guard, and it ignores `getSession`'s error (a failed
  check reads as "no session"). The model keeps both as written.
- `SupabaseStorage.GetStorage` models only the presence of `window`. `createClient`'s
  other options, and the auth client's use of the adapter, are in the Supabase library.
- The server-side `typeof window` branches of the pages are not modelled: the pages run in
  a browser.
- `HomePage.Page.LoadProfile`: a read chain that throws ends the effect with an uncaught
  error. The model reports it as `threw` and changes nothing.
- `StartPage.Page.InitGame`: the contract states the sign-in outcome and the call prefix.
  The rest of the outcome is stated by `StartPage.Page.AfterAuth`, which `InitGame` calls.
- `HomePage.Page.HandleCreateLobby` states only the no-op case and the call made when the
  stored lobby does not parse. The rest of its outcome is `HomePage.Page.CreateLobby`'s.
- The submit button's `disabled` rule on the home page and the profile menu's open and
  close handlers are presentation and are not modelled.

## Findings

| source | as written | input that shows it | evidently intended | confidence | as-written member | corrected member |
|---|---|---|---|---|---|---|
| apps/web/hooks/use-anon-session.ts:107-113 | after `await sleep(backoff)` the loop goes on without reading `isMounted`, so the next iteration runs its setters and calls `signInAnonymously` even though the component has unmounted | the first sign-in fails, and the component unmounts during the first 500 ms backoff | after unmount no state update and no further sign-in, as the guards after the other awaits (lines 62, 95) provide | not executed | AnonSessionHook.AsWrittenSignsInAfterUnmount | AnonSessionHook.GuardedNoEffectsAfterUnmount |

A CLOSED status schedules a reconnect whenever the run is active, also before the first
SUBSCRIBED (apps/web/hooks/use-realtime-channel.ts:226-235); the model does the same
(`RealtimeChannel.StatusReaction`).

`createLobby`'s loading message is the code's "Setting up your session. Try again in a
moment." (apps/web/app/page.tsx:125).

# ilix: a Dafny model of the pool, transfer and event core

ilix lets the devices of a *pool* send files to one another. A pool is named and
protected by a *key phrase*: twenty dictionary words joined with `-`. That phrase
is both the pool's identifier and its password. The system has two parts.

- **The mobile client** (React Native) keeps its state in three slices:
  - auth: the device id and the current pool's key phrase;
  - pools: the stored pools and the current index;
  - transfers: the inbox.

  These slices are loaded from SecureStore and AsyncStorage. The client talks
  to the server through `ApiClient`, which unwraps the server's
  `{ success, status_code, data?, reason? }` envelope. It receives pool,
  transfer and logout notifications over server-sent events.
- **The server** (Rust, actix-web) checks key phrases and hashes them with
  repeated SHA3-256. Its handlers turn database results into response
  envelopes with fixed status codes. A broadcaster keeps one channel per
  connected device and pushes events to the devices of a pool.

This project models both halves. Device storage, HTTP, the database, the file
system, hashing, JSON, uuids and the clock are parameters: maps, function values
or `Option`/`Result` values that stand for the outcome of each call.

- **Value code** becomes functions with contracts, and lemmas about them. This
  covers the validators, the loaders, the request helpers, the handlers, key
  phrases and the event mapping.
- **Stateful code** becomes classes whose fields the methods update:
  - the React hooks, where each `setState` is a field assignment and each
    effect is a method called with the current state;
  - the screens' forms;
  - the `SSEClient` listener tables;
  - the server's `Broadcaster` client list.

  Each such method states its whole new state in terms of the specification
  functions. The properties are proved about those functions.

Module layout:

- **Client:**
  - `Strings`: splitting, joining, trimming, white space, lengths, numerals;
  - `ClientUtils`, `ClientTypes`, `StoredState`, `PoolLogic` and
    `TransferLogic`: the validators, the data, the loaders and the pure
    transitions;
  - `AppStateHook`, `PoolHookState`, `AuthHookState` and `TransferHookState`:
    the hooks;
  - `ApiClient` and `SseClient`;
  - `JoinScreens`, `NewPoolScreen` and `ViewTransferScreen`: the screens.
- **Server:**
  - `Errors`, `ServerUtils`, `KeyPhrases` and `Responses`: the envelope and
    the `Authorization` extractor;
  - `PoolService`, `FileTransferService`, `FileService`, `FilesService` and
    `EventsService`;
  - `Broadcasting`.
- `Protocol` connects the two sides:
  - what a server envelope becomes in the client's `HandleRequest`;
  - which client listener a broadcast event can reach;
  - how the client's pool checks read the server's pool record;
  - where the two sides' argument checks disagree.

Where the two sides' checks differ, the model keeps each side's own check and
proves how they differ:

- Blank strings: JavaScript `trim` versus Rust `trim`.
- The length limit on names: UTF-16 code units on the client, UTF-8 bytes on
  the server.
- A pool name longer than 50 letters: the new pool screen does not check
  length, so only the server refuses it.

## Model

| member | source | states |
|---|---|---|
| ClientUtils.EmptyStringIsAllWhitespace | apps/ilix-mobile/lib/utils.ts:18-19 | `IsEmptyString` holds exactly when every character is JavaScript white space |
| ClientUtils.NonWhitespaceIsNotEmpty | apps/ilix-mobile/lib/utils.ts:18-19 | one non-white-space character makes a string non-blank |
| ClientUtils.CodeOkIffNineteenDashes | apps/ilix-mobile/lib/utils.ts:74 | `IsCodeOk` holds iff the code has exactly nineteen `-`, whatever the words are |
| ClientUtils.CodeOkEdgeCases | apps/ilix-mobile/lib/utils.ts:74 | the empty string is rejected; nineteen bare dashes are accepted |
| ClientUtils.JoinedWordsAreCode | apps/ilix-mobile/lib/utils.ts:74 | any twenty dash-free words joined with `-` pass the check |
| Strings.SplitLength | apps/ilix-mobile/lib/utils.ts:74 | `split` yields one more piece than there are separators |
| Strings.SplitPieces | apps/ilix-server/src/utils/keyphrase.rs:13-15 | no piece of a split holds the separator, and joining the pieces gives back the string |
| Strings.SplitJoin | apps/ilix-server/src/utils/keyphrase.rs:79 | splitting words joined with a separator they do not contain gives back the words |
| Strings.ReplaceFirst | apps/ilix-mobile/lib/ApiClient.ts:256-257 | only the first occurrence of the pattern is replaced; with none the string is unchanged |
| Strings.ReplaceFirstAt | apps/ilix-mobile/lib/ApiClient.ts:256-257 | a pattern whose first occurrence is at a known place is replaced exactly there |
| Strings.TrimByEmpty | apps/ilix-mobile/lib/utils.ts:19 | trimming leaves nothing exactly when every character is trimmed |
| Strings.WhitespaceClassesDiffer | apps/ilix-server/src/utils/mod.rs:26-28 | Rust and JavaScript white space differ in exactly U+0085 (Rust only) and U+FEFF (JavaScript only) |
| Strings.LengthsDiverge | apps/ilix-server/src/services/pool.rs:113-114 | `é` is one UTF-16 code unit (JavaScript `length`) but two UTF-8 bytes (Rust `len`) |
| Strings.DecimalTextValue | apps/ilix-server/src/utils/keyphrase.rs:85 | the decimal numeral of `n` denotes `n` |
| ClientTypes.Current | apps/ilix-mobile/lib/hooks/AppState.ts:200-202 | the `current` getter is defined iff the index is present and in range of a `pools` member that is a list, and is then that list entry |
| ClientTypes.MakeKeyPhraseKey | apps/ilix-mobile/lib/db/SecureStore.ts:13 | every phrase key starts with `key_phrase_` |
| ClientTypes.KeyPhraseKeysDistinct | apps/ilix-mobile/lib/db/SecureStore.ts:13 | two phrases with different digests get different SecureStore keys |
| ClientTypes.SsGet | apps/ilix-mobile/lib/db/SecureStore.ts:39-49 | success iff the read completes and the key is present, with its value; a throw leaves a reason |
| ClientTypes.StoreItem | apps/ilix-mobile/lib/db/SecureStore.ts:23-30 | `SS_Store` (and `AS_Store`, apps/ilix-mobile/lib/db/AsyncStorage.ts:6-16, which only writes another store): success iff the write completes, and the new store then holds the value; a throw changes nothing and gives its text |
| ClientTypes.AsGet | apps/ilix-mobile/lib/db/AsyncStorage.ts:18-32 | success iff the read completes and the key is present; every failure carries a reason |
| StoredState.LoadDeviceId | apps/ilix-mobile/lib/db/Auth.ts:33-38 | a stored non-empty id is kept; otherwise the generated id is saved, or, when saving throws, there is no id and the store is unchanged |
| StoredState.FoundKeyPhrase | apps/ilix-mobile/lib/db/Auth.ts:45-50 | a phrase is found iff a key is given, the read completes, and a non-empty value is stored under it |
| StoredState.GetStoredAuthState | apps/ilix-mobile/lib/db/Auth.ts:32-64 | always settled and cascading; logged in iff an id and a phrase were found and neither is blank, and then it carries both; logged out never carries a phrase; a failed id save gives the bare default |
| StoredState.DefaultAuthState | apps/ilix-mobile/lib/Auth.ts:32-59 | the older loader always reports an attempt; it uses a generated id even when saving it failed; every failure is the same bare result without an id |
| StoredState.GetStoredPools | apps/ilix-mobile/lib/db/Pools.ts:4-8 | always settled and cascading; holds a `pools` object iff the read finds a value, and that value read as a pool list |
| StoredState.AsPools | apps/ilix-mobile/lib/db/Pools.ts:7 | a stored pool list is read back as it is; a whole pool slice object gives no index and a `pools` member that is not a list, so no pool is current |
| PoolLogic.WithPoolAdded | apps/ilix-mobile/lib/hooks/AppState.ts:190-209 | when the old member spreads as a list: the new pool is first and current, the old list follows, and cascading equals the flag |
| PoolLogic.NotPoolListMeans | apps/ilix-mobile/lib/hooks/AppState.ts:199 | `curState.pools?.pools ?? []` fails to be a list exactly when a `pools` object holds a non-list member; a slice with a current pool always holds a list |
| PoolLogic.WithIndex | apps/ilix-mobile/lib/hooks/AppState.ts:211-226 | the index is set without a bounds check and the member is kept, a non-list included; a current pool exists iff the member is a list and the index is in range |
| PoolLogic.Splice | apps/ilix-mobile/lib/hooks/AppState.ts:233 | `splice(index, 1, x)`: in range it replaces that entry only; past the end it appends; a negative index counts from the end and is clamped at 0 |
| PoolLogic.SplicedKeepsRest | apps/ilix-mobile/lib/hooks/AppState.ts:232-233 | the in-place splice changes only the list, which becomes `Splice` of the old one; a missing member is left missing; the index and flags are kept |
| PoolLogic.WithReplaced | apps/ilix-mobile/lib/hooks/AppState.ts:228-252 | fails iff there is no current index; otherwise keeps the index, takes the spliced list and cascades |
| PoolLogic.ReplaceInRange | apps/ilix-mobile/lib/hooks/AppState.ts:228-252 | an in-range update changes only the entry at that index and keeps the selection |
| PoolLogic.MergeKeyLast | apps/ilix-mobile/lib/hooks/AppState.ts:284-287 | the stored key always wins over the reply's fields |
| PoolLogic.MergeKeyFirst | apps/ilix-mobile/lib/hooks/Pool.ts:124-127 | a key carried in the reply overrides the stored key |
| PoolLogic.MergeOrdersAgree | apps/ilix-mobile/lib/hooks/Pool.ts:124-127 | the two merge orders agree iff the reply has no key of its own or the same key |
| PoolLogic.RefreshTargetOf | apps/ilix-mobile/lib/hooks/AppState.ts:261-282 | a refresh goes ahead iff the phrase passes `IsCodeOk`, the reply succeeds with the three pool fields, and a current pool exists; it then targets the current index and key; where reading `current` throws there is no target |
| PoolLogic.RefreshKeepsKey | apps/ilix-mobile/lib/hooks/AppState.ts:279-287 | a refresh rewrites the current pool with the reply's name and keeps its SecureStore key |
| TransferLogic.CheckTransfers | apps/ilix-mobile/lib/hooks/AppState.ts:321-329 | success iff the reply succeeds with a non-empty list of complete transfers, which it returns unchanged; an empty list fails with the server's reason; an incomplete item fails with "Corrupted datas" |
| TransferLogic.FetchOutcomes | apps/ilix-mobile/lib/hooks/AppState.ts:303-330 | each fetch succeeds iff its guard passes and the reply is a non-empty list of complete transfers, and then returns that list; where AppState's guard passes, the older hook fetches the same |
| TransferLogic.HookIgnoresKeyPhrase | apps/ilix-mobile/lib/hooks/Transfer.ts:20 | without a phrase the older hook still fetches, while AppState's refuses |
| TransferLogic.RealSuccessIsSuccess | apps/ilix-mobile/lib/hooks/AppState.ts:344 | after the checks, "real success" is the same as success |
| AppStateHook.SecureCleared | apps/ilix-mobile/lib/db/SecureStore.ts:58-68 | the device id and every given pool's phrase key are removed; every other entry is kept |
| AppStateHook.AppState.SetAuthInitialState | apps/ilix-mobile/lib/hooks/AppState.ts:65-78 | the auth slice and SecureStore become what the loader returns, and the members are attached |
| AppStateHook.AppState.GetDeviceName | apps/ilix-mobile/lib/hooks/AppState.ts:80-88 | undefined without an id; with an id and a pool object but no current pool, reading `current` throws a `TypeError`; otherwise the current pool's name for that id, when it has one |
| AppStateHook.AppState.LogOut | apps/ilix-mobile/lib/hooks/AppState.ts:90-122 | nothing happens without a pool list member; with a list both stores are cleared and the three slices are reset iff both clears complete; with a non-list only the device id and AsyncStorage are cleared and the device stays logged in |
| AppStateHook.AppState.AddPoolKeyPhrase | apps/ilix-mobile/lib/hooks/AppState.ts:124-137 | the phrase is set with cascading equal to the flag, then stored under its key |
| AppStateHook.AppState.SetPoolKeyPhrase | apps/ilix-mobile/lib/hooks/AppState.ts:139-156 | a failed lookup changes nothing; a found phrase is set with cascading |
| AppStateHook.AppState.AuthEffect | apps/ilix-mobile/lib/hooks/AppState.ts:158-175 | no change while pools load or do not cascade; a pool object without a current pool throws and changes nothing; without a pool object only the first load rebuilds auth and SecureStore; with a current pool, the first load rebuilds them from its key and later loads look the phrase up, leaving SecureStore as it was |
| AppStateHook.AppState.SetPoolInitialState | apps/ilix-mobile/lib/hooks/AppState.ts:181-188 | the pool slice becomes the stored one, with its members |
| AppStateHook.AppState.AddPool | apps/ilix-mobile/lib/hooks/AppState.ts:190-209 | a non-list member makes the spread throw, with no change; otherwise the slice becomes `WithPoolAdded`, and only the pool list is persisted under `device_pool` |
| AppStateHook.AppState.SetPool | apps/ilix-mobile/lib/hooks/AppState.ts:211-226 | the slice becomes `WithIndex`, and its `pools` object is persisted |
| AppStateHook.AppState.UpdatePool | apps/ilix-mobile/lib/hooks/AppState.ts:228-252 | a non-list member makes `splice` throw, with no change; otherwise the splice always happens; without a current index it fails and persists nothing; otherwise the slice becomes `WithReplaced` and is persisted |
| AppStateHook.AppState.RefreshPool | apps/ilix-mobile/lib/hooks/AppState.ts:254-288 | throws iff the checks pass with an index but no current pool, changing nothing; changes the current pool exactly when `RefreshTargetOf` allows it, using the key-last merge, and then persists the pool list |
| AppStateHook.AppState.PoolEffect | apps/ilix-mobile/lib/hooks/AppState.ts:294-297 | refreshes only while auth cascades, with the refresh's throw, new pool and persisted pool list |
| AppStateHook.AppState.TransferEffectStart | apps/ilix-mobile/lib/hooks/AppState.ts:332-341 | when auth can fetch, sets `[true, null, []]`; otherwise nothing |
| AppStateHook.AppState.TransferEffectFinish | apps/ilix-mobile/lib/hooks/AppState.ts:343-347 | the slice becomes the finished state of the fetch (its meaning is in `TransferEffectOutcome`) |
| AppStateHook.TransferEffectOutcome | apps/ilix-mobile/lib/hooks/AppState.ts:340-348 | a finished effect is not loading; it succeeds iff the checks pass, showing the fetched list then and an empty list otherwise |
| AppStateHook.PersistedPoolsSurviveReload | apps/ilix-mobile/lib/hooks/AppState.ts:208 | what `addPool` persists is read back at the next start with the same list and index, and the new pool is current |
| PoolHookState.PoolHook.SetInitialState | apps/ilix-mobile/lib/hooks/Pool.ts:24-31 | the slice becomes the stored one |
| PoolHookState.PoolHook.AddPool | apps/ilix-mobile/lib/hooks/Pool.ts:33-52 | a non-list member makes the spread throw, with no change; otherwise prepend and select, then persist the whole slice object |
| PoolHookState.PoolHook.SetPool | apps/ilix-mobile/lib/hooks/Pool.ts:54-69 | set the index unchecked, then persist the whole slice object |
| PoolHookState.PoolHook.UpdatePool | apps/ilix-mobile/lib/hooks/Pool.ts:71-95 | a non-list member makes `splice` throw, with no change; otherwise splice, fail without a current index, else keep the index and persist the slice object |
| PoolHookState.PoolHook.RefreshPool | apps/ilix-mobile/lib/hooks/Pool.ts:97-128 | the same checks and throw as AppState's; the reply's fields are spread after the stored key, and the whole slice object is persisted |
| PoolHookState.PoolHook.Effect | apps/ilix-mobile/lib/hooks/Pool.ts:134-137 | refreshes only while auth cascades, with the refresh's throw, new pool and persisted slice object |
| PoolHookState.PersistedContextLosesPools | apps/ilix-mobile/lib/hooks/Pool.ts:51 | after a restart the reloaded slice holds a pool object whose member is not a list and has no index: no pool is current, no refresh applies, `addPool` and `updatePool` throw, and no `setPool` makes a pool current again |
| AuthHookState.AuthHook.SetInitialState | apps/ilix-mobile/lib/hooks/Auth.ts:78-85 | the slice and SecureStore become what the loader returns for the given key |
| AuthHookState.AuthHook.AddPoolKeyPhrase | apps/ilix-mobile/lib/hooks/Auth.ts:87-97 | the phrase is set with cascading equal to the flag, then stored |
| AuthHookState.AuthHook.SetPoolKeyPhrase | apps/ilix-mobile/lib/hooks/Auth.ts:99-113 | a failed lookup changes nothing; otherwise the phrase is set with cascading |
| AuthHookState.AuthHook.Effect | apps/ilix-mobile/lib/hooks/Auth.ts:115-128 | skipped when pools do not cascade, except on the first load; a pool object without a current pool throws and changes nothing; with no pool object the first load sets the default state; it does not wait for the pools to load |
| TransferHookState.TransferHook.EffectStart | apps/ilix-mobile/lib/hooks/Transfer.ts:43-46 | the outcome becomes unknown and loading starts; the list is kept |
| TransferHookState.TransferHook.EffectFinish | apps/ilix-mobile/lib/hooks/Transfer.ts:47-54 | the list is replaced only on real success; the outcome is recorded; loading ends |
| TransferHookState.FailureKeepsList | apps/ilix-mobile/lib/hooks/Transfer.ts:50 | a failed fetch keeps the old list in the older hook, while AppState's effect empties it |
| ApiClient.ValueText | apps/ilix-mobile/lib/ApiClient.ts:256-257 | a string value as it is; an array joined with "," |
| ApiClient.Placeholder | apps/ilix-mobile/lib/ApiClient.ts:256-257 | `{key}` is the key in braces |
| ApiClient.BuildUri | apps/ilix-mobile/lib/ApiClient.ts:254-259 | the loop fills the entries one after the other, as the fold `BuildUriSpec` does |
| ApiClient.SubstituteAt | apps/ilix-mobile/lib/ApiClient.ts:256-257 | a placeholder at its first occurrence is replaced by the value, there |
| ApiClient.SubstituteAbsent | apps/ilix-mobile/lib/ApiClient.ts:256-257 | an entry whose placeholder is absent leaves the template unchanged |
| ApiClient.BuildUriAppend | apps/ilix-mobile/lib/ApiClient.ts:254-259 | filling entries `a + b` is filling `a`, then `b` |
| ApiClient.CallUrl | apps/ilix-mobile/lib/ApiClient.ts:96-120 | every URL starts with the base URL; with no path and no query it is exactly the base URL followed by the route |
| ApiClient.PathThenQuery | apps/ilix-mobile/lib/ApiClient.ts:101-105 | a path and then a query is the same as filling their entries in that order |
| ApiClient.PathOnlyUrl | apps/ilix-mobile/lib/ApiClient.ts:121-146 | `put` and `delete` build a URL like `get` with no query |
| ApiClient.SubstituteAfterPlainText | apps/ilix-mobile/lib/ApiClient.ts:256-257 | a placeholder after text without "{" is replaced by the value |
| ApiClient.FillTwo | apps/ilix-mobile/lib/ApiClient.ts:254-259 | two placeholders, each after text without "{", take their two values |
| ApiClient.TransferListUrl | apps/ilix-mobile/lib/hooks/AppState.ts:314-320 | the transfer list route becomes `/file-transfer/<phrase>/<device id>/all` after the base URL |
| ApiClient.SendFailure | apps/ilix-mobile/lib/ApiClient.ts:246-251 | the error text after the fixed prefix, with a trailing `}` |
| ApiClient.HandleRequest | apps/ilix-mobile/lib/ApiClient.ts:197-252 | a send failure gives its reason; an unparsable body gives `is_no_body_ok`; an envelope without `success` or `status_code` is "wrong data type"; unparsable data gives `is_no_data_ok` with the server's reason or "failed to parse data"; otherwise the envelope's `success`, the parsed data and the reason |
| ApiClient.SuccessNeedsEnvelope | apps/ilix-mobile/lib/ApiClient.ts:216-245 | with the default flags, success needs an answer whose envelope says `success: true` and whose data parses |
| ApiClient.StatusCodeIgnored | apps/ilix-mobile/lib/ApiClient.ts:223-245 | the status code does not affect the result beyond being present |
| ApiClient.SanitizedName | apps/ilix-mobile/lib/ApiClient.ts:178 | the saved name has no ".", does not start with "/", and is a prefix of the trimmed name |
| ApiClient.PlainNameKept | apps/ilix-mobile/lib/ApiClient.ts:178 | a name with no "." and no slash at either end is kept as it is |
| ApiClient.FileResult | apps/ilix-mobile/lib/ApiClient.ts:164-185 | one file succeeds iff it was saved, with the fixed reasons for a failed fetch and a missing content type |
| ApiClient.FirstRejection | apps/ilix-mobile/lib/ApiClient.ts:188 | no rejection iff no task rejects; otherwise the error of a rejecting task |
| ApiClient.DownloadAll | apps/ilix-mobile/lib/ApiClient.ts:153-195 | without permission "permission not granted"; a rejection fails with its error; otherwise success iff every file was saved |
| SseClient.PoolPayload | apps/ilix-mobile/lib/sse.ts:129-146 | a pool is delivered iff the message is "pool" with string data that parses to a `Pool` holding the three fields |
| SseClient.TransferPayload | apps/ilix-mobile/lib/sse.ts:147-164 | a transfer is delivered iff the message is "transfer" with string data that parses to a complete `Transfer` |
| SseClient.PayloadsExclusive | apps/ilix-mobile/lib/sse.ts:129-168 | a message passes the check of at most one of the pool, transfer and logout events |
| SseClient.IdIndex | apps/ilix-mobile/lib/sse.ts:188-200 | the first position holding the key, or -1 iff no entry holds it |
| SseClient.Values | apps/ilix-mobile/lib/sse.ts:144 | `Object.values`: one callback per entry, in the object's order |
| SseClient.Put | apps/ilix-mobile/lib/sse.ts:188-200 | a new key goes last; a present key keeps its place with the new callback; other entries are untouched; keys stay unique |
| SseClient.Remove | apps/ilix-mobile/lib/sse.ts:216-228 | exactly the entries under other keys remain; keys stay unique |
| SseClient.RemoveAbsent | apps/ilix-mobile/lib/sse.ts:216-228 | deleting a key that is absent leaves the object unchanged |
| SseClient.RemoveAppended | apps/ilix-mobile/lib/sse.ts:188-228 | deleting a key added last is deleting it from the object before the addition |
| SseClient.AddThenRemove | apps/ilix-mobile/lib/sse.ts:184-229 | a listener added under a new id is called after all earlier ones, and removing it restores the object exactly |
| SseClient.CalledOncePerRegistration | apps/ilix-mobile/lib/sse.ts:144-206 | one callback added under two new ids is called twice, after the earlier listeners |
| SseClient.EventSource.Close | apps/ilix-mobile/lib/sse.ts:112 | the source is closed afterwards |
| SseClient.SSEClient.AddEventListener | apps/ilix-mobile/lib/sse.ts:184-206 | the generated id is returned and the callback is `Put` under it in its event's table; the other tables are unchanged |
| SseClient.SSEClient.RemoveEventListener | apps/ilix-mobile/lib/sse.ts:213-233 | the id is `Remove`d from that event's table; the other tables are unchanged |
| SseClient.SSEClient.OnPoolMessage | apps/ilix-mobile/lib/sse.ts:129-146 | every pool listener is called with the pool, in the object's order, or none is called |
| SseClient.SSEClient.OnTransferMessage | apps/ilix-mobile/lib/sse.ts:147-164 | every transfer listener is called with the transfer, in order, or none is called |
| SseClient.SSEClient.OnLogoutMessage | apps/ilix-mobile/lib/sse.ts:165-168 | every logout listener is called, in order, iff the message is "logout" with string data |
| SseClient.SSEClient.OnCloseEvent | apps/ilix-mobile/lib/sse.ts:169-171 | every close listener is called, in order |
| SseClient.SSEClient.OnErrorEvent | apps/ilix-mobile/lib/sse.ts:172-175 | the connection is closed, then every error listener is called, in order |
| SseClient.ConnectReason | apps/ilix-mobile/lib/sse.ts:104-110 | no reason iff the source opened; "failed to connect" on error; "timeout" after 5 s |
| SseClient.NewConnection | apps/ilix-mobile/lib/sse.ts:93-120 | bad arguments fail without a source; a failed outcome closes the new source; success installs a fresh handler with empty tables as the single current one |
| JoinScreens.ArgsOkMeaning | apps/ilix-mobile/components/pages/Auth/Join.tsx:125-126 | for an ASCII name the form check is exactly nineteen dashes, a non-blank name and at most 50 characters |
| JoinScreens.JoinData | apps/ilix-mobile/components/pages/Auth/Join.tsx:78-100 | the join's pool on success; the fetched pool when the device is already in the pool; nothing otherwise; always with the three fields |
| JoinScreens.LegacyJoinData | apps/ilix-mobile/components/pages/Join.tsx:102-135 | data is used iff the join itself succeeded with a complete pool |
| JoinScreens.LegacyAlreadyInPoolIsDropped | apps/ilix-mobile/components/pages/Join.tsx:108-129 | after "AlreadyInPool" and a successful fetch, the earlier screen stores nothing while the current one uses the fetched pool |
| JoinScreens.JoinScreensAgree | apps/ilix-mobile/components/pages/Join.tsx:97-153 | the two screens agree on every reply except an "AlreadyInPool" refusal |
| JoinScreens.JoinedPool | apps/ilix-mobile/components/pages/Auth/Join.tsx:106-114 | the reply's pool with the code's SecureStore key, unless the reply has its own key |
| JoinScreens.JoinScreen.Submit | apps/ilix-mobile/components/pages/Auth/Join.tsx:73-123 | each refusal case changes nothing (no device id, invalid arguments, failed join); otherwise it stores the phrase without cascading and adds the pool, which throws, storing no pool, when the pool member is not a list; it succeeds iff both stores complete, and then resets both inputs |
| JoinScreens.LegacyJoinScreen.Submit | apps/ilix-mobile/components/pages/Join.tsx:97-153 | the same steps as the current screen, using the earlier check, including the throw of `addPool`; the inputs are never reset |
| NewPoolScreen.CreatedKeyPhrase | apps/ilix-mobile/components/pages/Auth/NewPool.tsx:51 | a phrase is taken iff the reply succeeds with non-blank data |
| NewPoolScreen.NewPoolRecord | apps/ilix-mobile/components/pages/Auth/NewPool.tsx:57-66 | this device alone, under its name, with the phrase's SecureStore key |
| NewPoolScreen.CreatedPoolIsCurrent | apps/ilix-mobile/components/pages/Auth/NewPool.tsx:57-66 | after creation, the new pool is current, with this device as its only member, and nothing cascades |
| NewPoolScreen.NewPoolForm.Submit | apps/ilix-mobile/components/pages/Auth/NewPool.tsx:35-75 | each refusal case changes nothing; otherwise it stores the phrase and adds the record, which throws when the pool member is not a list; it succeeds iff both stores complete, and then resets only the device name |
| ViewTransferScreen.FindTransfer | apps/ilix-mobile/components/pages/Home/Inbox/ViewTransfer.tsx:50-53 | absent iff no transfer has the id; otherwise the first with that id |
| ViewTransferScreen.DigitPrefix | apps/ilix-mobile/components/pages/Home/Inbox/ViewTransfer.tsx:133-135 | the longest prefix made of digits of the radix |
| ViewTransferScreen.ParseAllDigits | apps/ilix-mobile/components/pages/Home/Inbox/ViewTransfer.tsx:133-135 | a non-empty run of decimal digits is read as its value |
| ViewTransferScreen.ParseIntDecimal | apps/ilix-mobile/components/pages/Home/Inbox/ViewTransfer.tsx:133-135 | `parseInt` reads back every decimal numeral |
| ViewTransferScreen.ParseIntNegative | apps/ilix-mobile/components/pages/Home/Inbox/ViewTransfer.tsx:133-135 | ... and every negative one |
| ViewTransferScreen.ParseUnsigned | apps/ilix-mobile/components/pages/Home/Inbox/ViewTransfer.tsx:133-135 | an unsigned decimal start is read as its leading run of digits |
| ViewTransferScreen.ParseIntStopsAtNonDigit | apps/ilix-mobile/components/pages/Home/Inbox/ViewTransfer.tsx:133-135 | parsing stops at the first non-digit, unless that character makes a `0x` prefix |
| ViewTransferScreen.ParsedDate | apps/ilix-mobile/components/pages/Home/Inbox/ViewTransfer.tsx:131-137 | a textual date is `parseInt`ed; a number is kept |
| ViewTransferScreen.Normalise | apps/ilix-mobile/components/pages/Home/Inbox/ViewTransfer.tsx:129-138 | only the upload date changes, and the result is still a complete description |
| ViewTransferScreen.NormaliseIdempotent | apps/ilix-mobile/components/pages/Home/Inbox/ViewTransfer.tsx:129-138 | normalising twice is the same as normalising once |
| ViewTransferScreen.NormaliseAll | apps/ilix-mobile/components/pages/Home/Inbox/ViewTransfer.tsx:129-138 | every description is normalised, in order |
| ViewTransferScreen.NormaliseAllIdempotent | apps/ilix-mobile/components/pages/Home/Inbox/ViewTransfer.tsx:129-138 | a stored list is unchanged when it is normalised again |
| ViewTransferScreen.RefreshBypassesCache | apps/ilix-mobile/components/pages/Home/Inbox/ViewTransfer.tsx:93-94 | a refresh always asks the server |
| ViewTransferScreen.LoadedFiles | apps/ilix-mobile/components/pages/Home/Inbox/ViewTransfer.tsx:116-138 | a failed or empty result, or an incomplete description, fails; otherwise the normalised list |
| ViewTransferScreen.ExpiredCacheIsIgnored | apps/ilix-mobile/components/pages/Home/Inbox/ViewTransfer.tsx:90-144 | 30 minutes or more after a list was cached, a non-refresh load uses the server's answer, not the cached list |
| ViewTransferScreen.CacheRoundTrip | apps/ilix-mobile/components/pages/Home/Inbox/ViewTransfer.tsx:90-144 | a non-refresh load within 30 minutes of a stored load shows the same list, whatever the server says |
| ViewTransferScreen.CacheDeleted | apps/ilix-mobile/components/pages/Home/Inbox/ViewTransfer.tsx:174 | when the call completes, only that key is removed |
| ViewTransferScreen.DeleteTransferOutcome | apps/ilix-mobile/components/pages/Home/Inbox/ViewTransfer.tsx:147-162 | "not joined" iff the id or the phrase is missing; deleted iff both are present and the request succeeds |
| ViewTransferScreen.ViewTransfer.FetchFilesInfo | apps/ilix-mobile/components/pages/Home/Inbox/ViewTransfer.tsx:79-145 | the list and the cache entry change only on success; a failure leaves the screen when no files are shown |
| ViewTransferScreen.ViewTransfer.TransferEffect | apps/ilix-mobile/components/pages/Home/Inbox/ViewTransfer.tsx:70-77 | the first run may use the cache; later runs refresh; the list and cache change only on success, and a failure leaves the screen when no files are shown |
| ViewTransferScreen.ViewTransfer.Blur | apps/ilix-mobile/components/pages/Home/Inbox/ViewTransfer.tsx:60-68 | the next run counts as a first one, and the list is emptied |
| ViewTransferScreen.ViewTransfer.DeleteFile | apps/ilix-mobile/components/pages/Home/Inbox/ViewTransfer.tsx:163-181 | a refresh is requested iff the request succeeds; the cache and list are cleared only when exactly one file was shown |
| Errors.Parse | apps/ilix-server/src/utils/errors.rs:25-43 | a parsed error's name is the input; an unknown name fails with an empty message |
| Errors.ParseName | apps/ilix-server/src/utils/errors.rs:25-50 | every name parses back to its error, except `HashError` and `SseFailedToSend`, which the parser lacks |
| Errors.NameInjective | apps/ilix-server/src/utils/errors.rs:46-50 | distinct errors have distinct names |
| ServerUtils.StrEmptyIsAllWhitespace | apps/ilix-server/src/utils/mod.rs:26-28 | `is_str_empty` holds iff every character is Rust white space |
| ServerUtils.BlankChecksDiffer | apps/ilix-server/src/utils/mod.rs:26-28 | U+0085 is blank to the server only, and U+FEFF to the client only |
| ServerUtils.BlankChecksAgree | apps/ilix-server/src/utils/mod.rs:26-28 | without those two characters the server and client blank checks agree |
| ServerUtils.TrimObjectId | apps/ilix-server/src/utils/mod.rs:46-52 | the result neither starts with `ObjectId("` nor ends with `")`, and is no longer than the input |
| ServerUtils.TrimObjectIdPlain | apps/ilix-server/src/utils/mod.rs:46-52 | an id without the wrapper is unchanged |
| ServerUtils.TrimObjectIdIdempotent | apps/ilix-server/src/utils/mod.rs:46-52 | trimming twice is the same as trimming once |
| ServerUtils.TrimObjectIdUnwraps | apps/ilix-server/src/utils/mod.rs:46-52 | a wrapped hexadecimal id is unwrapped exactly |
| ServerUtils.TrimObjectIdRepeats | apps/ilix-server/src/utils/mod.rs:48-49 | the prefix is stripped repeatedly, so `ObjectId("ObjectId(")` becomes `)` |
| KeyPhrases.KeyPhraseChecksAgree | apps/ilix-server/src/utils/keyphrase.rs:11-15 | the server's check equals the client's `IsCodeOk`: nineteen dashes |
| KeyPhrases.TryFrom | apps/ilix-server/src/utils/keyphrase.rs:19-54 | accepted iff it is a key phrase, keeping the text; otherwise `InvalidKeyPhrase` |
| KeyPhrases.StripCr | apps/ilix-server/src/utils/keyphrase.rs:68 | a line loses at most its trailing carriage return |
| KeyPhrases.LineOfPiece | apps/ilix-server/src/utils/keyphrase.rs:68 | each line is a prefix of the matching piece of the text split at `\n` |
| KeyPhrases.LinesKeepAbsent | apps/ilix-server/src/utils/keyphrase.rs:68 | a character absent from the text is absent from every line |
| KeyPhrases.LinesAreUnbroken | apps/ilix-server/src/utils/keyphrase.rs:68 | no line contains a line break |
| KeyPhrases.PickedWords | apps/ilix-server/src/utils/keyphrase.rs:72-77 | the i-th word is the dictionary entry at the i-th pick |
| KeyPhrases.New | apps/ilix-server/src/utils/keyphrase.rs:65-80 | fails with `DictionnaryNotFound` iff the dictionary cannot be read; otherwise the picked words joined with `-` |
| KeyPhrases.NewIsKeyPhrase | apps/ilix-server/src/utils/keyphrase.rs:65-80 | twenty words from a dash-free dictionary make a key phrase that splits back into those words |
| KeyPhrases.ParseUsize | apps/ilix-server/src/utils/keyphrase.rs:85 | a parsed value fits in 64 bits and starts with `+` or a digit |
| KeyPhrases.ParseUsizeDecimal | apps/ilix-server/src/utils/keyphrase.rs:85 | every decimal numeral up to 2^64-1 parses back, with or without `+` |
| KeyPhrases.ParseUsizeRejects | apps/ilix-server/src/utils/keyphrase.rs:85 | the empty text, a bare `+`, a minus sign and leading space are rejected |
| KeyPhrases.HashRound | apps/ilix-server/src/utils/keyphrase.rs:83-90 | a missing variable gives `EnvVarNotFound`; an unparsable one `ParseError`; fewer than 5 rounds "hash round not safe enough"; otherwise the round count |
| KeyPhrases.IterateAdd | apps/ilix-server/src/utils/keyphrase.rs:94-99 | `a` rounds then `b` rounds is `a + b` rounds |
| KeyPhrases.HashOf | apps/ilix-server/src/utils/keyphrase.rs:82-101 | fails exactly as the round count does; otherwise the phrase hashed that many times |
| KeyPhrases.Hash | apps/ilix-server/src/utils/keyphrase.rs:82-101 | the loop computes `HashOf` |
| KeyPhrases.HashHasFiveRounds | apps/ilix-server/src/utils/keyphrase.rs:87-99 | every successful hash begins with at least five rounds |
| KeyPhrases.Verify | apps/ilix-server/src/utils/keyphrase.rs:104-114 | true iff the text is a key phrase whose hash succeeds and equals the given hash |
| KeyPhrases.VerifyOwnHash | apps/ilix-server/src/utils/keyphrase.rs:104-114 | a phrase verifies against its own hash and against no other value |
| Responses.NewPayload | apps/ilix-server/src/services/mod.rs:24-59 | success iff asked and the data serialised; success gives 200, the JSON and no reason; failure gives no data, the given reason and the given status or 500 |
| Responses.FailureIgnoresData | apps/ilix-server/src/services/mod.rs:30-40 | a failure's envelope does not depend on the data |
| Responses.Refused | apps/ilix-server/src/services/mod.rs:24-59 | the failure envelope: the reason, no data, the status or 500 |
| Responses.FromRequest | apps/ilix-server/src/extractors/keyphrase.rs:11-43 | accepted iff the header is present, UTF-8 and a key phrase; every refusal is 401 with no data, with the missing, invalid or `InvalidKeyPhrase` reason |
| PoolService.GetPool | apps/ilix-server/src/services/pool.rs:13-25 | bad arguments without a key phrase; the pool on success; the error's name with 500 |
| PoolService.JoinErrorStatus | apps/ilix-server/src/services/pool.rs:56-60 | 409 iff `AlreadyInPool`, 404 iff `PoolNotFound`, otherwise 500 |
| PoolService.JoinPool | apps/ilix-server/src/services/pool.rs:33-65 | bad arguments without a key phrase or with a blank device id; the pool on success; otherwise the error's name with its status |
| PoolService.LeaveErrorStatus | apps/ilix-server/src/services/pool.rs:90-94 | 409 iff `NotInPool`, 404 iff `PoolNotFound`, otherwise 500 |
| PoolService.LeavePool | apps/ilix-server/src/services/pool.rs:72-99 | bad arguments likewise; `null` data on success; otherwise the error's name with its status |
| PoolService.NewPool | apps/ilix-server/src/services/pool.rs:108-129 | "Empty Args" with 400 for a blank field or a name over 50 bytes; the new phrase on success; otherwise the error's name with 500 |
| PoolService.Repeated | apps/ilix-server/src/services/pool.rs:113-114 | `k` copies of a character |
| PoolService.RepeatedUtf8Len | apps/ilix-server/src/services/pool.rs:113-114 | `k` copies of `é` take 2k bytes |
| PoolService.NameLimitCountsBytes | apps/ilix-server/src/services/pool.rs:113-114 | a 26-character name of `é` is 52 bytes and is refused |
| PoolService.DeleteErrorStatus | apps/ilix-server/src/services/pool.rs:142-148 | 400 iff `InvalidObjectId`, 404 iff pool or transfer not found, otherwise 500 |
| PoolService.DeletePool | apps/ilix-server/src/services/pool.rs:131-153 | bad arguments without a key phrase; `null` data on success; otherwise the error's name with its status |
| FileTransferService.GetAllTransfer | apps/ilix-server/src/services/file_transfer.rs:20-39 | bad arguments without a key phrase or with a blank device id; the transfers on success; otherwise 500 |
| FileTransferService.CreateErrorStatus | apps/ilix-server/src/services/file_transfer.rs:70-73 | 404 iff `NotInPool`, otherwise 500 |
| FileTransferService.CreateTransfer | apps/ilix-server/src/services/file_transfer.rs:48-77 | bad arguments with a blank sender or recipient; the new id on success; otherwise the error's name with its status |
| FileTransferService.StoreUpTo | apps/ilix-server/src/services/file_transfer.rs:139-149 | succeeds iff every store succeeds, returning their ids in order; otherwise fails with the first failure, after which nothing is stored |
| FileTransferService.TransferErrorStatus | apps/ilix-server/src/services/file_transfer.rs:164-167 | 404 iff `TransferNotFound`, otherwise 500; the transfer lookup at file_transfer.rs:196-199 uses the same mapping |
| FileTransferService.StoreFiles | apps/ilix-server/src/services/file_transfer.rs:139-149 | the loop computes `StoreUpTo` over all uploads |
| FileTransferService.Rollback | apps/ilix-server/src/services/file_transfer.rs:160-162 | every stored id is deleted, in order |
| FileTransferService.AddFilesToTransfer | apps/ilix-server/src/services/file_transfer.rs:80-171 | the reply and the deletions are `AddFilesOutcome`: bad arguments; "Failed to parse file" or "Error when parsing files" with 400; a store failure; an attach failure with rollback; or the ids |
| FileTransferService.StoreFailureKeepsEarlierFiles | apps/ilix-server/src/services/file_transfer.rs:146-147 | a store failure is reported with 500, and the files stored before it are not deleted |
| FileTransferService.AttachFailureRollsBack | apps/ilix-server/src/services/file_transfer.rs:156-169 | an attach failure deletes every stored file and reports its own status |
| FileTransferService.AddFilesSuccess | apps/ilix-server/src/services/file_transfer.rs:151-157 | when every store and the attach succeed, the reply carries the ids and nothing is deleted |
| FileTransferService.TransferDeletedReply | apps/ilix-server/src/services/file_transfer.rs:210-224 | success iff no error is kept; an error gives 400 for `InvalidObjectId` and otherwise 207, with the fixed message |
| FileTransferService.LastFailure | apps/ilix-server/src/services/file_transfer.rs:205-208 | no error iff every deletion succeeded; otherwise one of the errors |
| FileTransferService.DeleteTransferAsWritten | apps/ilix-server/src/services/file_transfer.rs:173-225 | bad arguments; a failed lookup with its status; otherwise every file deletion is attempted and the reply follows the last deletion only |
| FileTransferService.DeleteTransfer | apps/ilix-server/src/services/file_transfer.rs:173-225 | the same, but the reply reports any failed deletion |
| FileTransferService.DeletionFailuresReported | apps/ilix-server/src/services/file_transfer.rs:205-224 | the corrected reply succeeds iff every file deletion succeeded |
| FileTransferService.EarlierFailureLost | apps/ilix-server/src/services/file_transfer.rs:205-208 | with two files where only the first deletion fails, as written the reply is success; corrected it is 207 |
| Responses.ObjectIdErrorStatus | apps/ilix-server/src/services/file.rs:50-53 | 400 iff `InvalidObjectId`, otherwise 500; the file-info lookup at files.rs:30-33 uses the same mapping |
| FileService.TempPath | apps/ilix-server/src/services/file.rs:33 | `./tmp/<uuid>-<filename>`, ending with the filename |
| FileService.GetFile | apps/ilix-server/src/services/file.rs:20-70 | bad arguments for a blank id; a lookup failure with its status; the temporary file iff it was written and opened; otherwise "Couldn't send file" |
| FileService.DeleteFile | apps/ilix-server/src/services/file.rs:72-101 | bad arguments for a blank id; a detach failure other than not-in-transfer or transfer-not-found is 409 and deletes nothing; otherwise the deletion's outcome |
| FileService.ToleratedDetachIsClean | apps/ilix-server/src/services/file.rs:79-88 | a tolerated detach failure behaves as a successful detach |
| FilesService.GetFilesInfo | apps/ilix-server/src/services/files.rs:18-37 | bad arguments for an empty id list; the descriptions on success; otherwise the error's name with its status |
| Broadcasting.EventName | apps/ilix-server/src/utils/sse.rs:36-40 | "pool", "transfer" or "logout", one per kind of data |
| Broadcasting.ToEvent | apps/ilix-server/src/utils/sse.rs:28-48 | a ping is the comment "Ping"; connecting is the "connected" event; data is its named event with the JSON or "Failed to stringify message" |
| Broadcasting.SharedIdIsCollision | apps/ilix-server/src/utils/sse.rs:107-109 | two devices of one pool share a channel id only when the hash collides on their distinct `<device id>:<phrase hash>` texts |
| Broadcasting.TargetIds | apps/ilix-server/src/utils/sse.rs:136-139 | the client ids of the targets, none when the phrase hash fails |
| Broadcasting.Recipients | apps/ilix-server/src/utils/sse.rs:144-147 | exactly the senders of clients whose id is a target |
| Broadcasting.Alive | apps/ilix-server/src/utils/sse.rs:95-104 | only clients that answered the ping, in order |
| Broadcasting.AliveKeepsResponsive | apps/ilix-server/src/utils/sse.rs:88-104 | every client that answers is kept |
| Broadcasting.AliveAppend | apps/ilix-server/src/utils/sse.rs:95-104 | filtering is done client by client, in order |
| Broadcasting.AliveIdempotent | apps/ilix-server/src/utils/sse.rs:85-105 | a second sweep with the same answers removes nothing more |
| Broadcasting.Broadcaster.NewClient | apps/ilix-server/src/utils/sse.rs:112-126 | "connected" is sent first; the client is added under its id, or the hash error is returned and nothing is added |
| Broadcasting.Broadcaster.BroadcastTo | apps/ilix-server/src/utils/sse.rs:129-153 | `HashError` when a target's id cannot be made; otherwise sends to the recipients and fails with `SseFailedToSend` if a send fails |
| Broadcasting.Broadcaster.RemoveStaleClients | apps/ilix-server/src/utils/sse.rs:85-105 | every client is pinged, and the list becomes the responsive ones |
| Broadcasting.PingAll | apps/ilix-server/src/utils/sse.rs:86-104 | every channel of the snapshot is pinged in order, and exactly the clients that answered are kept, as `Alive` says |
| Broadcasting.BroadcastReachesTargetsOnly | apps/ilix-server/src/utils/sse.rs:144-147 | a message reaches a sender only if its client id is that of a target device in the pool |
| EventsService.LookupStatus | apps/ilix-server/src/services/events.rs:32-35 | 404 iff `PoolNotFound`, otherwise none (so 500) |
| EventsService.EventStream | apps/ilix-server/src/services/events.rs:20-53 | bad arguments without a key phrase; a failed pool lookup is refused and registers nothing; otherwise the broadcaster registers the device |
| Protocol.AsBody | apps/ilix-server/src/services/mod.rs:62-71 | the envelope as the client reads it: the same success, status, reason and data |
| Protocol.RefusalReachesClient | apps/ilix-mobile/lib/ApiClient.ts:241-245 | a server refusal reaches the client as a failure with the server's reason |
| Protocol.AnswerReachesClient | apps/ilix-mobile/lib/ApiClient.ts:229-245 | a server answer reaches the client as success with the parsed data |
| Protocol.UnparsableAnswer | apps/ilix-mobile/lib/ApiClient.ts:230-238 | an answer the client cannot parse succeeds only for a caller that accepts no data |
| Protocol.Delivered | apps/ilix-mobile/lib/sse.ts:129 | a named event reaches the client as a message of that type with its data; a comment reaches nobody |
| Protocol.EventsRouteByName | apps/ilix-server/src/utils/sse.rs:28-48 | each kind of data reaches at most the client handler of its own name; pings and "connected" reach none |
| Protocol.ServerPoolsAreDropped | apps/ilix-server/src/db/models.rs:5-9 | the server's pool record has no `devices_id_to_name`, so as the client reads it no pool passes its checks: a "pool" event delivers nothing, a join yields no pool on either screen, and a refresh has no target |
| Protocol.LongPoolNamePassesClientOnly | apps/ilix-mobile/components/pages/Auth/NewPool.tsx:77 | a 51-letter pool name passes the client form and is refused by the server |

## Left out

- Rendering, navigation, toasts, animations, the QR scanner and every component outside the named screens: these are presentation only.
- React scheduling: each `setState` takes effect at once, and effects are methods called explicitly. Dependency arrays and stale closures are not modelled: each effect reads the current state.
- `SS_clear` is modelled as all or nothing. A throw after some deletions, which would leave a partial deletion, is not modelled.
- `AS_Clear` is not defined in the AsyncStorage module shown. It is modelled as emptying the store.
- `ViewTransferScreen.ViewTransfer.FetchFilesInfo` and `ViewTransferScreen.ViewTransfer.DeleteFile`: `CACHE_KEY` and `AS_Delete` are imported (apps/ilix-mobile/components/pages/Home/Inbox/ViewTransfer.tsx:24-29), but apps/ilix-mobile/lib/db/AsyncStorage.ts defines only `POOL_KEY`, `AS_Store` and `AS_Get`. As written, `CACHE_KEY(transfer_id)` throws a `TypeError` (ViewTransfer.tsx:91, :141, :174) before any cache read, request or deletion, so every `fetchFilesInfo` and `deleteFile` rejects. The model assumes working definitions: `CACHE_KEY` is the `cacheKey` parameter, and `AS_Delete` is `CacheDeleted`, whose outcome is a parameter.
- `SseClient.NewConnection`: `SERVER_BASE_URL` is imported (apps/ilix-mobile/lib/sse.ts:6), but apps/ilix-mobile/lib/ApiClient.ts:92 declares it without `export`. As written, the events URL built at sse.ts:100 starts with "undefined". The model takes the base URL as a parameter and assumes it is the server's.
- `CACHE_KEY`, `AS_Delete`, `JSON.parse`/`JSON.stringify`, uuid generation, SHA3-256, `Date.now`, `fetch` and the file system are parameters.
- The current join and new-pool screens call `ApiClient.Put`, `ApiClient.Get` and `ApiClient.Post` (apps/ilix-mobile/components/pages/Auth/Join.tsx:78, :89 and apps/ilix-mobile/components/pages/Auth/NewPool.tsx:49). apps/ilix-mobile/lib/ApiClient.ts:95-146 defines only the lower-case `get`, `post`, `put` and `delete`, with other routes and argument order. As written, those screens throw a `TypeError` before any request is sent. The model assumes a client whose methods match these calls, and each request's result is a parameter.
- JavaScript `replace` interprets `$` patterns in the replacement text. `ApiClient.Substitute` inserts the value literally.
- `ViewTransferScreen.JsParseInt` works on unbounded integers. It does not model IEEE-754 precision above 2^53.
- The nested `uploadDate.$date.$numberLong` is flattened to one field.
- `refreshTransfer` is modelled as a returned flag.
- `downloadFiles` in ViewTransfer is left out: it only calls `HandleGetFilesAndSave`, which is modelled as `ApiClient.DownloadAll`, and pushes toasts.
- `Promise.all` rejects with the first rejection in time. The model takes the first in list order.
- A non-boolean `success` member or non-string `data` in the envelope is treated as absent or as not a string.
- The server's database layer (`db/`), `encryption.rs`, `main.rs`, `app.rs` configuration and `users.rs` are not part of this model. Their results are `Result` parameters.
- `BAD_ARGS_RESP` is not defined in the server sources shown. It is modelled as the opaque `Reply.BadArgs`.
- The UTF-8 check on the `Authorization` header is modelled as `HeaderValue.NotUtf8`. No byte sequences are modelled.
- The multipart stream of `add_files_to_transfer` is a parameter: `None` stands for a stream error. Filenames defaulting to a uuid are already resolved.
- `KeyPhrases.New`: the random picks are a parameter. An empty dictionary, where the Rust code panics, is excluded by the precondition.
- `usize` is taken as 64 bits. `str::lines` is modelled as in current Rust: split on `\n`, drop one trailing empty piece, and strip one trailing `\r` only from pieces that a `\n` ended. A final piece ending in a bare `\r` keeps it.
- `Broadcasting.Broadcaster`: the mutex, the spawned 30-second ping loop and the parallelism of `join_all` are left out. The sends happen in list order, and a send outcome is a parameter. Because of this, one consequence is not shown: `remove_stale_clients` snapshots the list (apps/ilix-server/src/utils/sse.rs:86) and later overwrites it (sse.rs:104), so a client registered in between is lost. That has not been executed.
- Request decoding is not modelled: each handler takes the arguments it extracts. Two client requests do not match what the server extracts, and neither has been executed:
  - `new_connection` sends the key phrase as an `Authorization` header (apps/ilix-mobile/lib/sse.ts:99-101), while `event_stream` reads `key_phrase` from the query (apps/ilix-server/src/services/events.rs:13-26).
  - `fetchFilesInfo` sends `files_ids` in the query (apps/ilix-mobile/components/pages/Home/Inbox/ViewTransfer.tsx:104), while `get_files_info` takes a JSON body (apps/ilix-server/src/services/files.rs:20).
- The server's `DevicesPool` (apps/ilix-server/src/db/models.rs:5-9) serialises `pool_name`, `devices_id` and `hashed_key_phrase`, but no `devices_id_to_name`. Every client pool check asks for that member: pool events (apps/ilix-mobile/lib/sse.ts:141), the joins (apps/ilix-mobile/components/pages/Auth/Join.tsx:99, apps/ilix-mobile/components/pages/Join.tsx:133) and the refreshes (apps/ilix-mobile/lib/hooks/AppState.ts:275, apps/ilix-mobile/lib/hooks/Pool.ts:115). `Protocol.ServerPoolsAreDropped` proves that, read text against text, no pool the server sends passes them. The server's own test record (apps/ilix-server/src/tests/mod.rs:8-13) does hold the member, so which side is current cannot be told from the sources. This has not been executed. The client-side members take the parsed reply as a parameter and keep the client's checks.
- `Broadcasting.Broadcaster.NewClient` unwraps the first send in the Rust code. The model assumes that send succeeds on a fresh channel.
- `EventsService.EventStream` does not check the device id, exactly as in the Rust code.
- `keyphrase.rs`, `encryption.rs`, and the `pool.rs`, `file_transfer.rs` and `files.rs` services import the `ServerErrors` of `app.rs`, which has no `InvalidKeyPhrase` but has `Custom`. The model uses the `errors.rs` enum everywhere. It adds the `Custom` message as `KeyPhrases.HashFailure.Custom`. Every variant the handlers match on has the same name in both enums.
- `ApiClient.SendFailure` keeps the stray `}` of the reason's template as written.
- `ClientTypes.Current` is modelled as derived from the index and list. The getter's `this` binding is not modelled.
- The join screens are modelled against `AppStateHook.AppState`, whose members they call.
- `ClientTypes.StoreItem`: `AS_Store` gives the thrown value itself as its reason (`e as string`), while `SS_Store` gives its text. Both are modelled as the error's text.
- A `TypeError` thrown by `pools?.current.…` is returned as a flag (`threw` of `AuthEffect`, `AuthHook.Effect`, both `RefreshPool` methods, `PoolEffect` and `PoolHook.Effect`) or as a `Completion.TypeError`. What React then does with the rejected promise or the error is not modelled.
- `SseClient.SSEClient.OnPoolMessage`, `OnTransferMessage`, `OnLogoutMessage`, `OnCloseEvent` and `OnErrorEvent` assume that no listener throws. In the source, a throwing pool or transfer listener ends the `forEach` inside `try {} catch {}` (apps/ilix-mobile/lib/sse.ts:144, :162), so the later listeners are skipped silently. A throwing logout, close or error listener (sse.ts:167, :170, :174) escapes the handler. The callbacks are opaque values in the model.

## Findings

| source | as written | input that shows it | evidently intended | confidence | as-written member | corrected member |
|---|---|---|---|---|---|---|
| apps/ilix-mobile/lib/hooks/Pool.ts:51 | `addPool`, `setPool` and `updatePool` persist the whole slice object under `device_pool`, while `GetStoredPools` reads that entry back as the pool list | `addPool(p)`, then restart: the reloaded `pools` member is an object, not a list, and there is no index. No pool is current and no `setPool` makes one current; a later `addPool` or `updatePool` throws a `TypeError`; the auth effect throws on reading `current`; `logOut` deletes the device id and then fails | persist `newState.pools`, as `AppState.ts:208` does | not executed | PoolHookState.PersistedContextLosesPools | AppStateHook.PersistedPoolsSurviveReload |
| apps/ilix-mobile/components/pages/Join.tsx:108-129 | after an "AlreadyInPool" refusal the pool is fetched, but the check that follows still tests the join's `succeed` | join refused with reason "AlreadyInPool", and the pool fetch succeeds with a complete pool: nothing is stored and the user stays on the error | go on with the fetched pool, as `Auth/Join.tsx:98` does | not executed | JoinScreens.LegacyAlreadyInPoolIsDropped | JoinScreens.JoinData |
| apps/ilix-server/src/services/file_transfer.rs:205-208 | `err` is overwritten by each deletion's outcome, so only the last one counts | two files, where only the first deletion fails with `MongoError`: the reply is success | report 207 when any deletion failed, as the comment on the loop and the message say | not executed | FileTransferService.EarlierFailureLost | FileTransferService.DeletionFailuresReported |

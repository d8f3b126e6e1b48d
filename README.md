# Xylos AI: user directory and call state, in Dafny

Xylos AI is a browser video-call application. This project models two parts of it.

The first is the simulated user directory. There are three service copies of it and one in the sign-in page:
- `services/authApi.ts`: log-in, sign-up and profile update over the `xylos_ai_users` table, keyed by the normalized e-mail.
- `services/database.ts`: find, create, touch-login and update-profile over the `xylos_ai_users_db` table, keyed by id.
- `services/api.ts`: a client (`apiFetch`, `login`, `register`, `logout`, `validateSession`, `updateUser`) and the mock HTTP server it talks to (`mockFetch`). The server handles register, login, `/auth/me` and `PUT /users/...`, parses bearer tokens and maps statuses to errors.
- `components/AuthPage.tsx`: a fourth copy of the log-in and sign-up rules. It compares e-mails as typed.

The second is the in-call state of `App.tsx`: the participant list and its updaters, chat messages, the screen-share and virtual-background rules, and saving settings. The small rules of `components/VideoGrid.tsx`, `components/NewMeetingModal.tsx` and `components/SettingsModal.tsx` are modelled too.

The browser's storage is a class, `Storage.WebStorage`, with one field per storage key. Each service operation that reads a table, changes it and writes it back is a method. Its `modifies` clause names only the table it writes. Its `ensures` clause equates the result and the new table with a pure function of the old table. The properties the source promises are proved about those functions:
- how uniqueness of e-mails behaves;
- that only the matched row changes;
- the error raised in each case;
- round trips (a registered account can log in; an issued token reads back as its user).

`App.AppState` holds the `useState` slots of `App.tsx`. Its handlers keep the invariant that the call holds exactly one self tile while a user is signed in and none otherwise.

Ids (`uuidv4()`), clock readings (`new Date()`), the outcome of browser prompts and the page origin are parameters.

Modules: `Wrappers`, `Text` (JavaScript `trim`, `toLowerCase`, `length`, the avatar URL), `Types`, `Storage`, `Directory` (the shared `find`/`findIndex`/row updates), `AuthApi`, `Database`, `Token`, `Api`, `Roster` (self tiles of the participant list), `App`, `VideoGrid`, `AuthPage`, `NewMeetingModal`, `SettingsModal`.

## Model

| member | source | states |
|---|---|---|
| Text.Trim | services/authApi.ts:29 | The result is the input without its leading and trailing JavaScript white space (the WhiteSpace and LineTerminator code points); it neither starts nor ends with white space. |
| Text.TrimIdempotent | services/authApi.ts:53 | Trimming a trimmed string changes nothing. |
| Text.TrimEmptyIffBlank | components/NewMeetingModal.tsx:38 | A string trims to empty exactly when all of it is white space, the falsy case of `title.trim()`. |
| Text.ToLower | services/authApi.ts:29 | Same length; every character is lowered one to one. |
| Text.NormalizeEmail | services/authApi.ts:29 | `email.trim().toLowerCase()`: the trimmed text, lowered, with no white space at either end. |
| Text.NormalizeEmailIdempotent | services/authApi.ts:53-61 | A stored, already normalized e-mail normalizes to itself. |
| Text.Utf16Length | services/authApi.ts:48 | `password.length` counts UTF-16 code units: one character takes two units above U+FFFF and one otherwise. The count equals the number of characters exactly when all lie in the Basic Multilingual Plane, and lies between that number and twice it. |
| Text.Utf16LengthAppend | services/authApi.ts:48 | The code-unit count of a concatenation is the sum of the counts; with the one-character case this fixes the count of every string. |
| Text.AvatarUrlInjective | services/authApi.ts:63 | Different e-mails give different robohash avatar URLs. |
| Text.KeepAlphanumeric | App.tsx:29 | `replace(/[^a-zA-Z0-9]/g, '')`: one character is kept iff it is an ASCII letter or digit. The result holds only such characters and every such character of the input. A string made only of them is unchanged. |
| Text.KeepAlphanumericAppend | App.tsx:29 | The replacement works character by character: cleaning `a + b` gives the cleaned `a` followed by the cleaned `b`. So the kept characters stay in order and keep their repetitions. |
| Directory.FindIndex | services/authApi.ts:80 | `findIndex`: none exactly when no row matches; otherwise the first matching row. |
| Directory.Find | services/database.ts:36 | `find`: none exactly when no row matches; otherwise a matching row with no match before it. |
| Directory.FindIndexAppend | services/authApi.ts:67 | After `push`, the earlier first match stays; a match only in the new row is at the end. |
| Directory.FindIndexSameKeys | services/database.ts:74-76 | Two tables whose rows agree on the matched fields find the same index. |
| Database.TouchLoginKeepsLookups | services/database.ts:71-79 | Renewing a `lastLogin` moves no row: every lookup by id or e-mail finds the same index afterwards. |
| Directory.LoginStep | services/authApi.ts:30-35 | The first row with the credentials gets the new `lastLogin` and nothing else changes; with no such row the table is unchanged. |
| Directory.SetProfile | services/authApi.ts:86-92 | Row `i` gets the new name and avatar and keeps every other field; other rows are unchanged. |
| Directory.SameEmailsKeepUnique | services/authApi.ts:92 | A row rewrite that keeps every e-mail keeps e-mails unique. |
| Directory.UniqueEmailFound | services/authApi.ts:80 | Under unique e-mails, looking up a row's e-mail finds that row. |
| AuthApi.UpdateStoredUser | services/authApi.ts:76-96 | With unique e-mails, updating the profile under a stored user's e-mail succeeds and rewrites exactly that user's name and avatar. |
| AuthApi.Login | services/authApi.ts:25-39 | Succeeds iff some row has the normalized e-mail and the same password. Only that first row's `lastLogin` changes. Otherwise it fails with 'Invalid email or password.' and the table is unchanged. |
| AuthApi.Register | services/authApi.ts:45-70 | A password under 6 code units is refused before the table is read. A taken normalized e-mail is refused with no change. Otherwise exactly one row is appended: trimmed name, normalized e-mail, avatar from that e-mail. Unique e-mails stay unique. |
| AuthApi.Update | services/authApi.ts:76-96 | 'User not found.' exactly when no row has the e-mail. Otherwise only the first such row changes, and only its name and avatar; length and all e-mails are kept. |
| AuthApi.OperationsKeepEmailsUnique | services/authApi.ts:25-96 | Log-in, sign-up and update all keep the table's e-mails unique. |
| AuthApi.RegisterThenLogin | services/authApi.ts:25-70 | A just-registered account logs in with the e-mail as typed and with the stored one; only `lastLogin` is renewed. |
| AuthApi.LoginUser | services/authApi.ts:25-39 | The imperative call; its result and the new table are those of `Login`. |
| AuthApi.RegisterUser | services/authApi.ts:45-70 | The imperative call; its result and the new table are those of `Register`. |
| AuthApi.UpdateUser | services/authApi.ts:76-96 | The imperative call; its result and the new table are those of `Update`. |
| Database.FindUserByEmail | services/database.ts:33-38 | Null exactly when no row has the exact e-mail; otherwise the first such row. The table is not changed. |
| Database.FindUserById | services/database.ts:44-48 | Null exactly when no row has the id; otherwise the first such row. |
| Database.Create | services/database.ts:54-65 | Exactly one row is appended, carrying the given fields, the new id and `lastLogin`; earlier rows are untouched. |
| Database.CreateUniqueness | services/database.ts:54-65 | E-mails stay unique iff the e-mail was new (nothing is checked); a fresh id keeps ids unique. |
| Database.CreateThenFindById | services/database.ts:44-65 | A row created with a fresh id is what `findUserById` then returns. |
| Database.CreateUser | services/database.ts:54-65 | The imperative call; its result and the new table are those of `Create`. |
| Database.TouchLogin | services/database.ts:71-79 | Only the first row with the id changes, and only its `lastLogin`; with no such row the table is unchanged. |
| Database.UpdateUserLoginTime | services/database.ts:71-79 | The new table is that of `TouchLogin`; with no match the stored table is not written. |
| Database.UpdateProfile | services/database.ts:85-97 | 'User not found in database.' when the id is absent. Otherwise the first such row gets the name and avatar and is returned; other rows and the length are unchanged. |
| Database.UpdateUserProfile | services/database.ts:85-97 | The imperative call; its result and the new table are those of `UpdateProfile`. |
| Token.UnhexHex | services/api.ts:77 | Reading back a number written in `width` hexadecimal digits gives the number. |
| Token.DecodeEncodeChars | services/api.ts:77 | Decoding the encoding of a user id gives back the id. |
| Token.TokenRoundTrip | services/api.ts:51-77 | Decoding an issued token gives back exactly its `{ userId }` claims. |
| Token.TokenHasNoSpace | services/api.ts:74 | An issued token is non-empty and holds no space. |
| Api.PublicOmitsOnlyPassword | services/api.ts:52 | Two users look the same in a response iff they differ at most in the password. |
| Api.FirstField | services/api.ts:74 | The prefix up to the first space, holding no space. |
| Api.BearerToken | services/api.ts:70-74 | A token exactly when the header starts with 'Bearer '; it is the next space-free field after that. |
| Api.BearerRoundTrip | services/api.ts:113-114 | The server reads back a non-empty, space-free token the client attached. |
| Api.Merge | services/api.ts:96 | For a body carrying only name and avatar, `{ ...user, ...body }` changes only those two fields. |
| Api.RegisterRoute | services/api.ts:36-54 | 409 with its message for a taken normalized e-mail and no change. Otherwise one row is appended and 201 carries the public user and a token for the new id. |
| Api.LoginRoute | services/api.ts:56-67 | 200 iff some row has the normalized e-mail and the password. Only that row's `lastLogin` changes, and the response carries a token for its id. Otherwise 401 with the table unchanged. |
| Api.MeRoute | services/api.ts:82-90 | 200 with the first row having the token's user id, else 404 'User not found'. |
| Api.PutUserRoute | services/api.ts:92-102 | The body is merged over the first row with the token's user id, and 200 returns it. Otherwise 404 and no change. |
| Api.Dispatch | services/api.ts:23-105 | Protected routes answer 401 without a bearer header. Paths outside register, login and `/api/users/` never change the table, and neither does any status other than 200 and 201. |
| Api.DispatchRefusalsCarryMessage | services/api.ts:23-105 | A response is 2xx exactly when it is not an error body, and every error body has a non-empty message. |
| Api.RegisterThenMe | services/api.ts:36-90 | A registration's token, sent back as bearer, makes `/auth/me` answer 200 with the account just created. |
| Api.LoginTokenNamesUser | services/api.ts:56-64 | The token of a successful log-in decodes to the id of the user returned. |
| Api.PutIgnoresPathId | services/api.ts:92-102 | Any two `PUT /api/users/...` paths have the same effect: the id in the path is never read. |
| Api.DispatchKeepsEmailsUnique | services/api.ts:36-102 | The server keeps e-mails unique whenever no PUT body carries an e-mail. |
| Api.DispatchProtectedRoutes | services/api.ts:69-104 | With a bearer token past register and login: 401 'Invalid token' when it does not decode; else `/auth/me` for a GET, the PUT route for `PUT /api/users/...`, and 404 'Not Found' otherwise. |
| Api.DispatchAuthRoutes | services/api.ts:36-67 | Register and login are answered before the Authorization header is examined. |
| Api.MockFetch | services/api.ts:23-105 | The imperative router; its response and new table are those of `Dispatch`. |
| Api.ToApiResult | services/api.ts:120-125 | Success iff the status is 2xx, carrying the body. Otherwise an error with the server's non-empty message, or exactly 'API request failed' when there is none. |
| Api.ApiFetch | services/api.ts:108-126 | Sends `/api` + path with `Bearer <token>` when a non-empty token is stored; the table and result are those of `Dispatch` and `ToApiResult`. |
| Api.Login | services/api.ts:130-137 | The token is stored only when the server answers 200 with a session. A failure carries 'Invalid email or password.' and leaves the token alone. |
| Api.Register | services/api.ts:139-147 | A password under 6 code units fails with nothing changed and no request. Otherwise the token is stored only on 201, and a refusal carries the 409 message. |
| Api.Logout | services/api.ts:149-151 | The token is removed. |
| Api.ValidateSession | services/api.ts:153-163 | With no or an empty token: null and nothing changes. Otherwise the user from a 200 `/auth/me`, or null with the token removed. The table is never changed. |
| Api.UpdateUser | services/api.ts:165-171 | Result and table are those of PUT `/api/users/<id>` with name and avatar; a failure carries the server's message. |
| Storage.WebStorage.constructor | services/api.ts:28 | Every storage key starts missing, and a missing table reads as empty. |
| Roster.RemoveSelf | App.tsx:202 | `filter(p => !p.isSelf)`: a one-tile list is kept iff its tile is not self. The result holds exactly the non-self tiles and no self tile, and is shorter by the number of self tiles. |
| Roster.RemoveSelfAppend | App.tsx:202 | Filtering `a + b` is filtering `a` followed by filtering `b`, so the other participants keep their order and multiplicity. |
| Roster.CountSelfAppend | App.tsx:60 | The self-tile counts of two lists placed one after the other add up. |
| Roster.NoSelfCountZero | App.tsx:14-31 | A list with no tile marked self counts zero self tiles. |
| Roster.RemoveSelfNoSelf | App.tsx:202 | Removing self tiles from a list without any changes nothing. |
| Roster.RemoveSelfIdempotent | App.tsx:60 | Removing self tiles twice is removing them once. |
| Roster.SameOthersKeepRoster | App.tsx:110-112 | Editing only self tiles keeps the other tiles and the number of self tiles. |
| Roster.SelfIndex | App.tsx:46 | None exactly when there is no self tile; otherwise the first self tile. |
| Roster.LocalParticipant | App.tsx:46 | `find(p => p.isSelf)`: absent exactly when no tile is self; otherwise the self tile at a position with no self tile before it, that is, the first. |
| Roster.AtMostOneSelf | App.tsx:60 | At most one self tile counted means no two positions hold self tiles. |
| Roster.SharingViewsAgree | App.tsx:139 | With at most one self tile, `some(p => p.isSelf && p.isScreenSharing)` agrees with `localParticipant?.isScreenSharing`. |
| App.InitialParticipants | App.tsx:14-32 | Three demonstration tiles with the given names: participant-2 unmuted with camera on, participant-3 muted, participant-4 with camera off. None is self, sharing or has a raised hand. Each avatar is keyed by its name's letters and digits. |
| App.DemoParticipant | App.tsx:25-30 | A non-self tile with the given id, name, microphone and camera state, hand down, not sharing, avatar from the name with everything but ASCII letters and digits removed. |
| App.WithFlag | App.tsx:111 | The chosen flag takes the value, every other flag and `isSelf` are kept. |
| App.WithFlagRestores | App.tsx:111 | Setting a flag and then putting the old value back restores the tile. |
| App.ToggleSelf | App.tsx:109-113 | Only self tiles change, each in the chosen flag only, which flips. |
| App.ToggleSelfTwice | App.tsx:245-249 | Toggling the same flag twice gives back the list. |
| App.SetSelfFlag | App.tsx:133-135 | Only self tiles change, each in the chosen flag only, which takes the value. |
| App.SetSharingDecides | App.tsx:133-155 | After setting the sharing flag, a self tile shares iff the flag was set and a self tile exists. |
| App.RenameSelf | App.tsx:239-241 | Only self tiles change, taking the new name and avatar. |
| App.SelfParticipant | App.tsx:50-59 | The signed-in user's tile: self, unmuted, camera on, not sharing, hand down, with the user's name and avatar. |
| App.AddSelf | App.tsx:60 | Exactly one self tile, first, and the other participants in their old order. |
| App.StreamForLocal | App.tsx:98 | The processed stream exactly when a non-empty background URL is active, else the camera stream. |
| App.SaveSettingsUsers | App.tsx:236 | Same length and e-mails. Each row with the user's e-mail becomes the updated user; the others are unchanged. |
| App.SaveSettingsRewritesOneRow | App.tsx:234-237 | On a table with unique e-mails, saving settings rewrites at most one row and keeps e-mails unique. |
| App.AppState.constructor | App.tsx:23-44 | The first render: the demonstration tiles, no messages, nothing open, signed out. |
| App.AppState.HandleAuthSuccess | App.tsx:48-65 | The user becomes current, signed in, with exactly one self tile first and the others kept. The chat restarts with the welcome line. |
| App.AppState.RestoreSession | App.tsx:68-78 | A non-empty remembered e-mail that names a row of the users table signs that first row in; otherwise nothing changes. |
| App.AppState.HandleLoginOrSignup | App.tsx:193-196 | Remembers the user's e-mail for the tab, then signs the user in as `HandleAuthSuccess`. |
| App.AppState.AttachLocalStream | App.tsx:81-93 | Once signed in, the acquired stream becomes the local stream. |
| App.AppState.HandleToggleMute | App.tsx:109-113 | Flips `isMuted` on self tiles only; the signed-in invariant holds. |
| App.AppState.HandleToggleHandRaise | App.tsx:245-249 | Flips `isHandRaised` on self tiles only. |
| App.AppState.HandleToggleVideo | App.tsx:115-124 | Flips `enabled` on every local video track (the loop), and `isVideoOff` on self tiles only. |
| App.AppState.StopScreenShare | App.tsx:126-136 | No screen stream; `isScreenSharing` cleared on self tiles only, so no self tile shares. |
| App.AppState.HandleToggleScreenShare | App.tsx:138-165 | Sharing stops if a self tile shares. Otherwise it starts when a display stream is obtained, and nothing changes when the prompt fails. |
| App.AppState.HandleEndCall | App.tsx:167-173 | A held screen stream is stopped as `stopScreenShare` does; otherwise the tiles are unchanged. |
| App.AppState.HandleSendMessage | App.tsx:177-188 | Exactly one message from the local participant is appended, and only when there is one. |
| App.AppState.HandleLogout | App.tsx:198-207 | Signed out and the tab's e-mail forgotten. Every self tile is removed with the others kept in order. Chat, chat panel and meeting details are reset. |
| App.AppState.HandleCreateMeeting | App.tsx:209-213 | The details are kept and the dialog closes. |
| App.AppState.HandleSelectVB | App.tsx:217-223 | While the local participant shares its screen the background is unchanged; otherwise it becomes the choice. |
| App.AppState.DisableBackgroundWhileSharing | App.tsx:101-107 | Afterwards no background is active while sharing. It is switched off, with its panel closed, only when both held. |
| App.AppState.HandleSaveSettings | App.tsx:228-243 | With no current user nothing changes. Otherwise: new name and avatar; rows with its e-mail rewritten; self tiles renamed; dialog closed. |
| VideoGrid.GridClass | components/VideoGrid.tsx:11-17 | Every class asks for a `grid-cols-<n>` layout. The width class is `max-w-4xl` exactly for at most 1 tile, `max-w-6xl` exactly for 2-4, and `max-w-full` exactly for 5 or more. |
| VideoGrid.Columns | components/VideoGrid.tsx:12-16 | The column count named by a `grid-cols-<d>` class is its digit. |
| VideoGrid.ColumnBands | components/VideoGrid.tsx:11-17 | At most 1 tile gives 1 column, 2-4 give 2, 5-6 give 3, 7 or more give 4. |
| VideoGrid.ColumnsMonotone | components/VideoGrid.tsx:11-17 | The column count is between 1 and 4 and never decreases as tiles are added. |
| VideoGrid.TileStreams | components/VideoGrid.tsx:27 | Self tiles get the local stream and all others none. |
| VideoGrid.OneTileShowsLocalStream | components/VideoGrid.tsx:23-29 | With at most one self tile, at most one tile shows the local stream, and it is a self tile. |
| AuthPage.PageLogin | components/AuthPage.tsx:29-42 | Succeeds iff a row has exactly the typed e-mail and password. Only that first row's `lastLogin` changes; otherwise the table is unchanged. |
| AuthPage.PageSignUp | components/AuthPage.tsx:44-67 | A short password is refused before the table is read. An exactly equal e-mail is refused with no change. Otherwise one row is appended with the avatar built from the typed e-mail. Unique e-mails stay unique. |
| AuthPage.LoginAgreesWhenNormalized | components/AuthPage.tsx:31 | For an e-mail typed in normalized form, the page and the service log in the same row and leave the same table. |
| AuthPage.SignUpAdmitsVariantOfStoredEmail | components/AuthPage.tsx:50 | The sign-up handler accepts an e-mail that is not stored as typed but whose normalized form is, such as one differing from a stored e-mail only in case; the service refuses it. |
| AuthPage.CaseMattersOnlyOnThePage | components/AuthPage.tsx:31 | For a row stored as "a@b", the page cannot log in as "A@b", while the service can. |
| AuthPage.AuthPageForm.constructor | components/AuthPage.tsx:10-16 | Sign-in view, not loading, no error, empty fields. |
| AuthPage.AuthPageForm.HandleLogin | components/AuthPage.tsx:29-42 | Result and table as `PageLogin`; the error is cleared on success and 'Invalid email or password.' otherwise. |
| AuthPage.AuthPageForm.HandleSignUp | components/AuthPage.tsx:44-67 | Result and table as `PageSignUp`; the error is cleared on success and set to the refusal otherwise. |
| AuthPage.AuthPageForm.HandleSubmit | components/AuthPage.tsx:69-83 | Runs the current view's handler and ends not loading. |
| AuthPage.AuthPageForm.ToggleView | components/AuthPage.tsx:85-91 | Flips the view and clears error, password, name and e-mail. |
| NewMeetingModal.NewMeetingForm.constructor | components/NewMeetingModal.tsx:12-16 | Empty link and fields, not copied. |
| NewMeetingModal.NewMeetingForm.Open | components/NewMeetingModal.tsx:19-29 | A new `<origin>/meet/<room>` link and an empty form, not copied, so Schedule is disabled. |
| NewMeetingModal.NewMeetingForm.CopyLink | components/NewMeetingModal.tsx:31-35 | The link is marked copied. |
| NewMeetingModal.NewMeetingForm.Schedule | components/NewMeetingModal.tsx:37-43 | Details are produced exactly when the Schedule button would be enabled (line 138). They carry the trimmed title and the date and time. |
| NewMeetingModal.NewMeetingForm.StartNow | components/NewMeetingModal.tsx:45-48 | The trimmed title, or 'Instant Meeting' when blank, never a date or time; the title is never empty. |
| SettingsModal.SettingsForm.constructor | components/SettingsModal.tsx:21-23 | The form starts with the current name and avatar. |
| SettingsModal.SettingsForm.Open | components/SettingsModal.tsx:26-33 | The form is reset to the current name and avatar; Save is then disabled iff the name is blank or has nothing to trim. |
| SettingsModal.SettingsForm.SelectAvatar | components/SettingsModal.tsx:80-84 | The selected avatar becomes the clicked option, one of the five fixed URLs. |
| SettingsModal.SettingsForm.Submit | components/SettingsModal.tsx:35-40 | Saves (trimmed name, selected avatar) exactly when the trimmed name is non-empty. The Save button (line 98) is disabled exactly when nothing is saved or the saved values equal the current ones. |

## Left out

- `hooks/useVirtualBackground.ts` is not part of this model. It is canvas compositing, a global segmentation object, an animation-frame loop and `captureStream`: foreign calls and image operations. Only its use at `App.tsx:98` (which stream the local tile shows) is modelled.
- `utils/media.ts` and the render-only components (Header, VideoParticipant, Controls, VirtualBackgroundPanel, ChatSidebar, Dashboard, MediaError, IconButton, ChatMessage) are not part of this model: they are markup and thin wrappers over browser calls.
- Storage and JSON: each storage key is a field holding the decoded value. Corrupt JSON in storage, and JSON values other than strings in request bodies, are not modelled.
- `simulateDelay`, the `setTimeout` latency, `console` and `alert` are not modelled. Each call runs as one step, so interleavings of concurrent `async` calls are not modelled.
- Token: `btoa(JSON.stringify({ userId }))` and `JSON.parse(atob(token))` are replaced by a hexadecimal text encoding with the same proved contract: decoding an issued token gives its claims, and a token holds no space. Base64 itself is not implemented, so foreign strings that `atob` would accept are not modelled.
- Api.Dispatch: requires the `email` field for register and login and the `name` field for register, which those routes dereference. This also excludes a register body with a taken e-mail and no `name`, which the source answers with 409 before it reads `name`. The TypeError the source throws without these fields is not modelled.
- Api.Dispatch: the request path is taken as given; `new URL(...).pathname` normalization (query strings, fragments, `..` segments, percent-encoding) is not modelled.
- AuthPage: the form's constraint validation is not modelled. This covers the `required` fields and the sanitizing and syntax check of `type="email"` (components/AuthPage.tsx:116,126,131,145). `PageLogin`, `PageSignUp` and the form's handlers take any strings, including blank ones and e-mails with surrounding blanks that the browser would never submit.
- Api.Merge: a user is a record of its six fields (`id`, `name`, `email`, `password`, `avatar`, `lastLogin`). Body keys among these override the stored field. Other keys are dropped, whereas `{ ...db[userIndex], ...body }` (services/api.ts:96) stores them and later responses return them. The contract covers only bodies whose keys are among `name` and `avatar`, which is what the client sends (services/api.ts:165-170).
- Api.ToApiResult: the 'An unknown error occurred.' fallback of a response without a JSON body is not modelled; the mock server always answers with JSON.
- Text.ToLower: lower-cases ASCII letters only; the Unicode case mapping of `toLowerCase` for other letters is not modelled.
- App.AppState.constructor: takes the demonstration names as a parameter; `App.tsx` passes the three names in `App.ParticipantNames`.
- App.AppState.HandleToggleScreenShare: `getDisplayMedia` is reduced to whether a stream was obtained (`acquired`). The track's `onended` callback is the separate `StopScreenShare` call.
- App.AppState.HandleEndCall: stopping the local camera tracks and the alert are not modelled.
- App.AppState.AttachLocalStream: the `getUserMedia` request and its error alert are not modelled; only the stream's video-track `enabled` flags are kept. The cleanup that stops tracks on sign-out is not modelled.
- `handleToggleChat`, `handleNewMeeting`, `handleCloseNewMeetingModal`, `handleToggleVBPanel`, `handleOpenSettings` and `handleCloseSettings` are not modelled: each flips or sets one boolean.
- NewMeetingModal.NewMeetingForm.CopyLink: the clipboard write and the 2-second reset of the copied flag are not modelled. `window.location.origin` and the room id are parameters of `Open`, and the input focus timers are left out.
- Token.EncodeToken: accepts every user id. `btoa` throws an InvalidCharacterError when the JSON of the claims holds a character above U+00FF. A PUT body can set `id` to such a string (services/api.ts:96), after which log-in fails with that error. This failure is not modelled.

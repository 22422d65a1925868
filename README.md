# Civico settlement core in Dafny

A model of the core of Civico, a browser city-building game. The model covers the backend's read
path and account operations and a few self-contained client rules.

- **Reading a settlement** (`getUserData`). A read settles the dispatch ledger (`troopsOnMove`) at
  the instant `now`:
  - An outbound group whose arrival time has passed goes to the battle function. The returning
    group it yields, if any, takes its place.
  - A group still in flight is kept unchanged.
  - A returning group whose arrival time has passed adds its troops to the garrison and leaves the
    ledger.

  The read writes back only `{troops, troopsOnMove}`, and only when the stored ledger is not empty.
  It then sends a view whose resource totals are `min(stock + hours * rate, cap)`. Wheat accrues at
  `wheatRate - population`.
- **Account creation, login and logout.** Creation rejects a taken username. It tries random map
  cells until one is free, marks that cell with the username, and stores the fixed starter snapshot.
- **Client rules.**
  - The create-account form check.
  - The SEND_DATA state merge and the reset on connection close.
  - Town building placement, stamped in place into the buildings grid, with rotate, cancel and
    drag, and the affordability gate of the building catalogue.
  - The profile bio editor's draft fold and `split('\n')`.
  - The constant field-upgrade table.

Modules, one per file:

| file | module | models |
|---|---|---|
| `wrappers.dfy` | `Wrappers` | `Option`, for `null`/`undefined` |
| `protocol.dfy` | `Protocol` | grid slots, inbox letters, the `FieldSlot` record and `fieldSlotData` |
| `settlement.dfy` | `Settlement` | the stored snapshot: troop types, garrison, dispatched groups, starter snapshot |
| `accrual.dfy` | `Accrual` | display accrual of the four resources |
| `ledger.dfy` | `Ledger` | settling the dispatch ledger: specification functions, the imperative loops, lemmas |
| `users.dfy` | `Users` | the store and connection objects; `createNewAccount`, `login`, `logout`, `getUserData` |
| `town.dfy` | `Town` | the town scene's placement state and in-place grid stamping |
| `app.dfy` | `App` | the client state, the form check, the SEND_DATA merge, NULL_STATE |
| `profile.dfy` | `Profile` | the bio draft and split, dialog flags, the self-greeting |

The arrival comparisons in `getUserData` are strict (`< 0` and `> 0` on `arrivalTime - now`,
users.ts:119, 124 and 127). So a group arriving exactly at `now` is neither kept nor brought home,
and its troops vanish (`Ledger.ArrivingNowIsDropped`, `Ledger.ArrivingNowLosesTroops`). The shown
totals have an upper clamp only (users.ts:139-142), so wheat can be shown below zero
(`Accrual.DisplayedWheatHasNoFloor`).

Two more observations about the code as written:
- The server's view carries every stored field (`...user`), so `passwordHash` and `token` travel
  to the client. `Users.UserView.user` keeps them.
- The server sends the coordinates as `mapCoordinates`, but the client's merge reads
  `message.map`. The two models are not connected, so the mismatch only shows in the field names.

## Model

| member | source | states |
|---|---|---|
| `Protocol.FieldSlotData` | civico-frontend/src/types/protocol.ts:142-287 | every kind defines exactly levels 1 to 3; the population gain is 1, 1 and 2 by level; each kind raises only its own resource's rate and the other three rate gains are 0 |
| `Protocol.CostsIncreaseWithLevel` | civico-frontend/src/types/protocol.ts:143-286 | for every kind, each of the four costs strictly increases from level 1 to 2 to 3 |
| `Protocol.OwnRateGains` | civico-frontend/src/types/protocol.ts:143-286 | the own-rate gain is 6, 11 and 18 by level, except the level-2 wheat field, which gains 1 |
| `Protocol.KindOfKey` | civico-frontend/src/types/protocol.ts:142-287 | a slot name finds the kind whose table key it is, and finds nothing if and only if no kind has that key |
| `Protocol.KindKeyRoundTrip` | civico-frontend/src/types/protocol.ts:142-287 | every kind is found again under its own key 'FOREST', 'CAVE', 'CLAY' or 'WHEAT' |
| `Protocol.UpgradeText` | civico-frontend/src/types/protocol.ts:144-252 | every kind's upgrade text ends with 'Increases <resource> gain by', naming the resource the kind produces |
| `Protocol.OnlyWheatGainDips` | civico-frontend/src/types/protocol.ts:251-286 | the wheat field is the only kind whose level-2 gain is smaller than its level-1 gain |
| `Settlement.Garrison.Add` | civico-backend/src/firebase/users.ts:128-130 | `troops[t] += n` raises the count of `t` by `n` and changes no other type |
| `Settlement.StarterSnapshot` | civico-backend/src/firebase/users.ts:27-60 | the new snapshot has population 1, 250 of each resource, caps of 500, rates of 5, the starter fields and buildings grids, all six troop types at 0, an empty ledger and inbox, no token, `pacifist = true` with `pacifismDisabledUntil = 0`, the chosen cell and `timestamp = now` |
| `Settlement.StarterFieldsLayout` | civico-backend/src/firebase/users.ts:43-49 | the starter fields grid is 5x5 and all at level 0; its active slots are exactly the centre TOWN and its four neighbours FOREST, CLAY, CAVE and WHEAT; every other slot is an unbuilt `?` slot |
| `Settlement.StarterBuildingsEmpty` | civico-backend/src/firebase/users.ts:50-54 | the starter buildings grid is 3x3 and every slot is EMPTY at level 0 |
| `Accrual.Accrue` | civico-backend/src/firebase/users.ts:139-142 | the shown amount is at most the cap and at most the accrued amount, and it equals one of them |
| `Accrual.Displayed` | civico-backend/src/firebase/users.ts:135-142 | the four shown totals never exceed their caps |
| `Accrual.AccrueWithinBounds` | civico-backend/src/firebase/users.ts:139-141 | with a non-negative rate and elapsed time and a stock in `[0, cap]`, the shown amount lies between the stock and the cap |
| `Accrual.AccrueMonotoneInTime` | civico-backend/src/firebase/users.ts:135-141 | with a non-negative rate, a later read never shows less |
| `Accrual.AccrueFallsWithNegativeRate` | civico-backend/src/firebase/users.ts:142 | with a negative net rate, the shown amount falls below the stored stock as time passes |
| `Accrual.DisplayedWithinCaps` | civico-backend/src/firebase/users.ts:135-141 | when `timestamp <= now`, the three rates are non-negative and each stored stock lies in `[0, cap]`, shown lumber, iron and clay lie between the stored stock and the cap |
| `Accrual.DisplayedWheatHasNoFloor` | civico-backend/src/firebase/users.ts:142 | when population exceeds `wheatRate`, shown wheat is below the stored wheat, with no floor at 0 |
| `Accrual.StarterAfterOneHour` | civico-backend/src/firebase/users.ts:135-142 | a new settlement read one hour later shows 255 lumber, iron and clay and 254 wheat |
| `Accrual.StarterAfterHundredHours` | civico-backend/src/firebase/users.ts:135-142 | a new settlement read 100 hours later shows every total capped at 500, not 750 |
| `Accrual.DisplayedIgnoresTroops` | civico-backend/src/firebase/users.ts:133-142 | the shown totals depend on neither the garrison nor the ledger, so the read's write-back cannot change them |
| `Ledger.ReturnToGarrison` | civico-backend/src/firebase/users.ts:127-131 | each carried type grows by the carried count, and types the group does not carry are unchanged |
| `Ledger.SettleLedger` | civico-backend/src/firebase/users.ts:116-132 | the ledger loop yields the garrison and ledger that the specification functions `Garrisoned` and `Kept` define |
| `Ledger.KeptMembers` | civico-backend/src/firebase/users.ts:119-126 | a group is in the new ledger if and only if it is an old group still in flight, or the non-null battle result of an outbound group that has arrived |
| `Ledger.InFlightKept` | civico-backend/src/firebase/users.ts:124-126 | a ledger of groups still in flight is kept unchanged and in order |
| `Ledger.NoHomecomingKeepsGarrison` | civico-backend/src/firebase/users.ts:119-131 | without a returning group that has arrived, the garrison is unchanged; outbound groups never add to it |
| `Ledger.GarrisonCounts` | civico-backend/src/firebase/users.ts:127-131 | for every type, the new count is the old count plus exactly what the arrived returning groups carried |
| `Ledger.TroopsConserved` | civico-backend/src/firebase/users.ts:118-132 | without battles and without a group arriving exactly at `now`, garrison plus ledger holds the same number of troops of every type |
| `Ledger.ArrivingNowIsDropped` | civico-backend/src/firebase/users.ts:119-131 | a group with `arrivalTime == now` leaves the ledger and adds nothing to the garrison |
| `Ledger.ArrivingNowLosesTroops` | civico-backend/src/firebase/users.ts:119-131 | five swordsmen arriving home exactly at `now` disappear from garrison and ledger alike |
| `Ledger.ReturningSwordsmenJoinGarrison` | civico-backend/src/firebase/users.ts:127-131 | five swordsmen arriving home before `now` raise the garrison's swordsmen by 5 and leave the ledger |
| `Ledger.SettledLedgerIsStable` | civico-backend/src/firebase/users.ts:117-133 | when every battle result arrives later, settling the settled ledger again at the same instant changes neither ledger nor garrison, so no group is fought or brought home twice |
| `Users.OneSettlementPerCell` | civico-backend/src/firebase/users.ts:16-26 | in a consistent store, two different settlements never share a map cell |
| `Users.FirstFree` | civico-backend/src/firebase/users.ts:16-25 | the search picks a draw that is unoccupied and preceded only by occupied draws; it finds none if and only if every draw is occupied |
| `Users.FirstFreeIsFirstUnoccupied` | civico-backend/src/firebase/users.ts:20-25 | the first unoccupied draw is the one the search picks |
| `Users.LastFreeCellIsFound` | civico-backend/src/firebase/users.ts:16-25 | when only (499, 499) is free and it is among the draws, the search lands there |
| `Users.CreateNewAccount` | civico-backend/src/firebase/users.ts:8-67 | a taken name sends 'Username already taken.' and writes nothing; otherwise the first free draw is marked with the name, the starter snapshot is stored under the new id, the connection is bound to it, and store consistency (no settlement under the empty id, unique usernames, marked cells) is preserved |
| `Users.Login` | civico-backend/src/firebase/users.ts:70-86 | a matching name and password stores and returns `Bearer <signed id>` and binds the connection; otherwise nothing changes and, in a consistent store, no user of that name has that password |
| `Users.Logout` | civico-backend/src/firebase/users.ts:88-96 | the bound settlement's token is removed, the connection id becomes '', and nothing else changes; in a consistent store an unbound connection changes no settlement |
| `Users.RebuildGrid` | civico-backend/src/firebase/users.ts:103-114 | the rebuilt grid has the stored rows, each with its slots, in order |
| `Users.AfterRead` | civico-backend/src/firebase/users.ts:115-134 | the stored document after a read differs only in troops and ledger, so stocks, caps, rates and timestamp are untouched; with no ledger nothing changes |
| `Users.ReadView` | civico-backend/src/firebase/users.ts:135-149 | the view carries the stored document, totals within caps, and the settled garrison and ledger |
| `Users.GetUserData` | civico-backend/src/firebase/users.ts:98-155 | an unknown id changes nothing, and in a consistent store an unbound connection ('') reads no settlement; otherwise exactly the settled document is written and exactly one SEND_DATA view is sent, and consistency is preserved |
| `Users.RepeatedReadChangesNothing` | civico-backend/src/firebase/users.ts:115-142 | when battle results arrive later, a second read at the same instant rewrites nothing and shows the same totals |
| `Town.ControlsShown` | civico-frontend/src/client/scenes/Town.tsx:170-191 | Cancel/Rotate/Confirm show if and only if width and height are both positive; otherwise Expand/Build |
| `Town.Rotated` | civico-frontend/src/client/scenes/Town.tsx:130-135 | rotation swaps width and height and keeps name and position |
| `Town.RotationProperties` | civico-frontend/src/client/scenes/Town.tsx:130-135 | rotating twice restores the placement, and rotation never changes which controls show |
| `Town.SelectDisabled` | civico-frontend/src/client/scenes/Town.tsx:242-247 | an entry is selectable if and only if lumber, iron, clay and wheat each reach its cost |
| `Town.SelectableStaysSelectable` | civico-frontend/src/client/scenes/Town.tsx:242-247 | more of every resource never disables a selectable entry |
| `Town.EmptyFootprintCoversNothing` | civico-frontend/src/client/scenes/Town.tsx:146-147 | a footprint of width 0 or height 0 covers no slot |
| `Town.TownScene.constructor` | civico-frontend/src/client/scenes/Town.tsx:98-105 | the dialog is closed and there is no pending placement |
| `Town.TownScene.HandleOpenBuildingSelect` | civico-frontend/src/client/scenes/Town.tsx:107 | opens the catalogue and leaves the placement alone |
| `Town.TownScene.HandleCloseBuildingSelect` | civico-frontend/src/client/scenes/Town.tsx:109 | closes the catalogue and leaves the placement alone |
| `Town.TownScene.HandleSubmitBuildingSelect` | civico-frontend/src/client/scenes/Town.tsx:111-118 | closes the catalogue; the placement takes the entry's name, width and height and keeps its position |
| `Town.TownScene.CancelBuildingPlacement` | civico-frontend/src/client/scenes/Town.tsx:120-128 | resets name to '' and width, height, row and column to 0, so Expand/Build show |
| `Town.TownScene.RotateBuilding` | civico-frontend/src/client/scenes/Town.tsx:130-135 | the placement becomes its rotation |
| `Town.TownScene.HandleDragStop` | civico-frontend/src/client/scenes/Town.tsx:137-142 | only row and column change, to the dropped position |
| `Town.TownScene.HandlePlaceBuilding` | civico-frontend/src/client/scenes/Town.tsx:144-162 | every slot `buildings[column + j][row + i]` with `i < width` and `j < height` becomes `{name, level: 0}`, every other slot is unchanged, the name is handed on, and the placement is reset |
| `App.CheckCreateAccount` | civico-frontend/src/client/App.tsx:212-223 | the request is sent if and only if the username has 3 to 15 characters and the password at least 5; each of the four messages is shown exactly under its own length condition |
| `App.VerdictIsOneOfFive` | civico-frontend/src/client/App.tsx:212-223 | every input yields the request or one of the four messages |
| `App.PayloadAndSessionDetermineState` | civico-frontend/src/client/App.tsx:28-60 | the 17 payload fields and the 4 session fields make up the whole state |
| `App.MergeSendData` | civico-frontend/src/client/App.tsx:149-168 | after the merge the 17 payload fields are the message's, and connection, token, username and errorMessage are unchanged |
| `App.MergeIsIdempotent` | civico-frontend/src/client/App.tsx:149-168 | merging the same message twice equals merging it once |
| `App.AppComponent.constructor` | civico-frontend/src/client/App.tsx:62-93 | the state starts as NULL_STATE with nothing sent |
| `App.AppComponent.HandleErrorNotification` | civico-frontend/src/client/App.tsx:180-187 | only errorMessage changes |
| `App.AppComponent.HandleCreateAccount` | civico-frontend/src/client/App.tsx:209-225 | without a connection nothing happens; with one, either CREATE_ACCOUNT is sent and the state is unchanged, or the chosen message is shown and nothing is sent |
| `App.AppComponent.OnSendData` | civico-frontend/src/client/App.tsx:149-168 | the state becomes the merge of the message |
| `App.AppComponent.OnClose` | civico-frontend/src/client/App.tsx:129-132 | the state becomes NULL_STATE: no connection, no token |
| `Profile.DraftLineIsLineAndNewline` | civico-frontend/src/client/scenes/Profile.tsx:118 | both branches of the reducer's conditional append `line + '\n'` |
| `Profile.DraftIsTerminated` | civico-frontend/src/client/scenes/Profile.tsx:118 | the draft is the concatenation of `line + '\n'` over the bio lines |
| `Profile.DraftNewlineCount` | civico-frontend/src/client/scenes/Profile.tsx:118 | when no line contains '\n', the draft contains exactly as many '\n' as there are lines |
| `Profile.SplitLines` | civico-frontend/src/client/scenes/Profile.tsx:127 | the split yields at least one piece, and no piece contains '\n' |
| `Profile.JoinSplit` | civico-frontend/src/client/scenes/Profile.tsx:127 | joining the pieces with '\n' gives back the text |
| `Profile.SplitDraft` | civico-frontend/src/client/scenes/Profile.tsx:114-129 | splitting the draft of `lines` yields `lines + [""]` when no line contains '\n' |
| `Profile.ShownName` | civico-frontend/src/client/scenes/Profile.tsx:148 | one's own profile shows 'it be you' and anyone else's shows their username |
| `Profile.GreetingIffSelf` | civico-frontend/src/client/scenes/Profile.tsx:148 | 'it be you' shows if and only if `selfUsername == username`, unless the other username is literally 'it be you' |
| `Profile.ProfileScene.constructor` | civico-frontend/src/client/scenes/Profile.tsx:105-109 | both dialogs are closed and the draft is empty |
| `Profile.ProfileScene.HandleOpenDeleteAccount` | civico-frontend/src/client/scenes/Profile.tsx:111 | opens the delete dialog and changes nothing else |
| `Profile.ProfileScene.HandleCloseDeleteAccount` | civico-frontend/src/client/scenes/Profile.tsx:112 | closes the delete dialog and changes nothing else |
| `Profile.ProfileScene.HandleOpenBioChange` | civico-frontend/src/client/scenes/Profile.tsx:114-120 | opens the editor with the draft of the bio lines, which is empty for a null profile |
| `Profile.ProfileScene.HandleCloseBioChange` | civico-frontend/src/client/scenes/Profile.tsx:122 | closes the editor and keeps the draft |
| `Profile.ProfileScene.HandleNewBioChange` | civico-frontend/src/client/scenes/Profile.tsx:124 | the draft becomes the typed text |
| `Profile.ProfileScene.HandleChangeBio` | civico-frontend/src/client/scenes/Profile.tsx:126-129 | hands on the draft split on '\n', whose join gives back the draft, and closes the editor |
| `Profile.EditBioUnchanged` | civico-frontend/src/client/scenes/Profile.tsx:114-129 | when no bio line contains '\n', opening the editor and confirming without edits hands on the bio lines plus one empty line |

## Left out

- Database failures. The model leaves out every `catch` path that sends 'Unable to reach database.'.
  The store is two in-memory maps, and each operation runs to completion.
- bcrypt and jwt. The password hash is an input. Password checking and token signing are
  function parameters of `Users.Login`.
- Battle rules. `resultBattle` lives in a file that is not part of this model. It is the
  function parameter `battle`, and its damage, pacifism and loot rules are not modelled.
- The asynchronous `forEach`. The model settles the ledger as a sequential loop before the write
  and the message. In the code the callbacks are not awaited. A battle result is pushed after the
  write of `{troops, troopsOnMove}` and the sending of the view, since `resultBattle` awaits the
  database. That returning group is therefore in neither the stored ledger nor the sent view.
  Concurrent reads of one settlement are not modelled either.
- `Date.now()`. The code reads it several times per read. The model uses one `now`.
- Users.CreateNewAccount: the random cells are a finite sequence of draws. When every draw is
  occupied the outcome is `StillSearching`, where the code would keep drawing. The push key is an
  input required to be fresh and non-empty, as push keys are.
- Users.GetUserData: an empty connection id is an unknown settlement, because a consistent store
  holds nothing under the empty id, and the model sends nothing. The code reads the path `users/`
  instead and gets the whole collection. `Object.values(user.fields)` then throws, and the catch
  sends 'Unable to reach database.' (users.ts:104, 152-153).
- Firebase's encoding of arrays as objects with integer keys is not modelled. Stored grids and the
  inbox are sequences, and an absent ledger or inbox reads as empty.
- JavaScript arithmetic. Numbers are exact reals or unbounded integers, not IEEE doubles. The
  garrison holds all six troop types. The model does not represent the `NaN` that adding to a
  missing key would give.
- String lengths are counted in Dafny characters, not UTF-16 code units.
- Town.TownScene.HandlePlaceBuilding: requires the footprint to fit in the grid. The code's
  behaviour for a footprint out of range is not modelled: a missing row throws, and a short row is
  lengthened. The building catalogue `buildingsData` is not part of this model and is an input.
- The `onPlaceBuilding` and `onChangeBio` callbacks are not modelled. Their arguments are the
  methods' results.
- Client plumbing. Rendering, routing, localStorage, the WebSocket connect and reconnect, the
  five-second error timer, and the TOKEN branch are not modelled. So are the login, logout,
  field-upgrade and expand senders, which lie outside the modelled core.

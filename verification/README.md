# Verified model of the game-library server

This project models the stateful and arithmetical cores of the server in Dafny and
proves what they promise. Each module follows one component. Where the server changes
things step by step, the module has a class with the same fields, whose methods are
proved equal to functions on its state; a machine over the steps, with those same
functions, then carries the theorems about whole runs and every interleaving.
`dafny verify dfyconfig.toml` checks everything.

- **Calls and the gateway** (`Rings`, `Hub`, `Calls`, `CallLedger`, `LostCall`,
  `VoiceGate`, `VoiceTickets`, `CallSteps`, `CallOutcomes`, `GateOutcomes`,
  `BlockCutShort`, `RingingBothWays`, `Devices`, `Fanout`, `FanoutOrder`,
  `FanoutDelivery`, `FanoutCommands`, `Blocks`). A handler is a task made of acts, each
  one hold of a lock or one statement; acts of any number of tasks interleave, and a
  handler may be cancelled where it waits. Every ring is accounted for once, every opening
  and closing of the voice gate is traced back to its own cause, and from each cause
  forward: what an invite, accept, end, block, expiry, last socket or connect has brought
  about once its handler is done. The device picker agrees with the router, frames cross
  instances at most once, in order, and exactly once while nobody disconnects, and a
  command for one machine joins the queue of that machine's latest socket alone.
- **Sign-in** (`QrSignin`, `Guard`, `Throttle`). The QR compare-and-swap protocol with
  its separate read and swap, push approvals with arbitrary clocks, and the login
  throttle with overlapping sign-ins.
- **Library** (`Manifest`, `Chunks`, `Catalog`, `ScanProgress`, `ScanOutcomes`). The
  UTF-8 splitter and segmented storage, chunk table against chunk server, range replies,
  the idempotent catalog sync, the progress of concurrent hashing, and the manifests a
  rescan leaves behind.
- **Codecs and dates** (`Base32`, `Keystream`, `Calendar`).
- **Friendship** (`Friendship`, `FriendshipRules`) and **cloud saves** (`Saves`).
- `Wrappers`, `Text`, `Stories` and `Sums` are shared helpers. A *story* is what a log
  says of one key, in order; several safety theorems list the stories a key can have.

Assumptions. Random ids do not repeat. Clocks, the order in which a hash table is
walked, whether a push wakes a phone, account lookups, keyed hashes and the library's
Unicode lower-casing are parameters. A path or id stands for its value under the
column's collation. Database statements succeed.

Where the code and its own texts differ, the code is modelled:

- an approved sign-in request has no expiry of its own, only eviction after four minutes
  (`src/guard.rs:64-71`), although a comment speaks of its window;
- `game_saves` keys a path by its first 191 characters (`src/db_setup.rs:218`) while
  paths of up to 400 bytes are accepted (`src/handlers.rs:552-559`), so two files can
  share a row. `Saves` proves that this happens, and that the history promised for saves
  holds exactly when it does not;
- "no manifest for a game no longer present" (`src/manifest.rs:628-637`) fails when a
  request for a manifest outlives its game. `ScanProgress` shows such a run and proves
  that it can happen for a game exactly when a request for it is in flight as the prune
  looks at the stored manifests;
- a missed call is meant to leave a record however the ring ends, but
  `src/social_api.rs:2344-2347` cancels the frame handler of a failed socket, which may be
  waiting to write it. `LostCall` shows such a run; `CallLedger` proves that the records
  are complete exactly when no handler was cancelled while holding one;
- a block is meant to end what is running (`src/blocks.rs:80-81`), but `ended_either_way`
  takes out one ring (`src/calls.rs:67-72`): of two accounts that ring each other one ring
  is left, and the next connect replays it and opens the gate although the block stands.
  `GateOutcomes` proves that a ring is left exactly if both rang, `RingingBothWays` shows
  the run. And a client that hangs up between the block's insert and its closing leaves
  the gate as it was: `BlockCutShort` proves that it is closed exactly otherwise;
- a base time stamp of 0 is said to switch the conflict check of a save off, but it is
  compared like any other (`src/handlers.rs:566-570`, `src/handlers.rs:631-648`). `Saves`
  follows the comparison;
- local rows are said to win in the device picker, but the clock is read twice
  (`src/fanout.rs:228-232`). `Devices` proves exactly when a local row is shown, and that a
  connected device can be missing.

## Model

| member | source | states |
|---|---|---|
| QrSignin.Challenges.Start | src/qr_auth.rs:88-160 | a challenge is issued for three minutes exactly for a known target with fewer than ten live ones from that address; rows three minutes past their expiry go, others stay |
| QrSignin.Challenges.Decide | src/qr_auth.rs:210-254 | exactly a pending, unexpired challenge with the right scan secret takes an answer, and records who gave it; "approve" and "allow" approve, "deny" and "reject" deny, whatever the case, and nothing else is an answer |
| QrSignin.Challenges.Swap | src/qr_auth.rs:328-353 | exactly an approved, unexpired challenge with the right poll secret is consumed |
| QrSignin.StepKeepsInv | src/qr_auth.rs:210-353 | each statement of any replica keeps every row and every poll under way in line with its challenge's story |
| QrSignin.EveryStoryIsLegal | src/qr_auth.rs:109-353 | over every interleaving a challenge is issued once, answered at most once and logs in at most once: after an approving word in time, for the approver, the target asked for and the challenge's own secrets, within 180 seconds |
| QrSignin.LoginIsBacked | src/qr_auth.rs:277-353 | before any login stand the issue and the winning approval it rests on, with the same account, target and secrets and an approving word |
| QrSignin.LoginIsAlone | src/qr_auth.rs:231-353 | a challenge with a login never has another one, nor a denial |
| QrSignin.PollTellsTheStory | src/qr_auth.rs:277-327 | what a poll with the right secret is told: expired, waiting, refused or its approver, as the story so far has it |
| Text.TrimCutsTheEnds | src/qr_auth.rs:222 | answers are read without the white space at their ends, and with all else |
| Text.CapitalsAreLowered | src/qr_auth.rs:222 | and with ASCII capitals as small letters |
| QrSignin.ApprovedChallengeSignsInOnce | src/qr_auth.rs:277-353 | an approved challenge does sign its approver in, and of two polls that read the same row the second loses |
| Guard.ApprovalStore.GuardDecide | src/auth.rs:178-189 | only the account asked may answer, only while pending and under 120 seconds, with one of six words, three of which approve and three deny |
| Guard.ApprovalStore.Poll | src/auth.rs:192-222 | a poll spends exactly an approval of its own account, and otherwise changes nothing |
| Guard.ApprovalStore.Raise | src/auth.rs:229-244 | with a phone connected a raise drops exactly the evictable entries and adds a pending one; without, it changes nothing |
| Guard.EveryStoryIsLegal | src/guard.rs:64-109 | with arbitrary clocks: raised, answered at most once by its account under 120 seconds, a yes by an approving word and a no by a denying one, allowed at most once and only after a yes |
| Guard.AllowsExactlyAfterYes | src/auth.rs:200-215 | a poll passes exactly when the entry's story is raise, yes, for that account, whatever the clock says |
| Guard.PollTellsTheStory | src/auth.rs:192-222 | what a poll comes to, as the entry's story so far has it: through, refused, pending while under 120 seconds without an answer, else on to a new request |
| Guard.AnswersAreFinal | src/guard.rs:85-95 | no later event changes an answer; a denied entry's story is over |
| Guard.LogOnlyGrows | src/auth.rs:178-259 | later events only add to what happened |
| Guard.RaiseEvicts | src/guard.rs:107-109 | after a raise nothing is 240 seconds old or more, and nothing younger was lost |
| Throttle.LoginThrottle.LoginLocked | src/models.rs:21-29 | locked exactly from five failures on while the lockout lasts, with the seconds left |
| Throttle.LoginThrottle.RecordFailure | src/models.rs:30-38 | counts, and from the fifth failure on restarts the lockout |
| Throttle.LoginThrottle.ClearFailures | src/models.rs:39-43 | forgets the key and nothing else |
| Throttle.LoginThrottle.AuthVerify | src/auth.rs:272-343 | exactly a wrong proof and a failed or denied second factor count; waiting for the phone does not; only a complete sign-in clears |
| Throttle.StepKeepsTrail | src/models.rs:21-43 | until a failure's lockout has passed only sign-ins already past the check can add failures |
| Throttle.LockedExactlyAfterFailures | src/models.rs:21-38 | over any run a key is locked exactly for 300 seconds after each failure from the fifth on, with the seconds left |
| Throttle.FailuresAreFarApart | src/models.rs:16-43 | with at most `most` sign-ins of a key overlapping, failure 5 + most * k is at least 300 * k seconds after the fifth |
| Throttle.SequentialFailuresAreFarApart | src/models.rs:16-43 | one at a time: failure 5 + k is at least 300 * k seconds after the fifth |
| Throttle.WindowHoldsFew | src/models.rs:16-43 | a window of T seconds holds at most 4 + most * (1 + T / 300) failures |
| Blocks.RefusedExactlyWhenBlocked | src/blocks.rs:45-65 | every interaction is refused to both sides exactly when one blocked the other |
| Friendship.SocialGraph.SweepExpiredRequests | src/social_api.rs:531-539 | exactly the pending requests past their expiry go |
| Friendship.SocialGraph.AwardXp | src/social_api.rs:1593-1605 | adds a positive amount to one account |
| Friendship.SocialGraph.Request | src/social_api.rs:988-1134 | which of the ten replies a request gets, and what it changes |
| Friendship.SocialGraph.Respond | src/social_api.rs:1143-1223 | only the side asked can accept or ignore; the other answers drop the row |
| Friendship.SocialGraph.Block | src/social_api.rs:1232-1304 | a block cuts the row and is directional; an unblock only lifts it |
| Friendship.StepKeepsInv | src/social_api.rs:988-1304 | every handler call keeps rows, blocks, the cap and the points in line with what happened |
| Friendship.RowsAreSound | src/social_api.rs:988-1304 | rows are keyed low to high with the asker one of the two, blocked pairs have none, nobody has more than fifty requests out |
| FriendshipRules.RunIsCanonical | src/social_api.rs:762-768 | over any run a pair's row stands under the lower id first |
| Friendship.FriendsBothActed | src/social_api.rs:1048-1223 | friends exactly when, since the last removal, one asked and then the other agreed |
| Friendship.XpCountsAgreements | src/social_api.rs:1593-1605 | ten points to each side of every acceptance and none besides; twenty in all |
| Friendship.UnblockRestoresNothing | src/social_api.rs:1232-1304 | after block and unblock the pair has no row and starts afresh |
| FriendshipRules.RequestReplies | src/social_api.rs:988-1094 | which reply a request gets, from blocks, ignores, the pair's row, the policy, common friends and the fifty open requests alone |
| FriendshipRules.RequestRules | src/social_api.rs:1030-1113 | a mutual request accepts with ten points each, a new one is a row of its asker for thirty days, and no other row is touched but requests past their time |
| FriendshipRules.RespondRules | src/social_api.rs:1156-1220 | accepting befriends exactly if the other side asked; decline, cancel and remove leave no row; ignoring drops the other side's request and is remembered one way |
| FriendshipRules.BlockAndIgnoreRules | src/social_api.rs:1247-1304 | a block or an ignore is one-way, a block leaves no row, and lifting either brings nothing back |
| FriendshipRules.SweepRules | src/social_api.rs:531-539 | over any run a sweep drops exactly the requests past their time |
| Rings.Rings.Start | src/calls.rs:46-50 | a repeat invite keeps the first start |
| Rings.Rings.Answered | src/calls.rs:54-56 | removes that direction and says whether it rang |
| Rings.Rings.Ended | src/calls.rs:61-63 | removes that direction and returns its ring |
| Rings.Rings.EndEitherWay | src/calls.rs:67-72 | removes one direction only, the named one first |
| Rings.Rings.DropFor | src/calls.rs:77-87 | takes out and lists, each once, all rings of an account |
| Rings.Rings.TakeExpired | src/calls.rs:103-113 | takes out exactly the rings at the timeout; none that old is left |
| Rings.Rings.IncomingFor | src/calls.rs:92-98 | lists, each once, what rings an account, leaving it live |
| Hub.SocialHub.Register | src/social_api.rs:610-620 | a fresh connection id, appended to the account's sockets |
| Hub.SocialHub.Unregister | src/social_api.rs:651-661 | removes that socket only, keeps the others in order, and says exactly when it was the last |
| Hub.SocialHub.DevicesFor | src/social_api.rs:626-633 | the collapsed list of the account's live sockets' devices |
| Hub.SocialHub.SendToDevice | src/social_api.rs:638-649 | the frame joins the queue of the latest socket of that device, every other queue stays, and without such a socket all do |
| Hub.SocialHub.DeliverLocal | src/social_api.rs:671-678 | one frame to each live socket of the account, none to others |
| Hub.SocialHub.IsOnline | src/social_api.rs:663-665 | online exactly with a live socket |
| Hub.SocialHub.VoiceAllowed | src/social_api.rs:703-705 | the gate does not depend on the order of the two |
| Hub.SocialHub.DropVoiceFor | src/social_api.rs:729-734 | closes exactly the pairs of that account |
| Hub.RouterAgreesWithPicker | src/social_api.rs:626-649 | each row of the picker is the device of the very socket a command goes to, and every live device has a row |
| Devices.CollapseDevices | src/devices.rs:114-131 | unique ids, sorted desktop first, then name, then id; each id by its latest socket |
| Devices.SortDevices | src/devices.rs:123-131 | a sorted arrangement of the same rows |
| Devices.CheckInstallTarget | src/devices.rs:168-186 | accepts only a listed device whose kind names a desktop system, and gives each reason exactly when it applies |
| Devices.IdsAreTakenAsTheyAre | src/devices.rs:40-54 | an id is taken as it stands or not at all: 1 to 64 letters, digits, dashes, underscores and dots |
| Devices.DesktopsComeFirst | src/devices.rs:123-131 | desktops stand before all else, then lower-cased name, then id |
| Devices.MergeDeviceRegistry | src/devices.rs:209-220 | the collapse of what fresh entries list |
| Devices.FanoutDevices | src/fanout.rs:209-233 | the collapse of fresh peers and then the local sockets |
| Devices.CollapseIsUnique | src/devices.rs:114-131 | the list is determined by the sockets' devices |
| Devices.CollapseIsIdempotent | src/devices.rs:114-131 | collapsing twice is collapsing once |
| Devices.LastIsLatest | src/devices.rs:114-122 | exactly the ids present are covered, each by its last registration |
| Devices.LocalRowWins | src/fanout.rs:221-232 | a local device shows its local row whatever peers published, if its reading is fresh |
| Devices.LocalRowShownExactlyWhen | src/fanout.rs:228-232 | a local device shows its local row exactly when the local list was read freshly or a fresh peer's latest word on it is the same row |
| Devices.LocalRowCanBeLost | src/fanout.rs:228-232 | a clock that jumps between its two readings hides a connected device |
| Devices.FreshDevicesAreShown | src/devices.rs:209-220 | every device a fresh entry lists is offered, by its id |
| Devices.OnlyFreshDevicesShown | src/devices.rs:209-220 | nothing is offered that no fresh entry lists |
| CallLedger.StepKeepsBalance | src/social_api.rs:2529-2592 | each act of any handler, and each cancellation, keeps both balances |
| CallLedger.LedgerBalances | src/social_api.rs:2552-2592 | at every moment, for every caller, callee and kind: rings started = live + answered + missed + closed by a block, and records written + owed + lost = missed + unreachable |
| CallLedger.QuietRecordsExactlyWhenNoneLost | src/social_api.rs:2845-2872 | with no handler under way there are never more records than missed rings and unreachable invites, and as many exactly if none of that call was lost |
| CallLedger.LostExactlyWhenCancelled | src/social_api.rs:2344-2347 | a record is lost exactly when some handler was cancelled while it still had to write it |
| LostCall.ACancelledHangUpLosesItsRecord | src/social_api.rs:2344-2358 | a run that ends with everybody done, one missed ring and no record |
| CallLedger.SweepLeavesFreshRings | src/social_api.rs:2819-2832 | after a sweep no ring is a minute old, repeated invites or not |
| VoiceGate.GateFollowsItsLastCause | src/social_api.rs:697-735 | a pair is open exactly when the last thing that touched it was an opening: an invite, an accept or the replay of a live ring, not an end, an expiry, a block or a last socket; that last one is traced to its cause |
| VoiceGate.EveryOpeningIsTraced | src/social_api.rs:2529-2582 | every opening goes back to the very invite or accept whose handler made it, or to the replay of a ring then live and started by the caller's own invite; the two were friends and neither blocked the other when it passed |
| VoiceGate.LiveRingIsTraced | src/social_api.rs:2265-2275 | a ring is live exactly when its start is unfinished in the log, and that goes back to the caller's own invite |
| VoiceGate.StepKeepsInv | src/social_api.rs:2265-2832 | each act keeps gate, friendship, blocks and rings in line with the log |
| VoiceTickets.NoCauseOpensTwice | src/social_api.rs:2529-2582 | no two openings have the same cause, so a gate closed by a block opens again only for another admission or replay |
| VoiceTickets.StepKeepsOnce | src/social_api.rs:2265-2592 | each act passes its cause on or spends it, and only admissions and replays bring new ones |
| CallSteps.HandlersNeverStall | src/social_api.rs:2265-2832 | at any moment the next act of any handler under way can happen |
| CallOutcomes.PassesExactlyWhenMayCall | src/social_api.rs:2529-2532 | a frame passes exactly if it is addressed, the two are friends and neither blocks the other; else it changes and starts nothing |
| CallOutcomes.InviteRingsOrIsRecorded | src/social_api.rs:2552-2577 | a finished invite has opened the gate and rung the callee exactly if a push woke its phone or it had a socket at the second look; else nobody is home and the record is written |
| CallOutcomes.AcceptAnswers | src/social_api.rs:2578-2583 | a finished accept has opened the gate and answered the caller's ring to the one who accepts, and that ring alone |
| CallOutcomes.EndClosesAndRecords | src/social_api.rs:2584-2591 | a finished end has closed the gate and taken out a ring of the two in either direction as missed, with its record |
| GateOutcomes.BlockEndsCalls | src/social_api.rs:1247-1287 | a finished block has cut the friendship, blocked, closed the gate for that and taken a ring of the two out |
| GateOutcomes.BlockedPairIsCutOff | src/social_api.rs:1268-1287 | after it the pair is out of the gate until a later opening; a ring of the two is left exactly if both were ringing, and the one that went is back only after a new start |
| BlockCutShort.ClosesExactlyUnlessHungUp | src/social_api.rs:1259-1273 | a block whose insert was made closes the gate exactly if its client did not hang up before the closing |
| RingingBothWays.ABlockedPairIsConnected | src/calls.rs:67-72 | a run in which both ring, one blocks the other, and a reconnect opens the gate between them |
| GateOutcomes.SweepTakesOldRings | src/social_api.rs:2819-2832 | a sweep takes out exactly the rings a minute old or older |
| GateOutcomes.SweepEndsOldRings | src/social_api.rs:2819-2832 | and once done each of them was noted as timed out and missed, its gate closed for that and its record written |
| GateOutcomes.LastSocketEndsCalls | src/social_api.rs:2349-2358 | once the handler of a last socket is done every pair of the account was put out of the gate, and every ring to or from it taken out as missed and recorded |
| GateOutcomes.OtherSocketsKeepCalls | src/social_api.rs:2349-2352 | while another socket is left nothing ends |
| GateOutcomes.ConnectReplays | src/social_api.rs:2265-2275 | every ring that reaches for the account as its new socket looks is replayed, opens the gate and stays live |
| Fanout.FanoutNode.Publish | src/fanout.rs:166-178 | appends to the queue exactly when fan-out is on |
| Fanout.FanoutNode.Push | src/social_api.rs:682-685 | local sockets now, one envelope for the peers |
| Fanout.FanoutNode.SendOrRelay | src/social_api.rs:2648-2651 | the local socket if there is one, else the bus, and says which |
| Fanout.FanoutNode.DrainOne | src/fanout.rs:89-96 | the queue leaves in order |
| Fanout.FanoutNode.OnMessage | src/fanout.rs:111-128 | own envelopes are skipped; others join the queues of each socket of the account, or of the latest of the named device alone |
| Fanout.PickerRows | src/social_api.rs:2433-2442 | every row offered has a live socket here or a fresh peer that published it, and every such device has a row |
| Fanout.RemoteInstall | src/social_api.rs:2626-2680 | with a list made before, sockets having come and gone since: an accepted install goes to the latest socket the device has now, else to the bus, and fails exactly without either; a refused one changes nothing |
| Fanout.RemoteInstallUndisturbed | src/social_api.rs:2626-2651 | with nothing in between every accepted install has a socket here or a fresh peer that published the device |
| FanoutOrder.StepKeepsInv | src/fanout.rs:89-135 | every step keeps each socket's frames, its instance's unread messages and each origin's queue one ordered line of what was queued |
| FanoutOrder.FrameIsGenuine | src/fanout.rs:111-128 | a frame a socket has was pushed where it says, for that account, and stands so in its origin's queue |
| FanoutOrder.AtMostOnceAndInOrder | src/fanout.rs:89-135 | no socket gets one push twice, in any interleaving, and it sees one origin's frames in queue order |
| FanoutDelivery.ExactlyOnce | src/fanout.rs:89-178 | while socket and subscriber stay and publishes succeed, what the socket has and has coming grows by exactly what the origin queues for it |
| FanoutDelivery.AllArrive | src/fanout.rs:89-178 | and once all has travelled it has exactly those frames |
| FanoutDelivery.AllCanArrive | src/fanout.rs:89-135 | and from any world publishing and reading on alone bring it there |
| FanoutDelivery.EachPushArrivesOnce | src/fanout.rs:89-178 | push by push: a broadcast made since the socket began listening, once queued and with nothing left on the way, stands exactly once in its frames |
| FanoutDelivery.NothingForgotten | src/social_api.rs:682-685 | a broadcast is either still owed to the queue or was queued |
| FanoutCommands.CommandGoesHereOrOut | src/social_api.rs:2648-2651 | over any run a command pushed here joins the queue of its device's latest socket here and no other, or is owed to the bus exactly if there is none |
| FanoutCommands.CommandArrivesOnce | src/fanout.rs:111-128 | a relayed command, once read by an instance with a socket of its device, stands exactly once in the frames of the latest of them from then on |
| FanoutCommands.OwedIsQueuedOrOwed | src/fanout.rs:156-178 | what is owed to the bus stays owed until it is queued |
| Manifest.CutsAreUtf8 | src/manifest.rs:434-456 | cutting UTF-8 text (RFC 3629, section 3) at a boundary leaves UTF-8 on both sides |
| Manifest.NextBoundary | src/manifest.rs:434-456 | the next boundary is at most four bytes on |
| Manifest.ScalarsAreCharacters | src/manifest.rs:434-456 | the encoding of every Unicode scalar value is one character (RFC 3629, section 3) |
| Manifest.CharactersAreScalars | src/manifest.rs:434-456 | and every character is the encoding of one |
| Manifest.SplitSegments | src/manifest.rs:434-456 | terminates, and splits into non-empty UTF-8 pieces, each as long as fits |
| Manifest.SplitConcatenates | src/manifest.rs:434-456 | the pieces make up the text |
| Manifest.PieceSizes | src/manifest.rs:434-456 | for max of four or more: at most max bytes, and all but the last at least max - 3 |
| Manifest.PieceCount | src/manifest.rs:434-456 | so the number of rows is bounded by the text's size |
| Manifest.ManifestStore.Load | src/manifest.rs:405-430 | the stored text of that very version, or nothing |
| Manifest.ManifestStore.Store | src/manifest.rs:458-487 | afterwards a load gives it back for that version, nothing for another, and other games are untouched |
| Manifest.StoredLoads | src/manifest.rs:405-487 | load after store is the identity |
| Chunks.HashFile | src/manifest.rs:363-398 | one entry per started megabyte, each with its place, size and the hash of its bytes, and the hash of the whole |
| Chunks.TableTiles | src/manifest.rs:372-397 | chunks are contiguous from zero, full but the last, and sum to the size |
| Chunks.ServesWhatWasHashed | src/files.rs:75-94 | index k is served exactly if the table has it, with exactly the bytes hashed for it; saturated indexes fail |
| Chunks.FetchingRebuildsTheFile | src/files.rs:75-94 | all chunks in order are the file |
| Chunks.AcceptedRangeFits | src/files.rs:136-154 | an accepted range lies within the file |
| Chunks.RangeFromTo | src/files.rs:136-154 | "a-b" is the bytes a to b as far as the file goes, refused exactly if it does not reach a or b is before a; of several ranges the first counts |
| Chunks.RangeFrom | src/files.rs:136-154 | "a-" is the bytes from a on |
| Chunks.RangeOfLast | src/files.rs:140-146 | "-n" is the last n bytes, or all of a shorter file; none are refused |
| Chunks.RangeHeaderIsOptional | src/files.rs:136-139 | without a header there is no range; one that is not in bytes is refused |
| Chunks.LengthIsWhatIsSent | src/files.rs:40-73 | the reply is of the range asked for; the announced length is the number of bytes sent, and they are the announced part, empty files included |
| Catalog.CatalogTable.Sync | src/scan.rs:428-490 | rows are the old ones with the scan laid over them in order, less the ids not scanned; announced are the new games in scan order |
| Catalog.ExactlyTheScanned | src/scan.rs:478-490 | the catalog then holds exactly the scanned ids |
| Catalog.AnnouncesExactlyTheNew | src/scan.rs:431-442 | announced are exactly the scanned games not there before, none on a first import |
| Catalog.AnnouncesInScanOrder | src/scan.rs:431-442 | and they are in scan order, each as often as it was scanned |
| Catalog.EnrichedIsABand | src/scan.rs:443-459 | keeping against blanks is associative and idempotent |
| Catalog.SyncedRow | src/scan.rs:443-476 | a row after a sync, read off the old row and the games scanned under its id, duplicates included |
| Catalog.BlankNeverErases | src/scan.rs:452-459 | a kept column is the latest scanned value that is not blank, else what it was |
| Catalog.ScannedValueWins | src/scan.rs:452-459 | a value the scan knows is the column's value afterwards, unless a later entry of the same id knows another |
| Catalog.AllSevenKeep | src/scan.rs:452-459 | the seven columns this holds for |
| Catalog.ExtrasSurvive | src/scan.rs:443-459 | columns the sync does not name survive it |
| Catalog.SecondSyncOnlyRestamps | src/scan.rs:428-490 | syncing the same scan again changes time stamps only and announces nothing |
| ScanProgress.ScanBoard.SpawnRescan | src/scan_jobs.rs:58-76 | test and set: refused exactly while running |
| ScanProgress.ScanBoard.BeginHashing | src/manifest.rs:574-588 | totals overall and by platform, all else reset |
| ScanProgress.ScanBoard.CountGame | src/manifest.rs:618-625 | counts one game overall and on its platform |
| ScanProgress.ScanBoard.EndHash | src/manifest.rs:615 | takes one off `active`, stopping at zero |
| ScanProgress.StepKeepsInv | src/manifest.rs:574-639 | every step of tasks, games and requests keeps status and manifests exact |
| ScanProgress.AtMostOneRescan | src/scan_jobs.rs:58-93 | one rescan at a time; spawning is refused exactly while there is one |
| ScanProgress.ProgressIsExact | src/manifest.rs:574-627 | `active` is the number between start and end of hashing, within the cap; `processed` the number finished, summing over platforms, never above the total |
| ScanProgress.EndOfHashingTakesOne | src/manifest.rs:615 | the saturating subtraction never clips |
| ScanProgress.EndsComplete | src/scan_jobs.rs:77-93 | afterwards everything is counted on every platform and nothing shows as being hashed |
| ScanProgress.LeftoverExactlyWhenRequested | src/manifest.rs:628-637 | a manifest of an absent game can be left after the prune exactly if a request for it is in flight as the prune looks |
| ScanProgress.NothingLeftWithoutRequests | src/manifest.rs:628-637 | with no such request none is left, whatever happens until the next walk |
| ScanProgress.AStrayCanRemain | src/manifest.rs:200-214 | a run where that happens |
| ScanOutcomes.EveryGameIsCovered | src/manifest.rs:594-616 | every game that is through had a manifest of its version stored at some moment since hashing began, or its own hashing failed |
| ScanOutcomes.HashedExactlyIfMissing | src/manifest.rs:598-602 | it was looked for once, and hashed exactly if the manifest of its version was missing then |
| ScanOutcomes.GamesAreTakenInOrder | src/manifest.rs:592-594 | over any run games are taken up in the order they were found |
| ScanOutcomes.HashingNeverStalls | src/manifest.rs:591-627 | with room for one game, some game can be moved on until all are finished |
| ScanOutcomes.LeavesExactlyTheScanned | src/manifest.rs:574-639 | with distinct ids, no request meanwhile and no failure, a rescan leaves a manifest of the scanned version for every game of the catalog and no other |
| Base32.Encode | src/crypto.rs:179-198 | section 6 of RFC 4648 without padding: ceil(8n/5) symbols spelling the bytes' bits |
| Base32.Decode | src/crypto.rs:200-218 | errors exactly on a character outside the alphabet; else the whole bytes spelled |
| Base32.DecodeForRequests | src/requests_app.rs:443-461 | the same answer for the second decoder |
| Base32.DigitAsByte | src/crypto.rs:205-209 | the digit in byte arithmetic |
| Base32.DigitAsWord | src/requests_app.rs:448-452 | the digit in 32-bit arithmetic |
| Base32.PushBits | src/crypto.rs:182-186 | shifting new bits in keeps the owed bits although the word drops high ones |
| Base32.BytesDetermined | src/crypto.rs:179-198 | the bits determine the bytes |
| Base32.DecodersAgree | src/requests_app.rs:443-461 | the two decoders agree on every input |
| Base32.RoundTrip | src/crypto.rs:179-218 | decoding an encoding gives the bytes back and nothing else |
| Base32.DecodeBack | src/crypto.rs:179-218 | encode then either decoder is the identity |
| Keystream.HmacCtrXor | src/auth.rs:130-148 | the pointwise form: data[i] xor byte i mod 32 of block i / 32 mod 2^32 |
| Keystream.BigEndianReadsBack | src/auth.rs:137-143 | the block number is hashed as four bytes, the high one first |
| Keystream.XoredTwice | src/auth.rs:129-148 | applying it twice gives the data back |
| Keystream.BlocksShareNoMessage | src/auth.rs:137-143 | within 2^37 bytes no hash message serves two blocks |
| Calendar.EraIsFloor | src/admin_extra.rs:269-270 | the truncating division rounds down for negative day numbers too |
| Calendar.YearOfEraIsRight | src/admin_extra.rs:271-272 | the year of the era for every day of it |
| Calendar.CivilIsValidAndInvertible | src/admin_extra.rs:265-278 | every day number gives a valid Gregorian date that counts back to it |
| Calendar.EarlierDateFewerDays | src/admin_extra.rs:265-278 | earlier dates count fewer days |
| Calendar.CivilInvertsDays | src/admin_extra.rs:265-278 | every date is produced, by its own day number only |
| Calendar.LaterDaysLaterDates | src/admin_extra.rs:265-278 | later days are exactly later dates |
| Calendar.CivilFollowsTheCalendar | src/admin_extra.rs:265-278 | the next day number is the next date of the calendar |
| Calendar.EpochIsDayZero | src/admin_extra.rs:265-278 | counting starts on 1 January 1970 |
| Calendar.StampNamesItsMinute | src/admin_extra.rs:265-283 | the stamp names the minute the second falls in, before the epoch too |
| Calendar.NoOverflow | src/admin_extra.rs:265-278 | on 64-bit inputs no intermediate overflows |
| Saves.SaveStore.Prune | src/db.rs:499-509 | drops all but the newest ten versions of one file |
| Saves.SaveStore.PutGameSave | src/db.rs:479-521 | archives what the file held, prunes, and overwrites or adds the row |
| Saves.SaveStore.ApiPut | src/handlers.rs:618-656 | accepts exactly a valid path with 1 byte to 50 MB over the time stamp the client saw; a refusal changes nothing |
| Saves.StoredMatchesItsBase | src/handlers.rs:631-648 | over any run a write with a base is stored exactly if the base is the live row's stamp, 0 without a row |
| Saves.AcceptedPathsStayInside | src/handlers.rs:552-559 | accepted are exactly the relative paths of at most 400 bytes without backslash or NUL, none of whose segments is empty, "." or ".." |
| Saves.SharesRowExactlyWhen | src/db_setup.rs:211-220 | two files share a row exactly if account, game and the first 191 characters of their paths agree |
| Saves.SaveStore.ApiRestore | src/handlers.rs:914-930 | writes exactly an archived version of that account and game |
| Saves.PruneKeepsNewest | src/db.rs:499-509 | what is left of the file is its newest versions |
| Saves.PruneSparesOthers | src/db.rs:499-509 | other files' versions are untouched |
| Saves.RunKeepsSlot | src/db_setup.rs:211-220 | after any run a row has the path of the first write to its key and the content of the last |
| Saves.ReadsBackExactlyWhenOwnSlot | src/db.rs:479-521 | a write is read back exactly when its key was free or the file's own |
| Saves.OthersUntouchedExactlyWhenApart | src/db.rs:479-521 | another file is left alone exactly when it holds nothing under the same key, or the same content |
| Saves.DistinctValidPathsCollide | src/handlers.rs:552-559 | two valid paths with one key |
| Saves.ASaveIsReplaced | src/handlers.rs:618-656 | a run of two accepted puts after which the second file does not read back, the first holds its bytes, and the first's own are in no archive |
| Saves.RunKeepsHistory | src/db.rs:479-562 | alone under its key, a file's live row is the last content and its archive, newest first, the up to ten most recently overwritten |
| Saves.HistoryHoldsExactlyWhenOneFile | src/db.rs:479-562 | that history holds for all files of a key exactly when no two of them were written |
| Saves.RestoreSwapsIn | src/handlers.rs:914-930 | restoring a listed version makes it live and puts what was live at the archive's head |

## Left out

- HTTP routing, WebSocket framing, SQL text, Redis, SMTP, FCM, IGDB, Discord and S3: foreign I/O; only the state change of each handler is kept.
- JSON: parsing after printing is taken as the identity; a segment store holds the printed text.
- Cryptography: HMAC, SHA, Argon2 and scrypt are parameters; the TOTP check is one fact among those a sign-in finds out.
- Floating-point scoring (title similarity, ranking, levels): the results depend on rounding.
- Collation: column comparisons are equality on collation keys, for paths, ids and blank tests.
- Statement-level races inside handlers without a transaction (the two reads of a manifest load, count-then-insert limits, the base check of a save, the friendship and block checks at the call gate), and a request cut off between two statements outside the call handlers: those handlers, or that gate, are one step. The point totals of `Friendship` and the histories of `Saves` presuppose handlers that run to their end.
- Which socket a cancelled frame handler belonged to: any waiting frame handler may be cancelled at any time, its disconnect being another event.
- A frame sent to a socket whose receiver has just gone: sending to a registered socket always queues the frame.
- Wrap-around of connection ids, version ids and failure counts: they are unbounded.
- Field lengths and the strictness mode of the database; a game id too long for its column is not refused here.
- The padded text of `fmt_epoch`: a stamp is its numbers.
- A panic inside a rescan, which would leave `running` set; and errors of the catalog sync or the prune.
- The title matching of `normalize_title` and `match_key`, device naming (`sanitize_device_name`, `parse_device`) and the form validators: nothing modelled here depends on what they compute.
- The social test harness, the admin pages, mail bodies and the storefront.
- Devices.SortDevices: the library's sort is stood in for by an insertion sort with the same contract.
- Manifest.ManifestStore.Store: the model of one transaction; a crash in its middle is not modelled.
- Fanout.FanoutNode.Publish: the envelope is a value, not its JSON text.

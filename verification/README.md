# Seatkey, modelled and proved

Seatkey issues license keys, lets each license be activated on a limited number of devices, and
signs time-limited tokens that clients keep and check without the server. This project models the
licensing core in Dafny and proves what it keeps over whole runs.

The model has these layers.

- **Tables** (`licenses.dfy`, `devices.dfy`, `settings.dfy`). Classes over rows, with scanning loops,
  an insert-or-revive, a conditional release and a counting scan. Each method is proved equal to a
  function on a map from (license, device) to row, or from key to license.
- **Service** (`service.dfy`). The activation, validation and release methods, statement by statement
  over the tables, proved equal to the request functions `DoActivate`, `DoValidate` and `DoDeactivate`
  of `licensing.dfy`.
- **Atomic runs** (`licensing.dfy`). One request is one step and reads one clock. The seat limit, the
  event ledger, the history of every row, first-come allocation, token deadlines, the window of live
  tokens, cut-off after revocation and independence of licenses are theorems about all runs
  (`seat_theorems.dfy`, `device_history.dfy`, `allocation.dfy`, `token_theorems.dfy`, `window.dfy`,
  `independence.dfy`).
- **Interleaved runs** (`interleaving.dfy`). One SQL statement is one step, and a request in flight is a
  program counter plus what it has read. Run alone, a request does what the atomic step does. The
  seat limit becomes an exact bound in the number of activations in flight (`concurrency.dfy`), every
  value of which some run attains (`saturation.dfy`). The ledger is off by exactly the redundant
  inserts (`interleaved_ledger.dfy`). The window of live tokens and the cut-offs after a revocation and
  after a release hold in their interleaved forms (`interleaved_tokens.dfy`), the window's bound is
  attained (`interleaved_windows.dfy`), licenses stay independent (`interleaved_independence.dfy`), and
  it is exact which stamps of the rows stay in order (`interleaved_rows.dfy`).
- **Clients and restarts** (`client.dfy`, `world.dfy`, `end_to_end.dfy`, `tampering.dfy`, `fleet.dfy`). The
  client's two files and its commands, with replies that may get lost, server restarts and settings
  writes in any order, theorems about who can still run and why, and how many of many clients can.
- **Around the core**. The license-key generator (`keygen.dfy`), base64 (`base64.dfy`, section 4 of
  RFC 4648), envelopes and keys (`crypto.dfy`), the dashboard's licensing pages (`dashboard.dfy`), its
  admin account and sessions (`sessions.dfy`), and the release-notes script (`release_notes.dfy`).

Assumptions, all visible in the contracts:

- Time is an integer number of nanoseconds. Theorems about deadlines over a run ask for `Ordered`, a
  clock that never runs backwards.
- Ed25519 (section 5.1 of RFC 8032), the JSON form of a token and bcrypt are functions. What is used of
  the first two is the predicate `Crypto.Sound`; `Tampering.TamperingGainsNothing` also assumes
  `NoForgery`: an envelope that somebody puts into the cache or brings as a file in that run, if it
  verifies under the server's key, has the payload of a token the server granted in that run.
  `Tampering.CopyOutlivesRelease` and `Tampering.SomePrimitives` show that these can hold together.
- Random bytes, row identifiers drawn by the caller and session tokens are arguments. A drawn
  identifier or token that is already in use takes the branch of the failing insert.

## Model

| member | source | states |
|---|---|---|
| `Licensing.ServeKeepsInv` | internal/store/schema.go:27-50 | every request keeps the tables well formed: unique keys, ids and (license, device) pairs, and no device row without a license |
| `Licensing.ServeKeepsTerms` | internal/store/licenses.go:134-145 | no request changes a stored license except to revoke it, and a revocation instant never changes |
| `Licensing.ServeHolders` | internal/license/service.go:83-164 | seats move only by a granted activation, which adds its device, and by a successful release, which removes it, each on its own license only |
| `Licensing.ActivateReply` | internal/license/service.go:83-122 | which answer an activation gets, exactly: not found, revoked or expired for a license that is not open, a grant to a device with a seat or if one is left, and the seat-limit refusal exactly if the license is open, the device has no seat and at least the limit of other devices hold one |
| `Licensing.ValidateReply` | internal/license/service.go:127-151 | which answer a validation gets: a grant exactly for a seated device of an open license; a refusal changes nothing |
| `Licensing.DeactivateReply` | internal/license/service.go:153-164 | a release is done exactly for a device that holds a seat, whatever the license's status, and else not found and without effect |
| `Licensing.RevokeReply` | internal/store/licenses.go:134-145 | a revocation is done exactly for the id of a license not yet revoked, and that license alone gets the instant |
| `Licensing.CreateReply` | internal/store/licenses.go:45-73 | a license is stored field by field as asked for, without seats, or the conflict is named, the key's before the id's, and nothing changes |
| `Models.Periods` | internal/license/token.go:28-31 | the grace period is seven days and the offline horizon a hundred years of 365 days |
| `Licensing.GrantedToken` | internal/license/service.go:166-189 | a token is granted only for an active license to a device that then holds a seat, and each of its fields says what holds of the server at that moment |
| `Licensing.ServeStatement` | internal/license/service.go:94-114 | the devices table after a request is the one its reply implies: a grant touches a holder and inserts or revives any other device, a successful release frees its device, and every other reply leaves the table alone |
| `Licensing.AfterKeepsInv` | internal/store/schema.go:27-50 | the invariant holds throughout every run |
| `Licensing.AfterKeepsTerms` | internal/store/licenses.go:134-145 | between any two points of a run a license keeps its terms, and its revocation once it has one |
| `SeatTheorems.SeatLimit` | internal/license/service.go:94-107 | in every run of atomic requests no license ever has more active seats than its limit |
| `SeatTheorems.Ledger` | internal/license/service.go:104-107 | in every run activation events minus release events of a license equal its active seats, and the events of each device alternate, starting with an activation, and end with one exactly when it holds a seat |
| `SeatTheorems.OneEventPerMove` | internal/license/service.go:191-200 | a request appends one event exactly when it moves a seat, naming the device whose seat moved |
| `SeatTheorems.RowsPersist` | internal/store/devices.go:32-38 | device rows are never deleted and keep their id through any number of releases and revivals |
| `SeatTheorems.StampsInOrder` | internal/store/devices.go:39-80 | on an ordered clock activated_at <= last_seen_at, both <= deactivated_at when there is one, and nothing lies in the future |
| `InterleavedRows.InterleavedStamps` | internal/store/devices.go:39-80 | in interleaved runs activated_at still comes before last_seen_at and deactivated_at, and no stamp lies after the latest move |
| `InterleavedRows.OrderedUnlessLate` | internal/license/service.go:138-144 | there last_seen_at <= deactivated_at holds throughout a run exactly if no request touches a row that was freed after it found the device in its seat |
| `InterleavedRows.TouchAfterRelease` | internal/license/service.go:138-144 | such late touches occur: whenever a request about to touch a row meets another about to free it, the second going first |
| `InterleavedRows.StatementStampsNow` | internal/store/devices.go:39-80 | every writing statement and every event carries the clock reading of its own moment |
| `InterleavedRows.InterleavedRowsPersist` | internal/store/devices.go:32-38 | rows persist with their ids in interleaved runs too |
| `SeatTheorems.EverActivatedIsListed` | internal/store/devices.go:82-103 | the rows of a license are exactly the devices ever successfully activated on it |
| `DeviceHistory.RowsTellTheirHistory` | internal/store/devices.go:32-80 | after any run from an empty server every device row is, field by field, what a small automaton per device computes from the replies alone, and exists exactly when that automaton has started |
| `DeviceHistory.RepliesTellHolders` | internal/license/service.go:83-164 | the replies alone tell who holds a seat: the devices granted one and not released since |
| `Allocation.FirstComeFirstServed` | internal/license/service.go:94-107 | while a license stays active and nobody releases, the seats are held by exactly the first maxDevices distinct devices that asked |
| `Allocation.NeverWasteful` | internal/license/service.go:94-107 | then the number of seats is the smaller of the limit and the number of distinct devices asking |
| `Allocation.StatusOnlyAdvances` | internal/store/models.go:27-37 | along a run and a clock that do not go back, status only moves up active, expired, revoked |
| `Allocation.NoGrantAfterInactive` | internal/license/service.go:89-92 | after a license was once seen expired or revoked no activation or validation of it succeeds |
| `Allocation.RevokedOnce` | internal/store/licenses.go:134-145 | a revocation succeeds once, records that instant for good, and any repetition is answered not found |
| `TokenTheorems.IssuedToHolder` | internal/license/service.go:116-121 | a token issued in a run names the license, device and mode of the request it answers, tells the truth, and has 1 <= seatsUsed <= seatsMax |
| `TokenTheorems.Deadlines` | internal/license/service.go:166-173 | issuedAt <= validUntil <= the license's expiry, and at most the horizon of its kind after issue |
| `TokenTheorems.DeadlinesAdvance` | internal/license/service.go:166-173 | tokens of one license issued later never have an earlier deadline, unless an online one follows an offline one; at one instant the offline one is never the shorter |
| `TokenTheorems.HeldOrReleased` | internal/license/service.go:124-164 | a device once granted a token still holds its seat or that very device was released since |
| `TokenTheorems.GrantedDevices` | internal/license/service.go:83-164 | the devices of any chosen grants number at most the limit plus the releases that follow those grants |
| `TokenTheorems.SlidingWindow` | internal/license/token.go:28-31 | at any T, the devices with an unexpired online token number at most the limit plus the releases of the seven days before T |
| `Window.WindowIsReached` | internal/license/token.go:28-31 | the window's bound is exact: for every limit of at least one and every number of releases some run has exactly limit plus releases devices with a live online token |
| `TokenTheorems.LiveTokensEver` | internal/license/service.go:23-28 | offline tokens included, at most the limit plus all releases ever |
| `TokenTheorems.RevocationCutsOff` | internal/license/service.go:133-136 | after a revocation at t every online token of the license, whenever issued, is over by t + 7 days |
| `TokenTheorems.RevocationReach` | internal/license/service.go:23-28 | exactly which tokens of a revoked license are over within seven days: the online ones, and the offline ones whose license or hundred years end by then anyway |
| `TokenTheorems.ReleaseCutsOff` | internal/license/service.go:138-141 | the same seven days for the online tokens of a released device that is not activated again |
| `TokenTheorems.StaysOut` | internal/license/service.go:138-141 | a device without a seat that does not ask for activation stays without one |
| `Independence.Independent` | internal/license/service.go:83-164 | deleting all requests about other licenses from a run leaves a stored license, its rows up to row ids, its events, and every reply and token for it as they were |
| `Independence.IndependentFromCreation` | internal/store/licenses.go:45-73 | for a license the run creates itself the same holds, from before its creation on, if and only if its id is not in use when it is created |
| `Independence.RivalMatters` | internal/store/licenses.go:62-71 | if it is, the creation is refused, which without the requests about other licenses succeeds |
| `Independence.ForeignStep` | internal/license/service.go:83-164 | a request about another license changes nothing of this one |
| `Interleaving.AloneIsAtomic` | internal/license/service.go:83-164 | seven uninterrupted statements of a request give the state and the reply of the atomic request |
| `Interleaving.ExecKeepsInv` | internal/store/store.go:38-40 | every statement keeps the tables well formed, and what each request in flight has read stays true of its license except for a revocation |
| `Interleaving.ReachKeepsInv` | internal/store/store.go:38-40 | the same throughout every interleaved run |
| `Concurrency.InterleavedSeatBound` | internal/license/service.go:94-107 | with at most C activations of a license in flight, active seats plus requests that passed the check and have not inserted never exceed maxDevices - 1 + C |
| `Concurrency.OneAtATime` | internal/license/service.go:94-107 | with one activation in flight at a time that is the strict limit |
| `InterleavedLedger.LedgerExact` | internal/license/service.go:94-107 | in every interleaved run successful inserts exceed active seats plus successful releases by exactly the number of inserts run for a device that had meanwhile got its seat |
| `InterleavedLedger.LedgerCovers` | internal/license/service.go:104-107 | so they are at least that many, and exactly that many if and only if no insert was redundant |
| `InterleavedLedger.BalancedWithoutTwins` | internal/license/service.go:94-107 | as long as no two activations of one device of a license overlap the ledger balances at every step |
| `InterleavedLedger.OneSeatManyInserts` | internal/store/devices.go:48-57 | overlapping ones unbalance it: from an unused license and for every k some run makes k successful inserts for one seat, k - 1 of them redundant |
| `InterleavedIndependence.InterleavedIndependent` | internal/license/service.go:83-164 | deleting every move that works on other licenses from an interleaved run leaves a license, its rows up to row ids, its events, and the position, locals and replies of every request in flight on it as they were |
| `InterleavedIndependence.InterleavedFromCreation` | internal/store/licenses.go:45-73 | the same from before the creation of a license whose id is free when it is created |
| `Concurrency.LateReadersNeverGrant` | internal/license/service.go:84-92 | a request that reads its license after the revocation never inserts and never signs |
| `InterleavedTokens.InterleavedReach` | internal/license/service.go:84-92 | in interleaved runs exactly which tokens of a license revoked at t are live beyond t + 7 days: those whose license lasts longer and that are offline with a longer horizon, or online, dated later than t, and of a request that stood between its reading of the license and its reading of the clock when the revocation came |
| `InterleavedTokens.InterleavedCutOff` | internal/license/service.go:84-92 | so every other online token of the license is over by t + 7 days |
| `InterleavedTokens.CaughtRunsOn` | internal/license/service.go:127-150 | and from every state with such a request, online and for a seated device, a revocation followed by the request's next statements gives it a token, which is live beyond the seven days exactly if there was a delay and the license lasts |
| `InterleavedTokens.CaughtTokenOutlives` | internal/license/service.go:84-92 | such states occur: from an unused license and for every delay some run grants, after a revocation at time 0, an online token live until seven days after the delay |
| `InterleavedTokens.InterleavedWindow` | internal/license/token.go:28-31 | with at most C activations in flight, the devices with a live online token at T number at most maxDevices - 1 + C plus the seats freed since T - 7 days; offline tokens included, plus all seats ever freed |
| `InterleavedWindows.InterleavedWindowIsReached` | internal/license/token.go:28-31 | the online bound is exact: for every limit of at least one, every C >= 1 and every number of freed seats some run attains it |
| `InterleavedTokens.InterleavedReleaseCutOff` | internal/license/service.go:133-141 | after a device's seat is freed at t, and unless an activation of it is under way later, its online tokens are over by t + 7 days, whatever validations were in flight |
| `InterleavedTokens.SeatBehind` | internal/license/service.go:94-121 | whoever signs or has signed a token has its device in the seat, or the seat was freed at or after the clock reading the token is dated by |
| `Concurrency.StatementHolders` | internal/store/devices.go:39-80 | only the insert gives a seat and only the conditional update takes one |
| `Saturation.BoundIsReached` | internal/license/service.go:94-107 | for every open license with a limit of at least one and every C >= 1 some run with at most C activations in flight ends with exactly maxDevices - 1 + C active seats |
| `Dashboard.ReachableSeatBound` | internal/web/admin.go:106-109 | since the form never makes a limit below one, the bound holds of every license in every state reachable from an empty server |
| `Dashboard.ReachableLedger` | internal/license/service.go:104-107 | in every state reachable from an empty server the surplus of inserts is exactly the redundant ones |
| `Dashboard.ReachableWindow` | internal/license/token.go:28-31 | the interleaved bounds on live tokens hold in every state reachable from an empty server |
| `Dashboard.CreatedByForm` | internal/web/admin.go:106-130 | a license made with the form admits as many devices as typed in, or one if that was no number from one up, carries product and customer, and until revoked is active exactly up to the midnight that ends the chosen day; a conflict makes nothing |
| `Dashboard.FormSeats` | internal/web/admin.go:106-125 | from its creation on, while it is active and nobody releases, the seats held are the smaller of the number typed in and the distinct devices asking |
| `Dashboard.NoProductNoLicense` | internal/web/admin.go:96-104 | without the product the form makes nothing |
| `Dashboard.PageRevokes` | internal/web/admin.go:167-174 | the revoke button revokes the license shown, once |
| `Dashboard.ReadForm` | internal/web/admin.go:106-117 | the number of devices is the one typed if it is at least one, else one; the expiry is a day after the parsed date, or none |
| `Dashboard.PageActsOnItsLicense` | internal/web/admin.go:167-193 | a page changes neither the record nor the seats of any license but the one it shows |
| `Dashboard.PageReleases` | internal/web/admin.go:176-193 | the release button frees exactly that device, and answers whether it held a seat |
| `Dashboard.OfflineFileIsForThisLicense` | internal/web/admin.go:199-238 | a pasted request answered with a token names a device, which then holds a seat of the license shown, and the token is a truthful offline one for it |
| `Dashboard.OfflinePageAnswers` | internal/web/admin.go:199-238 | a pasted request that names a device is answered exactly as an activation of it on the license shown, and its name is recorded; any other is dropped |
| `Service.LicenseService.Activate` | internal/license/service.go:83-122 | the tables end as specified, and the answer, in terms of key, status and seats before: an envelope that verifies under the public key and decodes to a truthful token of the kind asked for, a marshalling failure of just that token after the seat was taken, or the named refusal without effect |
| `Service.LicenseService.Admit` | internal/license/service.go:94-114 | touch a holder; else count, compare, insert or revive and notify |
| `Service.LicenseService.Validate` | internal/license/service.go:127-151 | the same for a validation: a verifying envelope with a truthful online token exactly for a seated device of an open license, else the named refusal without effect |
| `Service.LicenseService.Deactivate` | internal/license/service.go:154-164 | the tables and the event log end as specified, and the answer is done exactly if the device held a seat |
| `Service.LicenseService.Sign` | internal/license/service.go:166-189 | the token signed is the specified one, whose deadlines are the subject of `TokenTheorems.Deadlines` |
| `Service.LicenseService.Notify` | internal/license/service.go:191-200 | appends one event with the license's and the device's identity |
| `Seats.DeviceTable.ActiveDeviceCount` | internal/store/devices.go:9-15 | the counting scan returns the number of distinct devices holding a seat |
| `Seats.DeviceTable.GetActiveDevice` | internal/store/devices.go:17-30 | finds the row exactly when the device holds a seat |
| `Seats.DeviceTable.ActivateDevice` | internal/store/devices.go:39-59 | inserts or revives exactly the row of (license, device) and keeps the unique constraint |
| `Seats.DeviceTable.TouchDevice` | internal/store/devices.go:61-65 | the update by row id is the update of one (license, device) |
| `Seats.DeviceTable.DeactivateDevice` | internal/store/devices.go:67-80 | frees the seat if it is held and says whether it was |
| `Seats.DeviceTable.ListDevices` | internal/store/devices.go:82-103 | every row of the license once, active or not, latest activation first |
| `Seats.TouchIdIsTouch` | internal/store/devices.go:61-65 | row ids are unique, so an update by id touches one (license, device) |
| `Seats.UpsertHolders` | internal/store/devices.go:48-57 | an upsert adds its device to the seats of its license and changes no other license's |
| `Seats.FreeHolders` | internal/store/devices.go:69-72 | a release removes its device from the seats of its license and changes no other license's |
| `LicenseStore.LicenseTable.GetLicenseByKey` | internal/store/licenses.go:97-104 | finds the license under the key, if there is one |
| `LicenseStore.LicenseTable.CreateLicense` | internal/store/licenses.go:45-73 | stores a license under its fresh key, or changes nothing when key or id is taken, and says which |
| `LicenseStore.LicenseTable.RevokeLicense` | internal/store/licenses.go:134-145 | revokes exactly the license with the id if it is not revoked, and says whether it did |
| `KeyGen.GenerateLicenseKey` | internal/store/licenses.go:18-34 | for any groups, group length and buffer of that size the nested loop yields the specified key |
| `KeyGen.KeyIsWellShaped` | internal/store/licenses.go:18-34 | the key is SEAT followed by groups of a dash and groupLen letters of the alphabet |
| `KeyGen.EveryShapeIsGenerated` | internal/store/licenses.go:18-34 | every string of that shape is the key of some buffer |
| `KeyGen.ReadKey` | internal/store/licenses.go:28-31 | reading a key back gives every byte modulo 32 in order |
| `KeyGen.KeysAreUniform` | internal/store/licenses.go:28-31 | each key comes from exactly 8^(groups * groupLen) buffers, so uniform bytes give uniform keys |
| `KeyGen.CrockfordIsAlphabet` | internal/store/licenses.go:14-16 | the alphabet has 32 distinct characters |
| `KeyGen.CrockfordLetters` | internal/store/licenses.go:14-16 | all are digits or capital letters, and none is I, L, O or U |
| `KeyGen.StoreKeyShape` | internal/store/licenses.go:18-34 | the store's keys take sixteen bytes and read SEAT and four groups of four letters, in order |
| `Base64.RoundTrip` | internal/crypto/envelope.go:35-43 | decoding an encoding gives the bytes back, for all byte strings |
| `Base64.DecodingIsLenient` | internal/crypto/envelope.go:43-46 | a text that decodes is the encoding of its bytes exactly when it has no line breaks and the spare bits of its padded last quad are zero |
| `Base64.WhatDecodes` | internal/crypto/envelope.go:43-50 | exactly the texts of whole quads of letters decode, the last ending in at most two equals signs, line breaks aside |
| `Base64.BreaksSkipped` | internal/crypto/envelope.go:43-50 | a line break anywhere changes nothing |
| `Base64.StandardAlphabet` | internal/crypto/envelope.go:35-36 | the letters are those of table 1 of RFC 4648 |
| `Base64.TestVectors` | internal/crypto/envelope.go:35-36 | the encoding agrees with vectors of section 10 of RFC 4648 |
| `Crypto.SignThenVerify` | internal/crypto/envelope.go:27-55 | a signed token verifies under the signer's key and decodes to itself; signing fails exactly when the token has no JSON form |
| `Crypto.VerifiedBytes` | internal/crypto/envelope.go:18-21 | the token read from a verified envelope is read from the very bytes whose signature was checked |
| `Crypto.VerifiesExactly` | internal/crypto/envelope.go:40-55 | exactly what verifies to which token, and in what order the reasons against it are found |
| `Crypto.KeysRoundTrip` | internal/crypto/keys.go:22-53 | seeds and public keys survive their text form exactly when they have 32 bytes |
| `Settings.SettingsTable.LoadOrCreateKeypair` | cmd/seatkeyd/main.go:71-89 | stores a drawn seed only when none is stored and returns the stored seed's keypair |
| `Settings.BootsOn` | cmd/seatkeyd/main.go:71-89 | a start uses the stored seed if it is one, stores and uses the drawn one if none is stored, and fails on anything else without touching it |
| `Settings.SettingsTable.SetSetting` | internal/store/settings.go:18-25 | creates or overwrites one setting and no other |
| `Settings.SettingsTable.HandleWebhookSettings` | internal/web/admin.go:255-265 | writes the two webhook settings and no other |
| `Settings.WebhookStored` | internal/web/admin.go:255-265 | each value goes under its own name and no other setting changes |
| `World.SeedIsWrittenOnce` | cmd/seatkeyd/main.go:71-89 | over any restarts, settings writes and requests the stored seed, once there, never changes, and a running server signs with it |
| `World.SentIsAnswered` | internal/license/service.go:188 | the envelope sent in a run is the one the service answers |
| `World.AsksAboutItself` | cmd/democli/main.go:213-282 | the commands ask a running server about the license, device and name typed in, or about the license and device of the cache |
| `World.WebhookLasts` | internal/web/admin.go:255-265 | the webhook settings are those saved last, through restarts and whatever else happens |
| `EndToEnd.SameKeysAfterRestart` | cmd/seatkeyd/main.go:71-89 | a server that once ran signs with the same keys after every later start, whatever seed is drawn |
| `EndToEnd.EnvelopesKeepVerifying` | cmd/seatkeyd/main.go:71-73 | an envelope sent at any time verifies ever after under the current public key and decodes to the token signed |
| `EndToEnd.RunsExactlyWhileBacked` | cmd/democli/main.go:290-322 | for a client that uses only this server's replies, files and key, run succeeds at T exactly when an envelope is cached whose deadline is not past; then some earlier step granted that token, with the license active and the named device in a seat, and T is within the expiry and the horizon after that step |
| `EndToEnd.RunAnswers` | cmd/democli/main.go:290-322 | what run answers in each case: not activated without a cached license, else the token, or that its grace period or offline activation has ended, and never anything else |
| `EndToEnd.FruitlessKeepsHome` | cmd/democli/main.go:213-264 | a validation whose reply is lost or refused, an activation without envelope or key, a refused release and a file that does not check leave both files alone, so run answers as before at every time |
| `EndToEnd.FruitfulHome` | cmd/democli/main.go:220-285 | what every other command leaves in the two files, to the last field, and whose token it is |
| `EndToEnd.CommandAnswers` | cmd/democli/main.go:234-288 | what a validation and a release tell the user |
| `EndToEnd.ActivateAnswers` | cmd/democli/main.go:209-231 | what an activation tells the user: the token just granted exactly if its envelope and the key arrived |
| `EndToEnd.FreshReplyRuns` | cmd/democli/main.go:201-264 | right after an activation or validation whose reply arrives, run succeeds exactly until the deadline of the token just granted |
| `EndToEnd.OfflineFileRuns` | cmd/democli/main.go:349-393 | a file the server sent is accepted at any later time on a machine with the server's key, and run then succeeds exactly until the file's deadline |
| `EndToEnd.ReleaseStopsClient` | cmd/democli/main.go:266-288 | a release carried out by the server frees the cached device's seat, and run can succeed after it exactly if the reply got lost and it could have succeeded before |
| `Fleet.FleetWindow` | cmd/democli/main.go:290-322 | with any number of clients of one server, whoever's replies the files come from, the devices whose programs start at T on online tokens of a license number at most its limit plus the releases of the seven days before T; offline tokens included, plus all releases |
| `Fleet.RunningIsLive` | cmd/democli/main.go:290-322 | each of them starts on a token that the server granted to that device and that is unexpired at T |
| `Fleet.ViewRuns` | cmd/democli/main.go:201-393 | each client's part of such a run is a run with that client alone, in which the others' commands are somebody's requests |
| `Fleet.ServerRuns` | internal/license/service.go:83-164 | and the server's part is the run of the requests that reached it |
| `Tampering.TamperingGainsNothing` | cmd/democli/main.go:302-309 | the cached license may be replaced by anything at any time: as long as none of the envelopes put there or brought as a file is a forgery, run succeeds only on a token that some step granted, within the same limits |
| `Tampering.RunsExactlyWhileVerifying` | cmd/democli/main.go:292-316 | and it succeeds exactly when the key file is there and the cached envelope, wherever it comes from, verifies under the server's key with a deadline that is not past |
| `Tampering.CacheHasSource` | cmd/democli/main.go:100-106 | what is in the cache was sent by the server or put there or brought by an earlier step |
| `Tampering.RestoredCopyRuns` | cmd/democli/main.go:290-322 | putting back a copy of an envelope the server once sent makes run succeed exactly until that envelope's deadline, whatever has become of the seat |
| `Tampering.CopyOutlivesRelease` | cmd/democli/main.go:266-322 | the hypotheses above hold of a concrete run, boot, create, activate, release and put the old copy back, after which the device has no seat and run succeeds exactly until the old deadline |
| `Tampering.SomePrimitives` | internal/crypto/envelope.go:27-55 | and primitives exist that keep the stated assumptions and have a text for that run's token |
| `EndToEnd.HonestCache` | cmd/democli/main.go:201-264 | the cached envelope was sent by the server and names the cached device, whatever replies get lost |
| `EndToEnd.KeyFileIsOwn` | cmd/democli/main.go:220-226 | the key file holds the server's public key as long as no foreign key was given |
| `EndToEnd.GrantIsBacked` | internal/license/service.go:166-173 | a token live at T was granted to a seat holder of an active license, with T within expiry and horizon |
| `Client.ClientHome.CmdActivate` | cmd/democli/main.go:201-232 | refuses missing arguments, keeps both files on a lost reply, else writes both before it checks the signature |
| `Client.ClientHome.CmdValidate` | cmd/democli/main.go:234-264 | replaces only the cached envelope, and that before the key file is read |
| `Client.ClientHome.CmdDeactivate` | cmd/democli/main.go:266-288 | removes the cached license only after the server released the seat |
| `Client.ClientHome.CmdRun` | cmd/democli/main.go:290-322 | the offline decision, with the reason of every refusal |
| `Client.RunRefusals` | cmd/democli/main.go:292-316 | every reason for which run refuses, for any content of the files, and in which order they are found |
| `Client.ClientHome.CmdOfflineActivate` | cmd/democli/main.go:349-393 | caches file and key only after the signature verified |
| `Client.WrittenBeforeChecked` | cmd/democli/main.go:220-231 | a reply that does not verify is cached all the same, a file that does not verify is not |
| `Sessions.LetThrough` | internal/web/auth.go:42-72 | a request with a session token is let through at T exactly when a setup or login handed that token out less than thirty days before T and no logout of it followed |
| `Sessions.HandedOut` | internal/web/auth.go:148-187 | a token is handed out exactly by a login with a password that matches the row in use, or by a waiting setup whose form agrees and has eight bytes, and only if it is new |
| `Sessions.WaitingMeans` | internal/web/auth.go:119-128 | a setup waits exactly if its check found no admin and it has not gone on since |
| `Sessions.HashChanges` | internal/web/auth.go:199-233 | once there is an admin, the hash that login compares against becomes h exactly in a password change with a session started less than thirty days ago and kept, the current password in force and an acceptable form for h; no other step changes it, and none touches another row |
| `Sessions.FirstAdmin` | internal/web/auth.go:119-160 | the account comes into being exactly with a waiting setup whose form is acceptable |
| `Sessions.SessionTable` | internal/store/admin.go:41-65 | a token is in the sessions table exactly when it was handed out and not logged out since, with the expiry of that hand-out |
| `Sessions.OneAdminRow` | internal/store/admin.go:24-39 | however setups overlap, login and password change use the first row inserted for the whole run, and its hash is the one in force |
| `Sessions.AdminRowBound` | internal/web/auth.go:119-160 | with at most C setups past their check at any time there are never more than C admin rows, so one at a time gives the single admin account |
| `Sessions.AdminRowsReached` | internal/store/admin.go:17-22 | for every C some run with at most C overlapping setups ends with C admin rows |
| `Sessions.SecondSetupIsShadowed` | internal/web/auth.go:119-192 | two overlapping setups leave two rows and two good sessions, and a login then succeeds exactly with a password that matches the first row's hash |
| `Sessions.AuthServer.RequireAuth` | internal/web/auth.go:42-72 | needs an admin, a cookie and an unexpired session |
| `Sessions.AuthServer.HandleSetup` | internal/web/auth.go:119-160 | makes the admin and a session only when there is no admin and the form is acceptable, and says whether it did |
| `Sessions.AuthServer.HandleLogin` | internal/web/auth.go:162-192 | starts a session exactly when the password matches the lowest row's hash and the drawn token is new |
| `Sessions.AuthServer.HandleChangePassword` | internal/web/auth.go:199-233 | replaces the lowest row's hash exactly when the session, the current password and the form are good |
| `Sessions.AuthServer.SetPassword` | internal/store/admin.go:34-39 | the update rewrites the lowest-id row and no other |
| `Sessions.AuthServer.AdminRow` | internal/store/admin.go:24-32 | the row with the lowest id, if any |
| `ReleaseNotes.Extract` | scripts/release_notes.sh:30-36 | the line automaton returns the lines strictly between the first line that starts with the heading and the next stop line |
| `ReleaseNotes.StopLanguage` | scripts/release_notes.sh:32 | the scanner stops exactly at lines of the two regular expressions |
| `ReleaseNotes.ExtractAfterPrint` | scripts/release_notes.sh:30-38 | from printed sections extraction returns the body of the first section whose heading line starts with the version's heading, and nothing if there is none |
| `ReleaseNotes.RoundTrip` | scripts/release_notes.sh:30-38 | a printed section comes back whole unless an earlier heading line starts with its heading |
| `ReleaseNotes.DistinctVersions` | scripts/release_notes.sh:33 | which never happens with distinct versions free of closing brackets |
| `ReleaseNotes.BracketMisleads` | scripts/release_notes.sh:33 | with a closing bracket in a version it can |
| `ReleaseNotes.WriteNotes` | scripts/release_notes.sh:15-47 | the script computes the specified outcome from its arguments, the name of the tag and the changelog |
| `ReleaseNotes.TaggedRelease` | scripts/release_notes.sh:15-17 | a tag vX writes the notes of X, as argument or, with no or an empty argument, as reference name; an argument without a leading v is taken as it is and wins over the reference |
| `ReleaseNotes.Complaints` | scripts/release_notes.sh:19-28 | exactly when the script complains about its usage or about a missing changelog |
| `ReleaseNotes.PublishedFromPrinted` | scripts/release_notes.sh:38-45 | the Unreleased body is used exactly when the version's own has no character besides whitespace, and the script fails exactly when neither has one |
| `ReleaseNotes.NeverEmpty` | scripts/release_notes.sh:9-11 | what is written is never blank and starts and ends with a line that is not empty |
| `ReleaseNotes.TrimKeepsText` | scripts/release_notes.sh:47 | trimming removes empty lines at the two ends and nothing else |

## Left out

- Products, the lists of products and licenses, and view formatting: plain lookups and inserts.
- HTTP routing, JSON request decoding, cookies and status codes, and the templates. Only the refusal of
  an empty key or device is kept, in the client's run model.
- SQL text and the driver. Each statement is one atomic step on rows; uniqueness is that of
  internal/store/schema.go. A revival does not use up a row id in the model. When both the id and the
  key of a new license are taken, the model reports the key.
- Database, file and random-source failures. The model has the failing inserts on a taken id, key or
  session token, a token without a JSON form, a password that cannot be hashed, lost replies and missing
  client files, but no failing reads or writes in between.
- Webhook delivery. The event log that `notify` appends to is modelled; `SetNotifier`, the goroutine, the
  request, its signature and its retry are not.
- Clock readings. An atomic request reads the clock once, where the service and the store read it
  several times; the interleaved model gives every statement its own reading.
- Clock skew between server and client, and copies of a cached token on other machines. Theorems speak
  of the device named in the token.
- Ed25519, the JSON codec, bcrypt, random bytes and UUIDs, which are functions or arguments.
- Sessions: logout, login and password change are single steps. The check and the insert of a setup
  are separate ones.
- ReleaseNotes: escape sequences in the version, which awk's -v would interpret, and bytes that are not
  characters in the shell's locale. A file is its sequence of lines.
- File paths, flags, environment variables, messages, the demo recorder, the container and the build.

Where the code and its documentation differ, the model follows the code.

- README.md says that an offline activation file works forever. It is valid for a hundred years or
  until the license expires, whichever comes first (internal/license/service.go:28 and 166-173).
- internal/license/service.go:67-70 says that re-activating an active device always succeeds. It does
  on a license that is neither expired nor revoked.
- internal/store/devices.go:36-38 asks callers to check the seat count inside the same operation. The
  service checks it in a statement of its own, hence the bound in the number of activations in flight.

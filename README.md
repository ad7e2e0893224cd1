# Couply core in Dafny

Couply is an iOS app for two partners who share photos with each other. This
project models the logic behind the app's screens and proves properties of it:

- **Pairing.** Invite codes are created, checked and used. A successful join
  links two users to one new couple, and disconnecting unlinks them. This is
  modelled against a document store whose `invites`, `couples`, `users` and
  `photos` collections are maps, with a set of blob paths beside them.
- **Photo feed.** Photos are uploaded, reacted to, marked viewed and deleted,
  and the feed is filtered.
- **Couple streak counters.** Every upload advances them.
- **Demo services.** These keep the session, the feed and the invite state in
  memory.
- **Records.** The User, Couple, Photo and invite records, and the documents
  they are stored as.
- **Colours.** The integer channel decoding of `Color(hex:)`.
- **Phone sign-in.** The rules of the sign-in screen's view model: phone
  validity, code entry and the resend countdown.

The clock, the calendar, random code symbols, fresh document ids, download
URLs and the answers of the authentication back end are all parameters. The
calendar is `dayOf`, which maps an instant to a day number, plus `today`.

Each Swift file of the core maps to one Dafny module:

- `Couples`, `Users` and `Photos` are pure models of the records.
- `Pairing` and `PhotoSync` model the services backed by the store. Each is a
  class over a shared `Cloud` object, and its methods state the whole new
  state of the collections they touch.
- `DemoAuth`, `DemoPairing` and `DemoPhotos` model the in-memory demo services
  as classes whose fields the methods update.
- `ColorHex` holds the colour decoder.
- `PhoneAuth` holds the sign-in view model.
- `Store` holds the shared document model (`Doc = map<Field, Value>`) and the
  `Option`, `Result` and `Outcome` types.
- `Seqs` is order-preserving selection, Swift's `filter` and
  `removeAll(where:)`.

Two details of the code are easy to misread, and the model follows the code in
both:

- The invite alphabet has 32 symbols: `ABCDEFGHJKLMNPQRSTUVWXYZ23456789`,
  which leaves out `I`, `O`, `0` and `1`.
- `joinWithCode` refuses the creator's own code only after the expiry and used
  checks have passed.

## Model

| member | source | states |
|---|---|---|
| Couples.NewCouple | Couply/Couply/Couply/Core/Models/Couple.swift:45-69 | A new couple has no code and no dates. Its streak, longest streak and photo total are 0, so its counters are consistent. |
| Couples.PartnerID | Couply/Couply/Couply/Core/Models/Couple.swift:91-93 | Given `user1ID` it returns `user2ID`. Given any other id it returns `user1ID`. |
| Couples.PartnerOfPartner | Couply/Couply/Couply/Core/Models/Couple.swift:91-93 | For a couple of two distinct members, a member's partner is someone else, and the partner's partner is the member. |
| Couples.CoupleDictionary | Couply/Couply/Couply/Core/Models/Couple.swift:72-88 | The document always has the six required keys, holding the members, counters and creation date as given. It has each optional key iff that field is set, holding its value. |
| Couples.CoupleDictionaryKeys | Couply/Couply/Couply/Core/Models/Couple.swift:72-88 | The document holds every required key and no key besides the couple's own fields. |
| Couples.CoupleRoundTrip | Couply/Couply/Couply/Core/Models/Couple.swift:72-88 | Decoding a couple's document gives back the same couple. |
| Couples.CodeAlphabetShape | Couply/Couply/Couply/Core/Models/Couple.swift:118 | The alphabet has 32 symbols. Each is an upper-case letter or a digit other than I, O, 0 and 1. |
| Couples.Generate | Couply/Couply/Couply/Core/Models/Couple.swift:117-128 | The code is `LOVE-` followed by the four picked alphabet symbols (9 characters). The creator is the caller, there is no `usedBy` or `usedAt`, and the invite expires 24 hours after creation. |
| Couples.GeneratedValidFor24Hours | Couply/Couply/Couply/Core/Models/Couple.swift:105-128 | A generated invite is valid at time t iff t is at most 24 hours after its creation. |
| Couples.FirstWithRaw | Couply/Couply/Couply/Core/Models/Couple.swift:166 | Returns a case of the list whose raw value is the count, or none iff no case has it. |
| Couples.MilestoneFor | Couply/Couply/Couply/Core/Models/Couple.swift:165-167 | The result is present iff the count is 7, 30, 100 or 365, and its raw value is the count. |
| Users.MoodFromRaw | Couply/Couply/Couply/Core/Models/User.swift:66-73 | A mood it finds has the given raw string. |
| Users.MoodRoundTrip | Couply/Couply/Couply/Core/Models/User.swift:66-73 | Every mood comes back from its raw string. |
| Users.MoodRawInjective | Couply/Couply/Couply/Core/Models/User.swift:66-73 | Distinct moods have distinct raw strings. |
| Users.NewUser | Couply/Couply/Couply/Core/Models/User.swift:22-44 | A new user has no partner, couple, avatar, token or mood, so is not connected. Both instants are the clock reading. |
| Users.ConnectedIsStored | Couply/Couply/Couply/Core/Models/User.swift:17-19 | A user is connected iff the stored document has both a partner and a couple. |
| Users.UserDictionary | Couply/Couply/Couply/Core/Models/User.swift:47-62 | The document always has the four required keys with the user's values. It has each optional key iff that field is set, holding its value, and the mood is stored as its raw string. |
| Users.UserDictionaryKeys | Couply/Couply/Couply/Core/Models/User.swift:47-62 | The document holds every required key and no key besides the user's own fields. |
| Users.UserFromDoc | Couply/Couply/Couply/Core/Models/User.swift:5 | A decoded user takes its id from the document key. |
| Users.UserRoundTrip | Couply/Couply/Couply/Core/Models/User.swift:47-62 | Decoding a user's document gives back the same user. |
| Users.SamplePairLinked | Couply/Couply/Couply/Core/Models/User.swift:110-128 | Each sample user is the other's partner. They share couple `couple789`, and both are connected. |
| Photos.ReactionFromRaw | Couply/Core/Models/Photo.swift:88-95 | A reaction it finds has the given raw string. |
| Photos.ReactionRoundTrip | Couply/Core/Models/Photo.swift:88-95 | Every reaction comes back from its raw string. |
| Photos.ReactionRawInjective | Couply/Core/Models/Photo.swift:88-95 | Distinct reactions have distinct raw strings. |
| Photos.PhotoDictionary | Couply/Core/Models/Photo.swift:63-79 | The document always has the five required keys with the photo's values. It has each optional key iff that field is set, holding its value, and the reaction is stored as its raw string. |
| Photos.PhotoDictionaryKeys | Couply/Core/Models/Photo.swift:63-79 | The document holds every required key and no key besides the photo's own fields. |
| Photos.PhotoFromDoc | Couply/Core/Models/Photo.swift:5 | A decoded photo takes its id from the document key. |
| Photos.PhotoRoundTrip | Couply/Core/Models/Photo.swift:63-79 | Decoding a photo's document gives back the same photo. |
| Photos.ViewedIsStored | Couply/Core/Models/Photo.swift:18-20 | A photo is viewed iff its document has a viewing time. |
| Photos.SentByIsStored | Couply/Core/Models/Photo.swift:82-84 | A photo is sent by a user iff its stored sender is that user. |
| Photos.FilteredPhotosSelects | Couply/Core/Services/PhotoService.swift:248-259 | Each filter gives a subsequence of the feed in feed order. It keeps every shown photo as often as it occurs, and nothing else. `all` shows everything, `sent`/`received` go by sender, `favorites` by having a reaction. |
| Photos.SentReceivedPartition | Couply/Couply/Couply/Core/Services/PhotoService.swift:136-147 | Sent and received together hold the whole feed, with multiplicities, and no photo is in both. |
| Photos.FavoritesAreReacted | Couply/Core/Services/PhotoService.swift:256-257 | A photo is among the favorites iff it is in the feed and carries a reaction. |
| Photos.CreateSyncMoment | Couply/Core/Models/Photo.swift:145-152 | A new sync moment has no photos and no completion times, so it is not complete. It has expired at t iff t is more than five minutes after creation. |
| PhotoSync.StatsUpdate | Couply/Core/Services/PhotoService.swift:191-197 | The transaction writes exactly the five counter and date fields and keeps every other field of the couple document. |
| PhotoSync.StreakRules | Couply/Core/Services/PhotoService.swift:179-196 | The new streak is 1 without a recorded update. It is current+1 when the last update fell on another day, and unchanged when it fell today. Both dates become now. |
| PhotoSync.CountersAdvance | Couply/Core/Services/PhotoService.swift:193-194 | The longest streak is the maximum of the old longest and the new streak: it never decreases and is never below the new streak. The total grows by exactly one. |
| PhotoSync.StreakNeverDropsOnceStarted | Couply/Core/Services/PhotoService.swift:179-185 | Once an update is recorded, an upload never lowers the streak. |
| PhotoSync.SameDayUploadsCountOnce | Couply/Core/Services/PhotoService.swift:179-197 | A second upload on the same day keeps the streak and the longest streak, and brings the total to two more than before. |
| PhotoSync.StatsUpdateKeepsCoupleConsistent | Couply/Core/Services/PhotoService.swift:170-197 | If the document decodes to a couple with consistent counters, it still decodes after the update: to that couple with the advanced counters, which stay consistent. |
| PhotoSync.StatsUpdateDecodes | Couply/Core/Services/PhotoService.swift:170-197 | Whenever the couple document decodes, it still decodes after the update: to the same couple with the new streak, the longest streak raised to it, one more photo exchanged and both dates set to now. |
| PhotoSync.UploadKeepsStreakActive | Couply/Couply/Couply/Core/Models/Couple.swift:18-22 | After the update the couple's streak is active on exactly two days: the day of the upload and the day after. |
| PhotoSync.LapsedStreakStillGrows | Couply/Core/Services/PhotoService.swift:179-188 | As written, a couple whose last photo date and last streak update agree and are two or more days old has no active streak, yet the next upload raises the streak by one instead of restarting it. |
| PhotoSync.ResettingStreakFollowsActivity | Couply/Couply/Couply/Core/Models/Couple.swift:18-22 | For a couple whose last photo date and last streak update agree, as every upload writes them: with the intended rule, an upload restarts the streak at one exactly when it is not active; when it is active, the streak stays the same on the same day and grows by one on the next. |
| PhotoSync.BlobPathsDistinct | Couply/Core/Services/PhotoService.swift:236-240 | A photo's image and thumbnail paths differ. Within a couple, different photo ids give different image paths. |
| PhotoSync.DecodeSnapshot | Couply/Core/Services/PhotoService.swift:39-41 | Keeps at most one photo per document, and each kept photo has an id. |
| PhotoSync.DecodeSnapshotAppend | Couply/Core/Services/PhotoService.swift:39-41 | The photos decoded from two concatenated snapshots are those decoded from each, in order: each document is decoded on its own. |
| PhotoSync.DecodeSnapshotKeepsDecodable | Couply/Core/Services/PhotoService.swift:39-41 | Every document of a snapshot stays in place in the result exactly when it decodes to a photo on its own, and is dropped when it does not. |
| PhotoSync.SnapshotRoundTrip | Couply/Core/Services/PhotoService.swift:39-41 | A snapshot of stored photos decodes to exactly those photos, in order. |
| PhotoSync.ReactedPhotoDecodes | Couply/Core/Services/PhotoService.swift:217-220 | After the reaction field is written, the document decodes to the same photo with that reaction. |
| PhotoSync.ViewedPhotoDecodes | Couply/Core/Services/PhotoService.swift:225-228 | After the viewed field is written, the document decodes to the same photo, viewed at now, replacing any earlier time. |
| PhotoSync.PhotoService.constructor | Couply/Core/Services/PhotoService.swift:11-21 | Starts with an empty feed, no upload and no listener. |
| PhotoSync.PhotoService.StartListening | Couply/Core/Services/PhotoService.swift:24-30 | The listener is replaced by one for the couple, and the feed is kept until a snapshot arrives. |
| PhotoSync.PhotoService.PhotosSnapshotDelivered | Couply/Core/Services/PhotoService.swift:30-43 | The documents of a snapshot that decode become the feed. A snapshot error changes nothing. |
| PhotoSync.PhotoService.StopListening | Couply/Core/Services/PhotoService.swift:46-49 | Removes the listener and empties the feed. |
| PhotoSync.PhotoService.UploadPhoto | Couply/Core/Services/PhotoService.swift:52-133 | Without a user id and a couple id it fails with `notAuthenticated` and changes nothing. Otherwise it adds the image and thumbnail paths and writes the photo document. It advances the couple's counters only when the couple document exists, and returns the photo. |
| PhotoSync.PhotoService.ReactToPhoto | Couply/Core/Services/PhotoService.swift:217-222 | On a missing document it fails and changes nothing. Otherwise it writes the reaction's raw value into that document only. |
| PhotoSync.PhotoService.MarkAsViewed | Couply/Core/Services/PhotoService.swift:225-229 | On a missing document it fails and changes nothing. Otherwise it writes now as the viewed time of that document only. |
| PhotoSync.PhotoService.DeletePhoto | Couply/Core/Services/PhotoService.swift:232-245 | Without an id it does nothing. A missing image fails the call before anything changes. Otherwise it removes both blobs, ignoring a missing thumbnail, and the document. |
| Pairing.Uppercased | Couply/Core/Services/PairingService.swift:62 | Keeps the length and upper-cases each character. |
| Pairing.UppercasedIdempotent | Couply/Core/Services/PairingService.swift:62 | Upper-casing twice is upper-casing once. |
| Pairing.CodeLookupIgnoresCase | Couply/Core/Services/PairingService.swift:62 | Any mix of cases of a well-formed code is looked up under that code. |
| Pairing.LowercaseCodeFound | Couply/Core/Services/PairingService.swift:62 | A code typed in lower case is looked up under the code itself. |
| Pairing.Lookup | Couply/Core/Services/PairingService.swift:62-67 | Finds a document iff the key is in the collection, and returns that document. |
| Pairing.InviteDocument | Couply/Core/Services/PairingService.swift:40-45 | A new invite is stored with exactly four fields, code, creator, creation time and expiry, each holding the invite's own value, and no `usedBy`. |
| Pairing.MarkUsed | Couply/Core/Services/PairingService.swift:95-98 | Adds `usedBy` (the joiner) and `usedAt` (now) and keeps every other field. |
| Pairing.CheckInviteOutcomes | Couply/Core/Services/PairingService.swift:65-89 | Each outcome holds iff its condition does. Invalid code means missing or malformed. Expired means now > expiry. Already used means `usedBy` is present. Own code means creator == joiner. The checks run in that order, and success returns the creator. |
| Pairing.StoredInviteAdmits | Couply/Core/Services/PairingService.swift:65-89 | A freshly stored invite lets someone join iff the invite is valid and the joiner is not its creator. |
| Pairing.OwnCodeRefused | Couply/Core/Services/PairingService.swift:76-89 | A creator using their own code is refused as expired if it has expired, and otherwise as their own code. |
| Pairing.UsedInviteRefused | Couply/Core/Services/PairingService.swift:81-98 | After the invite is marked used, every later join is refused, as already used or as expired. |
| Pairing.StaleInvites | Couply/Core/Services/PairingService.swift:26-34 | Selects exactly the creator's invites whose `usedBy` is missing or null. |
| Pairing.StaleInvitesAsWritten | Couply/Core/Services/PairingService.swift:26-29 | Selects exactly the creator's invites whose `usedBy` is present and null. |
| Pairing.AsWrittenKeepsEarlierInvite | Couply/Core/Services/PairingService.swift:26-45 | With the query as written, an invite the service stored itself survives a second generation and is still joinable. |
| Pairing.SupersededInviteRefused | Couply/Core/Services/PairingService.swift:26-45 | With the intended query, a creator's earlier unused invite is gone after a new code is generated, and joining with it is refused as invalid. |
| Pairing.SupersedeKeepsOthers | Couply/Core/Services/PairingService.swift:26-45 | Used invites and other users' invites survive a new generation unchanged. |
| Pairing.LinkIsSymmetric | Couply/Core/Services/PairingService.swift:117-129 | Each user names the other as partner and both name the new couple. No other document and no other field changes. |
| Pairing.LinkedUsersDecodeAsPair | Couply/Core/Services/PairingService.swift:117-129 | The linked documents decode to a linked pair of users. |
| Pairing.DecodeWithLink | Couply/Core/Services/PairingService.swift:119-122 | Writing the two link fields into a user document sets them on the user it decodes to. |
| Pairing.UnlinkUndoesLink | Couply/Core/Services/PairingService.swift:179-191 | For two previously unlinked users, unlinking after linking restores both documents exactly. |
| Pairing.PairingService.constructor | Couply/Core/Services/PairingService.swift:9-17 | Starts with no code, not waiting and no listener. |
| Pairing.PairingService.GenerateInviteCode | Couply/Core/Services/PairingService.swift:20-54 | Without a user id it fails and changes nothing. Otherwise, in a loop, it deletes what the query as written selects, the creator's invites whose `usedBy` is present and null. Then it stores the new invite under its code, waits for a partner and listens to that code. |
| Pairing.PairingService.CreateCouple | Couply/Core/Services/PairingService.swift:102-136 | An atomic batch. If a user document is missing, it fails and nothing is written. Otherwise it stores the new couple (creator as `user1ID`, joiner as `user2ID`) and links both users. |
| Pairing.PairingService.JoinWithCode | Couply/Core/Services/PairingService.swift:57-99 | Without a user id it fails. A failed check fails with that error and changes nothing. On success it runs the couple batch, and then, separately, marks the invite used under the upper-cased key. |
| Pairing.PairingService.InviteSnapshotDelivered | Couply/Core/Services/PairingService.swift:139-156 | Once the watched invite carries `usedBy`, waiting ends and the code and the listener are cleared. Otherwise nothing changes. |
| Pairing.PairingService.CancelWaiting | Couply/Core/Services/PairingService.swift:159-163 | Not waiting, no code and no listener, whatever the state before, so it is idempotent. |
| Pairing.PairingService.DisconnectPartner | Couply/Core/Services/PairingService.swift:166-194 | Without a user id, partner and couple it fails with `notConnected`. Otherwise one batch deletes the couple and removes both link fields from both users. |
| DemoPhotos.DemoFeedShape | Couply/Couply/Couply/Core/Services/PhotoService.swift:21-71 | Five photos of the demo couple, newest first, with distinct ids, all older than now. |
| DemoPhotos.FirstIndexWithID | Couply/Couply/Couply/Core/Services/PhotoService.swift:117 | Returns the first index with the id, or none iff no photo has it. |
| DemoPhotos.EditFirst | Couply/Couply/Couply/Core/Services/PhotoService.swift:117-118 | Only the first photo with the id is edited. Every other position is kept. |
| DemoPhotos.EditFirstTouchesOneMatch | Couply/Couply/Couply/Core/Services/PhotoService.swift:116-128 | Photos with other ids are untouched, and without a match nothing changes. |
| DemoPhotos.IdOrEmpty | Couply/Couply/Couply/Core/Services/PhotoService.swift:99 | The signed-in user's id, or "" without one. |
| DemoPhotos.CoupleIdOrEmpty | Couply/Couply/Couply/Core/Services/PhotoService.swift:100 | The signed-in user's couple id, or "" without one. |
| DemoPhotos.DeleteRemovesExactlyMatches | Couply/Couply/Couply/Core/Services/PhotoService.swift:131-133 | Every photo with the id is removed. The others are kept as often as they occurred and in order. |
| DemoPhotos.DeleteIdempotent | Couply/Couply/Couply/Core/Services/PhotoService.swift:131-133 | Deleting twice is deleting once. |
| DemoPhotos.DemoPhotoService.constructor | Couply/Couply/Couply/Core/Services/PhotoService.swift:15-18 | Starts with the demo feed. |
| DemoPhotos.DemoPhotoService.UploadPhoto | Couply/Couply/Couply/Core/Services/PhotoService.swift:83-113 | The new photo goes in front and every earlier photo moves back one place unchanged. Uploading ends. |
| DemoPhotos.DemoPhotoService.ReactToPhoto | Couply/Couply/Couply/Core/Services/PhotoService.swift:116-121 | Sets the reaction of the first photo with the id only. |
| DemoPhotos.DemoPhotoService.MarkAsViewed | Couply/Couply/Couply/Core/Services/PhotoService.swift:124-128 | Stamps the first photo with the id as viewed at now, overwriting any earlier time. |
| DemoPhotos.DemoPhotoService.DeletePhoto | Couply/Couply/Couply/Core/Services/PhotoService.swift:131-133 | Removes every photo with that id, keeping the order of the rest. |
| DemoAuth.DemoUser | Couply/Couply/Couply/Core/Services/AuthService.swift:37-41 | The demo user has id `demo-user-123` and is not connected. |
| DemoAuth.Connected | Couply/Couply/Couply/Core/Services/AuthService.swift:85-86 | Sets the demo partner and couple. Keeps the user's id, name, phone number, avatar, push token, last-active and creation times. |
| DemoAuth.DemoCoupleBreaksCounters | Couply/Couply/Couply/Core/Services/AuthService.swift:77-83 | The demo couple has streak 7 and longest streak 0, so "longest ≥ current" fails. |
| DemoAuth.DemoPairLinked | Couply/Couply/Couply/Core/Services/AuthService.swift:68-87 | The connected demo user and the demo partner are a linked pair, and the demo couple has them as two distinct members, each the other's partner. |
| DemoAuth.AuthService.constructor | Couply/Couply/Couply/Core/Services/AuthService.swift:17-23 | Starts signed out and loading. |
| DemoAuth.AuthService.SplashFinished | Couply/Couply/Couply/Core/Services/AuthService.swift:19-22 | Loading ends and nothing else changes. |
| DemoAuth.AuthService.SendVerificationCode | Couply/Couply/Couply/Core/Services/AuthService.swift:26-30 | Every number gets `demo-verification-id`. |
| DemoAuth.AuthService.VerifyCode | Couply/Couply/Couply/Core/Services/AuthService.swift:32-43 | Any code signs in a fresh demo user, authenticated, with no partner or couple. The session stays linked. |
| DemoAuth.AuthService.UpdateProfile | Couply/Couply/Couply/Core/Services/AuthService.swift:46-49 | Sets the display name and sets the avatar even when it is nil. Signed out, nothing changes. |
| DemoAuth.AuthService.UpdateMood | Couply/Couply/Couply/Core/Services/AuthService.swift:51-53 | Sets only the mood. |
| DemoAuth.AuthService.SignOut | Couply/Couply/Couply/Core/Services/AuthService.swift:60-65 | Clears the user, partner and couple, and is no longer authenticated. |
| DemoAuth.AuthService.ConnectWithPartner | Couply/Couply/Couply/Core/Services/AuthService.swift:68-87 | Installs the demo partner and couple and links a signed-in user to both. The session invariant is kept. |
| DemoPairing.DemoPairingService.constructor | Couply/Couply/Couply/Core/Services/PairingService.swift:9-13 | Starts with no code and not waiting. |
| DemoPairing.DemoPairingService.GenerateInviteCode | Couply/Couply/Couply/Core/Services/PairingService.swift:16-29 | Without a user id it fails with `notAuthenticated`. Otherwise it holds a fresh code and waits. |
| DemoPairing.DemoPairingService.JoinWithCode | Couply/Couply/Couply/Core/Services/PairingService.swift:32-45 | The code is ignored. A signed-in user is connected to the demo partner; without one it fails with `notAuthenticated`. The signed-in and loading flags of the auth service are kept. |
| DemoPairing.DemoPairingService.CancelWaiting | Couply/Couply/Couply/Core/Services/PairingService.swift:48-51 | Not waiting and no code. |
| DemoPairing.DemoPairingService.DisconnectPartner | Couply/Couply/Couply/Core/Services/PairingService.swift:54-66 | Without a partner it fails with `notConnected`. Otherwise it clears the partner, the couple and both link fields, and the user is no longer connected. |
| DemoPairing.DemoPairingService.SimulatePartnerJoining | Couply/Couply/Couply/Core/Services/PairingService.swift:69-74 | Not waiting and no code, and the signed-in user is connected to the demo partner. The signed-in and loading flags of the auth service are kept. |
| ColorHex.TrimStartShape | Couply/Core/Extensions/Color+Couply.swift:66 | What remains after trimming the front starts with an alphanumeric character, or is empty. |
| ColorHex.TrimEndShape | Couply/Core/Extensions/Color+Couply.swift:66 | Trimming the end keeps a prefix that ends with an alphanumeric character, or is empty. |
| ColorHex.TrimRemovesPadding | Couply/Core/Extensions/Color+Couply.swift:66 | Any non-alphanumeric padding around an alphanumeric-bounded string is removed exactly. |
| ColorHex.TrimIdempotent | Couply/Core/Extensions/Color+Couply.swift:66 | Trimming twice is trimming once. |
| ColorHex.HexValue | Couply/Core/Extensions/Color+Couply.swift:68 | The value of n hexadecimal digits is below 16^n. |
| ColorHex.ScanHex | Couply/Core/Extensions/Color+Couply.swift:68 | The scanned value is below 16^length, so it fits the channel arithmetic for lengths 3, 6 and 8. |
| ColorHex.ChannelsInRange | Couply/Core/Extensions/Color+Couply.swift:70-79 | Every input gives channels in 0..255. Lengths 3 and 6 are opaque, and any other length than 3, 6 or 8 gives (1, 1, 1, 0). |
| ColorHex.DigitsDecode | Couply/Core/Extensions/Color+Couply.swift:66-79 | A string of hexadecimal digits decodes, by its length, from the number it spells. |
| ColorHex.RgbRoundTrip | Couply/Core/Extensions/Color+Couply.swift:73-74 | Six digits written from (r, g, b) decode to (255, r, g, b). |
| ColorHex.ArgbRoundTrip | Couply/Core/Extensions/Color+Couply.swift:75-76 | Eight digits written from (a, r, g, b) decode to (a, r, g, b). |
| ColorHex.ShortFormRoundTrip | Couply/Core/Extensions/Color+Couply.swift:71-72 | Three digits x, y, z decode to (255, 17x, 17y, 17z). |
| ColorHex.LeadingHashIgnored | Couply/Core/Extensions/Color+Couply.swift:66 | A leading `#` gives the same colour. |
| PhoneAuth.Digits | Couply/Couply/Couply/Features/Onboarding/PhoneAuthView.swift:311 | Keeps only numeric characters and is no longer than the input. |
| PhoneAuth.DigitsKeepsNumerals | Couply/Couply/Couply/Features/Onboarding/PhoneAuthView.swift:311 | The digits are a subsequence of the input. They hold each numeral exactly as often as the input does, and nothing else. |
| PhoneAuth.FormattingIgnored | Couply/Couply/Couply/Features/Onboarding/PhoneAuthView.swift:311 | Non-numeric separators typed anywhere do not change the digits. |
| PhoneAuth.FullPhoneNumber | Couply/Couply/Couply/Features/Onboarding/PhoneAuthView.swift:310-312 | Begins with the country code, and everything after it is numeric. |
| PhoneAuth.ValidityOfFullNumber | Couply/Couply/Couply/Features/Onboarding/PhoneAuthView.swift:314-316 | Valid iff the full number has at least ten digits after the country code. Separators never change validity. |
| PhoneAuth.ContinueRules | Couply/Couply/Couply/Features/Onboarding/PhoneAuthView.swift:318-324 | Never while loading. Before verifying, iff the full number has ten digits after the country code. While verifying, iff the code has four characters, whatever the number. |
| PhoneAuth.TruncateOtp | Couply/Couply/Couply/Features/Onboarding/PhoneAuthView.swift:206-210 | Keeps a prefix of at most four characters: all of a short input, exactly four of a longer one. |
| PhoneAuth.TruncateThenContinue | Couply/Couply/Couply/Features/Onboarding/PhoneAuthView.swift:206-210 | Truncation is idempotent. While verifying, the screen may continue iff at least four characters were typed and nothing is loading. |
| PhoneAuth.DigitAt | Couply/Couply/Couply/Features/Onboarding/PhoneAuthView.swift:236-239 | "" iff the index is past the code, and the character at the index otherwise. |
| PhoneAuth.BoxesShowPrefix | Couply/Couply/Couply/Features/Onboarding/PhoneAuthView.swift:219-239 | The first n boxes, read left to right, show the first n characters of the code. |
| PhoneAuth.BoxesSpellCode | Couply/Couply/Couply/Features/Onboarding/PhoneAuthView.swift:206-239 | The four boxes spell exactly what the code field kept. |
| PhoneAuth.StartedTimer | Couply/Couply/Couply/Features/Onboarding/PhoneAuthView.swift:370-374 | A started countdown is at 45, running, with resend not allowed. |
| PhoneAuth.Tick | Couply/Couply/Couply/Features/Onboarding/PhoneAuthView.swift:381-386 | A firing never takes the countdown below zero, and a stopped timer does nothing. |
| PhoneAuth.TicksFrom | Couply/Couply/Couply/Features/Onboarding/PhoneAuthView.swift:369-389 | From c seconds, n firings leave max(c − n, 0). Resend is allowed, and the timer stopped, iff n > c. |
| PhoneAuth.ResendUnlocks | Couply/Couply/Couply/Features/Onboarding/PhoneAuthView.swift:369-389 | After sending, a resend is allowed from the 46th firing on and not before, and the countdown never goes negative. |
| PhoneAuth.PhoneAuthViewModel.constructor | Couply/Couply/Couply/Features/Onboarding/PhoneAuthView.swift:294-303 | Starts on `+1` with nothing typed, countdown 45, no resend and no verification id. |
| PhoneAuth.PhoneAuthViewModel.SendVerificationCode | Couply/Couply/Couply/Features/Onboarding/PhoneAuthView.swift:326-341 | Sends the full number. An id moves the screen to code entry and restarts the countdown. An error is shown and changes nothing else. Loading ends. |
| PhoneAuth.PhoneAuthViewModel.StartResendTimer | Couply/Couply/Couply/Features/Onboarding/PhoneAuthView.swift:369-374 | The countdown restarts at 45, running, with resend not allowed. |
| PhoneAuth.PhoneAuthViewModel.TimerFired | Couply/Couply/Couply/Features/Onboarding/PhoneAuthView.swift:374-388 | The countdown advances by one firing and nothing else changes. The invariant (0..45, resend only once stopped at zero) is kept. |
| PhoneAuth.PhoneAuthViewModel.VerifyCode | Couply/Couply/Couply/Features/Onboarding/PhoneAuthView.swift:343-362 | Without a verification id it only shows "Please request a new code" and does not load. Otherwise it checks the code and id. A rejected code clears the code and shows the error. |
| PhoneAuth.PhoneAuthViewModel.ResendCode | Couply/Couply/Couply/Features/Onboarding/PhoneAuthView.swift:364-367 | Sends to the number entered before the call, with the entered number, country and code kept, and not loading afterwards. On success it restarts the timer, stores the verification id, moves to verification and clears the error. On failure it keeps the timer, id and step and shows the error. Resend stays withdrawn, so a failure when resending was allowed leaves the timer stopped at zero with resend locked. |
| PhoneAuth.FailedResendStaysLocked | Couply/Couply/Couply/Features/Onboarding/PhoneAuthView.swift:364-367 | From the timer a failed resend leaves, no number of timer firings allows a resend again: on the code screen the lock stays until a new send succeeds. |
| PhoneAuth.PhoneAuthViewModel.ResendCodeKeepingPermission | Couply/Couply/Couply/Features/Onboarding/PhoneAuthView.swift:364-367 | The intended resend: as `ResendCode` on success; on failure the whole timer, including the permission to resend, is as it was before the call. |
| PhoneAuth.PhoneAuthViewModel.OnOtpChange | Couply/Couply/Couply/Features/Onboarding/PhoneAuthView.swift:206-210 | The code field keeps what was typed, cut to four characters. |

## Left out

- Network, listeners and notifications: snapshot listeners, their
  registration objects and notification posts are not modelled.
  - Each listener is reduced to the id it watches, and a delivered snapshot
    is an explicit method call.
  - `sendPhotoNotification` only logs, and haptics are presentation.
- Asynchrony and retries: each asynchronous call is one atomic step.
  - The states between its start and its answer are not modelled: `isLoading`
    true during a request, or `isUploading` true during an upload.
  - The `Task.sleep` delays of the demo services are not modelled.
  - The retries of store transactions are not modelled.
- Query shape: the feed query's ordering by creation date and its limit of
  100 documents are not modelled. A snapshot is the document list the store
  delivers.
- Floating point: upload progress, the thumbnail size and JPEG compression
  are not modelled, and neither is the division of each colour channel by 255.
  `ColorHex` stops at the integer channels.
- Calendar arithmetic: `streakExpiresIn` and `daysConnected` are left out.
  Calendar days are the parameter `dayOf`, and "yesterday" is `today - 1`.
- Randomness: random code symbols, UUIDs and demo picture URLs are
  parameters.
- Unicode text handling: `uppercased()`, `CharacterSet.alphanumerics` and
  `Character.isNumber` are modelled on ASCII only.
- Display-only text: the emoji in two demo captions ("Missing you!" and
  "Date night!") is dropped. Emoji, label and message tables, `timeAgo` and
  `formattedDate` are not modelled.
- PhotoSync.PhotoService.UploadPhoto: the store failures of the individual
  steps are not modelled. These are the blob upload, the download URLs, the
  document write and the stats transaction. Compression failure is not
  modelled either.
- Pairing.PairingService.GenerateInviteCode: store failures of the query and
  the deletes are not modelled. A new code equal to an existing invite's code
  overwrites it, as the source does: it has no collision check.
- Pairing.PairingService.JoinWithCode: the store failure of the final
  "mark used" write is not modelled. `CreateCouple` fails only on a missing
  user document.
- Published `error` properties: the services' published `error` properties
  are never set by the modelled code paths, and are not modelled.
  `PhoneAuthViewModel.error` is modelled.
- The demo photo service's `startListening` and `stopListening` are empty in
  the source and have no model.
- Integer width: Swift's `Int` is modelled unbounded, and so is the scanner's
  `UInt64`. The scanner saturates on overflow, which is only reachable for
  trimmed strings longer than 16 digits, and those take the default branch.
- The Firebase-backed authentication service and `updateFCMToken` are not part
  of this model.

## Findings

| source | as written | input that shows it | evidently intended | confidence | as-written member | corrected member |
|---|---|---|---|---|---|---|
| Couply/Core/Services/PairingService.swift:26-29 | The query for the creator's earlier invites filters on `usedBy` equal to null. Such a filter matches only documents where `usedBy` is present and null. The invites this service writes (lines 40-45) have no `usedBy` field at all, so they are never selected and never deleted. | A user generates code A, then code B. A is still stored, and a partner can still join with A until it expires. | Every unused invite of the creator is deleted, whether `usedBy` is missing or null. | not executed | Pairing.StaleInvitesAsWritten, Pairing.AsWrittenKeepsEarlierInvite | Pairing.StaleInvites, Pairing.SupersededInviteRefused |
| Couply/Core/Services/PhotoService.swift:179-188 | The new streak is the old one on the same day, and the old one plus one on any other day. A gap of two days or more never restarts it at one. | A couple with a streak of 5 whose last photo was a week ago uploads a photo. The streak becomes 6, although the streak was not active. | After a gap the streak restarts at one, so it counts consecutive days, as the active-streak test in Couple.swift:18-22 expects. | not executed | PhotoSync.NextStreak, PhotoSync.LapsedStreakStillGrows | PhotoSync.NextStreakResetting, PhotoSync.ResettingStreakFollowsActivity |
| Couply/Couply/Couply/Features/Onboarding/PhoneAuthView.swift:364-367 | `resendCode` sets `canResend` to false before sending, and only a successful send restarts the timer. A failed send leaves the timer stopped with `canResend` false. | The countdown has reached zero, the user taps resend, and the send fails. The button now reads "Resend code in 0s" and stays disabled while the code screen is shown: no timer firing lifts the lock. Only going back to the number screen and sending successfully from there restarts the timer. | A failed resend gives back the permission to resend. | not executed | PhoneAuth.PhoneAuthViewModel.ResendCode, PhoneAuth.FailedResendStaysLocked | PhoneAuth.PhoneAuthViewModel.ResendCodeKeepingPermission |

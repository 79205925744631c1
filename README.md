# Minecraft friend listings over Xbox Live (model of `mpsd/friend.go`)

This project models the friend filter-and-join logic of the `mpsd` package of go-xsapi and proves properties of it:

- `JoinableFriends` lists the caller's friends who are in a Minecraft session that can be joined.
- `OnlineFriends` lists every friend who is in Minecraft.
- Both take the records returned by the activity search. They keep those whose title ID is Minecraft's (`1739947436`) and whose owner is not the caller. For each kept record they build a `FriendMinecraftStatus`, taking its gamertag from the profile service and falling back to the raw XUID when the lookup fails.
- `getGamertagFromXUID` reads the gamertag out of the profile service's answer.

Files:

- `wrappers.dfy`: `Option` (a Go pointer that may be nil) and `Result` (a Go `(value, error)` pair).
- `sequences.dfy`: the `Subsequence` relation ("the same elements in the same order, some deleted").
- `profile.dfy`: module `Profile`. The decoded response as datatypes, and the extraction of the gamertag as pure functions with lemmas.
- `friend.dfy`: module `Friends`. Activity records, the two listings as methods with a `for` loop each, and the specification functions they are proved against:
  - `ListedActivities`: the filter.
  - `Statuses`: one entry per kept record.
  - `LookupCalls`: the lookups made, in order.

The collaborators become inputs:

- The activity search becomes a `Result<seq<Activity>, string>`.
- The token source becomes a `Result<string, string>` carrying the caller's XUID.
- The gamertag lookup becomes a total function `string -> Result<string, LookupError>`.
- `Profile.ProfileLookup` builds that function from the outcome of each HTTP exchange.

Each listing also returns a ghost trace of the collaborator calls it makes itself: the search, its own `src.Token()` call and the gamertag lookups. This is how the model states the order of those calls.

Two behaviours of the code worth knowing:

- The code consults the search before the token. A search failure is therefore returned even when the token would also fail.
- "Gamertag not found" is decided by the first profile user's settings alone. A later profile user that has settings is ignored (`Profile.LaterUsersIgnored`).

## Model

| member | source | states |
|---|---|---|
| `Friends.JoinableFriends` | mpsd/friend.go:27-76 | A search failure is returned first, after one call and before the listing's own `src.Token()` call (mpsd/friend.go:48). A token failure is returned next. Otherwise the result is `Ok` of one entry per record that is in Minecraft, not the caller's own and open to joiners, in input order. One lookup is made per kept record, in order. |
| `Friends.OnlineFriends` | mpsd/friend.go:79-124 | Same error order and call trace as the joinable listing. On success the result holds one entry per Minecraft record not owned by the caller, whatever its related info. |
| `Friends.ListedAreAccepted` | mpsd/friend.go:56-59 | Every kept record comes from the input, has Minecraft's title ID and an owner other than the caller. For the joinable listing its related info is also present and not closed. |
| `Friends.ListedCounts` | mpsd/friend.go:55-73 | A record the listing accepts occurs in the result exactly as often as in the input, so duplicates are not merged. Any other record does not occur at all. |
| `Friends.ListedInInputOrder` | mpsd/friend.go:54-73 | The kept records are a subsequence of the activities, so input order is kept and the result is never longer than the input. |
| `Friends.NothingListedIsEmpty` | mpsd/friend.go:54-75 | When no record qualifies, the listing is the empty list. Together with the methods' contracts this gives `Ok([])`, not an error. |
| `Friends.JoinableWithinOnlineActivities` | mpsd/friend.go:56-59 | The records kept as joinable are a subsequence of those kept as online. |
| `Friends.JoinableWithinOnline` | mpsd/friend.go:56-59 | For the same activities, caller and lookup, the joinable listing is a subsequence of the online listing. |
| `Friends.StatusesCopyRecords` | mpsd/friend.go:60-69 | There is one entry per record. Each entry copies the record's XUID and title ID. Its gamertag is the lookup's value when the lookup succeeds, and the owner's XUID when it fails. |
| `Friends.ListingEntriesAccepted` | mpsd/friend.go:107-118 | Every entry of either listing has Minecraft's title ID and a XUID other than the caller's. |
| `Friends.LookupOnlyNamesGamertags` | mpsd/friend.go:109-118 | The lookup only decides gamertags. Two lookups give listings of the same length with the same XUIDs and title IDs. |
| `Friends.LookupCallsFollowRecords` | mpsd/friend.go:107-112 | Exactly one lookup per kept record, for that record's owner, in order. |
| `Friends.JoinableLooksUpOnlyJoinable` | mpsd/friend.go:57-60 | Every lookup the joinable listing makes is for a kept record whose session is open. Closed or info-less records are never looked up. |
| `Friends.OnlyTheOpenFriendIsListed` | mpsd/friend.go:55-59 | Take three records, all with open sessions: a friend "A" in Minecraft, the caller "B" in Minecraft, and a player "C" in another title. Both listings keep only "A". |
| `Friends.NotFoundFallsBackToXUID` | mpsd/friend.go:60-63 | When the profile service answers 404 for "A", the entry for "A" shows "A" as its gamertag. |
| `Profile.ExtractGamertag` | mpsd/friend.go:144-164 | A status other than 200 is an `UnexpectedStatus` error carrying the code. An undecodable body is a `DecodeResponse` error. The result is `Ok` exactly when the status is 200, the body decodes, and the first profile user has a first setting. That setting's value is then returned verbatim. Otherwise the result is `GamertagNotFound` for the XUID. |
| `Profile.GamertagFromXUID` | mpsd/friend.go:127-165 | A request that could not be built is a `CreateRequest` error. A request that failed in transit is an `ExecuteRequest` error. An answered request is judged by `ExtractGamertag`. |
| `Profile.StatusCheckedBeforeBody` | mpsd/friend.go:144-158 | A non-200 answer is an error whatever its body holds, including a body that cannot be decoded. |
| `Profile.FirstSettingWins` | mpsd/friend.go:160-161 | With status 200, the first setting of the first profile user is returned. Later settings and later users are never read. |
| `Profile.LaterUsersIgnored` | mpsd/friend.go:160-164 | A first profile user without settings means "gamertag not found", even when a later user has settings. |
| `Profile.XUIDOnlyNamesMissingGamertag` | mpsd/friend.go:161-164 | The XUID appears only in the "not found" error. Whether a gamertag is found, and which one, does not depend on it. |

## Left out

- HTTP transport wiring: the default `http.Client` and `internal.SetTransport` (mpsd/friend.go:28-31, 80-83). They only configure the transport.
- Building the profile request: the URL, the `Accept` and `X-Xbl-Contract-Version` headers, `Client.Do`, and closing the body (mpsd/friend.go:128-142). This is network I/O. Its outcome is the `Profile.Exchange` input.
- JSON decoding (mpsd/friend.go:156-158). The decoded body is a datatype, and a decode failure is an abstract cause string.
- `uuid.Parse(MinecraftServiceConfigID)` (mpsd/friend.go:38-41, 90-93). It parses a fixed, well-formed constant, so its error branch is not modelled. The service configuration ID only feeds the search, whose outcome is an input.
- `ActivityFilter.Search` and the token source's internals are not part of this model. Their outcomes are given as `Result` values.
- Context cancellation. It surfaces as a failed profile lookup: a `RequestFailed` exchange, or an undecodable body when the context is cancelled while the body is read (mpsd/friend.go:156). It is not modelled separately. Neither the search (mpsd/friend.go:43) nor the token call (mpsd/friend.go:48) takes the context.
- Other uses of the token source. The search is given the token source (mpsd/friend.go:43), and `internal.SetTransport` attaches it to the client that sends every profile request (mpsd/friend.go:31, 138). The call trace records only the listing's own `src.Token()` call, not these uses.
- Error messages. `fmt.Errorf` wrapping is modelled as error constructors that carry the collaborator's cause, not as formatted text.
- Lookup consistency: the gamertag lookup is a function, so it always gives the same answer for the same XUID. This holds for duplicate records within one call and across the two listings in `JoinableWithinOnline`. Real profile requests need not agree, for example when a second request for the same XUID is rate-limited (HTTP 429); the model does not capture such answers.

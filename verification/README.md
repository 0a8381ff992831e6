# Verified models of the stateful algorithms of the Mattermost server

The server's `app` package and its file upload handler hold a number of small stateful algorithms: a batching job fed by
a bounded queue, servers agreeing on a secret through a table, a log reader that walks a file backwards, a restartable
upload pass, a busy flag replicated over a cluster, channel membership with its history and its roles, moderation through
permission schemes, batched lookups, pagination loops, a command parser and two chains of permission checks. Each is
modelled in its own Dafny module, with the same branches, constants and error conditions as the code, and the properties
that the code is there for are proved for every input, every run and every interleaving.

Code that changes state is modelled twice: as a class or a method that follows the code statement by statement, and as
functions on values; each method is proved to do what its function says, and the main results are lemmas about these
functions. Runs are sequences of events. Store failures, clock readings, the order in which maps are walked, answers of
other components and racing servers are inputs, so that a result holds whatever they are.

| module | component |
|---|---|
| `EmailBatching` | queue, pending map, and the periodic check that sends or discards a user's batch |
| `SecretAgreement` | servers reading, generating, inserting and re-reading one secret, with crashes and store errors |
| `LogReader` | the backward scan of a log file, its paging, and the reversal in place |
| `FileUpload` | pre-scan, restart, stream and form passes over the parts of an upload |
| `Busy` | the busy flag on each node, its timers, broadcasts cut to seconds, late messages, racing callbacks |
| `Membership` | channels, members, membership history and teams under creating, adding and removing |
| `ChannelRoles` | scheme flags and explicit roles of members, their updates, and how they are stored and read |
| `ChannelMoves` | moving a channel between teams |
| `Moderation` | resolving roles through channel and team schemes, and patching what members and guests may do |
| `ChannelProps` | filling in mentioned channels with one lookup per team |
| `MemberCache` | the loop clearing the cache of all members of a channel |
| `Bots` | disabling the bots of a user, and the bots of these bots, page by page; collecting lists page by page |
| `GroupMessage` | the parser of the group message command |
| `Authorization` | the permission checks of a session and of a stored user, before and after leaving a team |
| `Lists`, `Wrappers` | shared vocabulary |

## What the code does that one might not expect

These are results of the model, each with a lemma that names the exact condition or a concrete input.

- A batch whose channel the user has viewed is still sent when its interval has passed: the `break` after the deletion
  leaves only the inner loop (`EmailBatching.ViewedBatchIsStillSent`). Only the team of the first notification is
  looked at (`EmailBatching.OnlyFirstTeamIsInspected`). An interval beyond 292 years overflows, and makes batches due at
  once or after some other time (`EmailBatching.HugeIntervalIsDueAtOnce`, `EmailBatching.LongestIntervalsComeRound`).
- A stored secret of `null`, or a stored signing key without its inner key, makes a server dereference nil
  (`SecretAgreement.SomeRunPanicsIff`). Over a cookie secret without its inner key servers start without a secret and
  without an error (`SecretAgreement.KeylessCookieSecret`).
- A page of the log whose product with the page size overflows starts over from the newest lines
  (`LogReader.PageIsSliceIff`, `LogReader.WrappedPagesStartOver`).
- With a channel id in the URL, the files before the first `channel_id` part are uploaded twice
  (`FileUpload.UrlChannelReplays`, `FileUpload.ReplayedUpload`).
- A message that arrives after its expiry is ignored, so a node may stay busy until an older expiry
  (`Busy.LateMessageDiverges`); two settings at the same moment cross (`Busy.ConcurrentSettingsCross`). A timer callback
  takes no lock: one that was already running can end the next setting at once (`Busy.StaleCallbackCutsShort`), and in the
  middle of a setting it leaves a free node with an expiry and a timer (`Busy.TornSetting`). A short setting can keep a
  timer that has fired already (`Busy.DeadTimer`), a node can be busy after the expiry it shows (`Busy.BusyPastExpiry`),
  and a caller that has found a timer can stop a nil one (`Busy.NilTimerStopped`).
- Joining a channel again within the millisecond of the last join leaves a member without an open history row
  (`Membership.RejoiningAtOnce`). A guest with a direct or group channel stays in a team after losing the last channel
  there (`Membership.GroupChannelKeepsGuest`); so does one whose last channel is moved away
  (`ChannelMoves.MoveLeavesGuestBehind`). Moving with removal of deactivated users leaves their history open
  (`ChannelMoves.MoveLeavesStayOpen`).
- A group of repeated users, all in the profile cache, fails only after its channel and a member have been saved
  (`Membership.RepeatedIdsLeaveChannel`).
- A channel scheme starts as a copy of the system's roles. So a patch of a channel without a scheme can bring back a
  permission that the team's scheme takes away, although the patch itself switches on nothing the team lacks
  (`Moderation.BeyondTheTeam`, `Moderation.EmptyPatchBringsBack`). A patched role keeps no permission that is not
  moderated (`Moderation.OnlyModeratedSurvive`).
- Mentions from before stay on a channel whose header no longer mentions anything, unless another channel of its team in
  the list does (`ChannelProps.BatchEqualsAlone`). Channels without a team show open channels of every team
  (`ChannelProps.TeamlessShows`).
- Clearing the member cache of a channel of n > 99 members takes n - 98 fetches and clears a member up to a hundred
  times (`MemberCache.EveryMemberIsCleared`).
- Deactivating a bot first deactivates the bots that this bot owns, before its own row is marked. So a user who was
  turned into a bot, and then owns itself, is deactivated again and again without end (`Bots.SelfOwnedBot`). Nothing
  failing, disabling the bots of somebody ends exactly if these calls come to no cycle of owners
  (`Bots.DisablingEndsIffNoCycle`), which they never do for a user who is no bot (`Bots.DisablingEndsForUsers`). It also
  goes on forever if twenty or more bots of an owner they come to cannot be deactivated (`Bots.DisablingEndsIff`,
  `Bots.TwentyStuckBots`).
- Leaving a team clears the names of a member's roles, but these are not what is stored. The row left behind is read with
  the same roles as before (`Authorization.LeavingKeepsRoles`), and the check of the stored user goes by it, while a
  session does not show it (`Authorization.LeavingKeepsPermission`, `Authorization.LeftTeamStillGrants`).
- A group message that starts with a comma is not read back as written (`GroupMessage.ParsingUndoesPrinting`).

## Model

| member | source | states |
|---|---|---|
| EmailBatching.NothingLostOrReordered | app/email_batching.go:65-195 | In every state any interleaving of adding, receiving and checking reaches, what was sent or discarded for a user, then what is pending, then what is queued, is exactly that user's accepted notifications in order; batches are non-empty and the queue is bounded |
| EmailBatching.RunHolds | app/email_batching.go:87-195 | The same, from any well-formed state: a run adds to what is held for a user exactly what it accepted for that user, at the end |
| EmailBatching.NextHolds | app/email_batching.go:87-195 | The same for one step |
| EmailBatching.AddQueues | app/email_batching.go:87-101 | A notification is taken exactly as long as the queue is not full, and then goes to its end |
| EmailBatching.WalkOrderDoesNotMatter | app/email_batching.go:133-195 | Two walks of the pending map in different orders leave the same map, with the same batches sent and discarded |
| EmailBatching.WholeMapOutcome | app/email_batching.go:133-195 | What one whole check leaves pending, sends and discards is decided user by user, from the map as it was |
| EmailBatching.CheckAllOutcome | app/email_batching.go:133-195 | The same for a walk over some of the users |
| EmailBatching.ViewedBatchIsStillSent | app/email_batching.go:152-193 | A viewed batch whose interval has passed is discarded from the map and still sent |
| EmailBatching.OnlyFirstTeamIsInspected | app/email_batching.go:140-168 | Whether a batch counts as viewed depends on its first notification alone |
| EmailBatching.DueAfterInterval | app/email_batching.go:170-193 | For intervals up to 292 years a batch is due once more than the interval has passed since the second in which it began |
| EmailBatching.DueForAnyInterval | app/email_batching.go:186 | For every interval, what is compared is the one duration in range that differs from it by a multiple of 2^64 nanoseconds |
| EmailBatching.HugeIntervalIsDueAtOnce | app/email_batching.go:170-193 | Intervals past that range, up to twice its length, overflow to negative durations, so a batch of the current second is due at once |
| EmailBatching.LongestIntervalsComeRound | app/email_batching.go:186 | The interval after these is waited for less than half a second |
| EmailBatching.DueByDefault | app/email_batching.go:170-193 | A batch of a user whose preference cannot be read, or is no 64-bit decimal, is due once more than 900 seconds have passed since the second in which it began |
| EmailBatching.DueByPreference | app/email_batching.go:170-193 | With a number as preference, it is due after as many seconds |
| EmailBatching.ParsedIffDenoted | app/email_batching.go:178 | A text is read as a number exactly if it is a sign or none, perhaps zeros, and the digits printed for a number in the 64-bit range |
| EmailBatching.ValueOfDigits | app/email_batching.go:178 | Reading the digits printed for a number, zeros in front or not, gives the number back |
| EmailBatching.CheckedOutcome | app/email_batching.go:134-193 | The check of a user keeps the batch exactly if it is not due and no channel of its first notification's team was viewed since that post; otherwise the batch leaves whole, sent exactly if due; nobody else's is touched |
| EmailBatching.SecondsOf | app/email_batching.go:186 | The second in which a batch began, truncated toward 1970 |
| EmailBatching.ClampedIs | app/email_batching.go:186 | Differences of instants out of range become the nearest duration in range |
| EmailBatching.EmailBatchingJob.constructor | app/email_batching.go:65-71 | A new job has an empty queue of the given size and nothing pending |
| EmailBatching.EmailBatchingJob.Add | app/email_batching.go:87-101 | A notification is queued exactly if there is room, and otherwise refused without effect |
| EmailBatching.EmailBatchingJob.ReceiveOne | app/email_batching.go:116-128 | One receive files the oldest queued notification behind those its user already has |
| EmailBatching.EmailBatchingJob.HandleNewNotifications | app/email_batching.go:113-131 | The drain empties the queue and keeps what is held for every user |
| EmailBatching.EmailBatchingJob.CheckUser | app/email_batching.go:134-193 | The check of one user sends exactly a due batch, and removes it if due or viewed |
| EmailBatching.EmailBatchingJob.CheckPendingNotifications | app/email_batching.go:133-195 | A whole check hands over exactly the due batches, once each, and keeps exactly those neither due nor viewed, in whatever order the map is walked |
| EmailBatching.EmailBatchingJob.CheckPendingEmails | app/email_batching.go:103-111 | A run of the periodic task hands over exactly the users' due batches, queued notifications included, once each, and keeps the others complete |
| SecretAgreement.ServersAgree | app/config.go:109-164 | For any number of servers and any interleaving with crashes and store errors, two servers that hold a secret hold the same one, and it is the stored one |
| SecretAgreement.KeyIsForever | app/config.go:109-164 | A secret once in use is the only one ever in use, for later and restarted servers too |
| SecretAgreement.KeyWasGeneratedOrStored | app/config.go:119-146 | A secret in use was stored before the cluster started, or generated by one of its servers |
| SecretAgreement.RowIsWrittenOnce | store/sqlstore/system_store.go:32-37 | Once the row is there no server changes it |
| SecretAgreement.NextKeepsAgreement | app/config.go:109-164 | Every single operation keeps the agreement of secrets in use with the row |
| SecretAgreement.CallEndsWithKey | app/config.go:109-164 | Over a row that is absent or decodes to an acceptable key, and whatever other servers do in between, a call for which generating and the second read work ends with a key, except exactly if the insert fails without effect and no other server has inserted a key by the time of the second read; a server whose insert lost is no worse off |
| SecretAgreement.RereadOutcome | app/config.go:149-164 | Whatever the row is, the second read brings a key exactly if it decodes to an acceptable one, a nil dereference exactly if it decodes to null or to a signing key without its inner key, and success without a key exactly if it is a cookie secret without its inner key |
| SecretAgreement.CallOutcome | app/config.go:109-242 | How every call by a server without a key ends, for every row, rivals and faults: the first read decides if it finds anything but null; else the server's own key if it is inserted first, or else the second read; the row is the first of the keys offered |
| SecretAgreement.CallWithKey | app/config.go:109-113 | A server with a key keeps it and inserts nothing |
| SecretAgreement.StoredKeyServes | app/config.go:109-242 | Any stored cookie secret is taken into use by the first read, and any stored signing key on the known curve |
| SecretAgreement.NoServerPanics | app/config.go:109-164 | From an empty table no server ever dereferences a nil secret |
| SecretAgreement.NullRowPanics | app/config.go:116-163 | With null already stored, a server does |
| SecretAgreement.SomeRunPanicsIff | app/config.go:109-242 | Some run makes a server dereference nil if and only if the row was null from the start, or is a signing key without its inner key |
| SecretAgreement.KeylessRowEndsCall | app/config.go:109-242 | A document without its inner key ends the call of a server that reads it: with a nil dereference, or with success and no key |
| SecretAgreement.KeylessSigningKeyPanics | app/config.go:225-226 | For the signing key the former |
| SecretAgreement.KeylessCookieSecret | app/config.go:162-163 | For the cookie secret the latter: no server ever holds a secret, and none dereferences nil |
| SecretAgreement.UnusableRowBlocksEveryServer | app/config.go:109-164 | A row that does not decode to an acceptable key keeps every server without one |
| SecretAgreement.ForeignCurveBlocksEveryServer | app/config.go:225-231 | So does a stored signing key of another curve |
| SecretAgreement.AppServer.EnsureKey | app/config.go:109-242 | The ensure function does what the four operations of the transition system do, whatever rivals insert in between and whatever fails; it never replaces a stored row |
| LogReader.LinesAreACut | app/admin.go:80-101 | The lines joined are the text, cut exactly before every newline but a leading one |
| LogReader.CutIsUnique | app/admin.go:80-101 | There is only one such way to cut a text |
| LogReader.PageIsSlice | app/admin.go:87-109 | While the product fits, page p is lines k-(p+1)*perPage up to k-p*perPage of the k lines, clipped at 0, in file order |
| LogReader.PageIsSliceIff | app/admin.go:87-109 | The reader returns these lines exactly if the product of page and page size fits, or wraps around to no less than the number of lines |
| LogReader.PagesRebuildFile | app/admin.go:63-114 | All pages from the oldest to page 0, joined, and a newline if the file ends in one, are the file, for every page size |
| LogReader.WrappedPagesStartOver | app/admin.go:94 | For page size 4, page 2^62 shows what page 0 shows, and the one after it what page 1 shows |
| LogReader.WrappedIs | app/admin.go:94 | A product wraps around to the number in range that differs from it by a multiple of 2^64 |
| LogReader.ZeroSizePage | app/admin.go:96-108 | A page of size 0 is the whole text if the last byte starts a line, and empty otherwise |
| LogReader.ScanBackwards | app/admin.go:63-109 | The byte by byte scan collects the page, newest line first, and fails exactly for a file with nothing but at most one newline |
| LogReader.ReverseInPlace | app/admin.go:111-114 | The swaps reverse the list |
| LogReader.GetLogsSkipSend | app/admin.go:51-120 | The reader returns exactly the page, or an error exactly if the file is missing or has nothing in it; without file logging, one empty line |
| FileUpload.PrescanAgrees | api4/file.go:209-366 | Until a channel id or a file is met, pre-scan and stream do the same |
| FileUpload.RestartEqualsStream | api4/file.go:197-271 | Without a channel id in the URL, pre-scan and restart give what one streaming pass gives, unless a file comes before the channel id, and then what the form pass gives |
| FileUpload.PassUploadsInOrder | api4/file.go:209-366 | Every pass uploads the files it reaches in order, and all of them if it succeeds |
| FileUpload.NoFileUploadedTwice | api4/file.go:197-366 | Without a channel id in the URL no file part is uploaded twice |
| FileUpload.RequestPermitted | api4/file.go:197-458 | Whatever the request and however it ends, every upload is into one channel with an id of 26 characters to which the user may upload: that of the URL, or without one a channel that the message names |
| FileUpload.PassPermitted | api4/file.go:273-364 | The same for what each pass adds, in both modes |
| FileUpload.FormPermitted | api4/file.go:372-458 | The same for the form pass, with the channel of the first channel_id part |
| FileUpload.PassJustified | api4/file.go:209-366 | What a pass says in an error is so: the part that cannot be read, the other channel named, the field not known, the channel id of wrong length or not permitted, the upload that failed, or the numbers of ids and files in the message |
| FileUpload.FormJustified | api4/file.go:372-458 | Likewise the errors of the form pass |
| FileUpload.FormRequest | api4/file.go:372-458 | A file followed by its channel and its id is a form, in which it is uploaded with both |
| FileUpload.ValueIs | api4/file.go:243-256 | Form values are cut to their first 10240 bytes |
| FileUpload.PrescanIsStreamPrefix | api4/file.go:238-366 | With one, what the pre-scan uploads is what the restarted pass uploads first |
| FileUpload.PrescanRestartsIff | api4/file.go:238-366 | The pre-scan starts over exactly if a channel_id part is reached in this sense, told from the parts |
| FileUpload.UrlChannelReplays | api4/file.go:238-366 | With one, the files before the first channel_id part are uploaded twice, and first, exactly if that part is reached: it is readable and repeats the channel, and no part before it fails; otherwise every file is uploaded at most once |
| FileUpload.ReplayedUpload | api4/file.go:266-271 | One file before the channel_id part is uploaded twice |
| FileUpload.StreamSucceedsIffWellPaired | api4/file.go:273-364 | Barring other errors a streaming pass succeeds exactly if there are no client ids, or as many as files and each file comes after its own id |
| FileUpload.StreamPairsInOrder | api4/file.go:307-356 | On success the i-th file got the i-th client id, or none if there are none, and the response lists both in order |
| FileUpload.RequestSucceedsIffWellPaired | api4/file.go:197-366 | The same for the whole request, restart included, with each file stored once |
| FileUpload.FormOutcome | api4/file.go:372-458 | The form pass succeeds exactly for a readable form naming a permitted channel, with no ids or as many as files, when every upload works; the i-th file then gets the i-th id, and the response lists the ids that are not empty |
| FileUpload.Context.UploadFileMultipart | api4/file.go:197-366 | The part loop is the pass, in both modes, with one restart at most |
| FileUpload.Context.UploadFileMultipartLegacy | api4/file.go:372-458 | The form pass: ids and files by their form fields, all checked before the first upload |
| Busy.NodesStaySound | app/busy.go:46-131 | In every state of every run, a node is busy exactly if it has a timer and an expiry, and never past its expiry |
| Busy.SettingLasts | app/busy.go:46-62 | A setting of a second or more lasts exactly that long, a shorter one a second, and touches no other node |
| Busy.PromptBroadcastApplies | app/busy.go:46-62 | The minimum of one second makes a broadcast delivered at once apply |
| Busy.ReceiverExpiry | app/busy.go:118-131 | A receiver in time gets an expiry less than a second before the origin's and never after it |
| Busy.DeliveryFollowsIffInTime | app/busy.go:118-131 | A delivery keeps the receiver in step with the changes exactly if it is in time |
| Busy.RunFollows | app/busy.go:46-131 | Over any run with all deliveries in time every node stays in step |
| Busy.CaughtUpNodesAgree | app/busy.go:46-131 | Two nodes that received every change in time agree, outside the last second before the expiry, and their expiries are less than a second apart |
| Busy.LateMessageDiverges | app/busy.go:118-131 | With a late message they need not |
| Busy.ConcurrentSettingsCross | app/busy.go:118-131 | Two nodes set at the same moment end with the expiries of each other, which agree exactly if they fall into the same second |
| Busy.RaceKeepsFields | app/busy.go:64-92 | With callbacks of stopped timers running late, each in one piece, flag, timer and expiry agree |
| Busy.SettingHolds | app/busy.go:64-70 | A setting holds until its expiry if no callback was launched and not yet run |
| Busy.StaleCallbackCutsShort | app/busy.go:64-92 | With one still to run, the next setting ends at once |
| Busy.TimersLaunchOnce | app/busy.go:64-92 | A timer launches its callback once, not before its deadline, whatever earlier callbacks are still to run; a cleared one does not |
| Busy.CallbackRuns | app/busy.go:85-92 | Each callback launched runs once, and frees the node |
| Busy.PromptCallbacksRefine | app/busy.go:46-92 | Over every run in which callbacks run as soon as they are launched, the node does what it does with callbacks in one step with the clock |
| Busy.BusyNodesHaveTimers | app/busy.go:64-92 | With every load and store of callers and callbacks a step of its own, and settings of any length, whenever nobody is in the middle of anything: a busy node shows an expiry, and for an expiry there is a stored timer that still runs and ends no earlier |
| Busy.RunStaysChained | app/busy.go:64-92 | The same chain in every state in between, each link unless somebody has still to undo or to make it |
| Busy.HolderIsAlone | app/busy.go:46-49 | While a caller holds the mutex only its own steps move it on, and the next begins when it is free |
| Busy.OneCallbackPerTimer | app/busy.go:64-70 | Over every run each timer started launches one callback at most |
| Busy.OnlyDueTimersLaunch | app/busy.go:64-70 | A running timer launches it at its deadline or later, and a stopped one never |
| Busy.CallbackEnds | app/busy.go:85-92 | A callback that has done its last step does no more |
| Busy.TornSetting | app/busy.go:64-92 | The converses fail: a callback in the middle of a setting leaves a node free that shows an expiry and has a timer |
| Busy.TornExpiry | app/busy.go:64-92 | Or a node free with a running timer and no expiry |
| Busy.DeadTimer | app/busy.go:64-70 | Or, when the timer fires before it is stored, a node free with a stored timer that has fired |
| Busy.BusyPastExpiry | app/busy.go:67-68 | The expiry and the timer read the clock one after the other: by as much as lies in between, a node is busy after the expiry it shows |
| Busy.NilTimerStopped | app/busy.go:86-87 | A callback between the check of the timer and its use makes a caller stop a nil timer |
| Busy.BusyFlag.Set | app/busy.go:46-62 | The node is busy for at least a second, and the cluster is told the expiry in whole seconds |
| Busy.BusyFlag.SetWithoutNotify | app/busy.go:64-70 | Any earlier timer is replaced |
| Busy.BusyFlag.Clear | app/busy.go:72-83 | The node is free and the cluster is told |
| Busy.BusyFlag.ClearWithoutNotify | app/busy.go:85-92 | The node is free |
| Busy.BusyFlag.ClusterEventChanged | app/busy.go:118-131 | A message is applied as received: busy until the expiry if that is ahead, untouched if it is past, free if cleared |
| Busy.BusyFlag.RunTimer | app/busy.go:64-70 | The callback frees the node at the deadline |
| Membership.StepKeepsHistory | app/channel.go:1135-1146 | Where members are exactly those whose last stay is open, and joins and leaves alternate, every operation keeps this exactly if it is not bound, when called, to save or delete a member and then fail to write the history |
| Membership.RunKeepsHistory | app/channel.go:1094-1151 | Over every run without such an operation this holds: members are exactly those whose last stay is open, and joins and leaves alternate |
| Membership.HistoryAgreesThroughoutIff | app/channel.go:1094-1151 | History and members agree after every operation of a run exactly if no operation of it is bound to fail to write the history |
| Membership.FaultFreeRunKeepsHistory | app/channel.go:1094-1151 | Over every run without store failures that adds nobody twice within a millisecond, members are exactly those whose last stay is open |
| Membership.StrictClockKeepsHistory | app/channel.go:1094-1151 | So over every run without store failures in which the clock moves on between operations |
| Membership.RejoiningAtOnce | store/sqlstore/channel_member_history_store.go:24-45 | Joined and left at 7, a user added again at 7 is a member whose history is closed |
| Membership.UnloggedIff | app/channel.go:218-263 | Which operations are bound to fail to write the history: told before the call, for creating, groups, adding, removing and roles |
| Membership.StepKeepsWired | app/channel.go:218-263 | Members and history only ever speak of channels that exist |
| Membership.WhyUnlogged | app/channel.go:1094-1151 | Adding reports that the history could not be written exactly for somebody it may add and saves, if the store fails or the user joined within this millisecond |
| Membership.LastJoinIsLatest | store/sqlstore/channel_member_history_store.go:24-29 | The join time is taken already exactly if the last join was in this millisecond |
| Membership.CreatorIsAdmin | app/channel.go:218-263 | When creating a channel succeeds, and that its only member is then the creator: an admin without explicit roles, guest if the user is one and user otherwise, with an open stay; nothing else changes |
| Membership.GroupOutcome | app/channel.go:402-449 | A group is created exactly for three to eight distinct known users with a working store, and its members are these; whether or not it succeeds, each row added is of such a user, guest or user as the user is, no admin, without explicit roles, and all other rows stay |
| Membership.ProfilesMatch | store/localcachelayer/user_layer.go:106-135 | As many profiles as ids are found exactly if the ids that are not in the cache are distinct and known |
| Membership.RepeatedIdsLeaveChannel | app/channel.go:407-446 | Repeated ids from the cache pass that check; the group then fails, but the channel and a member have been saved |
| Membership.AllCached | store/localcachelayer/user_layer.go:106-115 | Ids that are all in the cache are answered one by one, repeated ones too |
| Membership.AddOutcome | app/channel.go:1094-1174 | When adding succeeds, exactly; a new member is a guest if the user is one and a user otherwise, an admin exactly if not a guest and the groups say so, without explicit roles, with an open history row; nothing else changes |
| Membership.UnloggedMember | app/channel.go:1120-1146 | A member saved without history has these roles too |
| Membership.AddEndsWith | app/channel.go:1094-1174 | Which error adding ends with: the first of its checks not passed, or the call that fails |
| Membership.RemoveEndsWith | app/channel.go:1812-1862 | Which error a removal ends with |
| Membership.LeaveEndsWith | app/channel.go:1843-1856 | When a guest leaves the team, exactly, and which error it ends with otherwise |
| Membership.CreateEndsWith | app/channel.go:218-263 | Which error creating a channel ends with; the channel stays if only its member fails |
| Membership.GroupEndsWith | app/channel.go:402-449 | Which error creating a group ends with, in the order of its checks |
| Membership.RemoveOutcome | app/channel.go:1812-1845 | A removal changes anything exactly if it is of a member, not of a user other than a guest from the default channel, allowed by the groups, and its calls up to the deletion work |
| Membership.RemoveEffects | app/channel.go:1836-1856 | A removal changes neither members nor history, or takes out this one member and closes the open history rows unless it reports that this failed |
| Membership.AddKeepsPlace | app/channel.go:1153-1174 | Adding keeps everybody in a team exactly while having a channel there |
| Membership.RemovalKeepsPlace | app/channel.go:1843-1856 | Removing a guest from a channel keeps this exactly if the removal takes nothing out, or a channel of the team is left, or there is no channel without a team and leaving the team works |
| Membership.GroupChannelKeepsGuest | store/sqlstore/channel_store.go:1932-1940 | A guest in one channel of a team and in a group channel stays in the team when taken out of the former |
| Membership.GuestsKeepTheirPlace | app/channel.go:1812-1862 | Over any run of adds and removals without store failures a guest without direct or group channels is in a team exactly while having a channel there |
| Membership.ChannelsStayInTeam | app/channel.go:1094-1174 | Over any run of adds, removals and role updates, with any failures, a user, guest or not, who has channels in a team only while being in the team stays so |
| Membership.DefaultChannelIsKept | app/channel.go:1819-1823 | Over any run, with any failures, nobody but a guest is removed from the default channel |
| Membership.StepTakesAway | app/channel.go:1812-1862 | Only the removal of a member takes that member away |
| Membership.RunStaysSound | app/channel.go:859-946 | Over any run of creating, adding, removing and role updates, nobody is guest and user at once and no explicit role is managed by a scheme |
| Membership.RolesChangeRow | app/channel.go:859-955 | Within a run, an update of roles touches the member's row alone, which then reads as asked for |
| Membership.App.SaveAndLogMember | app/channel.go:1135-1146 | The member is inserted, then the history row; a failure in between leaves the member |
| Membership.App.CreateChannel | app/channel.go:218-263 | Creates the channel and, if asked, its first member |
| Membership.App.CreateGroupChannel | app/channel.go:402-449 | Creates a group channel after its checks |
| Membership.App.JoinEach | app/channel.go:430-446 | Joins the users of a group one by one, up to the first failure |
| Membership.App.AddUserToChannel | app/channel.go:1153-1174 | Adds an active team member; others are refused |
| Membership.App.AddToChannel | app/channel.go:1094-1151 | Kind, existing membership and groups are checked before the member is saved with its flags |
| Membership.App.RemoveUserFromChannel | app/channel.go:1812-1862 | Removes the member and closes the history; guests may leave the team |
| Membership.App.LeaveTeamWithoutChannels | app/channel.go:1843-1856 | A guest without a channel that counts leaves the team |
| Membership.App.CountMemberships | store/sqlstore/channel_store.go:1932-1940 | Channels of the team and channels without a team count |
| ChannelRoles.RolesOutcome | app/channel.go:859-922 | When an update by names succeeds, in terms of the names alone, and the flags and explicit roles it gives |
| ChannelRoles.FirstUnusable | app/channel.go:877-902 | A failed update names the first role that is unknown or belongs to another scheme |
| ChannelRoles.SchemeTokensAreASet | app/channel.go:877-902 | Order and repetition of scheme-managed names among the others do not matter |
| ChannelRoles.RolesStaySound | app/channel.go:859-922 | A successful update by names keeps the guest flag, gives no guest who is a user, and no scheme-managed explicit role |
| ChannelRoles.SchemeRolesStaySound | app/channel.go:924-946 | So does an update by flags, but for the guest flag |
| ChannelRoles.ReadingUndoesStoring | store/sqlstore/channel_store.go:92-165 | A member is read back as stored exactly if no default role is among the explicit ones |
| ChannelRoles.ReadHasNoDefaults | store/sqlstore/channel_store.go:92-122 | Whatever is stored, no default role is read as an explicit one |
| ChannelRoles.OldRowsAreRead | store/sqlstore/channel_store.go:92-165 | A member stored before the migration, with default roles for flags, is read as the same member as after it |
| ChannelRoles.RolesUpdateKeepsSound | app/channel.go:859-922 | The update by names keeps the whole table sound, whether or not it succeeds |
| ChannelRoles.SchemeRolesUpdateKeepsSound | app/channel.go:924-955 | So does the update by flags |
| ChannelRoles.RolesUpdateWrites | app/channel.go:859-922 | When an update by names reaches the table, exactly; the row then reads as the member with the scheme roles named and the other names in order, read back or not; otherwise the table stays, and in no case is another row touched |
| ChannelRoles.SchemeRolesUpdateWrites | app/channel.go:924-955 | When an update by flags does, exactly; the row then reads as the member with exactly these flags and the explicit roles it had, before and after the migration |
| ChannelRoles.MigrationDecides | app/channel.go:936-941 | Before the migration an update by flags leaves no default role among the explicit ones, so that it is read back as stored; after it the explicit roles are not touched |
| ChannelRoles.RolesUpdateError | app/channel.go:859-915 | Which error an update by names ends with |
| ChannelRoles.RemoveRoles | app/role.go:99-117 | The names left, in order |
| ChannelRoles.MemberTable.UpdateChannelMemberRoles | app/channel.go:859-922 | The loop over the names, its errors in order, and the row written |
| ChannelRoles.MemberTable.UpdateChannelMemberSchemeRoles | app/channel.go:924-955 | The flags written, with the default roles removed before the migration |
| ChannelMoves.MoveOutcome | app/channel.go:2179-2221 | Without failures a move succeeds exactly if everybody left in the channel is in the new team |
| ChannelMoves.MoveEndsWith | app/channel.go:2179-2221 | How a move ends, with failures: which error is met, in the order of the calls |
| ChannelMoves.MoveDoes | app/channel.go:2179-2221 | A successful move puts the channel into the new team and changes nothing else of any channel; a failed one leaves the channels; users, teams and history stay |
| ChannelMoves.MoveTakesOut | app/channel.go:2179-2185 | Of all members exactly the deactivated ones of this channel go, if asked for |
| ChannelMoves.MoveKeepsHistory | app/channel.go:2179-2185 | The history agrees with the members afterwards exactly if the move does not take out a deactivated member |
| ChannelMoves.MoveLeavesStayOpen | app/channel.go:2179-2185 | One deactivated member is taken out and the stay is left open |
| ChannelMoves.MoveLeavesBehind | app/channel.go:2216-2219 | A move takes the place in the old team from exactly those members without another channel there |
| ChannelMoves.MoveLeavesGuestBehind | app/channel.go:2216-2219 | Moving the only channel of a guest away leaves the guest in the old team |
| ChannelMoves.MoveKeepsNewPlace | app/channel.go:2186-2209 | The place in the new team is kept |
| ChannelMoves.MoveChannel | app/channel.go:2179-2221 | The move, step by step, with its failures |
| Moderation.ReadableIff | app/channel.go:658-732 | The moderations of a channel can be read exactly if the channel and its team are known, the system's roles exist if the team has no scheme, and the migration has completed if the channel or the team has one |
| Moderation.SchemelessResolveAlike | app/channel.go:658-705 | Channels of a team without schemes of their own resolve alike, and have exactly what their team allows |
| Moderation.DroppedResolves | store/sqlstore/scheme_store.go:243-265 | Dropping a scheme makes exactly its channels resolve as their teams do |
| Moderation.PatchSucceedsIff | app/channel.go:735-822 | A patch succeeds exactly if the team's roles can be read, it switches on nothing they lack, there are roles to start from, and dropping the scheme or writing the roles, whichever it comes to, works |
| Moderation.RefusedPatch | app/channel.go:747-757 | A patch is refused exactly if it switches on a name that reading the channel's moderations does not show as enabled; managing members, never shown for guests, is judged by their role in the team |
| Moderation.ReturnedIsReread | app/channel.go:708-857 | What a successful patch returns is what reading through scheme resolution then returns |
| Moderation.PatchOutcome | app/channel.go:735-822 | After a successful patch the channel has a scheme of its own exactly if the patched roles differ from the team's in a moderated name, and resolves to these or to the team's |
| Moderation.ValueAfterPatch | model/role.go:193-244 | A name is on afterwards exactly if it was on and not switched off, or switched on |
| Moderation.BeyondTheTeam | app/channel.go:750-757 | A patch switches on only what the team has; a name the team lacks is on afterwards exactly if the role the patch started from had it and the patch does not switch it off |
| Moderation.EmptyPatchBringsBack | app/channel.go:760-766 | In a team whose scheme takes the right to post, a patch that asks for nothing brings it back to a channel without a scheme |
| Moderation.PatchedHas | model/role.go:193-244 | The same for one role |
| Moderation.OnlyModeratedSurvive | model/role.go:196-202 | A patched role has moderated permissions only |
| Moderation.PatchingIsIdempotent | model/role.go:193-244 | Patching a role twice is patching it once |
| Moderation.SwitchingOnGivesAll | model/role.go:224-236 | Switching a name on gives every permission under that name |
| Moderation.ModeratedAre | model/permission.go:648-662 | The six permissions that are moderated, under four names in the order in which they are shown |
| Moderation.OthersUnaffected | app/channel.go:735-822 | Every other channel that does not share the scheme keeps the roles it resolves to, whether or not the patch succeeds |
| Moderation.AdminsUnaffected | store/sqlstore/scheme_store.go:81-220 | Whether or not a patch succeeds, a channel with a scheme of its own has for its admins the role it had, or with a new scheme a copy of the system's |
| Moderation.RepeatedPatch | app/channel.go:735-822 | Repeating a patch changes nothing if the scheme was kept; a dropped scheme comes back exactly if the system's roles, patched, differ from the team's |
| Moderation.EmptyPatchDrops | app/channel.go:800-806 | From a channel whose scheme is like the team's, the same patch leads to that channel |
| Moderation.PatchKeepsWellFormed | app/channel.go:735-822 | Every patch, whatever fails, leaves schemes with roles of their own |
| Moderation.RunKeepsWellFormed | app/channel.go:735-822 | So does every run of patches |
| Moderation.ReturnedIsRereadAfterRuns | app/channel.go:708-857 | After any run of patches, a patch that succeeds returns what is read next |
| Moderation.ModeratedPermissions | model/role.go:175-190 | The moderated names of a role |
| Moderation.ModeratedChanged | model/role.go:137-172 | Nothing changed exactly if both roles have the same moderated names |
| Moderation.RolePatch | model/role.go:193-244 | The two loops compute the patched role |
| Moderation.BuildModerations | app/channel.go:824-857 | The list shown, without guests for the management of members |
| Moderation.PermissionStore.GetChannelModerationsForChannel | app/channel.go:708-732 | The moderations as resolved |
| Moderation.PermissionStore.CreateChannelScheme | store/sqlstore/scheme_store.go:81-220 | A new scheme copies the system's roles and becomes the channel's |
| Moderation.PermissionStore.PatchChannelModerationsForChannel | app/channel.go:735-822 | The patch, step by step, with its failures |
| ChannelProps.BatchEqualsAlone | app/channel.go:2262-2324 | A channel gets in a batch what it gets alone, except exactly if it carries old mentions, mentions nothing now, and another channel of its team in the batch does |
| ChannelProps.ShowsOwnTeamsOpenChannels | app/channel.go:2297-2320 | A channel of a team shows exactly the names in its header that are open live channels of its team, with their display names, whatever else is in the batch and whatever it showed before, unless nothing in the batch is mentioned and old mentions stay |
| ChannelProps.TeamlessShows | store/sqlstore/channel_store.go:1128-1134 | Likewise a channel without a team shows a name exactly if the last live row of that name, in any team, is open |
| ChannelProps.TeamlessLookupDependsOnRowOrder | store/sqlstore/channel_store.go:1128-1134 | Which team's channel that is depends on the order of the rows |
| ChannelProps.StaleMentionsStay | app/channel.go:2291-2320 | Alone, a header without mentions keeps old mentions; in a batch they are removed |
| ChannelProps.LookupIsByName | store/sqlstore/channel_store.go:1098-1155 | What a lookup returns for a name does not depend on the other names asked for |
| ChannelProps.OtherPropsKept | app/channel.go:2315-2319 | No other property changes |
| ChannelProps.CollectMentions | app/channel.go:2274-2289 | The names mentioned in a team, and those of each channel |
| ChannelProps.PickOpen | app/channel.go:2301-2313 | The open channels among one channel's names |
| ChannelProps.FillInTeam | app/channel.go:2273-2321 | One team: at most one lookup, and nothing changed if it fails |
| ChannelProps.FillInChannelsProps | app/channel.go:2266-2324 | The whole list, teams in any order: it fails exactly if the lookup of a team that mentions anything fails, and each team is then filled in completely or not at all |
| MemberCache.SessionCache.ClearChannelMembersCache | app/channel.go:2326-2352 | The members cleared, and exactly max(1, n - 98) fetches for n members if none fails |
| MemberCache.EveryMemberIsCleared | app/channel.go:2326-2352 | Every member is cleared, and exactly how often |
| MemberCache.TimesClearedFrom | app/channel.go:2326-2352 | The same from any page on |
| MemberCache.TimesClearedUntil | app/channel.go:2334-2338 | Where a fetch fails the loop ends, and the windows before it are cleared |
| MemberCache.TotalClearings | app/channel.go:2326-2352 | All clearings together |
| Bots.DisablingEndsIff | app/bot.go:168-199 | With the same faults each time, disabling the bots of an owner, with the deactivations inside deactivations, ends exactly if nobody the calls come to lies on a cycle of calls, and each of them has fewer than twenty bots that cannot be deactivated, or a list that cannot be read |
| Bots.EndedHasNoCycle | app/bot.go:168-199 | The one direction, for a call followed for any number of rounds |
| Bots.ProgressTerminates | app/bot.go:168-199 | The other, with faults that come and go: without cycles, and if every full page met loses a bot, the call ends within a number of rounds told from the bots |
| Bots.FewStuckProgress | app/bot.go:168-199 | Every full page loses a bot if fewer than twenty of each owner's cannot be deactivated |
| Bots.DisablingEndsIffNoCycle | app/user.go:909-932 | Nothing failing, the call ends exactly if no owner it comes to lies on a cycle of owners of active bots |
| Bots.NoCyclesIff | app/user.go:909-932 | As every bot has one owner, these calls come to a cycle only if they start on it |
| Bots.DisablingEndsForUsers | app/user.go:909-932 | So, nothing failing, the call ends for every user who is no bot |
| Bots.DisabledOutcome | app/bot.go:103-135 | Once it has ended, exactly those bots were deactivated that can be and are on the list of an owner the calls came to; no other bot is changed |
| Bots.DisabledOkIff | app/bot.go:168-199 | An error is reported exactly if the list cannot be read |
| Bots.UpdatedOutcome | app/bot.go:103-135 | Deactivating one bot deactivates, besides it, exactly the bots on the lists of those the call for it came to, and succeeds exactly if nothing fails for it |
| Bots.DisablingLeavesStuck | app/bot.go:168-199 | Of the bots of the owner, exactly those stay active that cannot be deactivated |
| Bots.SelfOwnedBot | model/bot.go:178-181 | Disabling the bots of a bot that owns itself never ends, though nothing fails |
| Bots.BotOfBot | app/user.go:927-929 | With a user's bot x, a bot owned by x is deactivated too |
| Bots.TwentyStuckBots | app/bot.go:168-199 | With twenty bots that cannot be deactivated it never ends |
| Bots.NineteenStuckBots | app/bot.go:168-199 | With nineteen it ends |
| Bots.MoreRoundsAgree | app/bot.go:168-199 | How a call ends does not depend on how long it is followed |
| Bots.DeactivatedList | app/bot.go:119-132 | Marking bots takes exactly these from the list of active ones |
| Bots.ListedIff | store/sqlstore/bot_store.go:120-176 | The list of an owner has exactly that owner's active bots, and without an owner all active bots |
| Bots.PlainBotUpdated | app/bot.go:103-135 | Deactivating a bot that owns no active bots takes exactly this one from the list of each owner |
| Bots.BotStore.UpdateBotActive | app/bot.go:103-135 | The user and the bot's own bots first, the row last, and nothing more after a failure |
| Bots.BotStore.DisablePage | app/bot.go:183-190 | The bots of a page are deactivated one after the other, whether or not one fails |
| Bots.BotStore.DisableUserBots | app/bot.go:168-199 | The loop does what its rounds say, up to a page that is not full or cannot be read |
| Bots.CollectPages | app/bot.go:210-253 | The pages joined are the whole list, and one fetch more than there are full pages is made |
| GroupMessage.ParsingUndoesPrinting | app/command_groupmsg.go:141-158 | Parsing "@u1,...,@un message" gives the users and the trimmed message back, exactly if that does not start with a comma |
| GroupMessage.ParsedOfOne | app/command_groupmsg.go:147-154 | The same for one user |
| GroupMessage.ParsedOfMore | app/command_groupmsg.go:145-156 | A user followed by a comma is one more user |
| GroupMessage.BeforeComma | app/command_groupmsg.go:147-150 | What lies before the first comma has a word exactly if the message is neither blank nor led by a comma |
| GroupMessage.MessageFrom | app/command_groupmsg.go:151-154 | Splitting the whole text anew finds the message where the loop stands |
| GroupMessage.SplitIsACut | app/command_groupmsg.go:144 | Splitting at commas loses nothing and leaves no comma in a piece |
| GroupMessage.SplitNIsACut | app/command_groupmsg.go:151 | Splitting into n pieces cuts at the first n - 1 commas |
| GroupMessage.SpacesAre | app/command_groupmsg.go:145 | White space is the 25 code points of Unicode's White_Space property |
| GroupMessage.GroupMsgUsernames | app/command_groupmsg.go:141-158 | The loop over all parts reads the text on from one comma to the next |
| Authorization.StoredButNotSession | app/authorization.go:37-160 | The stored user has a permission that the session lacks exactly through the system roles, for a channel that does not exist, or through the roles in the channel's team, which the user has left |
| Authorization.StoredImpliesSession | app/authorization.go:37-160 | For an existing channel the check of the stored user implies that of the session, except exactly where a row left behind in the team grants what nothing else does |
| Authorization.SessionButNotStored | app/authorization.go:37-160 | The converse fails exactly through the system roles, in a channel without a team or in a team in which the user has no row |
| Authorization.TeamChecksAgree | app/authorization.go:22-139 | The team checks differ exactly for users who have left the team, in favour of the stored user, and for users without a row, in favour of the session |
| Authorization.LeavingKeepsRoles | store/sqlstore/team_store.go:37-140 | Leaving a team keeps all roles that are read for the member, but for default names in a row not migrated yet that the team's scheme has replaced; a migrated row is read as before |
| Authorization.FlagsRead | store/sqlstore/team_store.go:64-95 | A default name in a row not migrated stands for a flag, which is what is stored again |
| Authorization.LeavingKeepsPermission | app/team.go:925-930 | So what the team's roles grant, the stored user still has in the channels of the team after leaving, and a new session exactly if there is another reason |
| Authorization.LeftTeamStillGrants | app/authorization.go:123-160 | One such user, without any other role |
| Authorization.MemberRolesAgree | app/authorization.go:37-160 | The first level of both channel checks agrees |
| Authorization.OnlyLiveRolesMatter | app/authorization.go:189-215 | Order, repetition and roles that are unknown, deleted or without the permission make no difference |
| Authorization.GrantedByRolesIff | app/authorization.go:189-215 | Roles grant a permission exactly if they can be read and one of them exists, is not deleted and has it |
| Authorization.SessionTeamGrantedIff | app/authorization.go:22-35 | A session has a permission in a team exactly through such a role, of the user or of the first entry for the team |
| Authorization.SessionChannelGrantedIff | app/authorization.go:37-65 | In a channel exactly through such a role of the member, or of its team, or of the user unless the channel is not found |
| Authorization.StoredTeamGrantedIff | app/authorization.go:123-139 | A stored user has a permission in a team exactly through such a role of its row there or of the user, and not without a row |
| Authorization.StoredChannelGrantedIff | app/authorization.go:141-160 | In a channel exactly through such a role of the member, or in its team, or of the user if the channel cannot be read |

## Assumptions

- Each operation of `Membership`, `ChannelRoles`, `ChannelMoves` and `Moderation` is atomic, with one clock reading per
  call in `Membership`, and in `Busy` up to where steps are apart. The steps of `EmailBatching` and `SecretAgreement`
  interleave freely.
- In the cluster of `Busy` a node makes a change only when it has received all earlier ones, and the callback of a timer
  runs at its deadline, in one piece; `Busy.ConcurrentSettingsCross` shows what happens without the former. In the single
  node with racing callbacks these are late but still in one piece; in the one with torn settings, where
  `Busy.BusyNodesHaveTimers` holds, every load and store of a caller and of a callback is a step of its own, in the order
  of the source, starting a timer and storing it included.
- Saving a system value is insert-only, as `store/sqlstore/system_store.go` has it; a replica that lags behind is a read
  that fails. Generated keys are accepted by their own check.
- Ids of new channels and schemes are never reused, and each scheme has roles of its own (`Moderation.WellFormed`).
  Which roles are managed by schemes does not change (`ChannelRoles.Catalogue`), and the default ones are.
- A log file does not change while it is read. The outcome of storing an uploaded file depends on the upload alone.
- The profile cache holds known users. The pages of the members of a channel, which the store does not order, are taken
  from one list that does not change meanwhile.
- The names a header mentions are a function of the header (`model/channel_mentions.go`), in any order and number.

## Left out

- Rendering and sending the e-mail after hand-off, and two overlapping runs of the periodic task: only the order of
  hand-off is modelled.
- `ensureInstallationDate` and `EnsureDiagnosticId`, which do not have the agreement of the two ensure functions.
- `GetLogs` over the nodes of a cluster, reading errors in the middle of a log file, and negative page sizes.
- Multipart and MIME parsing, the size limit of the form, and the simple one-file upload.
- The cluster transport of busy messages: delivery is in order for each node, at any time.
- Direct channels, joining the default channels, promoting and demoting guests, deleting channels, and updating members
  in parallel.
- Membership.App.CreateGroupChannel: an existing group of the same users is a failing save, because its name is a hash.
- Membership.App.AddUserToChannel: which users are in the groups of a channel is an input.
- ChannelMoves.MoveChannel: the check looks at ten million members at most in the code, at all of them in the model.
- ChannelRoles.ReadingUndoesStoring: the list of all roles shown for a member, which nothing here depends on.
- Moderation.PermissionStore.CreateChannelScheme: a scheme left behind when assigning it to the channel fails, and the
  roles of the team that the store also requires.
- Bots.BotStore.DisableUserBots: the methods are modelled where they end; when they do not is stated by
  Bots.DisablingEndsIff.
- Bots.BotStore.UpdateBotActive: the user record and the sessions of a bot but for their failures, and reactivation. The
  setting that disables bots with their owner is on, its default: without it nothing calls the loop.
- Authorization.RolesGrantPermission: reading roles fails as a whole in the model; the cache of roles drops the error
  instead and goes by the roles it holds (`store/localcachelayer/role_layer.go:44-60`).
- ChannelProps.FillInChannelsProps: the cache in front of the lookup, which may show a channel as it was some minutes ago.
- The rest of `DoCommand`, other slash commands, HTTP handlers, audit records, websocket events, plugin hooks and caches.

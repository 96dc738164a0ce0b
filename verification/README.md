# Verified model of the au10 service

The au10 service lets clients publish posts ("vocals") and follow logs and posts as streams. It is a set of
Go processes around Kafka topics and one Postgres database. This project models its concurrent protocols
and its publishing pipeline in Dafny and proves what holds of every run.

| file | what it models |
|---|---|
| `ReaderSpec.dfy` | a stream reader, one event of its select after the other |
| `ReaderProtocol.dfy` | the same reader as processes and channels: every action of serve, clients, claims, consume loop |
| `ReaderInvariant.dfy` | the inductive invariant of that protocol |
| `ReaderTheorems.dfy` | what holds of every run: responses, blocks of messages, no send on a closed channel, conservation |
| `ReaderErrors.dfy` | what subscriptions are told of the end of a stream |
| `ReaderStop.dfy` | when stopping the reader completes, and when it never does |
| `ReaderAnswer.dfy`, `ReaderDrain.dfy` | when a close request is answered, and when handing out blocks it for ever |
| `StreamReader.dfy` | the reader as a class, proved against `ReaderSpec` |
| `SubscriptionPump.dfy` | any number of subscription calls on the access point with their counters |
| `StreamWriter.dfy` | overlapping and non-overlapping synchronous pushes on one producer |
| `Posts.dfy`, `Convertor.dfy` | posts, and their way to and from protocol messages |
| `PostDb.dfy` | the tables, transactions, and the left join read back |
| `Publisher.dfy`, `PublisherRuns.dfy`, `Redelivery.dfy` | storing posts and chunks, the main loop, redelivery, faults and restarts |
| `EndToEnd.dfy` | from a client's request to the stored rows and back |
| `MessageChunks.dfy` | reading a message in chunks with a wrapping counter |
| `Access.dfy` | groups, users, tokens and allowed methods |
| `Options.dfy`, `Words.dfy`, `Sums.dfy` | optional values, uint32, sums of weights |

The protocols are labelled transition systems: `Enabled` and `Apply` give each atomic step, `Runs` and
`Exec` any interleaving of them, and the theorems quantify over all action sequences. A panic of Go is part
of the state (`fault`, `panicked`), so where it is absent that is proved and not assumed.

## What the code does that its callers may not expect

- A reader whose last subscription is closed a second time dereferences a nil consumer; with other
  subscriptions left the second close is harmless (`ReaderSpec.PanicsExactlyWhen`, `SecondClosePanics`).
- Closing a reader closes the channel its clients make requests on. A request under way at that moment, or
  made later, panics; with each subscription closed once nothing else does
  (`ReaderTheorems.FaultsExactlyWhen`, `RequestCanMeetClose`).
- `stop` waits inside the only goroutine that drains the channels the consume loop and the claims post to.
  `ReaderStop.CanFinish` is the exact condition under which it completes; a subscriber that closes while two
  records are in flight can leave the reader stuck for ever (`ReaderStop.DeadlockReachable`).
- Handing an item to a subscription blocks serve on a full posts channel, or on an error channel nobody reads.
  Once a pump has ended over a failed send, one more record fills the channel and the next one wedges serve:
  the close request of that very subscription is never taken, nor is anybody else's, and the call behind it
  never returns (`ReaderDrain.CloseDeadlockReachable`, `WedgedForEver`, `AnsweredExactlyWhen`).
- Overlapping pushes can swap their results, so a client can be told the ID of another client's post
  (`StreamWriter.OverlappingCallsSwap`), and results are safe from that exactly while at most one call
  waits for one (`StreamWriter.OwnExactlyWhenAlone`).
- A post without messages whose first commit loses its answer is stored and never announced, in no later life
  of the publisher either (`Redelivery.AnnouncedExactlyWhen`, `LostAnswerIsNeverAnnounced`).
- `storeMessage` passes post and message ID the wrong way round, and message data starts as NULL, to which
  appending gives NULL: no chunk is ever stored (`PublisherRuns.ChunksNeverStored`,
  `Publisher.ChunkStoredExactlyWhen`).
- The read loop of `ReadMessage` sends size / chunk + 1 chunks exactly when its uint32 counter passes the
  size before it wraps (`MessageChunks.RoundsExactlyWhen`). Otherwise it goes on, and it ends at all exactly
  when size plus the lowest bit of the chunk size is below 2^32 (`MessageChunks.EndsExactlyWhen`).
- The allowed-methods flag for the log asks the log, the request itself asks the log reader; the flag is
  right for everybody exactly because both have the same membership (`Access.LogFlagPredictsExactlyWhen`).

## Environment

Sarama, pgx, gRPC and JSON enter as small contracts: an append-only log whose offsets are its positions, a
consumer that may deliver any earlier record again, a publisher that may be killed and restarted on the same
tables at any point (before a commit as a failing statement, after it as a lost answer), claims whose channels the broker closes after a
cancellation, tables with the keys of `postdb/init.sql`, a commit that may fail or whose answer may be lost,
and a lossless encoding. What the outside decides (whether a consumer opens, which select case is picked,
what Consume returns, which statements fail, the order of joined rows) is a parameter or a free choice.
A commit that reports an error may or may not have taken effect; both are covered.

## Model

| member | source | states |
|---|---|---|
| ReaderSpec.LifecycleHolds | au10/streamreader.go:164-181 | back at its select the reader has a consumer exactly when it has subscribers, and starts and stops alternate |
| ReaderSpec.PanicsExactlyWhen | au10/streamreader.go:176-181 | which event makes stop meet a nil consumer: a repeated request of a closed subscription when no other is left, and no other event |
| ReaderSpec.SecondClosePanics | au10/streamreader.go:176-181 | an input that does so: the only subscription closed twice |
| ReaderSpec.FailedStartChangesNothing | au10/streamreader.go:164-174 | a consumer that fails to open leaves all state as it was and is reported to the requester |
| ReaderSpec.OutcomesExactly | au10/streamreader.go:129-144 | which event is answered with a failed start, which with an acceptance, and which with nothing |
| ReaderSpec.RepliesAnswerRequests | au10/streamreader.go:129-144 | the k-th response is addressed to whoever made the k-th request |
| ReaderSpec.DeliveredIsWindow | au10/streamreader.go:145-152 | a subscriber is handed exactly the contiguous block of items between its subscribe and its unsubscribe |
| ReaderSpec.WindowExists | au10/streamreader.go:135-152 | whoever was accepted has such a block, whoever was not has been handed nothing |
| ReaderInvariant.InvKept | au10/streamreader.go:126-261 | every action of every process keeps the protocol invariant |
| ReaderTheorems.FaultsExactlyWhen | au10/streamreader.go:101-112 | a run panics if and only if a request is under way when the reader closes its channels, or is made afterwards |
| ReaderTheorems.SendsOnlyOnOpen | au10/streamreader.go:145-152 | in every run items are handed only to subscriptions whose channels are open, and nobody is left to send on a closed channel of the reader |
| ReaderTheorems.ClosedSendsPanic | au10/posts.go:94-100 | a send on a closed channel and a stop without a consumer are panics |
| ReaderTheorems.NeverPanics | au10/posts.go:68-100 | if all requests end before the reader is closed, nobody ever sends on a closed channel or stops a reader without a consumer |
| ReaderTheorems.RequestCanMeetClose | au10/streamreader.go:183-187 | a concrete run in which closing the request channel panics a client parked on it |
| ReaderTheorems.ResponsesMatchRequests | au10/streamreader.go:183-187 | at most one requester awaits a response on the shared channels, and each receives the outcome of its own request |
| ReaderTheorems.Linearizable | au10/streamreader.go:126-155 | every concurrent run equals handling its select cases one by one |
| ReaderTheorems.EachSubscriberGetsItsBlock | au10/streamreader.go:145-152 | at every moment a subscriber has its block of items, less at most the one being dispatched |
| ReaderTheorems.NothingAfterClose | au10/posts.go:94-100 | once the unsubscribe inside Close has returned, nothing more reaches that subscription in any continuation |
| ReaderTheorems.TakenIsPrefix | au10/streamreader.go:58-58 | messages are taken in the order they were enqueued, and at most one is enqueued and not taken |
| ReaderTheorems.ClaimConservation | au10/streamreader.go:50-62 | per claim, records are enqueued in order once each and marked but for at most the last; one that fails to convert is not marked, all before it are |
| ReaderTheorems.MarkedIsTaken | au10/streamreader.go:58-59 | across all claims at most one marked message has not been taken |
| ReaderTheorems.ConsumerLifecycle | au10/streamreader.go:189-261 | consumer open exactly with subscribers, starts and stops alternate, each consume loop posts one error value and never a second, and both goroutines of a consumer live as long as it does |
| ReaderErrors.ErrorsAreEndings | au10/streamreader.go:227-242 | in every run the error values taken, in the channel and about to be posted are in order those of the Consume results that ended a loop: a broker's error as itself, nil for a closed group, a cancellation, and no error once stopping |
| ReaderErrors.SessionGoesOn | au10/streamreader.go:228-233 | no error before stop tells nobody anything and Consume is called again; any other result is about to be posted as its value |
| ReaderErrors.ToldIsWhatHappened | au10/streamreader.go:145-152 | the messages a subscription gets are a contiguous stretch of those enqueued, the errors it gets one of those values |
| ReaderTheorems.ChannelsCloseLast | au10/streamreader.go:101-112 | when the reader closes its channels every goroutine that sends on them has ended |
| ReaderStop.DemandStep | au10/streamreader.go:50-62 | while serve is in stop, messages buffered plus messages pending change only by what the broker adds |
| ReaderStop.MeasureStep | au10/streamreader.go:200-261 | every step of claims, consume loop, errors goroutine and serve during stop decreases one measure |
| ReaderStop.NeverStuck | au10/streamreader.go:250-261 | under the condition some process can always move until stop is done |
| ReaderStop.EveryScheduleFinishes | au10/streamreader.go:250-261 | under the condition the inner steps of every schedule are bounded, none gets stuck, and it is at its end exactly when both barriers are released and the consumer is gone |
| ReaderStop.StuckForEver | au10/streamreader.go:250-261 | without the condition no continuation whatever gets past the first barrier |
| ReaderStop.StopCompletesExactlyWhen | au10/streamreader.go:250-261 | stop can complete if and only if the condition holds on entry |
| ReaderStop.WholeLife | au10/streamreader.go:101-124 | a concrete run from the first subscription to the last closed channel without a panic |
| ReaderStop.DeadlockReachable | au10/streamreader.go:176-181 | a concrete run after which stop never completes |
| ReaderDrain.AnsweredExactlyWhen | au10/streamreader.go:126-187 | a close request can still be answered, without new requests or records, if and only if serve is neither wedged nor closing and the subscription is not the last or what is under way can be placed |
| ReaderDrain.WedgedForEver | au10/streamreader.go:145-152 | a serve that hands an item to a full channel nobody reads takes no request of anybody any more, in any continuation |
| ReaderDrain.CloseDeadlockReachable | au10/posts.go:70-77 | a concrete run: a pump that ended over a failed send, and a close request that is never taken |
| StreamReaders.StreamReader.HandleRequest | au10/streamreader.go:129-144 | the request case is one step of the sequential view |
| StreamReaders.StreamReader.Dispatch | au10/streamreader.go:145-152 | the message and error cases hand the item to exactly the current subscriptions |
| StreamReaders.StreamReader.Serve | au10/streamreader.go:126-155 | the loop computes the sequential view of the events it takes |
| SubscriptionPump.StepAgrees | accesspoint/lib/clientsubscription.go:123-169 | every step of a call keeps what pump, channel, barrier and result promise each other |
| SubscriptionPump.PumpPostsOnce | accesspoint/lib/clientsubscription.go:128-140 | the pump posts one value, always has room and an open channel for it, and has ended before the channel is closed |
| SubscriptionPump.ReturnsWhatWasChosen | accesspoint/lib/clientsubscription.go:148-168 | a call returns an error exactly when its select chose a pump value that is one |
| SubscriptionPump.PostedIsWhatArrived | accesspoint/lib/clientsubscription.go:40-51 | in every run the pump stops at the first closed channel, error value, or record that fails to convert or to send, posts just the value of that, and a call that takes it returns it |
| SubscriptionPump.GlobalIsSum | accesspoint/lib/clientsubscription.go:142-160 | modulo 2^32 the global counter is the sum of both kinds and the calls inside a register or unregister window |
| SubscriptionPump.CountersReturn | accesspoint/lib/service.go:105-111 | when all calls have returned every counter is back at its start |
| SubscriptionPump.LeavingCallReturns | accesspoint/lib/clientsubscription.go:148-169 | under every schedule of its own steps a call that is cancelled, or whose pump has ended, returns if the reader answers its close request, and otherwise ends up waiting for just that answer |
| SubscriptionPump.RunPump | accesspoint/lib/clientsubscription.go:131-140 | the loop stops at the first arrival that is a closed channel, a value of the error channel, or a record that fails to convert or to send, and posts nil, that value, or that error |
| SubscriptionPump.SubscriberCounter.Register | accesspoint/lib/service.go:105-107 | keeps the wrapping counter equal, modulo 2^32, to an unbounded count of registrations less unregistrations |
| SubscriptionPump.SubscriberCounter.Unregister | accesspoint/lib/service.go:109-111 | keeps it so although it adds all ones instead of subtracting |
| SubscriptionPump.RunSubscription | accesspoint/lib/clientsubscription.go:123-169 | a lone call leaves both counters as found and returns the value of the arrival that stopped its pump, unless a cancellation is picked; what it does is a run of the protocol |
| StreamWriter.OutcomesConsumedOnce | au10/streamwriter.go:124-138 | with any overlap no outcome is consumed by two calls |
| StreamWriter.PushedIdsDistinct | au10/streamwriter.go:133-137 | two successful calls stand for two offsets, and their IDs differ while the log fits uint32 |
| StreamWriter.ConservedKept | au10/streamwriter.go:119-138 | on an open writer undecided messages plus untaken outcomes equal the waiting calls |
| StreamWriter.ResultsExactly | au10/streamwriter.go:115-138 | for every overlap a call returns the place of the stored message it took, or the error the broker gave the refused one; without one it could not serialize, or the writer was closed |
| StreamWriter.LogIsWritten | au10/streamwriter.go:119-122 | the log has one entry for each stored message and each foreign write, at its place |
| StreamWriter.WaitingCanReturn | au10/streamwriter.go:124-138 | no call waits in vain: two steps at most bring it to its return |
| StreamWriter.OwnOutcome | au10/streamwriter.go:112-139 | when calls do not overlap, each on an open writer returns its own place exactly if its message was stored and its own error exactly if it was refused |
| StreamWriter.ForeignTakesPlace | au10/streamwriter.go:133-137 | a concrete run in which another producer's write moves the place |
| StreamWriter.TwoWaitingMix | au10/streamwriter.go:124-138 | whenever two calls wait on an open writer, in any state the invariants allow, at most two more steps hand one of them another's outcome |
| StreamWriter.OwnExactlyWhenAlone | au10/streamwriter.go:112-139 | in every run of an open writer calls never overlap if and only if at no moment an outcome could still go to another call than its own |
| StreamWriter.OverlappingCallsSwap | au10/streamwriter.go:124-138 | a concrete run in which two calls exchange their results |
| Posts.NewNewVocal | au10/post.go:58-75 | numbers the declared messages from zero and keeps author, location, kinds and sizes |
| Posts.NumberedDistinct | au10/post.go:68-73 | message IDs are distinct exactly when a uint32 can tell them apart |
| Posts.NewDbVocal | au10/post.go:77-103 | reads a record back unless a kind is unknown, and then names the first such kind |
| PostDb.DbTrans.InsertPost | postdb/db.go:104-111 | fails exactly if the statement does or the key is taken; else the post has its row, all other rows are as before, and the schema holds |
| PostDb.DbTrans.InsertMessage | postdb/db.go:113-118 | which of range, key and foreign key stops it; else the message has its row with NULL data, all else is as before, and the schema holds |
| PostDb.DbTrans.AppendMessage | postdb/db.go:120-125 | the addressed row's data grows by the chunk, NULL stays NULL, kinds, sizes, keys and all other rows stay |
| PostDb.DbTrans.Commit | postdb/db.go:77-86 | publishes the copy and clears the transaction only on a clean answer |
| PostDb.DbTrans.Rollback | postdb/db.go:88-102 | leaves the tables alone, and failing at it after no commit is fatal |
| PostDb.GetPost | postdb/db.go:146-186 | folds joined rows into the author of the first and the messages of all |
| PostDb.JoinReadsTables | postdb/db.go:146-186 | for every order of the left join the fold finds exactly the stored posts with their messages once each, and none for the null row |
| Publisher.InsertMessages | publisher/main.go:151-157 | inserts all messages, or reports the first that cannot be |
| Publisher.StorePost | publisher/main.go:138-159 | all or nothing over inserts, commit and rollback, with the exact condition of success and of a fatal rollback |
| Publisher.StoredHolds | publisher/main.go:138-159 | a stored post is in the tables with its author, location and exactly its messages |
| Publisher.HeldReadsBack | au10/query.go:26-32 | it reads back with its author and its messages as a set, in any row order |
| Publisher.GetVocal | au10/query.go:26-32 | a post reads back exactly when it is stored, all its messages are text, and the query does not fail |
| Publisher.CheckMessage | publisher/main.go:161-180 | a chunk passes exactly with rights on posts and post and a post that is read; lack of rights blocks, a post or user not found does not |
| Publisher.StoreMessage | publisher/main.go:182-193 | the append with the swapped IDs, all or nothing |
| Publisher.ChunkStoredExactlyWhen | publisher/main.go:182-193 | a chunk reaches its own message if and only if both IDs are equal and the message already has data |
| PublisherRuns.Process.HandlePost | publisher/main.go:92-105 | stores a post and announces it if that succeeded and it has no messages |
| PublisherRuns.Process.HandleChunk | publisher/main.go:107-126 | checks a chunk, then stores it, blocks its author, exactly the one without rights, or drops it |
| PublisherRuns.BlockedExactly | publisher/main.go:111-118 | over all lives exactly the users of chunks that posts or a readable post do not allow are blocked, in order |
| PublisherRuns.BlockingIsAll | publisher/main.go:111-118 | blocking a user changes neither tables nor announcements |
| PublisherRuns.EndedExactlyWhen | publisher/main.go:84-135 | which inputs end a life: a closed or failing stream, or a failed rollback where something was to roll back |
| PublisherRuns.Process.MainLoop | publisher/main.go:84-135 | the loop computes the fold of its inputs up to the first that ends it |
| PublisherRuns.NextLife | publisher/main.go:84-135 | a run goes on after a restart as a new process would that starts its main loop on the tables it finds |
| PublisherRuns.StoredPostsAreStable | publisher/main.go:107-126 | no later posts or chunks change the author or message set a stored post reads back with |
| PublisherRuns.AnnouncedOnce | publisher/main.go:92-105 | each announced post is committed, declares no messages, and is announced once, over any redelivery, faults and restarts |
| PublisherRuns.AnnouncementFollowsCommit | publisher/main.go:92-105 | an announcement is made by the step that first stored the post |
| PublisherRuns.ChunksNeverStored | publisher/main.go:182-193 | in every state reachable over any lives of the process all message data is NULL |
| Redelivery.RedeliveryIsIdempotent | publisher/main.go:138-159 | reading log entries again, however often, gives the tables of reading each once |
| Redelivery.StoredExactlyWhenTried | publisher/main.go:138-159 | with faults, chunks and restarts, an entry is stored whole exactly when it can be and some attempt in some life became durable |
| Redelivery.SameTriesSameTables | publisher/main.go:84-135 | the tables depend on nothing but the set of durably tried entries |
| Redelivery.AnnouncedExactlyWhen | publisher/main.go:92-105 | over all lives, an entry is announced if and only if it declares no messages and its first attempt that became durable also reported success |
| Redelivery.LostAnswerIsNeverAnnounced | postdb/db.go:77-98 | a concrete run: a lost answer, a restart and a redelivery, and the post is stored and not announced |
| Redelivery.StoredPostsAreEntries | au10/publisher.go:122-128 | each stored post owns exactly the message IDs below its number of declared messages, all text with the declared sizes |
| EndToEnd.AddVocal | accesspoint/lib/client.go:171-201 | the declaration pushed, with the requesting user for author, the response to it, and which check fails first otherwise |
| EndToEnd.WriteMessageChunk | accesspoint/lib/client.go:203-257 | which chunks are accepted under which parsed IDs |
| EndToEnd.ClientAndPublisherAgree | au10/publisher.go:73-80 | for non-overlapping pushes the client's vocal and the one the publisher makes of that very push are the same |
| EndToEnd.StoredUnderResponseIds | accesspoint/lib/convertor.go:57-65 | the decimal IDs of the response parse back to exactly the keys of the inserted rows |
| EndToEnd.RequestToTables | au10/publisher.go:122-128 | from request through push, log and any run of the publisher, restarts included, to the reader: stored exactly when some attempt became durable, under the IDs of the response, and read back as declared |
| EndToEnd.ChunkPassesAndIsLost | publisher/main.go:161-193 | a chunk for a stored message under the response's own IDs passes every check unless reading the post fails, and changes nothing |
| Convertor.IdRoundTrip | accesspoint/lib/convertor.go:43-59 | every ID survives formatting and parsing |
| Convertor.FirstErrorStays | accesspoint/lib/convertor.go:43-49 | the error out-parameter keeps the first error |
| Convertor.AcceptedIds | accesspoint/lib/convertor.go:43-49 | a text is an ID exactly when it is a decimal number below 2^32, out of range exactly when some leading digits are, and formats back to itself exactly without superfluous zeros |
| Convertor.MessagesDeclarationFromProto | accesspoint/lib/convertor.go:121-132 | converts all declarations or stops at the first unknown kind with nothing |
| Convertor.VocalToProto | accesspoint/lib/convertor.go:141-152 | shows every message and keeps the first kind error |
| MessageChunks.RoundsExactlyWhen | accesspoint/lib/client.go:156-156 | the loop makes size / chunk + 1 rounds if and only if its counter does not wrap before passing the size |
| MessageChunks.EndsExactlyWhen | accesspoint/lib/client.go:156-156 | the loop ends at all if and only if the chunk size is not zero and size plus its lowest bit is below 2^32 |
| MessageChunks.PartsAreSplit | accesspoint/lib/client.go:153-168 | the first size / chunk + 1 rounds send the split message, wherever the loop ends |
| MessageChunks.SmallSizesFit | accesspoint/lib/client.go:153-156 | sizes up to 2^32 - 1 - chunk are safe |
| MessageChunks.SplitIsContent | accesspoint/lib/client.go:153-168 | the chunks concatenate to the content, their number is size / chunk + 1 and only the last is not full |
| MessageChunks.ReadMessage | accesspoint/lib/client.go:153-168 | what the loop sends at every wrapping offset until its end or the first failing load or send, and that a complete run is the message exactly when the counter fits |
| Access.IsAllowed | au10/group.go:47-66 | allowed exactly if everything is, or some right covers the membership in name and domain |
| Access.Users.NewUser | au10/users.go:49-65 | adds the user under its login unless an error came first |
| Access.Users.GetUser | au10/users.go:86-93 | finds a user with the ID if there is one |
| Access.TokenRoundTrip | au10/users.go:69-76 | an issued token finds its user |
| Access.OnlyIssuedTokens | au10/users.go:105-114 | no other token finds anybody |
| Access.DistinctTokens | au10/users.go:69-76 | distinct logins get distinct tokens |
| Access.Client.Auth | accesspoint/lib/client.go:112-126 | switches to the authenticated user, and a wrong login changes nothing |
| Access.Client.ServeAuth | accesspoint/lib/service.go:120-146 | token and flags of the response belong to the user the client ends with |
| Access.Client.constructor | accesspoint/lib/service.go:198-218 | a request runs as the user whose token is its only auth value, and in every other case as the default user |
| Access.AuthThenRequest | accesspoint/lib/service.go:198-218 | a request after Auth runs as the user of the login, or as before if there is none, and the flags predict its permission checks |
| Access.LogFlagPredictsExactlyWhen | accesspoint/lib/client.go:286-292 | the flag for the log is right for all rights if and only if log and log reader share one membership |

## Left out

- MessageChunks.ReadMessage: watches the loop for a given number of rounds, since by EndsExactlyWhen it may go on for ever.
- Access.AuthThenRequest: promises the log flag only where log and log reader have the same membership, as both constructors give them; LogFlagPredictsExactlyWhen shows that nothing less will do.
- EndToEnd.RequestToTables: stated for pushes that do not overlap, since overlapping ones can be swapped, and for a log that uint32 offsets can number.
- ReaderStop.EveryScheduleFinishes: assumes that the broker feeds a cancelled claim nothing more; StuckForEver does not.
- ReaderTheorems.NeverPanics: asks of callers that requests end before the reader is closed, which nothing in the code enforces; FaultsExactlyWhen holds without that.
- StreamReaders.StreamReader.Stop: does not block; which waits end, and when, is proved of the protocol in ReaderStop.
- SubscriptionPump.RunPump: the arrivals are given, what the records and error channels of a subscription do is up to the reader protocol.
- SubscriptionPump.LeavingCallReturns: whether the answer comes is its parameter; for posts AnsweredExactlyWhen says when it can, for the log no claim is made.
- ReaderDrain.AnsweredExactlyWhen: says that an answer can come, not that it does; which ready case the select picks is left to the run.
- StreamReaders.StreamReader is sequential: received items do not fill a channel there; the protocol has the channels.
- A reader that is closed twice.
- The reader, pump and writer protocols are on values, one record per process; the class StreamReader and the counter class carry the in-place updates.
- Log and publisher streams close their record channel before they unsubscribe (au10/log.go:197-203, au10/publisher.go:144-151); no closing claim is made for them.
- PushAsync, closing a producer with calls under way beyond the "stream closed" results, and the producer-errors goroutine.
- Rows cut short by a connection that breaks while GetPost reads: the loop does not ask for that error.
- Timestamps, and the location GetVocal returns, which is always zero because the query does not select it.
- Request IDs, log texts, RPC status texts, severity names, metadata internals, gRPC headers that fail to be sent.
- GetAll, FindUser, the fixed user list, the command-line client, service dialling, proxy and build files.

# Verified model of a Go service kit

This project models, in Dafny, the parts of a Go service kit whose behaviour spans several
functions or several processes, and proves what they promise:

* **The Kafka consumer** (`pkg/stream/consumer`). `CommitProtocol` is the system of a broker with
  any number of partitions, a consumer process that may crash at any point and restart from the
  committed offsets, and an observer that records every read, settlement and commit.
  `CommitGuarantees` proves at-least-once delivery, a bound on duplicates, order, and that every
  message can still be committed from every reachable state. `Handshake` is the shutdown protocol
  of the poll loop, the goroutine a failed loop leaves behind, and any number of `Shutdown`
  callers; `HandshakeGuarantees` proves conservation of its tokens, safety of `Close`, and
  progress. `ConsumerSystem` runs the first inside the second. How a message may be settled is a
  parameter of the protocol; `Processing` says what processing one message comes to and gives the
  consumer's own rule, `Rounds` composes polls, loops and whole processes, and `Consumer` holds
  the methods themselves, proved to make only steps of the protocol, one process after another.
* **Messages and dead letters** (`pkg/stream`, `pkg/stream/dispatcher`): `Message`, `Dispatcher`,
  `DeadLetters`, `Retry`.
* **Context-scoped transactions** (`pkg/database/sql`): `Transactions` gives programs of
  statements and nested `TransactionContext` calls a meaning; `Connection` is the mutable database
  and connection, proved to do what programs mean; `SqlErrors` is the translation of driver
  errors over `GoErrors`, a model of Go's error chains.
* **The upsert compiler** (`pkg/database/sql/upsert`): `Columns`, `Upsert`, `UpsertGuarantees`.
* **Two small pieces**: `Graceful` (`pkg/shutdown`), and `Sequence` with `Decimal` (`pkg/gen`).

What the environment decides (driver errors, delivery reports, the handler's answers, the server's
fate of a `COMMIT`, the clock) is an argument that the theorems quantify over. A loop that runs
until the process is told to stop is modelled over an arbitrary finite number of rounds.

## Assumptions about the environment

* The group has one member, so there is no rebalance; reads of a partition are in order and without
  gaps from where the process started; committing the message at offset `o` stores `o + 1`; a
  fresh group starts at offset 0 and no log is truncated.
* A commit may report an error after the broker stored it.
* JSON decodes what it encoded, for the values sent; the `%v` verb prints a string as itself.
* `backoff.Retry` calls the operation at once and then after each wait its policy grants; the
  policy stops before a wait that would exceed a positive `MaxElapsedTime`.
* A transaction sees the committed data under its own writes; a failed `COMMIT` may have been
  applied. As in PostgreSQL, a statement that the server refuses (a driver error) aborts its
  transaction: every later statement of it is refused with code 25P02, and its commit ends in a
  rollback that the driver reports as an error. An error of the client alone, such as one of
  reading the rows, aborts nothing.
* The statement builder writes columns in sorted order, numbers `?` from left to right over the
  whole text, and puts the suffix after the insert, as its tests show.

## Where the code and its documentation differ

The model follows the code.

* `Begin` returns the driver's error as it came, while `doc.go` says driver errors are translated
  (`Transactions.BeginErrorIsNotTranslated`); `Transactions.DriverErrorIsVisible` says exactly when
  a caller can see one.
* A content-type header with an unknown value does not end the search of `NewMessageType`, so the
  type is unknown only when no header at all is recognised
  (`Message.MessageTypeIsFirstRecognised`).
* Not only handled messages are committed: skipped and dead-lettered ones are too
  (`Processing.OutcomeIsExact`).
* With `MaxElapsedTime` 0 a retry sequence is never abandoned: it ends if and only if an attempt
  succeeds (`Retry.UnboundedRetries`).
* A second `Shutdown` call never returns (`HandshakeGuarantees.StuckMeansClosed` for every run,
  `HandshakeGuarantees.SecondCallerCanBlock` for one).
* A `Transaction` that `Begin` did not make, put in a context, hides an open one and sends
  statements to the pool (`Connection.NearestTransactionWins`).
* A body that goes on after the server refused a statement, and returns nil, does not commit:
  `Transactions.FlatTransaction` says exactly when a body does in a transaction what it does
  directly on the pool, `Transactions.GoingOnAfterAnError` shows one that does not.
* Constraints given without a conflict action appear nowhere in the statement
  (`UpsertGuarantees.BuildReadsBack`), and a `?` inside a name is numbered as a placeholder
  (`UpsertGuarantees.QueryText`, for names without `??`, which the statement builder reads as an
  escaped `?`).
* The strings of `SequenceGenerator` repeat after 2^64 calls, and only then
  (`Sequence.RepeatsAfterWrapAround`).

## Model

| member | source | states |
|---|---|---|
| CommitProtocol.NextInv | pkg/stream/consumer/consumer.go:254-290 | every step of broker, process or crash keeps the invariant: at most one message read and uncommitted, a well-shaped history, each committed offset equal to the number of commits stored, and each settlement one that the message at its offset can come to |
| CommitProtocol.RunInv | pkg/stream/consumer/consumer.go:98-126 | the invariant holds after every run, whatever fails and restarts |
| CommitProtocol.NextPositions | pkg/stream/consumer/consumer.go:277-285 | read positions are ahead of the committed offsets by one message of one partition at most, in every phase |
| CommitProtocol.CountedNext | pkg/stream/consumer/consumer.go:282-285 | a step moves a committed offset exactly when it stores a commit of that partition, also when the consumer is told of an error |
| CommitProtocol.ObservedFits | pkg/stream/consumer/consumer.go:254-290 | only a settled message is committed, only a read one is settled, and reads and commits are at the partition's next offset |
| CommitProtocol.NextJustified | pkg/stream/consumer/consumer.go:277-285 | a step settles only the message in flight, in a way that message allows, and settlements stay justified as logs grow |
| CommitGuarantees.AtLeastOnce | pkg/stream/consumer/doc.go:20-29 | in every reachable state each offset below a committed offset was read, then settled as the message at that offset can be, then committed, by one incarnation; for every rule of settling |
| CommitGuarantees.CommittedSettled | pkg/stream/consumer/consumer.go:140-179 | the same of any state that keeps the invariant, for all partitions and offsets at once |
| CommitGuarantees.SettledInOrder | pkg/stream/consumer/consumer.go:254-290 | when a message is settled every earlier one of its partition already was |
| CommitGuarantees.OneMessageAhead | pkg/stream/consumer/consumer.go:106-120 | over all partitions at most one message is read and not committed, none between two polls |
| CommitGuarantees.CommittedNeverGoesBack | pkg/stream/consumer/consumer.go:282-285 | committed offsets only grow, and never beyond the log |
| CommitGuarantees.FailureFreezes | pkg/stream/consumer/consumer.go:114-118 | after a failure nothing is read, settled or committed until a restart, and the failure stays the one recorded |
| CommitGuarantees.ProcessedOncePerCommit | pkg/stream/consumer/consumer.go:277-285 | conservation per message: its completed processings are its stored commit, the pending one, and those wasted by a failure or crash |
| CommitGuarantees.DuplicateBound | pkg/stream/consumer/consumer.go:106-120 | completed processings lie between the sum of the committed offsets and that sum plus the number of incarnations |
| CommitGuarantees.EveryMessageCanBeCommitted | pkg/stream/consumer/consumer.go:98-126 | from every state that keeps the invariant some continuation commits any given message, if it and the uncommitted ones before it can be settled |
| CommitGuarantees.UnsettleableIsNeverCommitted | pkg/stream/consumer/consumer.go:277-285 | conversely, a message that nothing can settle is never passed by a commit |
| CommitGuarantees.CanBecomeIdle | pkg/stream/consumer/client.go:54-58 | a restart resumes every partition without losing log or committed offset |
| Handshake.NextInv | pkg/stream/consumer/consumer.go:103-134 | every step of loop, helper or caller keeps the token accounting, the wait group and the reported error right |
| HandshakeGuarantees.TokensAreConserved | pkg/stream/consumer/consumer.go:87-89 | for any number of callers: tokens are neither lost nor made up, `shutdownFinished` is sent once at most, the client is closed once at most, no channel ever holds more than one |
| HandshakeGuarantees.CloseOnlyAfterTheLoop | pkg/stream/consumer/consumer.go:301-307 | a caller closes only after the loop and its helper are done, and no other caller closes |
| HandshakeGuarantees.ExitedForGood | pkg/stream/consumer/consumer.go:106-120 | a loop that returned never polls again |
| HandshakeGuarantees.FailureIsReportedOnce | pkg/stream/consumer/consumer.go:128-138 | the listener is sent exactly the loop's error, once, and no send or wait of loop and helper ever blocks |
| HandshakeGuarantees.ShutdownIsBounded | pkg/stream/consumer/consumer.go:301-307 | after one caller's token no poll starts, and all goroutines together take a bounded number of steps |
| HandshakeGuarantees.StuckMeansClosed | pkg/stream/consumer/consumer.go:301-307 | the only states in which nothing moves have the loop returned, the client closed by one call, every other call blocked |
| HandshakeGuarantees.ShutdownCompletes | pkg/stream/consumer/doc.go:15-18 | every maximal run after the first token ends with the client closed once; a single caller returns |
| HandshakeGuarantees.SecondCallerCanBlock | pkg/stream/consumer/consumer.go:301-307 | a run of two callers and no failure that leaves one of them blocked for ever |
| ConsumerSystem.SystemRefinesProtocol | pkg/stream/consumer/consumer.go:103-126 | every run of goroutines, messages and restarts is a run of the commit protocol |
| ConsumerSystem.SystemLosesNothing | pkg/stream/consumer/doc.go:15-22 | at-least-once for the whole system with shutdowns and restarts: what is committed was settled as its message can be |
| ConsumerSystem.DrainedBeforeClose | pkg/stream/consumer/doc.go:15-18 | when the client is closed no message is in flight and none can be read; without failure all that was read is committed, after one the listener was sent exactly that error |
| ConsumerSystem.FirstFailureFreezes | pkg/stream/consumer/consumer.go:114-134 | after the first failure the process reads, settles and commits nothing more and reports nothing else |
| ConsumerSystem.CoupledNext | pkg/stream/consumer/consumer.go:112-118 | outside `readMessage` the protocol is between two polls, or stopped by the loop's failure |
| Consumer.Consumer.Run | pkg/stream/consumer/consumer.go:98-126 | from any sound state, first start or restart, subscribing, resuming and polling leads to the state and the handler calls, dispatches and dead letters of exactly its rounds; the result is sound and everything committed was settled; a failed subscription changes nothing |
| Consumer.Consumer.constructor | pkg/stream/consumer/consumer.go:81-95 | a new process takes over the world as earlier ones left it |
| Consumer.RunLife | pkg/stream/consumer/consumer.go:98-126 | a process from construction to its end leads from a sound state to a sound one |
| Consumer.RunLives | pkg/stream/consumer/doc.go:15-29 | any number of processes one after the other, each failing where it may: over all of them everything committed was settled, and the history's claims are exactly what the handler and the dead letter topic saw |
| Consumer.Consumer.Loop | pkg/stream/consumer/consumer.go:106-120 | state, handler calls, skipped contents, dispatches and dead letters are exactly those of the rounds up to the first failed one, whose error is returned |
| Consumer.Consumer.ReadMessage | pkg/stream/consumer/consumer.go:254-290 | one poll is exactly the protocol's round; a poll error gives nil exactly when the first Kafka error in it has the time-out code, and otherwise is itself returned |
| Consumer.Consumer.CommitSettled | pkg/stream/consumer/consumer.go:277-290 | committing is settling and then one protocol step, also when the error comes after the broker stored the commit |
| Consumer.Consumer.ProcessMessage | pkg/stream/consumer/consumer.go:140-179 | returns the outcome's error and makes exactly the specified handler calls and dispatches; with `OutcomeIsExact`, nil shows as exactly one of a skipped content, a successful call and a confirmed dead letter, an error as none |
| Consumer.Consumer.RecoverMessage | pkg/stream/consumer/consumer.go:164-178 | after a failed first call: retries exactly for a retryable error, and one dead letter exactly when the last call failed |
| Consumer.Consumer.RunRetry | pkg/stream/consumer/consumer.go:191-214 | calls the handler with the content up to the last attempt, which `LastAttemptIsExact` determines, and returns its error |
| Consumer.Consumer.ShouldRetryError | pkg/stream/consumer/consumer.go:181-189 | true exactly when the error matches one of the list through any wrapping |
| Consumer.Consumer.DispatchToDeadLetterTopic | pkg/stream/consumer/consumer.go:216-231 | one dispatch of the re-encoded content under the same key to the suffixed topic |
| Consumer.Consumer.DispatchToDeadLetterTopicAsText | pkg/stream/consumer/consumer.go:237-252 | one dispatch of the raw payload as text under the same key to the suffixed topic |
| Processing.HandlerCallsAreExact | pkg/stream/consumer/consumer.go:146-174 | no call for an undecodable or skipped message; a retry exactly when the first error matches the list; the first call answers first and each retry in its turn, up to the last attempt; all but the last failed |
| Processing.OutcomeIsExact | pkg/stream/consumer/consumer.go:140-179 | a finished outcome shows as exactly one of a skipped content, a successful call with the decoded content, the one confirmed dead letter, and says which; a broken one shows as none and carries the error of the due dispatch |
| Processing.SettlementsAreExact | pkg/stream/consumer/consumer.go:140-179 | processing a message can come to skipping or handling exactly when it decodes, and to a dead letter exactly when that is its own encodable one |
| Processing.EveryMessageCanBeSettled | pkg/stream/consumer/consumer.go:140-179 | every message, decodable or not, can be settled |
| Rounds.RoundsAreARun | pkg/stream/consumer/consumer.go:106-120 | what the methods do over any number of polls is a run of the commit protocol |
| Rounds.PollErrors | pkg/stream/consumer/consumer.go:257-265 | a poll error changes nothing exactly when the first Kafka error in it has the time-out code; any other stops the incarnation with itself |
| Rounds.PollErrorsByExample | pkg/stream/consumer/consumer.go:257-265 | a broker error, a delivery time-out and a time-out by pointer stop the loop, a wrapped time-out does not |
| Rounds.RoundOutcomes | pkg/stream/consumer/consumer.go:277-289 | the position moves past the message read; the committed offset does exactly for a settled message whose commit the broker stored; the phase is the error of the dead letter or of the commit, or idle; nothing else changes |
| Rounds.NothingFetched | pkg/stream/consumer/consumer.go:257-265 | a round without a message does nothing outside the process |
| Rounds.LoopsCompose | pkg/stream/consumer/consumer.go:106-120 | rounds are made one by one and in order, none skipped: a loop of one round is that round, a longer one its parts after each other |
| Rounds.LivesCompose | pkg/stream/consumer/consumer.go:98-126 | a process with no rounds has only started, one with more goes on from where the first ones led |
| Rounds.StartsFromCommitted | pkg/stream/consumer/client.go:54-58 | a process starts reading every partition at its committed offset |
| Rounds.RoundsStop | pkg/stream/consumer/consumer.go:114-118 | after a failed round there is no further read, handler call, dispatch or commit |
| Rounds.RoundsAreSound | pkg/stream/consumer/consumer.go:140-179 | any number of rounds keeps the invariant, and that the messages the history calls skipped, handled and dead-lettered are, in order, those whose contents were skipped, given to a call that returned nil, or confirmed as dead letters |
| Rounds.LifeIsSound | pkg/stream/consumer/consumer.go:98-126 | so does a whole process that starts where earlier ones ended |
| Rounds.FirstIsSound | pkg/stream/consumer/client.go:54-58 | a fresh group is sound |
| Rounds.ClaimsNext | pkg/stream/consumer/consumer.go:277-285 | of all protocol steps only a settlement adds to what the history claims, and adds its own message |
| Rounds.CommittedForAReason | pkg/stream/consumer/doc.go:20-29 | every committed offset was read and then settled: decodable and skipped or handled, or by its own dead letter |
| Rounds.NothingIsStuck | pkg/stream/consumer/consumer.go:98-126 | from every reachable state of the consumer each message of each log gets committed in some continuation |
| Retry.RetriesAreBounded | pkg/stream/consumer/handler.go:70-90 | a positive limit and a positive shortest wait bound the attempts by their quotient plus one |
| Retry.UnboundedRetries | pkg/stream/consumer/handler.go:70-75 | without a limit the sequence ends if and only if an attempt succeeds |
| Retry.RetrySucceeds | pkg/stream/consumer/consumer.go:205-213 | a sequence that ends succeeds exactly when an attempt does before the policy gives up |
| Retry.LastAttempt | pkg/stream/consumer/consumer.go:205-213 | the first attempt that succeeds or at which the policy stops |
| Retry.LastAttemptIsExact | pkg/stream/consumer/consumer.go:205-213 | the last attempt is the first that succeeds or whose total time, durations and waits summed up with the next wait, exceeds a positive limit: both directions |
| Retry.SuccessInTime | pkg/stream/consumer/handler.go:70-75 | if an attempt succeeds and that many of the longest waits and durations fit into the limit, the sequence ends in success, there or earlier |
| Retry.FailureTookTooLong | pkg/stream/consumer/handler.go:25-31 | a sequence that ends in failure has spent more than its limit, counting the next wait, and made more attempts than fit |
| DeadLetters.DeadLetterIsFaithful | pkg/stream/consumer/consumer.go:216-252 | key kept, topic suffixed, one header naming JSON or text, payload byte for byte unless decoded as JSON; only unencodable content stops it |
| DeadLetters.DeadLetterReadsBack | pkg/stream/consumer/consumer.go:216-252 | decoding the dead letter gives the content the handler saw, or the raw payload |
| DeadLetters.DeadLetterTwice | pkg/stream/consumer/consumer.go:233-252 | dead-lettering a dead letter changes only its topic |
| DeadLetters.TextContentIsThePayload | pkg/stream/message.go:105-118 | decoded text formats back to the payload it came from |
| Message.MessageTypeIsFirstRecognised | pkg/stream/message.go:126-139 | the first recognised header decides, and the error comes exactly when there is none |
| Message.KnownEncodings | pkg/stream/message.go:126-139 | the three encodings by name: `json` and `postgresql` decode as JSON, `text` as text, anything else is unknown |
| Message.NewMessageType | pkg/stream/message.go:126-139 | the header loop computes that decision |
| Message.DispatchedMessageDecodes | pkg/stream/message.go:34-45 | the header written on dispatch selects the same kind among any others that decide nothing, and decoding gives back what was sent |
| Dispatcher.Dispatcher.Dispatch | pkg/stream/dispatcher/dispatcher.go:43-93 | success exactly for a clean delivery report of the one record that encodes the content; otherwise nothing is confirmed and the error is the specified one |
| Dispatcher.DispatchError | pkg/stream/dispatcher/dispatcher.go:50-93 | no error exactly when the content serializes and a clean report comes back |
| Dispatcher.DispatchErrorMatches | pkg/stream/dispatcher/dispatcher.go:50-104 | each failure keeps its cause matchable: of serializing, producing, delivery or the client, and a delivery time-out its sentinel; success needs a clean report |
| Dispatcher.TimedOutDelivery | pkg/stream/dispatcher/dispatcher.go:95-104 | a delivery failure matches the time-out sentinel exactly when its first Kafka error is one or it already was; any other stays matchable |
| GoErrors.AsFindsWhatIsThere | pkg/database/sql/errors.go:34-38 | finding an error in a chain and matching one through wraps and joins agree |
| GoErrors.ChainIsSearched | pkg/database/sql/errors.go:34-38 | matching is membership in the depth-first chain of an error, and finding gives the first acceptable member of it |
| GoErrors.KafkaErrorsByValue | pkg/stream/consumer/consumer.go:259-260 | a Kafka error is found by value, also through wraps, and not by pointer |
| SqlErrors.TranslateMatches | pkg/database/sql/errors.go:34-52 | the translated error matches the sentinel of the first driver error and nothing else, or what the original matched |
| SqlErrors.SentinelsByCode | pkg/database/sql/errors.go:40-51 | code by code: the result matches the unique, foreign key, syntax and parameter sentinels exactly for 23505, 23503, 42601 and 42P02, and the general one exactly for every other code |
| SqlErrors.SentinelTexts | pkg/database/sql/errors.go:8-32 | the text of each code's sentinel |
| SqlErrors.TranslateHidesDriverErrors | pkg/database/sql/errors.go:34-52 | nil stays nil and no driver error can be found in the result |
| SqlErrors.TranslateTwice | pkg/database/sql/connection.go:99-114 | translating twice, as `Get` and `Select` do in a transaction, changes neither matches nor text |
| SqlErrors.TranslateKeepsMessage | pkg/database/sql/errors.go:40-51 | the text is the driver's message, or the whole text for an unmapped code, before the sentinel's |
| Transactions.Meaning | pkg/database/sql/connection.go:123-184 | a program returns with as many open transactions as it was started with: each call ends the one it began |
| Transactions.AbortedForGood | pkg/database/sql/transaction_test.go:313-332 | once the server refused a statement of a transaction, the rest of the program, nested calls included, changes nothing of it |
| Transactions.ApplyLaysOver | pkg/database/sql/transaction.go:30-45 | key by key: a written key has the value written, a deleted one is absent, any other is as before, and only one data has this |
| Transactions.AskSees | pkg/database/sql/transaction.go:14-37 | a statement or query in a transaction sees the committed data with the transaction's own writes laid over it, key by key |
| Transactions.WriteIsSeen | pkg/database/sql/connection.go:93-139 | what was written is seen by the next statement or query on the same target |
| Transactions.CallStores | pkg/database/sql/connection.go:169-184 | a call that commits lays its writes over the data its body left, key by key; any other leaves that data |
| Transactions.OneStatementIsStored | pkg/database/sql/connection.go:158-184 | one statement, a nil answer and no faults: its writes are stored |
| Transactions.ProgramsGoOn | pkg/database/sql/connection.go:158-184 | after a query the program goes on by what was found, after a call by its error |
| Transactions.ShadowedStatement | pkg/database/sql/connection.go:88-91 | under a handle that `Begin` did not make a statement is stored at once, whatever transaction is open |
| Transactions.RefusalAborts | pkg/database/sql/transaction_test.go:313-332 | exactly an error with a driver error in its chain aborts, and it leaves the writes alone |
| Transactions.AnswersAreReturned | pkg/database/sql/connection.go:169-176 | nil, an own error or the latest error are returned as they are |
| Transactions.QueryErrorMatches | pkg/database/sql/connection.go:99-114 | a failing query matches, and prints as, its error translated once |
| Transactions.FlatTransaction | pkg/database/sql/connection.go:158-184 | for every flat body: the call succeeds exactly when the direct run on the pool returns nil, the server refuses nothing and the commit succeeds, and then commits exactly the direct run's data; otherwise nothing of it remains; without a refusal the errors match the same targets |
| Transactions.FlatBodyInTransaction | pkg/database/sql/connection.go:93-139 | as long as the server refuses nothing, each statement and query sees the earlier writes as a direct run would, while the committed data stays untouched |
| Transactions.RefusedBodyIsAborted | pkg/database/sql/transaction_test.go:497-520 | a body in which the server refuses a statement leaves its transaction aborted and everything else as it was |
| Transactions.GoingOnAfterAnError | pkg/database/sql/transaction_test.go:313-332 | a body that runs to nil and keeps its writes directly, and fails and keeps none in a transaction |
| Transactions.InnerCommitsSurvive | pkg/database/sql/connection.go:141-176 | for any program that leaves the outer context alone, of any nesting: rolling the outer transaction back leaves what inner ones committed, whatever the outer one had written or whether it was aborted |
| Transactions.RollbackKeepsCommitted | pkg/database/sql/connection.go:169-176 | for any body that fails: the rollback leaves the committed data the body left and drops its own transaction only |
| Transactions.Independent | pkg/database/sql/connection.go:141-148 | a program that does not use an outer transaction's context does the same whatever that transaction wrote or whether it was aborted, and leaves it alone |
| Transactions.TransactionErrorMatches | pkg/database/sql/connection.go:162-184 | nil exactly when begin, body and commit succeed and the transaction was not aborted; the begin error itself; the translated commit error, or the driver's for an aborted transaction; after a failed rollback both errors |
| Transactions.DriverErrorIsVisible | pkg/database/sql/connection.go:141-184 | a driver error reaches the caller exactly when `Begin` failed with one or the body returned one |
| Transactions.BeginErrorIsNotTranslated | pkg/database/sql/connection.go:141-148 | an input for which the sentinel promised by the documentation does not match |
| Connection.Conn.TransactionContext | pkg/database/sql/connection.go:158-184 | does what the call means; it ends in a commit exactly for a nil body, not aborted, with a stored commit, and then every key holds what the transaction wrote there last, or what was there; otherwise the data is as if it had written nothing while every other commit, nested ones included, takes effect; no transaction it began stays open |
| Connection.Conn.EndTransaction | pkg/database/sql/connection.go:169-183 | rollback for a failed body, commit otherwise, with joined errors; the transaction is ended either way |
| Connection.Conn.RunBody | pkg/database/sql/connection.go:93-184 | running any tree of statements, queries and nested calls equals its meaning, errors and aborted transactions included, on the pool and on every open transaction |
| Connection.Conn.Exec | pkg/database/sql/connection.go:123-139 | a statement runs in its context's transaction or on the pool and touches nothing else; refused by the server it aborts that transaction |
| Connection.Conn.Get | pkg/database/sql/connection.go:93-121 | a query sees its context's transaction, or the pool; its error is translated, in a transaction twice, and aborts it when it is the server's |
| Connection.NearestTransactionWins | pkg/database/sql/connection.go:88-91 | the nearest handle in the context decides through any spans, and one `Begin` did not make means the pool |
| Connection.UncommittedLeavesNothing | pkg/database/sql/connection.go:169-176 | muting the statements of a transaction that was not committed leaves the committed data as it is, whatever other transactions did |
| Connection.OtherCommitsSurvive | pkg/database/sql/connection.go:169-176 | in a history where a transaction is not committed, every commit of another one, nested or not, takes effect in full also without that transaction's writes |
| Connection.OverlayInOrder | pkg/database/sql/transaction.go:39-45 | committing a transaction's accumulated writes equals making them one by one, in order |
| Connection.ReplayIsStored | pkg/database/sql/transaction.go:39-45 | the data a history leaves holds under each key the last value that a pool statement or a committed transaction wrote there |
| Connection.InOrderIsLast | pkg/database/sql/transaction.go:30-45 | of several writes of a transaction to a key the last counts, a deletion included |
| Connection.Database.Begin | pkg/database/sql/connection.go:141-148 | a new transaction without writes, or the error unchanged and nothing done |
| Connection.Database.ExecTx | pkg/database/sql/transaction.go:30-37 | the statement sees committed data under the transaction's own writes and adds to those; a server error aborts, and in an aborted or ended transaction every statement is an error |
| Connection.Database.QueryTx | pkg/database/sql/transaction.go:14-28 | the query answers what it finds in the committed data with the transaction's own writes laid over it, and writes nothing; errors as for statements |
| Connection.Database.ExecPool | pkg/database/sql/connection.go:133-138 | the statement takes effect at once, key by key, or not at all |
| Connection.Database.Commit | pkg/database/sql/transaction.go:39-45 | applies the transaction's writes unless it was aborted, which is an error, or the server did not store them; ends it; a second end is an error |
| Connection.Database.Rollback | pkg/database/sql/transaction.go:47-53 | drops the transaction's writes and ends it, even when an error is reported |
| Upsert.Build | pkg/database/sql/upsert/query_builder.go:90-135 | the refusal that `RefusalsAreExact` determines and no statement, or the numbered statement and its arguments for the accumulated settings |
| Upsert.RefusalsAreExact | pkg/database/sql/upsert/query_builder.go:28-46 | each of the five errors if and only if, in terms of the options and in order of precedence; accepted otherwise |
| Upsert.SettingsOfOptions | pkg/database/sql/upsert/query_builder.go:90-95 | table, insert and update values are the last ones given or none, constraints all in order, the no-op if any option asks for it |
| Upsert.ConstraintsInOrder | pkg/database/sql/upsert/query_builder.go:58-64 | later constraints come after earlier ones |
| Upsert.OptionsAccumulate | pkg/database/sql/upsert/query_builder.go:58-88 | constraints accumulate in order, and the no-op is set exactly when some option asks for it |
| Upsert.LastOptionWins | pkg/database/sql/upsert/query_builder.go:50-80 | of tables, insert values and update values the last option counts |
| Upsert.DifferentOptionsCommute | pkg/database/sql/upsert/query_builder.go:48-88 | only the order of options of one kind matters |
| Columns.SortedColumns | pkg/database/sql/upsert/query_builder.go:108-111 | collecting the keys in any order gives the one sorted list |
| Columns.SortedIsUnique | pkg/database/sql/upsert/query_builder.go:103-111 | a set of names has only one sorted list, so map order does not matter |
| Columns.LessIsBytewise | pkg/database/sql/upsert/query_builder_test.go:38-42 | the order of columns is that of their bytes, a proper prefix first |
| UpsertGuarantees.PlaceholdersMatchArguments | pkg/database/sql/upsert/query_builder.go:108-129 | for every accepted setting the placeholders read left to right are exactly `$1` to `$n`, n the number of arguments |
| UpsertGuarantees.StatementReadsBack | pkg/database/sql/upsert/query_builder.go:101-127 | reading a numbered statement gives table, columns and conflict action, with numbers running on across the seam |
| UpsertGuarantees.BuildReadsBack | pkg/database/sql/upsert/query_builder.go:90-135 | reading the statement and binding its arguments gives back the settings; constraints are lost exactly without a conflict action; an accepted statement has a table, insert columns, and constraints for any conflict action |
| UpsertGuarantees.QueryText | pkg/database/sql/upsert/query_builder_test.go:38-107 | numbering the text is numbering the tokens when no name holds a `?`; among names without `??` the placeholder count is right if and only if none does |
| UpsertGuarantees.UpsertText | pkg/database/sql/upsert/query_builder_test.go:60-63 | the text of an upsert of three columns, word by word |
| UpsertGuarantees.InsertText | pkg/database/sql/upsert/query_builder_test.go:39-107 | the texts of a plain insert and of one that ignores conflicts, word by word |
| UpsertGuarantees.DocumentedStatement | pkg/database/sql/upsert/query_builder_test.go:46-66 | for the settings of the test, its query and its arguments |
| UpsertGuarantees.OneAction | pkg/database/sql/upsert/query_builder.go:28-46 | accepted settings never hold an empty update or two conflict actions |
| UpsertGuarantees.RenumberIsNumbered | pkg/database/sql/upsert/query_builder.go:111-129 | replacing `?` in the text and numbering the placeholders of the statement agree |
| UpsertGuarantees.StrayPlaceholders | pkg/database/sql/upsert/query_builder.go:101-111 | the text holds more `?` than placeholders exactly when a name holds one |
| Graceful.Graceful | pkg/shutdown/shutdown.go:17-29 | every step runs, each from where the one before stopped, under one deadline; the errors are joined in order |
| Graceful.DeadlineIsTheEarlier | pkg/shutdown/shutdown.go:17-19 | the deadline is the start plus the timeout, or the parent's own if that is earlier |
| Graceful.StepsRunInOrder | pkg/shutdown/shutdown.go:22-26 | no step starts before every earlier one has returned |
| Graceful.SharedDeadline | pkg/shutdown/shutdown.go:13-15 | all steps are given that one deadline: how they behave under any other makes no difference |
| Graceful.ErrorsKeepOrder | pkg/shutdown/shutdown.go:21-28 | the joined errors are those of the failing steps, each once, in order |
| Graceful.FinishIsBounded | pkg/shutdown/shutdown.go:13-16 | it ends by start plus timeout plus the sum of what each step may take beyond the deadline |
| Graceful.NilWhenAllSucceed | pkg/shutdown/shutdown.go:21-28 | nil exactly when every step succeeds |
| Graceful.ResultMatches | pkg/shutdown/shutdown.go:21-28 | the result matches an error exactly when some failing step's error does |
| Sequence.SequenceGenerator.Generate | pkg/gen/gen.go:35-41 | the k-th call returns the decimal of the 64-bit counter after k additions, k itself within its range |
| Sequence.RepeatsAfterWrapAround | pkg/gen/gen.go:31-41 | two calls return the same string if and only if a multiple of 2^64 calls lies in between |
| Sequence.StringsAreDistinct | pkg/gen/gen.go:31-41 | over any interleaving of any number of callers no two strings within 2^64 calls are equal |
| Sequence.ReturnsOneToK | pkg/gen/gen.go:31-41 | after k calls, none under way, exactly the values 1 to k were returned, each once |
| Decimal.FormatIntIsInjective | pkg/gen/gen.go:39 | different integers print differently, signs included |
| Decimal.NaturalReadsBack | pkg/gen/gen.go:39 | a printed number reads back, in digits without a leading zero |

## Left out

- Consumer.Consumer.ProcessMessage: requires that a retry sequence it starts ends (`Ends`), because otherwise the source itself does not return; `Retry` says when it ends.
- Consumer.Consumer.RecoverMessage: the same.
- Consumer.Consumer.ReadMessage: the same.
- Consumer.Consumer.RunRetry: the same; cancellation, `backoff.Permanent`, the initial sleep and the jitter of the waits are left out, the waits being arbitrary.
- Consumer.Consumer.Loop: the same; runs over an arbitrary finite number of rounds; the goroutine and its `select` are in `Handshake`, where `Run` is called once.
- Consumer.Consumer.Run: the same, for each of its rounds.
- Consumer.RunLives: the same; a process ends between two rounds or after a failure, and logs do not grow meanwhile; crashes inside a round and messages arriving at any time are in `CommitProtocol`, whose steps these methods make.
- HandshakeGuarantees.ShutdownCompletes: assumes that a running `readMessage` returns; a second caller has no guarantee to return, and does not.
- Connection.Conn.RunBody: programs are finite trees that branch on the result of each statement and call; panics in a body, savepoints and other transaction control inside a statement, concurrent transactions of other processes and isolation levels are not part of this model.
- Message.DispatchedMessageDecodes: the JSON codec is abstract with one law; a partial write of a failed decoding into its destination is not modelled.
- Upsert.Build: the statement builder is not part of the repository; only what its tests show is assumed, and `??` escapes, nested builders as values and its other errors are not modelled.
- UpsertGuarantees.QueryText: every `?` is taken for a placeholder, so it says nothing of names that hold the escape `??`.
- UpsertGuarantees.StrayPlaceholders: the same.
- Graceful.Graceful: the clock is a number that steps advance; cancellation of the parent context other than by its deadline is not modelled.
- Rebalancing, session time-outs and consumer groups with several members: the code sets no rebalance callback and decides nothing there.
- Log retention and truncation, and offsets with gaps.
- Progress of a second `Shutdown` call and a second `Run`: the code gives no guarantee.
- Dispatcher `Shutdown` (flush and close), `New`, the factories, `Ping`, `Close`, connection strings and password redaction: plumbing.
- Logging, tracing spans and metrics: they change no modelled state (spans appear only as layers of a context).
- UUID and ULID generators: randomness.
- Wall-clock time: durations are abstract.
- Go strings and byte slices are both sequences of bytes, one `char` each; invalid UTF-8 in `%v` and JSON is left to the codec's law.
- `errors.Is` methods of user-defined error types: error identity is a number on leaf errors.
- HTTP server and client, cache, encoding, mapper, validator, log and metrics packages: thin wrappers.

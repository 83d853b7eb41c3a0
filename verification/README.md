# ConsoleCalculatorServer: a model and its proofs

ConsoleCalculatorServer answers calculation requests over TCP and memoises the answers. A request is
first looked up in a cache; on a miss it is checked, calculated and saved. The cache sits in front of a
PostgreSQL table from which it is rebuilt at every start. Many network threads share one storage
worker, which runs their storage calls one at a time from a queue.

The main result is that the cache cannot be seen: in every run of the concurrent, restarting service,
every answer is the one the checker and the calculator give with no storage at all, unless a database
save under the request's own key has failed. The one request for which this is not so is characterised
exactly, and so is what failed saves can do.

## How the model is built

The service is one transition system (`Service.dfy`). Its state holds the main thread, the signal
thread, any number of network threads, the storage worker with its queue, flag, condition variable and
promises, the cache, the table, and histories of what was accepted, executed and answered. Sections
under a mutex are single steps, and each notify is a step of its own, so a lost wakeup could be
expressed. `Boot` may happen at any time: after an orderly end it is a restart, in the middle of a run
it is a killed process; only the table survives it. How a database save ends is a parameter of the step
that runs it: committed, failed without effect, or committed and reported as failed. Theorems are stated
for a set of keys under which saves may fail (`Faults`); the empty set is the service without faults.
Runs start from any table with unique keys and truthful rows, alias operation names included.

A handler is cut at its storage calls (`RequestHandler.dfy`): `Begin` runs to the lookup, `Resume`
runs from one reply to the next call or to the answer. `HandlerObject.dfy` has the same handler as one
sequential method, proved equal to driving these pieces.

The storage objects are classes (`Repositories.dfy`, `StorageWorker.dfy`) proved against the value
functions the transition system uses (`Storage.dfy`, `Queue.dfy`). The table of the class holds text
rows, so the proof that it implements the abstract table goes through decimal printing and parsing.

The math library is a parameter. The hypothesis on it is `Commutes`: swapping the operands of an
addition or multiplication changes neither status nor result. `Arithmetic.dfy` has a stronger one,
`Arithmetical`, that says what each routine computes, and a library that meets it.

## Findings

- A factorial request without operands is looked up as `fact(0)`, because the first number defaults to
  zero. Once `fact(0)` is stored, `fact()` gets its answer instead of the operand-count error.
  `TransparentExactly` shows that without failed saves this is the only request the cache changes.
- When the save of a calculated value fails in the database, the inner catch overwrites the good cached
  record with a storage error. `ConcurrentTransparency` shows that this reaches no request with another
  key, and `TransparentExactly` for which requests and which failing keys it makes a difference.
- A configuration value survives being written between quotes exactly when it has no `#` and no line
  break; a `#` inside quotes still starts a comment.
- A NUL in a database setting makes libpq reject the connection string, and never makes it read a wrong field.

## Model

| member | source | states |
|---|---|---|
| Decimal.StoiOfToString | storage/postgres/src/postgres-repository.cpp:11-23 | printing a number in decimal and parsing it gives it back over the whole 32-bit range; any other number is out of range |
| Decimal.ToStringIsTheDecimal | storage/postgres/src/postgres-repository.cpp:18-23 | the printed text is the one decimal of the number: sign, digits, no leading zero, and that value |
| Decimal.ScanReadsPrefix | storage/postgres/src/postgres-repository.cpp:57-63 | parsing skips blanks and one sign, reads the digits and ignores what follows |
| Decimal.NoNumberThere | storage/postgres/src/postgres-repository.cpp:57-63 | a text with no digits there is an invalid argument |
| OperationKey.KeyInjective | storage/src/operation-key.cpp:9-60 | two questions that have keys have the same key if and only if they have the same operation symbol and operands, up to swapping for addition and multiplication, factorial ignoring the second operand; aliases included |
| OperationKey.KeyText | storage/src/operation-key.cpp:9-60 | the text of every key, name by name: smaller operand first for addition and multiplication, given order otherwise, the symbol of each name and alias, the factorial wrapper, and the two errors |
| OperationKey.KeyHasNoNul | storage/src/operation-key.cpp:41-60 | a key survives being passed as a C string |
| Calculator.Abacus.CalculateResult | core/src/abacus.cpp:28-69 | the abacus dispatches on the operation, writes only the result, and throws exactly the mapped error |
| Calculator.CodeOfMathStatus | core/src/abacus.cpp:14-26 | the number thrown for each status of a math routine |
| Calculator.CheckerAcceptsExactly | core/src/checker.cpp:11-53 | exactly which data the checker lets through, and the number it throws otherwise |
| Arithmetic.TruncatedIsTheQuotient | core/src/abacus.cpp:48-50 | division toward zero gives the one quotient whose remainder is smaller than the divisor and has the dividend's sign |
| Arithmetic.PowerFitsExactly | core/src/abacus.cpp:51-53 | every power of -1, 0 and 1 fits 32 bits; those of any other number fit up to one exponent of at most 31 and no further |
| Arithmetic.ExactMathIsArithmetical | core/src/abacus.cpp:38-56 | exact arithmetic meets the specification of the math library: quotients by their remainder, the one overflowing division, factorials up to 12 and no others |
| Arithmetic.ServiceIsRight | server/src/request-handler.cpp:37-109 | over any math library that meets the specification, in every run of the concurrent service, every request (a factorial without operands excepted) gets its right answer in numbers or its own error status, unless a save under its own key has failed |
| RequestHandler.ResumeMakesProgress | server/src/request-handler.cpp:49-86 | every storage reply leaves a handler fewer storage calls to make; a request makes at most three |
| RequestHandler.StatusOfCode | server/src/request-handler.cpp:204-232 | the protocol status of every internal code, by number and modulo 256 |
| RequestHandler.RefusedCalls | server/src/request-handler.cpp:76-103 | a refused storage call is an internal error, or the failure whose save it was |
| Soundness.SameKeySameTruth | storage/src/operation-key.cpp:9-60 | two questions with one key, under any of the accepted names, have one value and are accepted or rejected by the checker together |
| Soundness.SavedRecordIsGood | server/src/request-handler.cpp:195-202 | whatever a handler saves has the key its own fields make and tells the truth about its question, or says storage error where saves of that key may fail |
| Soundness.HitIsFaithful | server/src/request-handler.cpp:49-59 | a hit on a truthful record says what the calculator would have said (of fact(0) when a factorial has no operands), or storage error where saves of the key may fail |
| Soundness.ResumeIsOk | server/src/request-handler.cpp:49-86 | from any truthful reply a handler goes on to a sound storage call or to an answer faithful to its request, through miss, hit, failed save and rethrow; only a failed save of its own key lets a storage error in |
| Storage.InitialCacheIsTable | storage/src/cache-repository.cpp:7-18 | warm-up makes the cache exactly the table, row for row, independent of row order |
| Storage.WarmUpHoldsLast | storage/src/cache-repository.cpp:7-18 | with repeated keys the last record is the one kept |
| Storage.WarmUpKeepsOthers | storage/src/cache-repository.cpp:7-18 | keys of no record keep what the cache held |
| Storage.StoredCutsTexts | storage/postgres/src/postgres-connection.cpp:53-58 | the numbers of a record are stored as they are, its texts up to the first NUL |
| Storage.ReplayHoldsLatestSave | server/src/in-memory-operation-storage.cpp:7-22 | the in-memory map holds under each key the record of the latest save |
| Storage.ReplayKeepsOthers | server/src/in-memory-operation-storage.cpp:19-22 | saves under other keys leave a key's record alone |
| Persistence.ReadPrintedRow | storage/postgres/src/postgres-repository.cpp:54-86 | every field of a record comes back from its text row, absent values and extreme integers included |
| Persistence.ColumnsHoldTheirFields | storage/postgres/src/postgres-repository.cpp:79-86 | each column holds the decimal or the text of its own field, and NULL exactly for an absent one |
| Persistence.InsertRowReads | storage/postgres/src/postgres-repository.cpp:72-91 | inserting a text row under the unique key is inserting the record: first writer wins |
| Persistence.PersistenceRoundTrip | storage/postgres/src/postgres-repository.cpp:44-91 | after saving any sequence of records, loading gives the first record stored under each key, in order of saving, every field as stored |
| Persistence.NoNulIsStoredAsItIs | storage/postgres/src/postgres-connection.cpp:49-62 | records whose texts have no NUL are stored unchanged |
| Repositories.CacheRepository.Put | storage/src/cache-repository.cpp:7-10 | last writer wins, and every other key keeps its record |
| Repositories.CacheRepository.WarmUp | storage/src/cache-repository.cpp:12-18 | the loop puts every record, in order |
| Repositories.CacheRepository.Find | storage/src/cache-repository.cpp:20-34 | the record under the question's key, nothing on a miss, the key's exception when there is no key |
| Repositories.PostgresRepository.Save | storage/postgres/src/postgres-repository.cpp:72-91 | the table after each of the three outcomes of a database save, and the exception for the two that are reported as failed |
| Repositories.PostgresRepository.LoadHistory | storage/postgres/src/postgres-repository.cpp:44-70 | all rows in order, or the parse error of the first row that does not parse |
| Repositories.StorageService.Initialize | storage/src/storage-service.cpp:11-16 | every row of the table is put over what the cache held, so an empty cache becomes the table; it fails exactly when a row does not parse, and then leaves the cache alone |
| Repositories.StorageService.Find | storage/src/storage-service.cpp:18-22 | lookups see the cache only and change nothing |
| Repositories.StorageService.Save | storage/src/storage-service.cpp:24-27 | the cache is written before the database, so it keeps the record also when the database fails |
| Repositories.InMemoryOperationStorage.Find | server/src/in-memory-operation-storage.cpp:7-17 | lookup in the single map |
| Repositories.InMemoryOperationStorage.Save | server/src/in-memory-operation-storage.cpp:19-22 | insert or overwrite in the single map; every other key keeps its record |
| StorageWorker.StorageWorker.TakeSection | server/src/storage-worker.cpp:99-109 | the front job while there is one; leaving only with the flag set and the queue empty |
| StorageWorker.StorageWorker.RunJob | server/src/storage-worker.cpp:50-72 | one job executes its storage call and fulfils its own promise with the reply or the exception |
| StorageWorker.StorageWorker.ThreadMain | server/src/storage-worker.cpp:77-112 | however submissions, the stop and the turns of the loop interleave, exactly the jobs submitted before the stop are run, once each and in order, later ones are refused, and the queue ends empty |
| StorageWorker.DrainFulfilsAll | server/src/storage-worker.cpp:99-112 | draining fulfils exactly the promises of the queued jobs, whatever the database does |
| HandlerObject.Handler.BuildData | server/src/request-handler.cpp:111-137 | operation, operands and flags from a request, or the protocol error of the first bad part |
| HandlerObject.Handler.Catch | server/src/request-handler.cpp:76-86 | a storable failure is saved, a failure of that save is swallowed, and the error is reported, as `OnCalculatorException` says; `MissedErrorIsSaved` and `FailedSaveIsRemembered` say what that comes to |
| HandlerObject.Handler.Calculate | server/src/request-handler.cpp:61-86 | after a miss: check, calculate, save, and the catch for a failed calculation or a failed save, as `OnMiss` says |
| HandlerObject.Handler.Handle | server/src/request-handler.cpp:37-109 | over cache and database with saves that may fail, the sequential method has the store and response of the cut-up handler, which the six rows below give case by case |
| HandlerObject.RejectedLeavesNoTrace | server/src/request-handler.cpp:41-62 | a request without a key, or one that misses and is rejected, gets the reference answer; cache and table stay as they were |
| HandlerObject.HitChangesNothing | server/src/request-handler.cpp:49-59 | a hit is answered from the record with source CACHE; cache and table stay as they were |
| HandlerObject.MissIsCalculatedAndSaved | server/src/request-handler.cpp:61-75 | a miss with a value is answered with it and source CALCULATED; the record, with its fields, result and status 0, is in the cache and in the table |
| HandlerObject.MissedErrorIsSaved | server/src/request-handler.cpp:76-86 | a miss with a calculation error is answered with it; the record with its numeric status and no result is in the cache and, unless the save is lost, in the table |
| HandlerObject.FailedSaveIsRemembered | server/src/request-handler.cpp:65-86 | a miss whose save fails is answered with a storage error, which replaces the value in the cache; the table keeps the value, the storage error or neither, as each save ended |
| HandlerObject.SecondTimeHits | server/src/request-handler.cpp:49-75 | asking again, in any operand order, gets the same value with source CACHE and saves nothing |
| HandlerObject.ServeIsFaithful | server/src/request-handler.cpp:37-109 | handling a request keeps cache and table truthful and answers as the calculator does, or with a storage error if a save of its key may fail; a hit without operands answers as fact(0) |
| QueueProtocol.ProtocolKept | server/src/storage-worker.cpp:20-121 | every step keeps the ticket order, the ownership of tickets, the absence of lost wakeups and the order of start and stop |
| QueueProtocol.NeverRefused | server/src/service-application.cpp:48-49 | a network thread that has not left never meets a stopping or stopped worker |
| Shutdown.NoLostWakeup | server/src/storage-worker.cpp:77-103 | in every reachable state a sleeping worker with work, or told to stop, has a thread between its unlock and its notify |
| Shutdown.ExactlyOnceInOrder | server/src/storage-worker.cpp:77-112 | accepted calls are the executed, then the running, then the queued ones, in order; exactly the executed ones have their promise fulfilled, with that reply; a worker that left, left nothing queued |
| Shutdown.StepCost | server/src/service-application.cpp:43-50 | every step of the program lowers a natural-number measure of the work left; an environment step raises it by a fixed bound |
| Shutdown.RunsAreBounded | server/src/service-application.cpp:43-50 | within a process, a run takes no more steps than the work at its start plus 22 per environment step |
| Shutdown.ShutdownCanProceed | server/src/service-application.cpp:43-50 | after the signal some thread of the program can always step until run has ended |
| Shutdown.ShutdownCompletes | server/src/service-application.cpp:43-50 | from every reachable state after the signal there is a schedule of program steps alone, no longer than the measure, that ends run (or start has failed) with all threads gone, the queue empty and every accepted call executed and answered |
| Shutdown.StuckMeansFinished | server/src/service-application.cpp:43-50 | a reachable state after the signal in which only the environment can step has finished in that way |
| Fairness.FairShutdown | server/src/service-application.cpp:43-50 | every endless run of a process from a reachable state after the signal that is weakly fair to main, signal, worker and each network thread reaches that end and stays there, whatever requests, spurious wakeups and failed saves occur |
| Fairness.FairRunExists | server/src/service-application.cpp:43-50 | from every state after the signal there is such a run |
| Concurrency.ThreadsStarted | server/src/tcp-json-server.cpp:112-116 | a started service has exactly max(1, worker_threads) idle network threads |
| Concurrency.ManyAtOnce | server/src/tcp-json-server.cpp:112-116 | for any number of requests that reach their lookup there is a reachable state in which each is on its own thread with its own storage call out |
| Concurrency.BusyAtShutdown | server/src/service-application.cpp:43-48 | and one in which the signal has come and the network is being joined while all of them still wait |
| Transparency.ReachableTruth | server/src/request-handler.cpp:65-86 | from any truthful start table, with saves failing under any given keys, in every reachable state cache, table, queued calls, replies, handlers and answers tell the truth, up to storage errors under those keys |
| Transparency.StartWarmsUp | storage/src/storage-service.cpp:11-16 | a started process has every row of the table in its cache, under its key, and nothing else |
| Answers.ConcurrentTransparency | server/src/request-handler.cpp:37-109 | in every run, over all interleavings, restarts and failed saves of other keys, an answer (factorials without operands excepted) has the status and value of checker and calculator with no storage, unless a save under its own key has failed or the first table held a storage error under it |
| Failures.ReachableByItsFailures | storage/src/storage-service.cpp:24-27 | every reachable state is reachable with only the saves that did fail allowed to fail, so every theorem about a set of failing keys applies with the keys that failed |
| Answers.TransparentExactly | server/src/request-handler.cpp:45-86 | for any set of keys whose saves may fail, every answer a request gets in all runs is the calculator's own if and only if it is not a factorial without operands, and it is an error or its key is not in the set |
| Answers.UnposedIsNotTransparent | core/include/types/calculator-data.h:7-9 | for every math library that commutes there is a run that answers a factorial without operands otherwise than the calculator |
| Answers.UnposedIsMismatchOrFactOfZero | core/include/types/calculator-data.h:7-9 | in every run such a request gets what fact(0) gets when it is a hit, and the operand-count error otherwise |
| Answers.SoundUnderFaults | server/src/request-handler.cpp:65-86 | a factorial without operands excepted, an error keeps its own status, and a value is answered exactly or, only if saves of the request's own key may fail, as a storage error |
| Answers.LostSaveIsNotTransparent | server/src/request-handler.cpp:76-80 | for every request with a value and every set of failing keys that has its key there is a run that answers it with a storage error |
| Answers.NeverUndefinedNeverStopping | server/src/request-handler.cpp:51-54 | no answer ever dereferences an empty result or reports a refused storage call |
| Answers.LookupBeforeCheck | server/src/request-handler.cpp:49-62 | every cached record has the key its fields make, a result exactly when its status is zero, and arguments the checker accepts, faults included |
| Answers.HitMeansAccepted | server/src/request-handler.cpp:49-62 | no hit lets a request with a first operand past a rejection of the checker |
| Answers.TooFewOperandsAlways | server/src/request-handler.cpp:45-62 | a binary request with too few operands always gets the operand-count error, whatever the store holds, and never gets as far as a save |
| Linearizability.LookupSeesLatestSave | server/src/storage-worker.cpp:45-75 | in worker order every lookup returns the record of the latest save of its key before it, or what warm-up left, faults included |
| Linearizability.RealTimeOrder | server/src/storage-worker.cpp:45-75 | a call that had returned before another was submitted is executed earlier, and nothing executed is taken back |
| Linearizability.SameAsInMemoryMap | server/src/in-memory-operation-storage.cpp:7-22 | over any restarts, every lookup ever made under a key whose saves do not fail agrees with one in-memory map that started with the first table, executed the same calls and was never restarted |
| Linearizability.RestartEquivalence | storage/src/storage-service.cpp:11-27 | warming up from the table answers every lookup as the running cache does, in status and result, unless saves of its key may fail |
| Linearizability.Containment | storage/src/storage-service.cpp:24-27 | every key of the table is in the cache, the table has each key once, and the cache has no other keys but those whose saves may fail |
| Linearizability.StoreOnlyGrows | storage/src/cache-repository.cpp:7-10 | under any faults cache keys and table rows never disappear while a process lives |
| Memoisation.LaterRequestsHit | server/src/request-handler.cpp:49-86 | once a question was answered as calculated, or answered at all after passing the checker under a key whose saves do not fail, every request with that key that begins later is answered from the cache, across threads and restarts |
| Memoisation.Memoised | server/src/request-handler.cpp:65-86 | where saves of the key do not fail it repeats the earlier answer, a value or a calculation error |
| Memoisation.RememberedForGood | server/src/request-handler.cpp:49-86 | over runs: once a question is remembered and nobody is asking it, every answer to its key in any run that follows, restarts included, comes from the cache and, where its saves do not fail, is the same; answers are never taken back |
| ConnectionString.EscapeValue | server/src/server-config.cpp:44-56 | the loop quotes the value and escapes every quote and backslash |
| ConnectionString.EscapesOnlyQuotesAndBackslashes | server/src/server-config.cpp:44-56 | escaping puts a backslash before each quote and each backslash and changes nothing else |
| ConnectionString.ConnectionStringRoundTrip | server/src/server-config.cpp:104-123 | reading the built string as libpq does gives exactly host, port, database, user and, when there is one, password; with a NUL in a field it is rejected |
| ServerConfig.ServerConfig.ApplyLine | server/src/server-config.cpp:134-152 | one line of the file changes the settings as specified, or throws and changes nothing |
| ServerConfig.TrimLeaves | server/src/server-config.cpp:16-22 | trimming removes blanks, tabs and line ends around a text and nothing else |
| ServerConfig.LineLayout | server/src/server-config.cpp:134-152 | a line of any layout sets its key to its value: blanks around both, one pair of quotes of either kind and a comment do not count |
| ServerConfig.NamesSetTheirFields | server/src/server-config.cpp:74-100 | each text key sets the field it names and no other |
| ServerConfig.NumberNamesSetTheirFields | server/src/server-config.cpp:74-100 | each number key sets the field it names and no other |
| ServerConfig.LinesOfText | server/src/server-config.cpp:133-134 | lines end at a newline, the last also without one |
| ServerConfig.BadNumberStops | server/src/server-config.cpp:66-72 | a number beyond its setting ends the reading with its error, whatever stands before and after |
| ServerConfig.BadLineStops | server/src/server-config.cpp:134-152 | a line that throws ends the reading with its exception |
| ServerConfig.ServerConfig.FromFile | server/src/server-config.cpp:125-155 | without a file the settings are the defaults, value by value; otherwise the loop applies the lines in order to them and stops at the first bad number |
| ServerConfig.ServerConfig.DatabaseConnectionString | server/src/server-config.cpp:104-123 | the explicit string when there is one; otherwise libpq reads from it the configured host, port, database and user, and the configured password or else the text of the named password file, with no password field when that is empty; a NUL is rejected |
| ServerConfig.ConfigRoundTrip | server/src/server-config.cpp:125-155 | settings written as key="text" or key=number amid blank lines, comments and unknown keys are read back: the last value of each key, the default of the rest |
| ServerConfig.SettingSurvivesExactlyWhenClean | server/src/server-config.cpp:134-152 | a quoted value is read back if and only if it has no hash and no line break |
| ServerConfig.NumberSurvivesExactlyInRange | server/src/server-config.cpp:66-100 | a written number is read back if and only if it is in the range of its setting; a negative port or size never is |
| Framing.Session.OnRead | server/src/tcp-json-server.cpp:32-57 | one line becomes one request without its carriage return, or the session ends when line and newline exceed the limit; consumed, buffered and waiting bytes stay the bytes received |
| Framing.RequestIsItsLine | server/src/tcp-json-server.cpp:39-57 | bytes up to 10, or up to 13 10, are one request without those bytes, and the rest follows |
| Framing.NoRequestThere | server/src/tcp-json-server.cpp:32-46 | an unfinished line asks nothing, and neither does anything from a line on that exceeds the limit with its newline |
| Framing.SettledHandledAll | server/src/tcp-json-server.cpp:24-57 | a session with nothing left to do has handled exactly the requests of the bytes received |
| Framing.ServeStream | server/src/tcp-json-server.cpp:24-70 | however a stream is cut into arrivals and interleaved with callbacks, the requests handled are its lines up to the first that exceeds the limit, and for each, in order, its response and byte 10 are sent |

## Left out

- JSON parsing and serialisation, request ids, messages, timing and logging: a request starts parsed and ends as status, value and source.
- The math library itself is external; it is a parameter with the hypothesis `Commutes` or `Arithmetical`, and nothing is shown about its code.
- libpq calls: the database is a table whose saves end in one of three ways. Failures of schema creation or of loading the history are the single step `InitFail`.
- Integer columns are the decimal text the service sends; the server's own formatting is taken to be the same text.
- What the service does after `StorageWorker::start` has thrown: the process is then in the state `Aborted` and takes no more steps; the clean-up by destructors is not modelled.
- `StorageWorker::start`, the waits and the shutdown sequence of `ServiceApplication::run`, and `TcpJsonServer::start` and `stop` are steps of the transition system on values, not methods that update objects; locking is taken as mutual exclusion.
- Acceptor, sockets and thread pool: a network thread is idle, handles one request, or has left; after the io context is stopped no new handler begins.
- Signal masks and `sigwait`: a signal is a step that may happen once.
- Environment overrides and the reading of the password file: their text is a parameter.
- `data.error_code` in the handler is written and never read, so the model does not carry it.
- The catch-all branch for exceptions that are not `std::exception`, `CacheRepository::size`, and failures to bind or accept in `TcpJsonServer::start`.
- Framing.ServeStream: does not cover read and write errors; `Framing.Session.Fail` states that what was sent then stays a prefix.
- Validation of parameter names by libpq: only the splitting of the connection string into names and values is modelled.

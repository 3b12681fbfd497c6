# Franky: a verified model of its message processing

Franky connects chat agents to topics of the Hedera consensus service. Its hard part is code that reads append-only logs
again and again, in callbacks that overlap, fail and are repeated, and that must still answer every message once. This
project models that code in Dafny and proves what it keeps over whole runs. `dafny verify dfyconfig.toml` checks all of it.

How a component is laid out:

* a specification: values, and functions that say what one event does to them (`Hip991`, `Hcs10`, `Monitor`, and the first
  half of the smaller modules);
* the code in its own form: a class or a method with the fields and loops of the source, each method proved to do what the
  specification says (`Hip991Runtime`, `Hcs10Poller`, `MonitorServices`, and the classes and loop methods of the others);
* lemmas about every run of the specification (`Hip991Invariants`, `Hip991Safety`, `Hip991Race`,
  `Hip991Orphans`, `Hip991Repeats`, `Hip991Outcomes`, `Hip991Runs`, `Hcs10Invariants`, `Hcs10Safety`, `Hcs10Repeats`,
  `MonitorSelection`, `MonitorSafety`, `MonitorOverlap`, `MonitorAttempts`, `MonitorIntervals`, `MonitorStarts`, `MonitorRuns`,
  `EchoSafety`, `StorageSafety`, and the second half of the smaller modules);
* the same state told a second time, from what happened in a run rather than from the state before, with lemmas that the two
  agree in every run (`Hip991Histories`, `Hcs10Rounds`, `MonitorHistories`, `StorageRecords`, `StorageReads`).

Components:

* `Hip991` — the agent runtime: a message cache with a time to live, promises waiting for responses, agents and their
  pollers. JavaScript runs one callback at a time and switches only at an await, so a callback in progress is a task, and an
  event runs one task from one await to the next; events come in any order, and timers fire at their deadline or later.
* `Hcs10` — the polling agent of the HCS-10 standard (operations connection_request, connection_created, message and
  close_connection): three collections kept in step through refills, requests, closings and errors.
* `Monitor` — the topic monitor: a high-water mark, one connection request per batch, two records against repetition. Its
  polls and handlers are tasks of the same kind, so polls of all topics, and of one topic, overlap at every await.
* `Echo` — the subscriber that must not answer itself: a sequence mark and a window of its last replies.
* `Base58`, `Numerals` — the codec, on byte strings with hexadecimal text as a layer on top.
* `Storage`, `Indexer`, `Registry` — a file store with a cache whose calls interleave at their awaits, a store built from
  contract events, and two readers of one log.
* `EnvFile`, `Text`, `ToolScanner`, `ToolCharacters`, `Conversation` — setting variables in an environment file, finding
  announced tool calls, and a bounded conversation history.

History that no code reads (which messages got through, what was dispatched, delivered, attempted, inserted or answered) is
kept beside the state, so that a property can speak about a whole run.

Where the code does not do what one would expect, the model follows the code and a lemma gives the exact condition:

* all-zero input does not survive the Base58 round trip: one zero too many comes back (`DecodeEncode`, `EncodeDecode`);
* agent-framework/README-HCS-API.md, lines 42 to 48, says that the server never responds to its own replies; it does when a
  hundred insertions have followed one (`AnswersOnlyOthersIff`, `AnswersItself`);
* the HIP-991 guard knows cached answers only, so two messages in flight that name one response id can both be answered
  (`AdmissionCanAnswerTwiceIff`, `OneResponseAnsweredTwice`), and overlapping initialisations of one user leave an active
  agent that nobody can destroy (`NoOrphanIff`, `OrphanForEver`, `OverlappingInitialisationsOrphan`);
* the lower bound of a fetch is included, so the newest message of a topic is looked at for ever and is answered again when its
  cache entries have expired (`CanBeLookedAtIff`, `NewestPassesAgain`, `QuestionPassesTwice`);
* a waiter is settled by its deadline exactly if timers fire on time (`SettledByDeadlineIff`);
* polls of one topic that overlap deliver messages twice and set the mark back, after which even a lone poll delivers again
  (`DeliveredOnceIff`, `PollRepeatsIff`, `MarkGoesBackIff`, `OverlapDeliversAgain`);
* the records against repeated connection requests are checked before an await and written after it, so competing handlers
  can attempt a request twice (`AttemptsInOrderIff`, `ContentionBreaksOrderIff`, `RequestAttemptedTwice`);
* two overlapping starts of one topic leave an interval that stopping the topic does not clear (`StopEndsPollingIff`,
  `OverlappingStartsLeak`);
* the topic that an HCS-10 connection request creates is dropped in the same round (`AdoptedIsDroppedAtOnce`);
* a closed or dropped HCS-10 topic that is offered again is answered again from its first message, a closed one in every round
  (`RoundDispatchesIff`, `DispatchedAgainIff`, `ClosedAnsweredEveryRound`, `ClosedTopicAnsweredTwice`);
* the two registry readers disagree on logs with missing or non-positive times (`ReadersAgreeIff`), and a registration
  made in the millisecond of an earlier one is not found (`RegistrationFoundIff`);
* a save that overtakes a read of the same character leaves the old value in the cache (`CacheRefinesOwnFileIff`,
  `OvertakenReadStaysCached`), and two overlapping saves of connections of one character can lose a topic from its list
  (`LinkOnlyAddsTopicIff`, `OverlappingSavesLoseTopic`);
* characters served from the underscore file or the agent record go stale in the cache when that source is written
  (`FreshIff`, `FreshStepIff`, `RewrittenAgentStaysCached`, `RewrittenUnderscoreStaysCached`);
* encodeBase58 of text without a byte throws, because BigInt does not accept `0x` alone.

## Model

| member | source | states |
|---|---|---|
| Hip991Safety.NoDuplicateWithinTtl | agent-framework/src/utils/hip991-agent.ts:146-181 | In every interleaving of pollers, garbage collection, clock and late timers, a message whose id, or whose response id, was cached by an earlier pass or answer gets through the guard only more than the time to live later; so two passes of one message id are more than 24 hours apart |
| Hip991Safety.AnswersWerePrompted | agent-framework/src/utils/hip991-agent.ts:425-463 | Every answer that is sent belongs to a message that got through the guard before, with that id and that response id |
| Hip991Safety.WaiterLifetime | agent-framework/src/utils/hip991-agent.ts:462-483 | A registered waiter is settled at most once, is in pendingResponses exactly while unsettled, and has a live timer exactly while it is there; it never times out before its deadline |
| Hip991Safety.SettledByDeadlineIff | agent-framework/src/utils/hip991-agent.ts:575-589 | In every run all waiters whose deadline has passed are settled, each no later than its deadline, exactly if the clock never ran past a live timer |
| Hip991Safety.SettledByDeadline | agent-framework/src/utils/hip991-agent.ts:575-589 | So if timers fire on time, a waiter whose deadline has passed was settled in time |
| Hip991Safety.ResolvedWithItsAnswer | agent-framework/src/utils/hip991-agent.ts:462-471 | A resolved waiter got the text of an answer sent at that moment to an earlier message that carried its response id, and the answer stays cached for its time to live |
| Hip991Safety.NothingBelowTheMarkIsLost | agent-framework/src/utils/hip991-agent.ts:280-336 | However the callbacks of a poller overlap, and for any lower bounds not above the mark, every message at or below its mark has been looked at or is still in the queue of one of its callbacks |
| Hip991Safety.BoundAboveMarkLoses | agent-framework/src/utils/hip991-agent.ts:284-298 | A lower bound above the mark would leave out exactly the messages from the mark up to it |
| Hip991Safety.CallbacksGoOn | agent-framework/src/utils/hip991-agent.ts:280-485 | In every reachable state a suspended callback can go on: the agent, mark, log, message and reply it needs are there |
| Hip991Safety.MappedIsActive | agent-framework/src/utils/hip991-agent.ts:633-639 | hasActiveAgent is true exactly for the users in activeAgents |
| Hip991Invariants.InvAlways | agent-framework/src/utils/hip991-agent.ts:131-639 | All invariants hold after every run from the initial state; the run includes pollers of destroyed agents |
| Hip991Invariants.CacheStep | agent-framework/src/utils/hip991-agent.ts:150-181 | One event keeps cached ids guarded for their time to live |
| Hip991Invariants.AnswerStep | agent-framework/src/utils/hip991-agent.ts:448-471 | One event keeps every callback that answers tied to a message that got through |
| Hip991Invariants.WaiterStep | agent-framework/src/utils/hip991-agent.ts:462-589 | One event keeps pending waiters, timers and settlements in step |
| Hip991Invariants.DeliveryStep | agent-framework/src/utils/hip991-agent.ts:273-337 | One event keeps everything below a mark covered by what was looked at or is queued |
| Hip991Invariants.AgentStep | agent-framework/src/utils/hip991-agent.ts:356-394 | One event keeps activeAgents pointing to active agents of their users |
| Hip991Race.KeepsOneAnswererIff | agent-framework/src/utils/hip991-agent.ts:425-446 | Letting a message through keeps two callbacks from answering one response id exactly if none in flight answers that response id |
| Hip991Race.AdmissionCanAnswerTwiceIff | agent-framework/src/utils/hip991-agent.ts:425-471 | After a run without contention, letting a message through opens the way to two answers under one response id within the time to live, without further contention, exactly if a callback in flight is answering that response id |
| Hip991Race.OneAnswerPerResponse | agent-framework/src/utils/hip991-agent.ts:425-471 | In every run in which no message is let through while its response is being answered, two answers under one response id are more than the time to live apart |
| Hip991Race.AnswersNeverOutnumberPasses | agent-framework/src/utils/hip991-agent.ts:420-471 | In every run a message is answered at most as often as it was let through |
| Hip991Runs.OneResponseAnsweredTwice | agent-framework/src/utils/hip991-agent.ts:284-471 | A run of two overlapping polls in which two messages that name one response id are both answered |
| Hip991Repeats.CanBeLookedAtIff | agent-framework/src/utils/hip991-agent.ts:284-311 | In every reachable state, with bounds equal to the mark, a message of a topic can still be looked at, for the first time or again, exactly if the mark is not above it or a callback in flight that began before has not passed it |
| Hip991Repeats.NewestPassesAgain | agent-framework/src/utils/hip991-agent.ts:284-331 | In every reachable state in which the newest message of a topic is at the mark, that message gets through the guard again in the first poll after the time to live and a garbage collection |
| Hip991Runs.QuestionPassesTwice | agent-framework/src/utils/hip991-agent.ts:150-331 | A run in which the only message ever posted gets through the guard twice |
| Hip991Race.AnswerCompletes | agent-framework/src/utils/hip991-agent.ts:448-471 | A callback that generates an answer can send it, which records exactly that answer and leaves the other callbacks alone |
| Hip991Orphans.FinishOrphansIff | agent-framework/src/utils/hip991-agent.ts:356-394 | Finishing an initialisation leaves no active agent unmapped exactly if the user is not mapped at that moment (two initialisations of one user may overlap) |
| Hip991Orphans.OrphanForEver | agent-framework/src/utils/hip991-agent.ts:356-548 | An active agent that is not its user's mapped agent stays so after every further run: nobody can destroy it |
| Hip991Orphans.NoOrphanIff | agent-framework/src/utils/hip991-agent.ts:356-548 | After a run every active agent is mapped exactly if no initialisation in it finished while its user was mapped |
| Hip991Orphans.OverlappingInitialisationsOrphan | agent-framework/src/utils/hip991-agent.ts:354-394 | A run of two overlapping initialisations of one user that leaves an active agent unmapped |
| Hip991Outcomes.OutcomeIsFirstVerdict | agent-framework/src/utils/hip991-agent.ts:451-589 | In every run a promise waits, with its deadline and its timer, until the first answer, failure or timer for its response id after it was registered; it is then settled at that moment: resolved with the text generated last in the callback that answered, rejected, or timed out |
| Hip991Outcomes.OutcomeIff | agent-framework/src/utils/hip991-agent.ts:462-589 | In every run a promise has an outcome exactly if that was the first thing to come for its response id |
| Hip991Outcomes.AnswerResolves | agent-framework/src/utils/hip991-agent.ts:462-471 | An answer sent while its promise waits adds exactly one settlement: resolved with the generated text |
| Hip991Histories.CacheIsLastCached | agent-framework/src/utils/hip991-agent.ts:131-181 | In every run the cache holds, under every id, the question that passed or the reply that was sent last under it, with the time, unless a later collection found it older than a day |
| Hip991Histories.CallbackIsWhereItGot | agent-framework/src/utils/hip991-agent.ts:280-485 | In every run a callback holds the end of the topic that it fetched, from its bound on, without the messages it has looked at; it answers the last of these exactly if that passed and was neither answered nor failed yet, and its reply has the id, text, question and time of what was generated; it is gone exactly if it came to its end |
| Hip991Histories.AgentsAreLastInitialised | agent-framework/src/utils/hip991-agent.ts:354-639 | In every run a user has the agent of the last finished initialisation unless destroyed or begun anew since, an agent is active until then and was heard last when a question on its topic passed, and a mark is the largest timestamp looked at |
| Hip991Histories.PassesIff | agent-framework/src/utils/hip991-agent.ts:420-446 | A message gets through exactly if it has a prompt and a response id that are not empty and neither its id nor its response id is cached |
| Hcs10Safety.ProcessedIsKeptForMonitored | agent-framework/routes/character-mcp-api.ts:309-347 | Between rounds processedMessages has exactly the inbound topic and the monitored topics as keys, so the lookups at 351 and 429 find a set |
| Hcs10Safety.ConnectionsAreMonitored | agent-framework/routes/character-mcp-api.ts:330-347 | From the first successful refill on, every key of connections is a monitored topic |
| Hcs10Safety.MonitoredIffConnected | agent-framework/routes/character-mcp-api.ts:416-486 | A round that gets through leaves exactly the connected topics monitored, each of them offered by the manager in that round |
| Hcs10Safety.AdoptedIsDroppedAtOnce | agent-framework/routes/character-mcp-api.ts:402-425 | A topic adopted for a connection request but absent from connections leaves all collections in the same round, and none of its messages is looked at |
| Hcs10Safety.RefillRemembers | agent-framework/routes/character-mcp-api.ts:335-347 | A refill keeps what was processed on monitored topics and starts every other offered topic in a new adoption without memory |
| Hcs10Safety.RequestsAttemptedOnce | agent-framework/routes/character-mcp-api.ts:353-406 | Over every run each request number is attempted at most once, and exactly if the first look at it found a connection request that names one account, not the own one, and whose number no first entry of the manager has with a topic id |
| Hcs10Safety.RequestsLookedAt | agent-framework/routes/character-mcp-api.ts:353-362 | Every well-formed message read from the inbound topic has had its first look by the end of the round |
| Hcs10Safety.MessagesDispatchedOnce | agent-framework/routes/character-mcp-api.ts:431-456 | Over every run a sequence number is dispatched at most once per adoption of a topic, and dispatched are exactly the first looks at standard messages that are not the own ones |
| Hcs10Safety.MessagesLookedAt | agent-framework/routes/character-mcp-api.ts:416-467 | Every well-formed message read on an offered topic, before somebody else closes the connection or handling a message throws, has had its first look by the end of the round |
| Hcs10Safety.OwnMeansOwnAccount | agent-framework/routes/character-mcp-api.ts:48-57 | For an operator id with one @, ending in the account of the agent is the same as naming it |
| Hcs10Invariants.InvRun | agent-framework/routes/character-mcp-api.ts:297-495 | All invariants of the collections, the reads, the attempts and the dispatches hold between the rounds of every run |
| Hcs10Safety.ExistingIff | agent-framework/routes/character-mcp-api.ts:372-384 | The lookup of an existing connection finds the first entry with the number of the request, and none exactly if no entry has that number |
| Hcs10Safety.AttemptableIff | agent-framework/routes/character-mcp-api.ts:353-401 | The branches of the loop let through exactly the connection requests with a number that name one account, not the own one, and whose number the manager does not have with a topic id |
| Hcs10Rounds.TopicIdIff | agent-framework/routes/character-mcp-api.ts:316-337 | A connection topic is recognised by being three numbers with dots between them |
| Hcs10Rounds.StartHas | agent-framework/routes/character-mcp-api.ts:305-321 | The agent starts with the connections loaded, the last one for each topic, monitors those with a topic id in the order loaded, and has processed nothing |
| Hcs10Rounds.RefillHas | agent-framework/routes/character-mcp-api.ts:331-347 | A refill leaves exactly the connections offered last for each topic id, and adds the new topics behind the monitored ones in the order offered |
| Hcs10Rounds.InboundHas | agent-framework/routes/character-mcp-api.ts:349-413 | The inbound messages of a round get their first looks in order, one for each number not processed before, and the topics that attempts led to are monitored from then on |
| Hcs10Rounds.RoundHas | agent-framework/routes/character-mcp-api.ts:329-486 | A round that gets through leaves monitored, in this order, the topics it had, those newly offered and those its attempts led to, as far as they are offered, not gone and not closed by somebody else, each with the connection offered last |
| Hcs10Rounds.FailedRound | agent-framework/routes/character-mcp-api.ts:329-490 | A round whose refill fails changes nothing, and one that cannot read the inbound topic only refills |
| Hcs10Repeats.RoundDispatchesIff | agent-framework/routes/character-mcp-api.ts:330-467 | A round dispatches a number of a topic at most once, and exactly if it reaches the topic, which is offered, comes in its stream to a standard message of somebody else with that number, and the number is not among those processed since the topic was adopted |
| Hcs10Repeats.DispatchedAgainIff | agent-framework/routes/character-mcp-api.ts:330-486 | Over every run a number of a topic is dispatched more than once exactly if, after it was dispatched, the topic left the collections and a later round in which the topic is offered reads the message |
| Hcs10Repeats.ClosedAnsweredEveryRound | agent-framework/routes/character-mcp-api.ts:335-467 | As long as a topic whose log ends in a close is offered, every round adopts it, dispatches everything before the close once more, and drops it |
| Hcs10Repeats.ClosedTopicAnsweredTwice | agent-framework/routes/character-mcp-api.ts:335-467 | Two equal rounds in which one question before a close is dispatched twice |
| Hcs10Safety.InboundLookupSucceeds | agent-framework/routes/character-mcp-api.ts:349-352 | In every round from every reachable state the inbound topic has a processed set after the refill, so the lookup at 351 succeeds |
| Hcs10Safety.TopicLookupSucceeds | agent-framework/routes/character-mcp-api.ts:416-430 | In every round, when the loop comes to a monitored topic that is connected, it has a processed set, whatever the topics before did, so the lookup at 429 succeeds |
| MonitorSelection.PlanSelects | agent-framework/src/services/monitorService.ts:139-171 | A poll selects, in ascending order, exactly the messages above the mark that no newer connection request of the batch supersedes |
| MonitorSelection.PlanEndsAtHighest | agent-framework/src/services/monitorService.ts:141-177 | What a poll handles ends at the highest message it saw, so the mark does |
| MonitorSafety.ConsumedOnce | agent-framework/src/services/monitorService.ts:101-194 | If polls of one topic do not overlap, while everything else, polls of other topics included, interleaves freely at every await: what its listeners got is ascending at every moment, hence nothing twice; between polls the mark is the highest number seen, and every message up to it was delivered or is a connection request replaced by a newer one that was |
| MonitorSafety.MarkNeverGoesBack | agent-framework/src/services/monitorService.ts:174-176 | Under the same condition no event moves the mark of the topic back |
| MonitorStarts.StartSetsMark | agent-framework/src/services/monitorService.ts:101-129 | A start of a topic sets its mark to the largest number the topic holds, to zero if it holds nothing or cannot be read, and leaves all other marks |
| MonitorStarts.HistoryIsNotDelivered | agent-framework/src/services/monitorService.ts:101-188 | Over every run from a start of a topic until it is given up, with any polls overlapping: no message the topic held at the start, and none older, is delivered; if its polls do not overlap, every newer one up to the mark is, or was replaced by a newer request |
| MonitorHistories.TopicsAreLastSaid | agent-framework/src/services/monitorService.ts:84-197 | In every run a topic is monitored from the end of a start until it is given up, its mark is what it held then or the number taken last since, it is what it was registered as last, and an interval polls it until it is given up while that interval is its last |
| MonitorHistories.PollIsWhereItGot | agent-framework/src/services/monitorService.ts:129-194 | In every run a poll holds the messages it chose when its batch arrived, for the mark it read when it began, without those it has taken, and is where the awaits of the last one have led it |
| MonitorHistories.AttemptIsCalledFor | agent-framework/src/services/monitorService.ts:281-371 | In every run a message leads to the lookup of an agent exactly if it is a connection request of the standard with a number and data, on an inbound topic of a character, asked by somebody, never attempted with this number by this user, and later than the last attempt on the topic |
| MonitorHistories.AttemptsAndDeliveries | agent-framework/src/services/monitorService.ts:185-371 | In every run the attempts are those whose agents were found with credentials, and the listeners got every message handled, in that order |
| MonitorOverlap.NothingLostOrMadeUp | agent-framework/src/services/monitorService.ts:129-188 | In every run, with any polls overlapping: as often as polls of a topic set out to handle a message, its listeners got it or a poll in flight still has it |
| MonitorOverlap.DeliveredOnceIff | agent-framework/src/services/monitorService.ts:129-188 | In every run with polls of a topic overlapping in any way, inbound or not: once none is in flight, nothing was delivered twice exactly if no poll saw something again; if none did, nothing is delivered twice at any moment |
| MonitorOverlap.PollRepeatsIff | agent-framework/src/services/monitorService.ts:132-171 | On a topic that is not inbound a poll handles something again exactly if the mark it read is below a message another poll has seen and below the highest message of its own batch |
| MonitorOverlap.AgainWhenInboundIff | agent-framework/src/services/monitorService.ts:148-171 | On an inbound topic a poll sees something again exactly if it read a mark below a message of its batch, other than a request, that polls have seen, or the newest request of its batch was already handled |
| MonitorOverlap.MarkGoesBackIff | agent-framework/src/services/monitorService.ts:174-176 | In every run an event moves the mark of a topic back exactly if a poll takes a message after another poll took a higher one last |
| MonitorRuns.OverlapDeliversAgain | agent-framework/src/services/monitorService.ts:129-188 | A run in which two overlapping polls deliver a message twice and leave the mark at it, and a third poll that overlaps with none delivers the next message again |
| MonitorIntervals.StopEndsPollingIff | agent-framework/src/services/monitorService.ts:101-197 | Over every run: once a topic is stopped no interval polls it exactly if no start of the topic had ended while it was monitored |
| MonitorIntervals.OverlappingStartsLeak | agent-framework/src/services/monitorService.ts:101-197 | A run of two overlapping starts after which stopping the topic leaves an interval that polls it |
| MonitorAttempts.AttemptsInOrderIff | agent-framework/src/services/monitorService.ts:294-371 | Over every run, with all handlers interleaving at the await between check and records: attempts on one topic have strictly increasing times and no request is attempted twice, exactly if every attempt recorded still passed the check at that moment |
| MonitorAttempts.RecordKeepsOrderIff | agent-framework/src/services/monitorService.ts:304-371 | Recording an attempt keeps that order exactly if the check would still succeed |
| MonitorAttempts.UncontendedInOrder | agent-framework/src/services/monitorService.ts:294-371 | So the attempts are in order in every run in which no handler passes the check while a competing one, for the same request or topic, waits for the agent |
| MonitorAttempts.ContentionBreaksOrderIff | agent-framework/src/services/monitorService.ts:294-371 | After such a run, an event opens the way to attempts that repeat a request or break the order exactly if it lets a handler pass the check while a competing one waits |
| MonitorAttempts.TopicAttemptsInOrder | agent-framework/src/services/monitorService.ts:294-371 | If only the polls of one topic do not overlap, the attempts on that topic have strictly increasing times and none repeats a request, whatever overlaps elsewhere |
| MonitorAttempts.AttemptedElsewhereIsIgnored | agent-framework/src/services/monitorService.ts:302-308 | The request key does not name its topic: in every run, what was attempted on one topic is ignored on every other |
| MonitorRuns.RequestAttemptedTwice | agent-framework/src/services/monitorService.ts:294-371 | A run in which two overlapping polls of an inbound topic both attempt one connection request |
| Base58.EncodeBase58 | agent-framework/src/utils/base58.ts:8-28 | The encoder computes the positional numeral in base 58 with one leading 1 for each leading zero byte; it throws exactly when no byte could be read |
| Base58.NumberSymbols | agent-framework/src/utils/base58.ts:16-20 | Repeated division terminates and spells the digits of the number |
| Base58.PadOnes | agent-framework/src/utils/base58.ts:22-25 | One 1 for each leading zero byte |
| Base58.DecodeBase58 | agent-framework/src/utils/base58.ts:30-60 | The decoder computes the bytes of the number with one zero byte for each leading 1, and throws exactly on a character outside the alphabet |
| Base58.ParseNumber | agent-framework/src/utils/base58.ts:36-44 | Horner evaluation is the value of the symbols, or stops at a foreign character |
| Base58.EvenHex | agent-framework/src/utils/base58.ts:46-52 | Padding to even length gives the text of whole bytes, and 00 for zero |
| Base58.PadZeros | agent-framework/src/utils/base58.ts:54-57 | One 00 for each leading 1 |
| Base58.AlphabetSpelling | agent-framework/src/utils/base58.ts:2-6 | The alphabet has 58 letters, and the runs of characters spell them |
| Base58.DecodeEncode | agent-framework/src/utils/base58.ts:8-60 | Decoding an encoding gives the bytes back exactly if some byte is not zero; n zero bytes come back as n + 1 |
| Base58.EncodeDecode | agent-framework/src/utils/base58.ts:8-60 | Encoding a decoding gives the text back exactly if some character is not 1; n ones come back as n + 1 |
| Base58.HexRoundTrip | agent-framework/src/utils/base58.ts:8-60 | The same between the two functions as they are, on hexadecimal text of any case and with trailing garbage |
| Base58.Base58RoundTrip | agent-framework/src/utils/base58.ts:8-60 | The same starting from Base58 text, the empty text included |
| Base58.EncodeInjective | agent-framework/src/utils/base58.ts:8-28 | Different byte strings have different encodings, the all-zero ones included |
| Base58.EncodedLength | agent-framework/src/utils/base58.ts:12-27 | 58^(k-1) <= value < 58^k for the k digits, the length is z + k, and 8(k-1) < 11(n-z) |
| Base58.FromToHex | agent-framework/src/utils/base58.ts:9-13 | Reading the hexadecimal text of bytes gives the bytes |
| Base58.NibblesValue | agent-framework/src/utils/base58.ts:13 | The hexadecimal text of bytes denotes their value in base 256 |
| Base58.PaddedHexIsByteHex | agent-framework/src/utils/base58.ts:46-52 | The shortest hexadecimal text of a number, padded to even length, is the text of its shortest bytes |
| EchoSafety.InvAlways | agent-framework/hcs-api.js:158-213 | After every event the window is the last hundred insertions without repetition, every reply sent was inserted, answered numbers ascend, and answered messages are exactly those at an await, replied to or failed |
| EchoSafety.RememberKeepsWindow | agent-framework/hcs-api.js:196-203 | Remembering a reply keeps the window equal to the last hundred insertions and free of repetition |
| EchoSafety.NoMessageAnsweredTwice | agent-framework/hcs-api.js:171-176 | No message gets two replies, in whatever order and however often messages are delivered |
| EchoSafety.EchoAnsweredIff | agent-framework/hcs-api.js:178-183 | A reply that comes back above the mark is answered exactly if a hundred or more insertions followed the last one of its text |
| EchoSafety.AnswersOnlyOthersIff | agent-framework/hcs-api.js:158-213 | Over every run the server has answered only messages of others exactly if every reply came back before a hundred insertions followed it |
| EchoSafety.RepliesBounded | agent-framework/hcs-api.js:158-213 | If every reply comes back in time there are never more replies on the topic than messages of others |
| EchoSafety.FirstHundredInTime | agent-framework/hcs-api.js:199-203 | Up to a hundred insertions every reply comes back in time, whenever it does |
| EchoSafety.AnswersItself | agent-framework/hcs-api.js:158-213 | After a hundred and one replies the server answers the first of them when it comes back, against the claim of README-HCS-API.md, lines 42 to 48 |
| StorageSafety.InvAlways | agent-framework/src/services/storageService.ts:78-280 | In every run, writes of one call interleaving with all others at every await, every file holds a record of its character and topic, lists have no repetition and every listed topic has a file, even if second writes fail; agents are saved without a list, as they are created |
| StorageSafety.SaveAgentKeepsIff | agent-framework/src/services/storageService.ts:78-87 | Saving an agent keeps that exactly if its list has no repetition and only topics with files; records without a list always do |
| StorageSafety.UpdateFindsFile | agent-framework/src/services/storageService.ts:264-272 | An update finds the record of its topic as the file has it, and nothing exactly if no character has the topic |
| StorageSafety.UpdateChangesOnlyTimeIff | agent-framework/src/services/storageService.ts:264-280 | An update rewrites the file its record was found in and no other; it changes only the time exactly if the other fields of the file are still as they were found |
| StorageSafety.UpdateRewritesSameFile | agent-framework/src/services/storageService.ts:264-280 | Whatever happens between the lookup and the write of an update, as long as nobody writes the file of the record: the update rewrites that file, changes only the time, and leaves all other files as they have become; an unknown topic changes nothing |
| StorageSafety.SaveOnlyAddsTopic | agent-framework/src/services/storageService.ts:144-173 | Whatever happens between the two writes of saveConnection, as long as nobody writes the record of that agent: the second one adds the topic to its list, unless it is there, and changes nothing else |
| StorageSafety.LinkOnlyAddsTopicIff | agent-framework/src/services/storageService.ts:156-164 | The rest of saveConnection only adds the topic to the list of the agent exactly if the agent record is still the one looked up before the await |
| StorageSafety.OverlappingSavesLoseTopic | agent-framework/src/services/storageService.ts:144-173 | A run in which two overlapping saves of connections of one character leave only one of them in its list |
| StorageSafety.FoundInAnyOrderIff | agent-framework/src/services/storageService.ts:178-204 | Which record a topic finds does not depend on the order of the directories exactly if at most one character has the topic |
| StorageSafety.CacheRefinesOwnFileIff | agent-framework/src/services/storageService.ts:285-356 | In every run of a process, reading a character that has its own file gives something else than the file exactly if a read that a save overtook at line 325 ended after it and nothing has repaired the cache since |
| StorageSafety.CacheRefinesOwnFile | agent-framework/src/services/storageService.ts:285-356 | So reading gives what the file says in every run in which no save falls between the lookup and the end of a read |
| StorageSafety.OvertakenReadStaysCached | agent-framework/src/services/storageService.ts:307-356 | A run in which a save overtakes a read, and the cache has the old value from then on |
| StorageSafety.FreshIff | agent-framework/src/services/storageService.ts:307-356 | In every run of a process, whatever a character is served from, reading gives what the files say exactly if it is not cached or the files say now what they said when the cached value was looked up |
| StorageSafety.FreshUntilWritten | agent-framework/src/services/storageService.ts:307-356 | So reading gives what the files say unless, after that lookup, the own file, the one with underscores or the data in the agent record was written |
| StorageSafety.FreshStepIff | agent-framework/src/services/storageService.ts:307-356 | A character that reads as the files say goes on to do so exactly if the event does not write another value where it was served from, nor end a read whose source was written with another value since the lookup |
| StorageSafety.RewrittenAgentStaysCached | agent-framework/src/services/storageService.ts:307-356 | A run in which the agent record gets other data and the cache keeps the old one |
| StorageSafety.RewrittenUnderscoreStaysCached | agent-framework/src/services/storageService.ts:307-356 | A run in which the file with underscores is saved anew and the cache keeps the old data |
| StorageRecords.FileIsLastSaved | agent-framework/src/services/storageService.ts:144-280 | In every run the file of a character and topic holds, field for field, the record saved last, or the record the last update found when it began, with the time of that update |
| StorageRecords.SavedIsFound | agent-framework/src/services/storageService.ts:144-204 | A saved record is found under its topic, field for field, as long as nobody writes its file |
| StorageRecords.AgentIsLastSaved | agent-framework/src/services/storageService.ts:78-173 | In every run the record of an agent is, field for field, the one saved last, or the one that the last saveConnection to list a topic had looked up, with that topic behind its list |
| StorageRecords.CharacterIsLastSaved | agent-framework/src/services/storageService.ts:285-302 | In every run the file of a character holds what was saved last |
| StorageReads.ReadAnswersLastWritten | agent-framework/src/services/storageService.ts:285-356 | In every run of a process, which starts with an empty cache: a read answers what was saved or read last in the process, else what was written last to the own file, to the file with underscores for dots, or as data of the agent |
| StorageReads.AwaitsAreBegun | agent-framework/src/services/storageService.ts:144-356 | In every run of a process the operations at an await are those begun and not ended, and a read is at one exactly if nothing was at hand |
| Indexer.StoredIff | graph-indexer/src/franky.ts:42-74 | Users and devices are stored exactly if an event created them |
| Indexer.AgentStoredIff | graph-indexer/src/franky.ts:11-30 | An agent is stored exactly if some AgentCreated for it came after events that created its device and its owner |
| Indexer.ReferencesResolve | graph-indexer/src/franky.ts:11-60 | After every history the owners of devices and the devices and owners of agents are stored |
| Indexer.CreatedAtIsFirst | graph-indexer/src/franky.ts:42-74 | A user was created at the time of the first event that creates it |
| Indexer.CreatedAtNeverChanges | graph-indexer/src/franky.ts:42-74 | No later event changes when a user was created |
| Indexer.CreatedBeforeUpdated | graph-indexer/src/franky.ts:11-74 | If block times do not decrease, every entity has createdAt <= updatedAt <= the last block time |
| Indexer.LastWriterWins | graph-indexer/src/franky.ts:11-74 | Device, wallet and key are those of the last event about them; a key counts from the first supported creation and survives further ones |
| Registry.GetCharacterFromRegistry | agent-framework/src/services/registryService.ts:119-154 | The loop over the messages keeps the best entry so far |
| Registry.GetAllCharactersFromRegistry | agent-framework/src/services/registryService.ts:159-197 | The loop over the messages keeps one entry per character; a failed request gives none |
| Registry.BestIsLatest | agent-framework/src/services/registryService.ts:127-149 | The reader of one character finds its registration with the greatest positive time, the earliest of several, or none if there is none |
| Registry.ListedIsFirstOrLatest | agent-framework/src/services/registryService.ts:167-192 | The reader of all characters has the registration with the greatest time, the earliest of several, unless the first one has no numeric time: then that one for ever |
| Registry.ListedInOrder | agent-framework/src/services/registryService.ts:164-192 | Every character is listed once, in the order of the first registrations |
| Registry.ReadersAgreeIff | agent-framework/src/services/registryService.ts:119-197 | For every log and id, the readers agree exactly if there is no registration, or the first one has a numeric time and one a positive time; for the empty id, exactly if there is no positive time |
| Registry.ReadersAgreeOnProperLogs | agent-framework/src/services/registryService.ts:119-197 | They agree on every id of a log with non-empty ids and positive times |
| Registry.OrderDoesNotMatter | agent-framework/src/services/registryService.ts:127-149 | If the times of a character are distinct the result is the same for every order of the messages |
| Registry.RegistrationFoundIff | agent-framework/src/services/registryService.ts:76-107 | A new registration is found exactly if its own fields leave its type one of the two that are read and its id alone, and every earlier positive time is smaller than its own |
| EnvFile.UpdateEnvFile | agent-framework/routes/agent-utils.ts:234-264 | The loop over the variables computes the updated text; a missing file counts as empty |
| EnvFile.UpdateSetsVariables | agent-framework/routes/agent-utils.ts:247-257 | For distinct keys without = and newline and values without newline, the first line for each key reads key=value |
| EnvFile.UpdateKeepsLines | agent-framework/routes/agent-utils.ts:247-261 | Every other line keeps its text and position, and what follows is the missing assignments in order and a final line break |
| EnvFile.EndsWithBreakIff | agent-framework/routes/agent-utils.ts:259-263 | The text ends with a line break, except exactly if there is no variable and the file was empty or missing |
| EnvFile.UpdateIdempotent | agent-framework/routes/agent-utils.ts:234-264 | Writing the same variables again changes nothing |
| EnvFile.EveryKeySet | agent-framework/routes/agent-utils.ts:247-257 | A key that had a line is set there, another one below all existing lines |
| Text.JoinSplit | agent-framework/routes/agent-utils.ts:244-263 | Joining the pieces of a split text gives the text |
| Text.SplitJoin | agent-framework/routes/agent-utils.ts:244-263 | Splitting joined pieces gives the pieces, if none contains the separator |
| ToolScanner.ExtractToolCalls | agent-framework/src/utils/mcp-openai.ts:140-176 | The loop over the matches returns their names and argument texts in order, and terminates |
| ToolScanner.MatchIff | agent-framework/src/utils/mcp-openai.ts:144 | The scanner matches at a position exactly what the expression describes there |
| ToolScanner.ScanIsLeftmost | agent-framework/src/utils/mcp-openai.ts:146-147 | The matches are occurrences, disjoint and from left to right, and every other occurrence begins inside one of them |
| ToolScanner.SentenceFound | agent-framework/src/utils/mcp-openai.ts:144 | A call announced in the prescribed sentence is found whatever stands before and after it |
| ToolScanner.AnnouncedCallsExtracted | agent-framework/src/utils/mcp-openai.ts:140-176 | Calls announced in the prescribed sentence, with text free of the letter I before, between and after them, are extracted exactly and in order |
| Conversation.HistoryIsLatest | agent/mcp-openai.js:181-188 | Over every run the history is the last twenty entries of what was said since the last clearing, follow-ups in the place of what they replaced |
| Conversation.HistoryAlternatesIff | agent/mcp-openai.js:485-489 | The history alternates between user and assistant with even length exactly if no follow-up came before the first response since the last clearing, or more than twenty entries have hidden that |
| Conversation.ResponseSeesLatest | agent/mcp-openai.js:165-169 | A response is generated from the last twenty entries of what was said and the question |
| Conversation.FollowUpSeesWhatCameBefore | agent/mcp-openai.js:469-473 | A follow-up right after a response is generated from at most the eighteen entries before that exchange and the question, which is not repeated |
| Conversation.FollowUpCompletesOwnIff | agent/mcp-openai.js:485-489 | With a client shared by several callers, a follow-up completes its own exchange exactly if no other response arrived in between |
| Base58.NibbleSpells | agent-framework/src/utils/base58.ts:8-9 | A character is a hexadecimal digit exactly if it is in the table in either case, and stands for its position there |
| Base58.PairsAreRead | agent-framework/src/utils/base58.ts:8-9 | Hexadecimal text is read pair by pair, up to the first pair that is not two digits |
| Base58.DecodesIff | agent-framework/src/utils/base58.ts:35-47 | Decoding fails exactly on text with a character outside the alphabet |
| Indexer.AgentIsLastCreated | graph-indexer/src/franky.ts:11-40 | A stored agent has, field for field, the device, owner, profile and creation time of the last creation whose device and owner exist, the key of the last key event since it exists, and the time of the last event that wrote it |
| Indexer.UserTimeIsLast | graph-indexer/src/franky.ts:42-74 | A user was updated last by the last event that wrote them |
| EnvFile.UpdateReadsBack | agent-framework/routes/agent-utils.ts:234-264 | Reading what follows the first = of the first line of a key: every variable that was set reads back its value, and every other key reads what it read before |
| ToolCharacters.WordsSpelled | agent-framework/src/utils/mcp-openai.ts:144 | The word of an announced tool consists of the 63 letters, digits and underscore |
| ToolCharacters.BlanksSpelled | agent-framework/src/utils/mcp-openai.ts:144 | The blanks before its arguments are the 25 blank characters of JavaScript |
| Hip991Runtime.Runtime.CollectGarbage | agent-framework/src/utils/hip991-agent.ts:150-164 | The loop removes exactly the entries older than the time to live |
| Hip991Runtime.Runtime.NextMessage | agent-framework/src/utils/hip991-agent.ts:302-331 | One round of the loop over a batch |
| Hip991Runtime.Runtime.TakeHead | agent-framework/src/utils/hip991-agent.ts:303-308 | The mark moves up to the message, never back |
| Hip991Runtime.Runtime.ProcessUserMessage | agent-framework/src/utils/hip991-agent.ts:420-449 | The guard and the entry that closes it, in one step |
| Hip991Runtime.Runtime.Fetched | agent-framework/src/utils/hip991-agent.ts:290-298 | The loop returns the messages from the bound on, in order |
| Hip991Runtime.Runtime.Generated | agent-framework/src/utils/hip991-agent.ts:451-457 | The reply names what it answers |
| Hip991Runtime.Runtime.Sent | agent-framework/src/utils/hip991-agent.ts:462-471 | Answer cached, waiter resolved, in one step |
| Hip991Runtime.Runtime.CacheAnswer | agent-framework/src/utils/hip991-agent.ts:462-464 | The answer enters the cache under its response id |
| Hip991Runtime.Runtime.ProcessingFailed | agent-framework/src/utils/hip991-agent.ts:474-484 | The waiter, if any, is rejected |
| Hip991Runtime.Runtime.SettlePending | agent-framework/src/utils/hip991-agent.ts:466-471 | Waiter and timer go together |
| Hip991Runtime.Runtime.SendUserMessage | agent-framework/src/utils/hip991-agent.ts:575-589 | Waiter and timer come before the message |
| Hip991Runtime.Runtime.TimeoutFires | agent-framework/src/utils/hip991-agent.ts:578-581 | The waiter is rejected |
| Hip991Runtime.Runtime.PollTick | agent-framework/src/utils/hip991-agent.ts:284-294 | A poll starts from a bound not above the mark |
| Hip991Runtime.Runtime.BeginInitialize | agent-framework/src/utils/hip991-agent.ts:354-359 | The mapped agent is destroyed first |
| Hip991Runtime.Runtime.FinishInitialize | agent-framework/src/utils/hip991-agent.ts:380-394 | The agent is mapped, its poller has no mark |
| Hip991Runtime.Runtime.DestroyAgent | agent-framework/src/utils/hip991-agent.ts:522-548 | Inactive and forgotten; the poller goes on |
| Hip991Runtime.Runtime.HasActive | agent-framework/src/utils/hip991-agent.ts:636-639 | Mapped to an active agent |
| Hcs10Poller.Poller.constructor | agent-framework/routes/character-mcp-api.ts:305-320 | The collections before the first round, from the connections that were loaded |
| Hcs10Poller.Poller.RefillConnections | agent-framework/routes/character-mcp-api.ts:335-347 | The loop that refills connections and adopts new topics |
| Hcs10Poller.Poller.HandleInbound | agent-framework/routes/character-mcp-api.ts:353-412 | One inbound message |
| Hcs10Poller.Poller.HandleConnectionRequest | agent-framework/routes/character-mcp-api.ts:112-208 | A request leads to an attempt exactly if its operator id names an account and no usable connection exists |
| Hcs10Poller.Poller.ProcessInbound | agent-framework/routes/character-mcp-api.ts:349-413 | The loop over the inbound messages |
| Hcs10Poller.Poller.ProcessTopicMessages | agent-framework/routes/character-mcp-api.ts:431-467 | The loop over the messages of one topic, left when somebody else closes the connection |
| Hcs10Poller.Poller.ProcessTopic | agent-framework/routes/character-mcp-api.ts:417-485 | One monitored topic, with the errors that drop it |
| Hcs10Poller.Poller.Poll | agent-framework/routes/character-mcp-api.ts:329-490 | One round of the main loop, ended early by an error of the refill or of the inbound request |
| MonitorServices.MonitorService.constructor | agent-framework/src/services/monitorService.ts:39-66 | Everything starts empty |
| MonitorServices.MonitorService.RegisterTopicType | agent-framework/src/services/monitorService.ts:84-95 | Kind and character of one topic are set |
| MonitorServices.MonitorService.StartMonitoringTopic | agent-framework/src/services/monitorService.ts:101-113 | Up to the await |
| MonitorServices.MonitorService.BeginPolling | agent-framework/src/services/monitorService.ts:114-197 | The mark starts at the highest message held, or zero |
| MonitorServices.MonitorService.StopMonitoringTopic | agent-framework/src/services/monitorService.ts:624-650 | Mark and kind go, the records of attempts stay |
| MonitorServices.MonitorService.Poll | agent-framework/src/services/monitorService.ts:129-135 | A poll reads the mark as it is then |
| MonitorServices.MonitorService.MessagesArrived | agent-framework/src/services/monitorService.ts:137-173 | The batch is filtered, the poll queues what it handles |
| MonitorServices.MonitorService.SelectMessages | agent-framework/src/services/monitorService.ts:139-171 | The selection of a batch |
| MonitorServices.MonitorService.TakeMessage | agent-framework/src/services/monitorService.ts:174-182 | The mark moves first, then the checks up to the await |
| MonitorServices.MonitorService.ProcessInboundMessage | agent-framework/src/services/monitorService.ts:281-341 | All checks of a connection request |
| MonitorServices.MonitorService.AgentArrived | agent-framework/src/services/monitorService.ts:343-371 | Both records are written before the attempt |
| MonitorServices.MonitorService.Emit | agent-framework/src/services/monitorService.ts:185-188 | Listeners hear of every message, processed or not |
| Storage.StorageService.SaveAgentInfo | agent-framework/src/services/storageService.ts:78-87 | The record replaces the file |
| Storage.StorageService.SaveConnection | agent-framework/src/services/storageService.ts:144-156 | First write and lookup of the agent |
| Storage.StorageService.LinkConnection | agent-framework/src/services/storageService.ts:156-173 | The topic is listed unless it is; the write may fail |
| Storage.StorageService.GetConnectionByTopicId | agent-framework/src/services/storageService.ts:178-204 | The loop finds the first directory that has the topic |
| Storage.StorageService.BeginUpdate | agent-framework/src/services/storageService.ts:264-269 | The record is looked up |
| Storage.StorageService.FinishUpdate | agent-framework/src/services/storageService.ts:270-280 | It is saved with the new time |
| Storage.StorageService.SaveCharacterData | agent-framework/src/services/storageService.ts:285-302 | File and cache get the value |
| Storage.StorageService.GetCharacterData | agent-framework/src/services/storageService.ts:307-325 | Cache, own file, file with underscores; else the await |
| Storage.StorageService.FinishRead | agent-framework/src/services/storageService.ts:325-356 | What the agent record had is cached |
| Echo.Subscriber.OnMessage | agent-framework/hcs-api.js:170-187 | A message is answered exactly if it is above the mark and its text is not in the window; the mark moves either way |
| Echo.Subscriber.OnReply | agent-framework/hcs-api.js:196-203 | The reply enters the window and the oldest element leaves one that grew too large |
| Indexer.Subgraph.HandleAgentCreated | graph-indexer/src/franky.ts:11-30 | An agent is written only if its device and its owner exist |
| Indexer.Subgraph.HandleApiKeyRegenerated | graph-indexer/src/franky.ts:32-40 | Key and time of an existing agent |
| Indexer.Subgraph.HandleDeviceRegistered | graph-indexer/src/franky.ts:42-60 | A missing owner is created, the device is replaced |
| Indexer.Subgraph.HandleServerWalletConfigured | graph-indexer/src/franky.ts:62-74 | A missing user is created, the wallet is replaced |
| Conversation.Client.ResponseArrived | agent/mcp-openai.js:179-199 | Question and answer are appended and the history cut to twenty entries; a failed request changes nothing |
| Conversation.Client.FollowUpArrived | agent/mcp-openai.js:482-493 | The last entry is replaced; a failed request changes nothing |
| Conversation.Client.ClearHistory | agent/mcp-openai.js:501-505 | The history is emptied |

## Left out

Foreign code and text:

- The Hedera, OpenAI, Ollama and file-system calls are the environment: parameters and events that may fail.
- JSON is opaque: a message has parsed fields, or is marked as text that does not parse; prompts and model output are strings.
- Express routes, command loops, wallets, deployment scripts and user interfaces: input and output only.
- Keyword routing, formatting of units and fees, the ENS cache, configuration and logging: only easy members.
- graph-node and the Solidity contract: no logic of theirs is in the repository.

HIP-991 runtime:

- Consensus timestamps are natural numbers; the source compares them as strings.
- Hip991Safety.NothingBelowTheMarkIsLost: parseFloat may round the lower bound of a fetch. Bounds rounded down are in the
  model; a bound rounded up loses the messages that `BoundAboveMarkLoses` names.
- Hip991Repeats.CanBeLookedAtIff: for bounds equal to the mark; one rounded down looks at older messages again, which the
  guard holds back for the time to live.
- Hip991Safety.SettledByDeadline: under the hypothesis that timers fire on time, which `SettledByDeadlineIff` shows to be
  necessary. Timeouts are not negative.
- uuids are fresh among response ids of waiters; ids of messages come from the topic and may be anything.
- The rounds of the loop over a batch are separate events, a finer interleaving than the source has where no await lies
  between them; what is proved for all of them holds for those of the source.
- lastProcessedMessageIds is written and never read.
- The mirror node returns what the topic holds; paging and its failures are one event.

HCS-10 polling agent:

- Hcs10Safety.ProcessedIsKeptForMonitored: like the other lemmas of that module, for runs in which the inbound topic is never
  offered as a connection topic. If it were, its set of processed messages would be shared.
- handleStandardMessage after it was called: what text is extracted and sent. A dispatch is the call; that it throws on data
  that is not text, which ends the topic for the round, is modelled.
- Hcs10Safety.MessagesLookedAt: operator ids are text; one of another type would throw and end the topic, or on the inbound
  topic the round.
- Hcs10Repeats.DispatchedAgainIff: for a number that in the streams of the topic is always that of a standard message of
  somebody else, as sequence numbers identify messages.
- The sleep between rounds.

Topic monitor:

- MonitorSafety.ConsumedOnce: for polls of that topic that do not overlap, on a topic that is not given up meanwhile; for
  overlapping ones `DeliveredOnceIff` gives the exact condition.
- MonitorOverlap.DeliveredOnceIff: from a moment without a poll of the topic until it is given up; a topic monitored anew
  starts a new count at its new mark.
- MonitorAttempts.ContentionBreaksOrderIff: which of two waiting handlers finds its agent first is left to the environment,
  as is the clock.
- Setting up a connection after the attempt is modelled as far as it touches the maps of topics; its fallback without a
  profile does the same to them and is not a separate event.
- Listeners that throw, activeCharacters and the text of confirmations.
- Sequence numbers of one topic are distinct, as the consensus service assigns them; requests, marks and attempts need no
  such assumption.
- The key of a request is a pair where the source joins the two parts with a dash; the number comes first, so the two are
  the same.
- Fee gating: fee configurations are stored but the processing path never looks at them.

Echo suppression:

- Sequence numbers are integers; how the SDK represents them, and so what its comparison operators do, is not modelled.

Stores, logs and texts:

- saveMessage and the listing of all connections of a character: written once, read by nothing that is modelled.
- Storage.StorageService.SaveConnection: a failed write leaves a file as it was; a file cut short is not modelled, nor
  that cached and returned records are shared objects a caller could change.
- Names of files are the ids themselves; ids that are paths are not modelled.
- graph-indexer/schema.graphql declares the entities immutable and all their fields present. The handlers update entities
  and leave fields of new ones unset; whether a store refuses that is not modelled.
- Registry times are integers or not numbers; text that JavaScript would compare as a number is not modelled.
- Registration fields other than type, id, name and time.
- Numbers as variable names, which JavaScript would sort to the front: the order of the variables is arbitrary.
- ToolScanner.ExtractToolCalls: returns the argument text; the source goes on to parse it and uses no arguments if that fails.
- The second monitor of inbound requests in agent-utils.ts, lines 483 to 604: a simpler consumer of the same kind.

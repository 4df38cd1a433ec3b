# CCNI server: a verified model

CCNI is a Chinese-chess lobby server in C++. Clients log in over TCP, enter rooms, open
and watch sessions (tables with two seats) and are told of each other's doings by
notifications on their connection and by UDP broadcasts. This project models the server's
core and proves properties of every run of it:

- **The concurrency kernel.** `ReadWriteMutex` (the writer-preferring lock), `MsgQueue`
  (the blocking FIFO), `ThreadPool` with `PoolRuns` (manager, workers, one-slot mailboxes)
  and `LockOrder` (all mutexes together). Each is a transition system over any number of
  threads, whose steps are the critical sections of the code; the same sections run on the
  fields of the classes beside it.
- **Framing and the client's I/O.** `Header`, `Framing` and `FrameStream` say what the
  packer sends and the parser reads under an arbitrary socket; `FrameObjects` and
  `BlockSend` are the same statements on buffers. `ClientIo` is the machine behind
  `doWork` and `queueNotification` with the history of its connection, `ClientObject` the
  class; `IoProgress` says by bytes what one `doWork` does in each state and that a client
  whose calls move something finishes what it has begun; `EndToEnd` joins a client to a
  peer's parser.
- **The lobby.** `Session` and `Room` are the critical sections on values, `Lobby` the
  machine of clients, rooms and sessions. A handler is three steps (mask check, locked call,
  writing of the client's own fields), a creation seven, with genid's load, store and second
  reading of its unlocked seed as steps of their own; all are interleaved with everybody
  else's. `LobbySteps` proves the invariant, `LobbyRuns` what follows over whole runs,
  `LobbyIds` what session ids are worth, `LobbyFlaws` reaches the three ways in which the
  records come apart. `Batches`, `RoomObjects` and `Handlers` are the classes. `Serving` says
  on values what a request, a list of requests and a disconnect do and which jobs they leave
  for the pool; the classes are proved to do just that, and `LobbyHandled` with `ServingRuns`
  that it is what the lobby's steps come to when no other thread comes in between.
  `LobbyRequests` says request by request in which states it is let through and where the
  client stands afterwards, `Hearing` what it answers and who hears what of it.
- **Two small ones.** `SecKeyMap` (the lazily cleaned key map) and `UserListener` (the
  rotation of listener threads).

`Prelude` holds an option type and counting lemmas.

## How to read the model

- A run is a sequence of events and a total function `Next`; an event that is not enabled
  changes nothing. Theorems quantify over all runs.
- A critical section is one step. What the operating system, the peer or the XML layer
  answers (EAGAIN, an error, how many bytes a call moves, whether the text parses, the text
  of a response) comes as a parameter, so theorems hold for every answer.
- Waits: the lock and the queue loop around theirs, and their theorems allow wakeups
  without cause. The pool's manager and workers wait under `if`; their theorems take a wait
  to return only after a signal, and `PoolRuns.BrokenIffEarly` proves over all runs with
  wakeups without cause that this is exactly what is needed. The pool starts where `create`
  returns.
- A failed ASSERT ends the process (inc/log.h:226-227 calls `exit`); the lobby's `halted`
  flag and the handlers' `ok` results stand for it.
- The header is modelled as laid out on a little-endian machine, 32 packed bytes. The
  comment in inc/ccni.h calls type 1 a normal packet; the constructor leaves it 0 and nothing
  sets it, and so does the model.
- The methods of the framing, client, session, room and handler classes are proved equal to
  functions on values; `View()`, `HallOf()` and `Mine()` are the bridges. The critical sections
  of the pool's, the queue's and the user listener's classes share their functions on lists
  with the machines (`Taken`, `Returned`, `Dealt`). `Session<C>`, `Room<C>` and `Serving` are
  generic so that the lobby can use numbers and the classes references as the identities of
  clients.
- CClient appears in three parts: `ClientIo` and `ClientObject.CClientIo` are its I/O,
  `Handlers.CRequests` its requests, `Batches.CClientPeer` what its peers see of it.

## What the proofs found

- client.cpp:85 reads `st == st_rdbd || st_rdhd`, and `st_rdhd` is the constant 0. A header
  that arrives in pieces therefore reaches `parse()`, fails, and costs the client its
  connection. `ClientIo.HeaderMustArriveWhole` states exactly when `doWork` keeps an idle
  connection. The parser itself does not mind pieces (`FrameStream.ChunkingDoesNotMatter`).
- `pack` narrows the length to 16 bits, the header check wants less than 32768, and a body
  of length 0 is read as a closed connection: a text arrives exactly when its length is at
  least 1 and below 32768 (`FrameStream.PackedTextArrivesIff`).
- The reader count is an unsigned int; the lock excludes in all runs exactly for up to 2^32
  threads (`ReadWriteMutex.ExclusionIffThreadsFitCounter`).
- `CSession::enter` seats nobody when both seats are empty and still reports success
  (room.cpp:113-136), and a new session silently replaces one with the same id (room.cpp:235).
  An id is in use in two ways: it has come round after 20000 creations, or two creations of one
  room drew it at the same time, because `genid` stores the seed and reads it again without a
  lock (room.h:81-86, called at room.cpp:233). Entering a session of watchers only and inserting
  over a session are exactly what makes a client's fields and the session's seats disagree, and
  a client they leave behind ends the process when it leaves, gets ready or is disconnected
  (`LobbyRuns.AgreementIff`, `LobbyRuns.AssertFailsIff`). `LobbyFlaws` reaches all three from an
  ordinary start; `LobbyIds.ShortLivedSessionsAgreeIff` says exactly when the records agree
  while ids have not come round.
- An insert of a key reads the clock before it takes the map's lock (seckey_map.h:98-100), so a
  later reader can clean first. Cleaning then shows: `SecKeyMap.CleaningOvertakes` is such a
  series of calls, and `SecKeyMap.AnswersAgreeIff` says exactly when it does not show.

## Model

| member | source | states |
|---|---|---|
| ReadWriteMutex.CReadWriteMutex.LockRead | ccniserver/src/inc/event.h:167-175 | for any words found after its wakeups, the reader enters on the first that has neither a writer nor a waiting one, and on no earlier |
| ReadWriteMutex.CReadWriteMutex.UnlockRead | ccniserver/src/inc/event.h:176-185 | the count goes down modulo 2^32; only the reader that brings it to 0 lowers the flag and wakes the others |
| ReadWriteMutex.CReadWriteMutex.LockWrite | ccniserver/src/inc/event.h:187-196 | the writer enters on the first word without holders; every word it went to sleep on was left with the blocking flag raised |
| ReadWriteMutex.CReadWriteMutex.UnlockWrite | ccniserver/src/inc/event.h:198-204 | writer and blocking flag are both cleared |
| ReadWriteMutex.StepInv | ccniserver/src/inc/event.h:152-204 | every step of every thread, spurious wakeups included, keeps: the count is the number of readers, the flag the writer, and nobody sleeps un-notified without a holder |
| ReadWriteMutex.ExclusionIffThreadsFitCounter | ccniserver/src/inc/event.h:140-204 | a writer inside is alone in all runs of n threads if and only if n is at most 2^32 |
| ReadWriteMutex.WrapBreaksExclusion | ccniserver/src/inc/event.h:142-196 | one thread more: a run after which a writer stands among readers |
| ReadWriteMutex.CountsAreHolders | ccniserver/src/inc/event.h:167-204 | in every run the fields say who is inside, readers and writer never coexist, and the blocking flag implies a holder |
| ReadWriteMutex.SleeperHasHolder | ccniserver/src/inc/event.h:152-204 | no lost wakeup: while anyone sleeps un-notified some thread holds the lock and will broadcast |
| ReadWriteMutex.FreeLockAdmitsNext | ccniserver/src/inc/event.h:167-204 | with nobody inside nobody is asleep, and whichever thread is scheduled next gets in |
| ReadWriteMutex.WaitersGetIn | ccniserver/src/inc/event.h:152-204 | from any reachable state, when those inside have unlocked they are out and the lock is free, and whoever was waiting to read or to write, asleep or not, gets in at its next look |
| ReadWriteMutex.WokenForNothing | ccniserver/src/inc/event.h:167-196 | a sleeper that wakes without cause finds it must wait and sleeps on with the word unchanged |
| ReadWriteMutex.WriterPreference | ccniserver/src/inc/event.h:167-196 | once a writer has raised the flag, no reader enters until the count reaches 0, and the count is exactly the exits still to come |
| MsgQueue.CCMsgQueue.Send | ccniserver/src/inc/cmsgqueue.h:90-97 | the message becomes the last of the list |
| MsgQueue.CCMsgQueue.Receive | ccniserver/src/inc/cmsgqueue.h:113-124 | takes the head of the first non-empty list it finds, and sleeps on through every empty one |
| MsgQueue.FifoAndNoLostWakeup | ccniserver/src/inc/cmsgqueue.h:90-124 | for any senders and receivers: the k-th receive to return yields the k-th message sent, the rest is queued, and a receiver sleeps un-notified only on an empty queue |
| MsgQueue.ReceiveReturns | ccniserver/src/inc/cmsgqueue.h:90-124 | in every run the messages sent are those of the calls of send; while one has not been received, a receive() that is called or has been woken returns at its next look with the oldest such; on an empty queue it goes to sleep, and a sleeper that looks after the next send gets that message |
| MsgQueue.WokenForNothing | ccniserver/src/inc/cmsgqueue.h:113-124 | a sleeper that wakes without cause finds nothing and sleeps on |
| ThreadPool.CWorkThread.Run | ccniserver/src/utils/threads_pool.cpp:63-68 | the slot holds the job |
| ThreadPool.CWorkThread.TakeJob | ccniserver/src/utils/threads_pool.cpp:53-54 | the worker gets what was in the slot and leaves it empty |
| ThreadPool.CThreadsPool.HandOut | ccniserver/src/utils/threads_pool.cpp:110-114 | the first idle worker becomes the last busy one and has the job |
| ThreadPool.CThreadsPool.MoveToIdleList | ccniserver/src/utils/threads_pool.cpp:69-92 | the search finds the worker exactly if it is busy, and then moves that one entry to the end of the idle list; otherwise nothing changes |
| ThreadPool.StepInv | ccniserver/src/utils/threads_pool.cpp:42-118 | every interleaved step keeps the partition of the workers and the states that go with each list |
| PoolRuns.NeverBroken | ccniserver/src/utils/threads_pool.cpp:42-118 | in every run no slot is overwritten, no worker runs an empty slot, the manager never takes from an empty list, the not-found branch is not reached, and every worker is in exactly one list |
| PoolRuns.ExactlyOnce | ccniserver/src/utils/threads_pool.cpp:42-118 | in every run each assignment is in exactly one of: queue, manager's hand, one slot, running, finished, passed over as null |
| PoolRuns.HandedInOrder | ccniserver/src/utils/threads_pool.cpp:93-118 | jobs are handed out exactly in the order of assignment |
| PoolRuns.TicketsAreJobs | ccniserver/src/utils/threads_pool.cpp:42-118 | in every run the assignments recorded are the calls of assign, and a worker runs the very job that was assigned under its ticket |
| PoolRuns.LongestIdleFirst | ccniserver/src/utils/threads_pool.cpp:69-118 | in every run the workers taken, followed by the idle list, are the workers in the order in which they became idle: the one idle longest is used next |
| PoolRuns.WokenForNothing | ccniserver/src/utils/threads_pool.cpp:93-100 | the same of the manager in receive() |
| PoolRuns.BusyRunBounded | ccniserver/src/utils/threads_pool.cpp:42-118 | every effective step uses up work: a run without new assignments is no longer than the work in the pool |
| PoolRuns.PoolFinishesEverything | ccniserver/src/utils/threads_pool.cpp:42-118 | from any reachable state the pool left alone stops after boundedly many steps, and where no thread can step every job ever assigned has run exactly once |
| PoolRuns.BrokenIffEarly | ccniserver/src/utils/threads_pool.cpp:42-118 | over all runs with wakeups without cause: a branch the design rules out is taken if and only if some sleeper under `if` went on before it was signalled |
| PoolRuns.EarlyReached | ccniserver/src/utils/threads_pool.cpp:48-57 | such a run: a new worker goes to sleep, wakes up and runs an empty slot |
| LockOrder.TasksRise | ccniserver/src/framework/client.cpp:167-249 | whatever tasks a thread goes through one after the other, it takes its locks in rising order: _iolk, _slk, session _lk, then locks enclosing no other (users, client list, listener, queue, pool, worker, keys, serial number, UDP socket, database) |
| LockOrder.HandlerRises | ccniserver/src/framework/room.cpp:41-299 | so does the part of each request handler, below _iolk |
| LockOrder.FindsMover | ccniserver/src/framework/client.cpp:167-249 | following who holds what a blocked thread waits for leads to a thread that can go on |
| LockOrder.NoDeadlock | ccniserver/src/framework/client.cpp:167-249 | any number of threads going through such tasks, in any interleaving: while one is not at its end, some thread can go on |
| LockOrder.OneHolderOneIolk | ccniserver/src/framework/client.cpp:167-249 | no lock has two holders and no thread ever holds two clients' _iolk |
| LockOrder.AllFinishIff | ccniserver/src/framework/client.cpp:167-249 | a scheduler that picks threads that can go on finishes all of them after exactly the work there was, never before |
| LockOrder.DoesItsTasks | ccniserver/src/framework/client.cpp:167-249 | however the threads interleave, each has locked and unlocked the beginning of what its tasks say, in their order, and all of it exactly when it is at its end |
| LockOrder.HandlerTrace | ccniserver/src/framework/room.cpp:178-299 | what the room handlers lock, written out: a session's _lk within its room's _slk, and for a creation the user list, _slk and the session one after the other |
| LockOrder.DoWorkTrace | ccniserver/src/framework/client.cpp:167-218 | a doWork does all of it under the client's _iolk: the requests' own locks, the pool's queue twice for each, and the listener's or, on the way out, the client list's twice |
| Header.DecodeEncode | ccniserver/src/inc/ccni.h:62-75 | reading back the 32 bytes of a header gives the header |
| Header.EncodeDecode | ccniserver/src/inc/ccni.h:62-75 | and writing out what 32 bytes say gives the bytes |
| Header.RawFields | ccniserver/src/inc/ccni.h:82-85 | what the check and the length say of raw bytes is what they say of the decoded header |
| Header.FieldsStand | ccniserver/src/inc/ccni.h:62-75 | seq stands at bytes 6 to 9, udata at 10 to 13, the secrets at 14 to 21 and 22 to 29, the length at 4 and 5, each lowest byte first |
| Header.GoodHeaders | ccniserver/src/inc/ccni.h:82-85 | a header is good exactly when its first bytes are 32, 1 and 0 and the length is below 32768 |
| Framing.SendContinuesFrame | ccniserver/src/ccnimsg/ccni_msg.cpp:69-124 | whatever the socket takes, each send continues the frame exactly where the last one stopped, and is done exactly at its end |
| Framing.SendNoticeContinues | ccniserver/src/inc/ccni_msg.h:223-247 | the same for a shared notification buffer |
| Framing.ReadFollowsBytes | ccniserver/src/ccnimsg/ccni_msg.cpp:126-238 | the parser's state is a function of the bytes it consumed, and it never consumes one beyond the frame |
| FrameStream.ReadAllFollows | ccniserver/src/ccnimsg/ccni_msg.cpp:126-238 | over any number of reads, freed after each message: what was delivered and what is held are functions of the bytes consumed |
| FrameStream.ChunkingDoesNotMatter | ccniserver/src/framework/tcp_listener.cpp:175-205 | two readings of a stream, in whatever pieces, that consumed as much delivered the same and stand the same |
| FrameStream.MessagesOfStream | ccniserver/src/ccnimsg/ccni_msg.cpp:171-238 | the messages in the concatenation of sendable frames are those messages, in order |
| FrameStream.ReaderYieldsMessages | ccniserver/src/ccnimsg/ccni_msg.cpp:126-238 | every regrouping of sent messages is delivered as a prefix of them, and as all of them once all is read |
| FrameStream.PackedTextArrivesIff | ccniserver/src/inc/ccni_msg.h:145-162 | a packed text arrives as one message if and only if 1 <= length < 32768 |
| FrameObjects.CCNIMsgPacker.PackText | ccniserver/src/inc/ccni_msg.h:145-162 | the header buffer, decoded, has exactly the given seq, udata and secrets, version 1.0 and the text's length cut to 16 bits; the text is the buffer's, and sending starts anew |
| FrameObjects.CCNIMsgPacker.SendTo | ccniserver/src/ccnimsg/ccni_msg.cpp:69-124 | state, position and bytes given to the socket are those of the function Send |
| FrameObjects.CCNIMsgPacker.Free | ccniserver/src/inc/ccni_msg.h:114-124 | back to an empty packer at the start of a header |
| FrameObjects.CCNIMsgParser.ReadFrom | ccniserver/src/ccnimsg/ccni_msg.cpp:126-238 | state, buffers and bytes taken are those of the function Read |
| FrameObjects.CCNIMsgParser.Free | ccniserver/src/inc/ccni_msg.h:280-290 | rewinds exactly a parser that has a body buffer |
| FrameObjects.CCNINotification.SendTo | ccniserver/src/inc/ccni_msg.h:223-247 | position, result and bytes given to the socket are those of the function SendNotice on the buffer's len() bytes; the shared buffer is not written |
| BlockSend.TcpWrite | ccniserver/src/utils/utils.cpp:222-249 | the loop gives the socket the buffer in order and nothing twice, each time all that is left, and ends as Offered says: at the end of the buffer, at the first error or with no answer left |
| BlockSend.OfferedSays | ccniserver/src/utils/utils.cpp:222-249 | of any series of answers: all is taken exactly on success, only a hard failure is an error and none is passed over, and it is still trying only with fewer taking answers than there are bytes |
| BlockSend.BlockSend | ccniserver/src/ccnimsg/ccni_msg.cpp:57-67 | what was sent is a prefix of the frame, and all of it exactly on success; it fails exactly when an answer it used fails hard, and is still trying only when header or body lack answers that take something, so it succeeds whenever both scripts have enough of those and none fails |
| BlockSend.PackToFlat | ccniserver/src/ccnimsg/ccni_msg.cpp:42-56 | the flat buffer's len() bytes are the frame of the text with zero request fields, and one zero follows that does not count |
| ClientIo.StepWire | ccniserver/src/framework/client.cpp:69-249 | every call keeps: the bytes written are the completed frames and a part of at most one more |
| ClientIo.WholeFrames | ccniserver/src/framework/client.cpp:69-249 | in every mix of doWork and queueNotification the wire is whole frames and a prefix of one; a response is part-sent only in iostSending, a notification only in iostNotifing, and iostIdle means an empty list |
| ClientIo.StepReplies | ccniserver/src/framework/client.cpp:69-128 | every call keeps the account of requests dispatched and responses completed |
| ClientIo.ResponsesMatchRequests | ccniserver/src/framework/client.cpp:69-163 | the k-th response frame is the one for the k-th request dispatched; one more request than responses is outstanding exactly in iostSending, so none is dispatched over an unfinished response |
| ClientIo.ResponsesCarryFields | ccniserver/src/framework/client.cpp:69-128 | in every run, told on the bytes: the k-th response on the wire has the k-th request's seq at 6 to 9, udata at 10 to 13 and secrets at 14 to 29, version 1.0, and its text with the length cut to 16 bits |
| ClientIo.NotificationsInOrder | ccniserver/src/framework/client.cpp:129-163 | notifications leave in queueing order, each at most once; exactly those leave whose send did not fail hard, and the others still wait in order |
| ClientIo.NotificationsExactlyOnce | ccniserver/src/framework/client.cpp:129-163 | when no send fails hard, each notification taken off the list was sent exactly once |
| ClientIo.HeaderMustArriveWhole | ccniserver/src/framework/client.cpp:69-128 | an idle connection survives doWork if and only if all 32 header bytes came at once, they pass the check and announce a body, and the body is still to come, or is whole, parses and has its answer's two sends not fail, the second one asking for the answer's length cut to 16 bits |
| ClientIo.HalvedHeaderEnds | ccniserver/src/framework/client.cpp:69-128 | a good header of which 16 bytes come first ends a new connection, whatever follows |
| IoProgress.SendingGoesOn | ccniserver/src/framework/client.cpp:110-128 | in iostSending a doWork whose sends do not fail gives the socket the next bytes of the response, all that it takes, and the response stands that much further on |
| IoProgress.SendingBreaks | ccniserver/src/framework/client.cpp:110-119 | and a failing send ends the connection with the bytes taken before it |
| IoProgress.FinishThenNotify | ccniserver/src/framework/client.cpp:120-126 | the call that sends the last byte completes the response and goes on as if it had come to the client in iostNotifing |
| IoProgress.NotifingWork | ccniserver/src/framework/client.cpp:129-163 | in iostNotifing doWork gives the socket the next bytes of the first notification; the last ones complete it, a failure drops it and ends the connection, and the client is idle exactly when the list is empty |
| IoProgress.ReadingGoesOn | ccniserver/src/framework/client.cpp:69-89 | in iostReading doWork takes the bytes of the body that are there, as far as they are wanted and the read brings them |
| IoProgress.ReadingBreaks | ccniserver/src/framework/client.cpp:69-95 | a failed read, or a whole text that does not parse, ends the connection, and nothing is written or dispatched |
| IoProgress.ReadThenSend | ccniserver/src/framework/client.cpp:91-107 | the call that brings the last byte of a text that parses dispatches the request and goes on as if it had come to the client in iostSending with the response's first byte to send |
| IoProgress.HeadThenRead | ccniserver/src/ccnimsg/ccni_msg.cpp:171-238 | in iostIdle a good header in one read lets the call go on as if it had come to the client in iostReading |
| IoProgress.IdleBreaks | ccniserver/src/framework/client.cpp:69-95 | anything else in iostIdle ends the connection, and nothing is written or dispatched |
| IoProgress.HeadBrings | ccniserver/src/ccnimsg/ccni_msg.cpp:171-238 | the parser within a header takes what the read brings of what the header lacks, judges a whole one at once and reads on in the same call |
| IoProgress.QueueGoesOut | ccniserver/src/framework/client.cpp:231-249 | a notification queued on an idle client is sent in that call as doWork would in iostNotifing; on another it is the last of the list and nothing else changes |
| IoProgress.ResponseCompletes | ccniserver/src/framework/client.cpp:110-187 | over runs in which each doWork moves a byte: a response under way is complete after at most as many calls as it has bytes left, whatever arrives and is queued meanwhile |
| IoProgress.NoticeCompletes | ccniserver/src/framework/client.cpp:129-187 | the same of a notification under way |
| IoProgress.RequestDispatched | ccniserver/src/framework/client.cpp:69-187 | the same of a request whose body has arrived: it is dispatched after at most as many calls as the body lacks bytes |
| IoProgress.ComesBack | ccniserver/src/framework/client.cpp:167-249 | such a client is back in iostIdle, alive, after at most as many calls as it has bytes left to read, to send and to notify, those queued meanwhile included |
| IoProgress.RequestServed | ccniserver/src/framework/client.cpp:167-187 | from iostIdle, a request whose header comes whole is dispatched in such a run, its response completed with the request's own fields, and the client idle again |
| ClientObject.CClientIo.DoNotify | ccniserver/src/framework/client.cpp:129-163 | list, phase, result and bytes sent are those of the function |
| ClientObject.CClientIo.DoSend | ccniserver/src/framework/client.cpp:110-128 | the response goes on where it stopped; once out, both messages are freed and a notification follows |
| ClientObject.CClientIo.DoRead | ccniserver/src/framework/client.cpp:69-108 | a read with its six ways out, and the dispatch, packing and sending of a complete request |
| ClientObject.CClientIo.DoWork | ccniserver/src/framework/client.cpp:167-187 | one call in each phase does what the machine's Work event does, and a true result leaves the client fit for the next |
| ClientObject.CClientIo.QueueNotification | ccniserver/src/framework/client.cpp:231-249 | the buffer goes to the end of the list, and only an idle client sends at once |
| EndToEnd.PeerReadsFrames | ccniserver/src/framework/client.cpp:69-249 | for every run of a live client with well-formed notifications and response texts of 1 to 32767 bytes, and every regrouping of its bytes: a peer's parser hands on nothing but the frames completed, in order, and all of them once everything is read |
| Session.LeaveRemoves | ccniserver/src/framework/room.cpp:41-89 | leaving takes out exactly the one who leaves, reports how many stay and tells each of those once; it fails exactly for strangers |
| Session.OthersKeepPlaces | ccniserver/src/framework/room.cpp:41-89 | and everybody else keeps the seat or place they had |
| Session.EnterSeats | ccniserver/src/framework/room.cpp:113-136 | entering fails exactly with two players, seats the newcomer exactly with one, and with none changes nothing |
| Session.WatchAdds | ccniserver/src/framework/room.cpp:90-112 | watching fails exactly when the watchers are full, adds one watcher and leaves the seats alone |
| Session.ReadyTells | ccniserver/src/framework/room.cpp:137-177 | those told that a player is ready are the other members, each once |
| RoomObjects.CIdSeed.GenId | ccniserver/src/framework/room.h:81-86 | the id is that of the number read last: the next one, or what another thread stored between this call's store and its second reading |
| RoomObjects.CSession.constructor | ccniserver/src/framework/room.h:105-109 | a new session has its creator as owner and the id of the number genid read |
| RoomObjects.CSession.LeaveBy | ccniserver/src/framework/room.cpp:41-89 | the seats, the result and the notifier's list after a leave |
| RoomObjects.CSession.WatchBy | ccniserver/src/framework/room.cpp:90-112 | the same for watch; a refused one leaves the list alone |
| RoomObjects.CSession.EnterBy | ccniserver/src/framework/room.cpp:113-136 | the same for enter |
| RoomObjects.CSession.UpdatePlayersState | ccniserver/src/framework/room.h:87-103 | the configured side moves and is named red, the other ponders and is named black; no other client's state changes |
| RoomObjects.CSession.ReadyBy | ccniserver/src/framework/room.cpp:137-177 | fails exactly for one without a seat; else the result and the states of all clients are those of AfterReady, and the list gets the other player and the watchers |
| RoomObjects.LeaveTellsOthers | ccniserver/src/framework/room.cpp:72-86 | the list a leave fills has each remaining member exactly once and nobody else |
| RoomObjects.JoinTellsMembers | ccniserver/src/framework/room.cpp:98-134 | the list an enter or watch fills has each earlier member exactly once |
| RoomObjects.ReadyTellsOthers | ccniserver/src/framework/room.cpp:144-175 | the list a ready fills has each other member exactly once |
| RoomObjects.CRoom.EnterBy | ccniserver/src/framework/room.cpp:178-198 | refused when full or present already; otherwise one user more, and the earlier users are the broadcast's audience |
| RoomObjects.CRoom.LeaveBy | ccniserver/src/framework/room.cpp:200-215 | one user fewer, and those who stay are the audience |
| RoomObjects.CRoom.CreateSession | ccniserver/src/framework/room.cpp:217-237 | between the two locked parts the id is drawn, whatever others draw meanwhile; the new session goes under it, over whatever was there, and the other users are the audience |
| RoomObjects.CRoom.LeaveSession | ccniserver/src/framework/room.cpp:238-263 | fails its ASSERTs exactly when the session or the member is missing; a session goes with its last member, and then all users are the audience |
| RoomObjects.CRoom.EnterSession | ccniserver/src/framework/room.cpp:264-276 | -2 for an unknown id, else the session's answer, other sessions untouched |
| RoomObjects.CRoom.WatchSession | ccniserver/src/framework/room.cpp:277-287 | the same for watch |
| RoomObjects.CRoom.Ready | ccniserver/src/framework/room.cpp:288-299 | the same for ready |
| RoomObjects.BroadcastReachesUsers | ccniserver/src/framework/room.cpp:188-194 | an address is in the book under a socket exactly as often as the audience has users with that address and socket |
| Batches.CNotifier.Run | ccniserver/src/framework/notifier.cpp:43-53 | each client is queued the message exactly as often as it is on the list |
| Batches.RunOnce | ccniserver/src/framework/notifier.cpp:43-53 | a notifier whose list is a set of clients queues each of them the message exactly once |
| Batches.CBroadCaster.InsertAddr | ccniserver/src/framework/broadcaster.h:63-78 | the book remains the grouping of all that was inserted |
| Batches.GroupedKeepsEach | ccniserver/src/framework/broadcaster.h:63-78 | grouping by socket loses, adds and reorders nothing |
| Batches.UnderCounts | ccniserver/src/framework/broadcaster.h:63-78 | an address stands under a socket as often as it was inserted with it |
| Handlers.CRequests.EnterRoom | ccniserver/src/framework/ccni_msghnds.cpp:207-235 | the hall, the fields, the result and the waiting batch are those of ServeEnterRoom: three errors that change nothing, or the client is moved and the earlier users are to be told |
| Handlers.CRequests.LeaveRoom | ccniserver/src/framework/ccni_msghnds.cpp:180-206 | the ASSERTs hold exactly where ServeLeaveRoom does not crash; then the client is out and those who stay are to be told |
| Handlers.CRequests.CreateSession | ccniserver/src/framework/ccni_msghnds.cpp:236-261 | the ASSERTs hold exactly for an idle user of its room; then it owns the session under the number that genid read, whatever others stored meanwhile, and the other users are to be told |
| Handlers.CRequests.LeaveSession | ccniserver/src/framework/ccni_msghnds.cpp:262-291 | the ASSERTs hold exactly where ServeLeaveSession does not crash; the members that stay are to be notified and, if none stays, all users told |
| Handlers.CRequests.EnterSession | ccniserver/src/framework/ccni_msghnds.cpp:316-339 | as ServeEnterSession: errors change nothing; success writes state and fields and the earlier members are to be notified |
| Handlers.CRequests.WatchSession | ccniserver/src/framework/ccni_msghnds.cpp:292-315 | the same for watching |
| Handlers.CRequests.DoReady | ccniserver/src/framework/ccni_msghnds.cpp:460-495 | the ASSERTs hold exactly for a player of its session; the states are those of AfterReady; a start puts the ready and the start notice on the others' batch and the start notice in a job of the client's own, both naming red and black |
| Handlers.CRequests.Consume | ccniserver/src/framework/ccni_msghnds.cpp:98-118 | a batch with an audience becomes one job, one without stays; afterwards both are empty |
| Handlers.CRequests.Handle | ccniserver/src/framework/ccni_msghnds.cpp:147-151 | for every request: the ASSERTs hold exactly where Serve does not crash, and then result, hall, fields, jobs handed over and batches waiting are Serve's |
| Handlers.CRequests.ProcMsgs | ccniserver/src/framework/ccni_msghnds.cpp:119-165 | for every list of requests: no ASSERT fails exactly where ServeAll finishes; the number served, the hall and the fields are ServeAll's, and the pool got exactly the jobs of the requests served, in order (LobbyRequests.DispatchedExactly and Hearing.ServeAllSplits say what ServeAll is) |
| Handlers.CRequests.ReadyDelivered | ccniserver/src/framework/ccni_msghnds.cpp:460-495 | a ready that starts a game: once the pool has run the two jobs, in either order, every member of the session has the start notice exactly once in its inbox, the others after the ready notice, and no other inbox has changed |
| Handlers.CRequests.Disconnect | ccniserver/src/framework/client.cpp:193-218 | hall, fields and jobs are those of Close; where nobody has two places in a session, the ASSERTs hold exactly for a client that is where its fields say, which afterwards is in neither the user list nor the session nor the client list, all other rooms and sessions being untouched |
| Handlers.CDataMgr.AddClient | ccniserver/src/framework/data_mgr.h:101-111 | refused exactly for a name in use |
| Handlers.CDataMgr.FindClient | ccniserver/src/framework/data_mgr.h:90-100 | the client under the name, or null |
| Handlers.CDataMgr.DelClient | ccniserver/src/framework/data_mgr.h:112-122 | the name, and only it, is gone |
| Serving.CrashIff | ccniserver/src/framework/ccni_msghnds.cpp:180-495 | the process ends exactly when the client is not where its fields say: not in the user list, not in the session, not seated there, or already in a session |
| Serving.ServedNamesOnce | ccniserver/src/framework/ccni_msghnds.cpp:180-495 | whatever is served, no job addresses anybody twice, and no notification goes to the client it is about but for the one of its own game's start |
| Serving.ServeKnown | ccniserver/src/framework/ccni_msghnds.cpp:180-495 | no request forgets a client or seats one that is not there |
| Serving.StartNames | ccniserver/src/framework/room.h:87-103 | a start names the client that is Moving from then on as red and the Pondering one as black; only the two seats' states change |
| Serving.ServesUpToFirstFailure | ccniserver/src/framework/ccni_msghnds.cpp:119-165 | the requests before the stopping point are all that counts; the one there is not allowed in the state reached, or returns an error |
| Serving.RefusedDoesNothing | ccniserver/src/framework/ccni_msghnds.cpp:207-339 | a handler that returns an error has changed nothing and told nobody |
| Serving.DisconnectedIsGone | ccniserver/src/framework/client.cpp:193-218 | the path's ASSERTs hold exactly for a client that is where its fields say; afterwards it is in no user list and no session it named, and everything else is as it was |
| ServingRuns.ServeIsRun | ccniserver/src/framework/ccni_msghnds.cpp:119-495 | from every lobby that satisfies the invariant: the steps of a client's thread left alone with a request fail an ASSERT exactly when Serve crashes, and else leave the rooms, states, seed and fields that Serve says |
| ServingRuns.ServeAllIsRun | ccniserver/src/framework/ccni_msghnds.cpp:119-165 | the same for procMsgs and a whole list of requests |
| ServingRuns.ServedHallIsSound | ccniserver/src/framework/ccni_msghnds.cpp:119-165 | after any run from the opening, what serving a list leaves has no client in two places of a session and no session without members |
| LobbyRequests.MaskIsVstate | ccniserver/src/framework/ccni_msghnds.cpp:48-66 | the sets of states in which each kind of request is let through are the table's bit masks |
| LobbyRequests.LetThroughIff | ccniserver/src/framework/ccni_msghnds.cpp:68-82 | a request is let through exactly when the mask has the bit of the state |
| LobbyRequests.DispatchedExactly | ccniserver/src/framework/ccni_msghnds.cpp:119-165 | a list of one request, of any kind and in any state: it is served, refused by its handler or ends the process exactly when the mask has the bit of the state, and otherwise nothing is done |
| LobbyRequests.AskedExactly | ccniserver/src/framework/ccni_msghnds.cpp:68-82 | the same of the lobby's steps |
| LobbyRequests.EnterRoomDone | ccniserver/src/framework/ccni_msghnds.cpp:207-235 | from every state that satisfies the invariant: an online client is let into a room exactly if it exists and is not full, and is then idle in it |
| LobbyRequests.LeaveRoomDone | ccniserver/src/framework/ccni_msghnds.cpp:180-206 | an idle client that leaves its room is out of it and online |
| LobbyRequests.MakeSessionDone | ccniserver/src/framework/ccni_msghnds.cpp:236-261 | an idle client that makes a session is its owner, alone in it, under the next id |
| LobbyRequests.EnterSessionDone | ccniserver/src/framework/ccni_msghnds.cpp:316-339 | an idle client that enters a session takes exactly the free seat; two players refuse it, none leave it outside |
| LobbyRequests.WatchSessionDone | ccniserver/src/framework/ccni_msghnds.cpp:292-315 | an idle client is among the watchers exactly if there is room for one |
| LobbyRequests.NoSessionDone | ccniserver/src/framework/room.cpp:264-287 | an unknown id changes nothing |
| LobbyRequests.LeaveSessionDone | ccniserver/src/framework/ccni_msghnds.cpp:262-291 | a sessional, ready or watching client whose session has it and that asks to leave is idle in its room and in no session; the others stay, and the session goes with its last member |
| LobbyRequests.MakeReadyDone | ccniserver/src/framework/ccni_msghnds.cpp:460-495 | a sessional player that gets ready is Ready, or in the game exactly if its rival was ready |
| LobbyRequests.LoginDone | ccniserver/src/framework/data_mgr.h:101-111 | a client with a free name comes in online and in no room; otherwise nothing changes |
| LobbyRequests.HangupDone | ccniserver/src/framework/client.cpp:193-218 | an I/O error puts a client between two requests on its way out, no more than five steps from the end |
| Hearing.EnterRoomTold | ccniserver/src/framework/ccni_msghnds.cpp:207-235 | -1, -2 and -3 each exactly in its case; on success exactly the users before hear, by broadcast, that the client entered |
| Hearing.LeaveRoomTold | ccniserver/src/framework/ccni_msghnds.cpp:180-206 | exactly the other users hear that it left |
| Hearing.MakeSessionTold | ccniserver/src/framework/ccni_msghnds.cpp:236-261 | exactly the other users hear of the new session's id |
| Hearing.EnterSessionTold | ccniserver/src/framework/ccni_msghnds.cpp:316-339 | -2 exactly for an unknown id, -3 exactly for two players; on success exactly the members before hear, by notification, that the client entered |
| Hearing.WatchSessionTold | ccniserver/src/framework/ccni_msghnds.cpp:292-315 | the same for watching, -3 exactly when the watchers are full |
| Hearing.LeaveSessionTold | ccniserver/src/framework/ccni_msghnds.cpp:262-291 | the other members hear that it left; when there are none, all users of the room hear that the session is gone |
| Hearing.LeftHeard | ccniserver/src/framework/room.cpp:238-263 | the room's answer to a leave is how many members stay |
| Hearing.ReadyStates | ccniserver/src/framework/room.cpp:137-177 | a ready makes the client Ready, or both players Moving and Pondering, the owner moving where red is 0, exactly if both seats are taken and the other player was ready |
| Hearing.ReadyTold | ccniserver/src/framework/ccni_msghnds.cpp:460-495 | the other members hear of the ready, and they and the client of the start if there is one, red named first |
| Hearing.PlainTold | ccniserver/src/framework/ccni_msghnds.cpp:402-418 | the other requests change nothing and tell nobody; the list of sessions alone ends the process, exactly for a client whose room is not there |
| Hearing.CloseTold | ccniserver/src/framework/client.cpp:193-218 | of a disconnect the session hears like of a leave, and then the room |
| Hearing.ServeAllSplits | ccniserver/src/framework/ccni_msghnds.cpp:119-165 | when the first k requests of a list were all served, the rest is served from where they led and its jobs come after theirs |
| LobbySteps.StepInv | ccniserver/src/framework/ccni_msghnds.cpp:180-339 | every step of every client keeps: user lists, capacities, seats, watchers, names, fields and game states fit together |
| LobbySteps.RunInv | ccniserver/src/framework/ccni_msghnds.cpp:119-165 | and so does every run |
| LobbySteps.MakingInv | ccniserver/src/framework/room.cpp:217-237 | each of the steps of a creation past its ASSERT keeps it, the insertion over a stored session included |
| LobbySteps.EnterSessionInv | ccniserver/src/framework/ccni_msghnds.cpp:316-339 | the call of enterSession keeps it and fails no ASSERT, even on a session without players |
| LobbySteps.LeaveSessionInv | ccniserver/src/framework/room.cpp:238-263 | the call of leaveSession keeps it, also when its ASSERT fails |
| LobbySteps.GameStartsInv | ccniserver/src/framework/room.h:87-103 | starting a game over another client's state, whatever that client is doing, keeps it |
| LobbyRuns.RolesAreRight | ccniserver/src/framework/ccni_msghnds.cpp:180-339 | in every run each seated player or watcher is a client in that room and session in that role, nobody has two roles anywhere, users are exactly the clients in the room, and rooms and watchers stay within bounds |
| LobbyRuns.FieldsAreRight | ccniserver/src/framework/ccni_msghnds.cpp:180-339 | between requests _roomid, _sessionid and _state themselves say so |
| LobbyRuns.AgreementIff | ccniserver/src/framework/room.cpp:113-136 | every client with a session id is in that session and no ASSERT has failed, if and only if no client entered a session without players and no insertion hit an id in use in its room, however the id came to be drawn |
| LobbyRuns.AssertFailsIff | ccniserver/src/framework/ccni_msghnds.cpp:262-291 | a step fails an ASSERT exactly when a client missing from its session leaves it, gets ready in it or is disconnected |
| LobbyRuns.MissingStays | ccniserver/src/framework/ccni_msghnds.cpp:262-291 | a client missing from its session stays so until the process ends |
| LobbyIds.IdsRepeat | ccniserver/src/framework/room.h:81-86 | two numbers give one id exactly when they are a multiple of 20000 apart; any 20000 in a row differ |
| LobbyIds.OverwritesIff | ccniserver/src/framework/room.cpp:233-235 | an insertion replaces a session exactly when the room has one born under a number a multiple of 20000 away |
| LobbyIds.ShortLivedSessionsAgreeIff | ccniserver/src/framework/room.h:81-86 | while no insertion meets a session 20000 numbers away or more: membership agrees and no ASSERT has failed if and only if no client entered a session of watchers only and no session was inserted with the very number of a stored one of its room |
| LobbyIds.SerialNeverRepeats | ccniserver/src/framework/room.h:81-86 | numbers of genid calls that do not overlap are never inserted twice |
| LobbyIds.StepSerial | ccniserver/src/framework/room.h:81-86 | every step but a load during another call's window keeps the numbers in use apart |
| LobbyIds.ShortLivedSessionsAgree | ccniserver/src/framework/room.h:81-86 | if no session outlives 19999 later creations, no two calls of genid overlap and no client enters a session of watchers only, membership agrees and no ASSERT fails |
| LobbyRuns.SeatsNeverClash | ccniserver/src/framework/room.cpp:137-177 | the two seats are never both ready, both moving or both pondering |
| LobbyRuns.GameStartsWhenBothReady | ccniserver/src/framework/room.cpp:137-177 | getting ready starts a game exactly when the other seat is ready, and changes no state but the two players' |
| LobbyRuns.GameStartsOnlyThen | ccniserver/src/framework/room.h:87-103 | nobody starts to move or to ponder in any other way |
| LobbyRuns.GoneIsGone | ccniserver/src/framework/client.cpp:193-218 | one who is not a client is in no user list, no session and not in the list of names, and no stored session is without members |
| LobbyRuns.DisconnectCompletes | ccniserver/src/framework/client.cpp:193-218 | while the records agree, a disconnected client is taken out of session, room and list within five steps of its own, whatever the others do in between |
| LobbyFlaws.WatchersOnlyHalts | ccniserver/src/framework/room.cpp:121-130 | a run in which a third client enters a session of watchers only and ends the process when it leaves |
| LobbyFlaws.RacingDuplicateHalts | ccniserver/src/framework/room.cpp:217-237 | from the empty lobby, a run in which two clients of one room draw the first id at the same time; the second insertion puts the first client out, which ends the process when it leaves |
| LobbyFlaws.IdWrapReached | ccniserver/src/framework/room.cpp:233-235 | from the empty lobby, a run after which the next creation takes the place of a session in use and the records disagree |
| LobbyFlaws.IdComesRound | ccniserver/src/framework/room.cpp:233-235 | from any such state, 19999 sessions made and left under a lasting one make the next creation take its place |
| SecKeyMap.LessIsOrder | ccniserver/src/framework/seckey_map.h:73-77 | the key order is strict and total: two keys are one to the map exactly if equal |
| SecKeyMap.CSecKeyMap.InsertKey | ccniserver/src/framework/seckey_map.h:96-114 | cleans only above 100 entries, refuses exactly a key still inside its timeout |
| SecKeyMap.CSecKeyMap.VerifyKey | ccniserver/src/framework/seckey_map.h:121-138 | yields and removes the entry exactly if the address fits, and otherwise changes nothing |
| SecKeyMap.CSecKeyMap.ClearTimeouted | ccniserver/src/framework/seckey_map.h:160-176 | keeps exactly the entries inside their timeout |
| SecKeyMap.AnswersAgreeIff | ccniserver/src/framework/seckey_map.h:96-176 | whatever the times: the lazy map answers a series of calls as one that is never cleaned would if and only if every insert of a key that a cleaning took comes past the timeout of the entry taken, and every verifykey of one from another address |
| SecKeyMap.LazyIsInvisible | ccniserver/src/framework/seckey_map.h:96-176 | while no call has an earlier time than a cleaning before it, every insert is answered as without cleaning, and every verifykey but of a key past its timeout |
| SecKeyMap.OrderedTimesAreInStep | ccniserver/src/framework/seckey_map.h:96-104 | times in the order of the lock are of that kind |
| SecKeyMap.CleaningOvertakes | ccniserver/src/framework/seckey_map.h:98-112 | a series in which an insert that read the clock first finds its key cleaned away by one that locked first, and is accepted where it would be refused |
| SecKeyMap.OneVerifyPerInsert | ccniserver/src/framework/seckey_map.h:96-138 | over any stretch of calls a key is verified no more often than it was inserted, once more if it was there before |
| SecKeyMap.VerifyGivesLastInsert | ccniserver/src/framework/seckey_map.h:121-138 | a verified key yields what its last successful insert put there |
| SecKeyMap.KeyIsThereIff | ccniserver/src/framework/seckey_map.h:96-176 | after any series of calls an item is under a key if and only if some insert put it there and since then no verifykey of the key from the item's address, no other successful insert of the key and no insert that found more than 100 keys past the item's timeout |
| SecKeyMap.VerifiedIff | ccniserver/src/framework/seckey_map.h:121-138 | after any series of calls verifykey of a key from an address succeeds if and only if such an item is there and came from that address; calls from other addresses do not count |
| SecKeyMap.InsertedIff | ccniserver/src/framework/seckey_map.h:96-114 | and insert succeeds if and only if no such item is within its timeout |
| SecKeyMap.VerifyTouchesOnlyItsKey | ccniserver/src/framework/seckey_map.h:121-138 | a verifykey that fails changes nothing, one that succeeds nothing but its key |
| UserListener.CUserListener.Assign | ccniserver/src/framework/user_listener.h:126-138 | the first thread gets the client and goes to the end of the list |
| UserListener.DealtInTurn | ccniserver/src/framework/user_listener.h:126-138 | after k assigns the list is the original rotated by k modulo n, and the i-th client went to the thread at i modulo n |
| UserListener.SharesAreTaken | ccniserver/src/framework/user_listener.h:126-138 | each thread was given exactly its share of the clients |
| UserListener.Division | ccniserver/src/framework/user_listener.h:126-138 | the quotient and remainder that say how far the rotation is are those of division |
| UserListener.SharesAreFair | ccniserver/src/framework/user_listener.h:126-138 | a share is k/n rounded down, or up for the first k modulo n threads |

## Left out

- XML building and parsing, the database, md5, iconv, logging with its own lock, configuration, daemon and pid handling: foreign calls or plumbing. Messages are modelled by what they say.
- Socket set-up, accept and the epoll loops. How many jobs are pending for one client is not part of the model; doWork and queueNotification are taken in any order.
- Creation and destruction of threads and of the pool, cancellation, and the wall-clock waits of CEvent and of the timed receive.
- doMove, doDraw, doGiveUp, doSendMessages and doLogout do nothing, and the hello, state, list and unknown requests change nothing; the lobby has them as the kinds of one request Other, each with its own mask and, for the list of sessions, its ASSERTs.
- The sending of a broadcast's datagrams (CBroadCaster::run) and the UDP listeners.
- The client library, the sample client, CCmder, the System V queue and the tool.
- SecKeyMap: find, remove and genSecret's digest. verifykey does not test the timeout, and nothing here says that it does.
- RoomObjects.CIdSeed.GenId: other threads' stores come as one parameter, the last one between this call's store and its second reading; the full interleaving is the lobby's. The load and the store of an int are taken to be atomic.
- leaveSession reads the user list under _slk and not under the list's own lock (room.cpp:254); the model takes that reading as one step with the rest.
- Session settings: a client cannot choose any, so every session has the defaults (red 0, 200 watchers). The functions take both values as they are.
- Lobby: the interleaving is by critical section and by the writing of a client's fields as one write each; reads of another client's name are not steps.
- EndToEnd.PeerReadsFrames: says nothing of a client whose connection has failed, because the last frame may be cut; EndToEnd.WireMessages covers its wire.
- ClientIo.HeaderMustArriveWhole: is about idle clients; what doWork does in the middle of a body, a response or a notification is IoProgress's matter.
- IoProgress.ResponseCompletes: leaves out a response whose text has a length that is a multiple of 65536; pack cuts it to 0, and the send of an empty body is an error by itself (IoProgress.SendingBreaks).
- The handlers' batches exist from the start; the source makes them at the first request.
- Dumping the document in pack and allocating buffers are taken to succeed.
- Handlers.CRequests.ProcMsgs: is one client's list served without interruption, with genid undisturbed; the interleaving of handlers is the lobby's. Responses are not modelled.
- Serving.Close: is tied to the objects but not to a run of the lobby; LobbyRuns.DisconnectCompletes follows a disconnect through every interleaving.
- Hearing: says what each client is told, not the order between jobs for different clients; the jobs' order is that of Handlers.CRequests.ProcMsgs.
- LockOrder: the lock of the logger's queue is taken under any other and encloses none; it is not in the catalogue.
- LockOrder: waits on events are not steps of it, they give the mutex back; that they end is the matter of ReadWriteMutex, MsgQueue and PoolRuns.

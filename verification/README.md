# Verification of the push server

The repository is a push-notification server in C with an Android client. This project models its five cores in
Dafny and proves what they are for.

* **MD5** (`Bytes`, `Rfc1321`, `Rfc1321Suite`, `Md5Transform`, `Md5`, `Md5Inverse`, `Md5Message`). `Rfc1321` is the
  digest as sections 3.1 to 3.5 of RFC 1321 define it: table driven, on a whole message. `Rfc1321Suite` proves that it
  gives the digest of the alphabet that the test suite of the RFC lists. `Md5Transform` is the unrolled transform with
  its own constants, `Md5Context` the streaming context with its 64-bit counter in two words and its partial block.
  Every way of cutting a message into updates gives the digest of the RFC; padding is injective; the 64 operations are
  a bijection.
* **Lists** (`LinkedList`, `ListIterator`). The doubly linked list on the heap refines a sequence, which its pointers
  alone determine; iterators survive removal behind them.
* **Thread pool** (`PoolModel`, `PoolSafety`, `PoolProperties`, `PoolRejections`, `PoolJobs`, `PoolEndings`,
  `ThreadPool`). `PoolModel` is a transition system: one event is one locked region, or one update of a shared
  counter. `PoolSafety` proves its invariant, no lost wakeup included, over every run; `PoolJobs` that each job is run
  once, `PoolEndings` how the pool comes to rest, grows, shrinks and shuts down. `ThreadPool` is the linked queue, the
  slot array and the counters, each method proved to be one event of that system.
* **Message store** (`Redis`, `MessageStorage`, `MessageInfo`, `Delivery` and the modules named after it).
  `MessageStorage` runs the storage functions on a connection and proves which commands each of them sends and that it
  reads a reply for each. `MessageInfo` is the scan by which `getmessageinfo` reads a record back, and proves what
  comes back for which senders and in which order of the reply. `Delivery` is any number of workers on one Redis: a
  worker starts a function, whose pipeline is the sequence of commands that `MessageStorage` proved, what it knows of
  a message is what `MessageInfo` says it reads, and Redis runs one command of one worker at a time. Ids move between
  push lists, the delayed set, unread lists, read lists and hands; workers crash, records expire, time passes.
  `DeliverySafety`, `DeliveryRecords` with `DeliveryUpkeep`, `DeliveryLanding` and `DeliveryClaims` hold the
  invariants, `DeliveryCalls` ties what workers start to the storage functions. `DeliveryMeaning` and `DeliveryOrder`
  say what that means for the data, `DeliveryOvertaken` and `DeliveryUnheeded` the runs on which the code does not
  keep what one would expect (built with `DeliveryRuns`).
* **Wire format** (`Frames`, `Codec`, `Transfer`, `Wire`). Printers and parsers of text messages over moving buffers,
  the send loop and the reassembly loop over short writes and reads, and all of it put together.
* **User directory** (`UserStorage`). Names and ids in one string keyspace.

`Wrappers` has the option type they share.

`dafny verify dfyconfig.toml` checks everything.

Where the repository's comments and its code disagree, the model follows the code: the comment at server/md5.c:121
calls the length MSB-first, the code (and RFC 1321) store the low word first; the comment at
server/messagestorage.c:707-715 describes a transaction whose EXEC reply decides, the code throws that reply away. The
model has both behaviours of that claim (`heeds`), and getDelyMessage as written besides.

## What turned out not to hold

* The state field of a message is 1 exactly when its id is in a read list, unless somebody is between the first and the
  last command of acknowledging it or crashed there (`DeliveryMeaning.StateMeansRead`, with `AcksAreCutShort` for the
  crash).
* `getmessageinfo` looks for its twelve names in every element of the reply that is not the value of one it has just
  found. The sender is written as "from" and looked for as "form", so the sender's own name is looked at too: whoever is
  called "tom" begins with "to". The recipient and the submessageid are read back in every order of the reply when the
  sender's name begins with none of the twelve (`MessageInfo.HarmlessIsReadBack`, `DeliveryUpkeep.ClearSenderIsReadBack`;
  `ClearSender` is a test the putting server could make). In the order the fields are written the recipient is lost
  exactly when it does begin with one, the empty recipient apart (`MessageInfo.RecipientIsReadIff`,
  `DeliveryMeaning.WrittenGoesHomeIff`). Then a message ends in the lists of another device, or with its record complete
  in none (`DeliveryOvertaken.SendersSpoilRecipients`, `TomSpoils`, `SendersSpoilIds`).
* An acknowledgement is of the submessageid read back. A put pushes the id first and writes the record afterwards, the
  submessageid nearly last, so the pusher can overtake it and find no submessageid yet, even with recipient, content,
  time and type there: then with a clear sender the empty string is acknowledged, with any other no real id, and the id
  is lost (`DeliveryMeaning.AckIsOfTheIdIff`, `DeliveryOvertaken.PutsAreOvertakenLate`, `OvertakenAckLoses`). If it finds
  no recipient yet, an id saved unread goes to the list of nobody (`UnreadGoesHomeIff`, `OvertakenPutsStray`); if it
  finds nothing at all, it lets the id go (`PutsAreOvertakenAtOnce`).
* A claim on the delayed set is exclusive because a null EXEC reply counts as failure; with the reply ignored any two
  idle workers can both go off with the same id, and every delayed put can come to that (`DeliveryUnheeded`).
* `queue_size` counts what it is taken to count exactly as long as no add has been rejected
  (`PoolProperties.QueueSizeIsExactIff`); after 32 rejected adds no worker retires any more (`PoolRejections`).
* A negative delay, a content of 65536 bytes or more and a send time beyond 32 bits do not come back from the wire
  (`Frames.ClientRoundTrip`, `Frames.ServerRoundTrip`, each with the exact condition).
* The reassembly loop is entered for frames longer than MAXBUF alone: a shorter frame is whole exactly when the first
  read was (`Transfer.Reassemble`).
* Registering a user whose name is another user's id breaks the pairing exactly when that user has the empty name
  (`UserStorage.RegistrationBreaksPairsIff`).

## Model

| member | source | states |
|---|---|---|
| Rfc1321.RowsFollowSchedules | server/md5.c:193-259 | operation i uses word i, 5i+1, 3i+5 or 7i mod 16, and the shifts of its round in rotation |
| Rfc1321.PaddedIsWholeBlocks | server/md5.c:132-157 | a padded message is a multiple of 64 bytes long |
| Rfc1321.OutputReadsBack | server/md5.c:160-161 | the sixteen bytes of a digest are the four words as they lie in memory, low-order byte first, and read back as them |
| Rfc1321Suite.DigestOfAlphabet | server/md5.c:58-163 | the digest of the letters a to z is c3fcd3d76192e4007dfb496cca67e13b, as section A.5 of RFC 1321 has it |
| Md5Transform.F1IsF | server/md5.c:166-169 | the optimised F1 is the F of RFC 1321 on all words |
| Md5Transform.F2IsG | server/md5.c:170-170 | F1 with its arguments turned is the G of RFC 1321 |
| Md5Transform.OperationAgrees | server/md5.c:175-176 | one MD5STEP is one operation of section 3.4, the roles of the words moving on |
| Md5Transform.FourOperations | server/md5.c:193-196 | four lines with their rotated arguments are four operations in place |
| Md5Transform.Round1 | server/md5.c:193-208 | the first sixteen lines, with their literal constants, are operations 0 to 15 of RFC 1321, from any four words |
| Md5Transform.Round2 | server/md5.c:210-225 | lines 16 to 31 likewise |
| Md5Transform.Round3 | server/md5.c:227-242 | lines 32 to 47 likewise |
| Md5Transform.Round4 | server/md5.c:244-259 | lines 48 to 63 likewise |
| Md5Transform.MD5Transform | server/md5.c:183-265 | for every state and block the unrolled transform is the table-driven compression of section 3.4 |
| Md5.Carry | server/md5.c:81-84 | the wrapped addition, its carry test and len >> 29 together add 8 len modulo 2^64 to the two counter words |
| Md5.OffsetFromCounter | server/md5.c:86-86 | the offset taken from the low counter word is the number of bytes so far modulo 64 |
| Md5.OneLastBlock | server/md5.c:149-157 | with at most 55 bytes left over the one block absorbed is the end of the padded message |
| Md5.TwoLastBlocks | server/md5.c:141-157 | with 56 bytes or more left over the two blocks absorbed are the end of the padded message |
| Md5.Md5Context.constructor | server/md5.c:58-68 | a new context stands for the empty message |
| Md5.Md5Context.CountBits | server/md5.c:81-86 | the counter after len more bytes, and the offset before them |
| Md5.Md5Context.AbsorbBlocks | server/md5.c:106-116 | after the block loop and the tail buf is the fold over all whole blocks and in holds the rest |
| Md5.Md5Context.Update | server/md5.c:74-117 | a context standing for a message stands for that message with the data appended, whatever the leftover |
| Md5.Md5Context.Final | server/md5.c:123-163 | the digest is that of RFC 1321 on all bytes updated; the first two words of buf end as zero |
| Md5Message.DigestOfPieces | server/md5.c:58-163 | init, one update per piece and final give the digest of the concatenation, for every list of pieces |
| Md5Message.PaddedBlocks | server/md5.c:137-157 | a message takes one block more than its whole ones, two exactly when 56 bytes or more are left over |
| Md5Message.PaddingIsInjective | server/md5.c:132-157 | two messages with the same padded form are the same message, of any length |
| Md5Inverse.UndoOne | server/md5.c:175-176 | every MD5STEP has an explicit two-sided inverse |
| Md5Inverse.UndoAllOperations | server/md5.c:193-259 | undoing the steps last first after doing them gives the state back |
| Md5Inverse.OperationsAfterUndoAll | server/md5.c:193-259 | doing them after undoing gives the state back |
| Md5Inverse.PassIsBijective | server/md5.c:193-259 | for a fixed block every state comes out of exactly one state |
| LinkedList.List.constructor | server/list.c:14-25 | a new list is empty and has no callbacks |
| LinkedList.List.RPush | server/list.c:52-68 | appends the node to the sequence, a null node changes nothing |
| LinkedList.List.LPush | server/list.c:115-131 | puts the node in front |
| LinkedList.List.RPop | server/list.c:74-88 | takes the last node off and cuts its links, null when empty |
| LinkedList.List.LPop | server/list.c:94-108 | takes the first node off and cuts its links, null when empty |
| LinkedList.List.Remove | server/list.c:188-202 | takes out exactly the given node, wherever it is, and frees its value if there is a callback |
| LinkedList.List.Destroy | server/list.c:31-45 | visits every node once, from the head, and frees its value if there is a callback |
| LinkedList.List.LinksInvert | server/list.c:52-131 | next and prev undo each other and end at tail and head |
| LinkedList.List.ChainIsNodes | server/list.c:52-131 | the chain of next pointers from the head is the sequence and no other chain is: it is finite and meets no node twice |
| ListIterator.Iterator.constructor | server/list_iterator.c:15-21 | a new iterator has the whole list before it, from the end it was given |
| ListIterator.Iterator.FromNode | server/list_iterator.c:28-36 | a new iterator has before it the node it was given and all that lies beyond it in its direction; from null nothing |
| ListIterator.Iterator.Next | server/list_iterator.c:43-52 | returns the next node of the traversal, null at its end, and stays at the end |
| ListIterator.Walk | server/list_iterator.c:15-52 | walking to the end yields every node once, in order from the head, in reverse from the tail |
| ListIterator.WalkFrom | server/list_iterator.c:28-52 | walking from a node yields it and what follows it, or in reverse it and what precedes it |
| ListIterator.RemoveBehind | server/list.c:188-202 | removing a node not still to come, such as the one just returned, leaves the rest of a traversal unchanged |
| ListIterator.RemainingWithout | server/list.c:188-202 | the same on sequences: what lies behind a traversal can go |
| ListIterator.Find | server/list.c:137-158 | the first node that matches, by the callback or by equality, or null when none does |
| ListIterator.At | server/list.c:164-182 | element index, counted from the end when negative, or null outside the list |
| PoolModel.FirstVacant | server/thread_pool.c:183-205 | the first slot that is empty or whose thread is gone, or none |
| PoolSafety.ReachableInv | server/thread_pool.c:21-46 | every reachable state has distinct owned slots, exact counters, jobs in order and, until shutdown, woken workers enough for every queued job while anybody is blocked |
| PoolSafety.StepInv | server/thread_pool.c:17-214 | every event of workers, adders and the destroyer keeps all of that |
| PoolProperties.WokenWorkerTakesHead | server/thread_pool.c:24-36 | with a job queued and somebody blocked some worker has been woken, and its next step takes the oldest job |
| PoolProperties.SomeWorkerCanMove | server/thread_pool.c:21-46 | in every state of the invariant, so in every reachable one, a job queued before shutdown means that some worker can move |
| PoolProperties.WorkersDrainQueue | server/thread_pool.c:21-46 | every run of workers alone loses no job and keeps their order, and after three steps per queued job, two per running and one per finished one, the queue is empty |
| PoolProperties.QueueCanDrain | server/thread_pool.c:21-46 | and workers alone always have such a run: no deadlock |
| PoolEndings.WorkersComeToRest | server/thread_pool.c:21-46 | every run of workers alone ends within a bound; when none can move, before shutdown nothing is queued and everybody is blocked, after the broadcast nobody is left |
| PoolJobs.JobsRunOnce | server/thread_pool.c:34-38 | every job has been added just as often as it is finished, running, freed and queued together |
| PoolProperties.ShutdownFinishesHeldJobs | server/thread_pool.c:29-39 | after the flag is set no job is dispatched on any run, and a worker finishes at most the job it holds |
| PoolProperties.BroadcastUnblocks | server/thread_pool.c:108-123 | from the broadcast on nobody is blocked, then or on any later run |
| PoolProperties.JobsInOrder | server/thread_pool.c:34-35 | the dispatched jobs are the front of the added ones, in order; freed and queued jobs are exactly the rest |
| PoolProperties.QueueSizeIsExactIff | server/thread_pool.c:148-161 | queue_size is adds under way plus queued plus running jobs if and only if no add was rejected |
| PoolProperties.RejectedAddsStopRetiring | server/thread_pool.c:39-45 | from 32 rejected adds on the retire test never succeeds |
| PoolEndings.FinishedWorkersRetire | server/thread_pool.c:39-45 | with nothing left to do and fewer than 32 adds rejected, the workers still to take the retire test retire until 32 are left, never fewer |
| PoolEndings.BusyPoolShrinks | server/thread_pool.c:37-45 | a pool of more than 32 with a job to finish has lost a worker when it comes to rest |
| PoolEndings.PoolGrowsAndShrinks | server/thread_pool.c:39-45 | every pool with room for 33 workers can grow to 33, and come to rest with 32 |
| PoolEndings.AddGrowsIff | server/thread_pool.c:180-207 | an add that goes through starts one worker if the adds under way, the jobs queued and running and the adds rejected are 32 or more and there are fewer workers than slots, and otherwise none |
| PoolEndings.PoolCanShutDown | server/thread_pool.c:108-140 | from every reachable state the destroyer can come to its end: no worker left, nothing queued, every job finished or freed |
| PoolRejections.IdleWorkersStay | server/thread_pool.c:39-45 | every pool with room for 33 workers can come to that: 33 of them, nothing to do, and worker 1 is sent back to wait |
| PoolProperties.LiveWorkersBounded | server/thread_pool.c:90-102 | live workers never exceed max_thr_num; before shutdown now_thread_count is their number, at least ten |
| ThreadPool.TPool.constructor | server/thread_pool.c:54-105 | tpool_create yields the initial state of the transition system |
| ThreadPool.TPool.GrowIfBusy | server/thread_pool.c:180-207 | the slot loop starts one worker in the first vacant slot, if the queue is long and there is one |
| ThreadPool.TPool.Append | server/thread_pool.c:167-179 | the job goes to the end of the linked queue |
| ThreadPool.TPool.BeginAdd | server/thread_pool.c:148-149 | queue_size is counted up before anything is looked at: one AddBegin event |
| ThreadPool.TPool.AddWork | server/thread_pool.c:162-211 | the locked region of tpool_add_work is one AddLocked event |
| ThreadPool.TPool.RejectAdd | server/thread_pool.c:149-161 | the early returns leave the counter incremented: one AddReject event |
| ThreadPool.TPool.AcquireWork | server/thread_pool.c:24-36 | a worker's locked region is one Acquire event: exit, block or take the head |
| ThreadPool.TPool.FinishWork | server/thread_pool.c:37-39 | the routine's return and the decrement are one FinishJob event |
| ThreadPool.TPool.RetireOrLoop | server/thread_pool.c:40-45 | the retire test is one RetireTest event |
| ThreadPool.TPool.RaiseShutdown | server/thread_pool.c:114-118 | the flag is set once; a second call of tpool_destroy goes no further |
| ThreadPool.TPool.WakeAll | server/thread_pool.c:121-123 | the broadcast under the lock wakes everybody blocked: one Broadcast event |
| ThreadPool.TPool.FreeQueue | server/thread_pool.c:131-136 | the loop frees every job still queued, oldest first |
| Redis.DelayTime | server/messagestorage.c:47-52 | the due time is after now, by at most the delay |
| Redis.EveryDelayTime | server/messagestorage.c:47-52 | and every time in that range is the due time for some value of rand |
| Redis.AckMovesToRead | server/messagestorage.c:575-578 | alone, an acknowledgement moves an id out of the push list of its server and the unread list of its device, however often it is there, to the read list, and no other id anywhere |
| Redis.DecimalSays | server/messagestorage.c:249-276 | what %d writes says the number: a minus if it is negative, and its decimal digits, the highest first |
| MessageStorage.Connection.Ask | server/messagestorage.c:535-627 | a synchronous command is answered by its own reply exactly when the connection had no reply unread, by an older one otherwise |
| MessageStorage.PutSize | server/messagestorage.c:228-289 | a put queues 14 commands, 11 without a group, one more for a file |
| MessageStorage.PutMessage2 | server/messagestorage.c:202-294 | sends its pipeline on each branch, online or not, delayed or not, text or file, and reads exactly as many replies |
| MessageStorage.PutMessage | server/messagestorage.c:295-380 | the same without the group commands |
| MessageStorage.MessageIsSendOk | server/messagestorage.c:569-604 | sends state 1, two lrem and the push to the read list, and reads four replies |
| MessageStorage.GetDelayedMessage | server/messagestorage.c:716-752 | as written it claims for a string reply alone, never for the array Redis sends, and leaves no reply unread on either path |
| MessageStorage.PutClient | server/messagestorage.c:405-453 | nine commands, nine replies |
| MessageStorage.ForgetClient | server/messagestorage.c:462-478 | three commands, three replies |
| MessageStorage.Register | server/extended_storage.c:219-247 | one command and its reply, then four of each unless the name is taken |
| MessageStorage.Login | server/extended_storage.c:278-301 | two commands, two replies |
| MessageStorage.RunCalls | server/messagestorage.c:228-289 | over any run of calls on leased connections each call reads the replies to just its own commands, following those of the calls before it, and every connection is given back drained |
| MessageInfo.GetMessageInfo | server/messagestorage.c:140-182 | the loop over the reply fills in what scanning gives: an element that begins with one of the twelve names gives it the next element, which is skipped |
| MessageInfo.EntryIsMatch | server/messagestorage.c:142-180 | every field name the put functions write begins with the one name it is looked for under, but for from and retrycount, which begin with none |
| MessageInfo.NamesAreSpelt | server/messagestorage.c:142-276 | the fields that are looked for are spelt alike by the put functions and the scan; the sender and the retry count are "from" and "retrycount" |
| MessageInfo.MatchIff | server/messagestorage.c:142-180 | each of the twelve names is found by just the strings that begin with it, wherever its test stands |
| MessageInfo.MatchIgnoresCase | server/messagestorage.c:142-180 | big and small letters make no difference to what is found |
| MessageInfo.HarmlessIsReadBack | server/messagestorage.c:140-182 | in any order of the reply, if the values of from and retrycount begin with no name or come last, each other field is read back, an absent one as the empty string |
| MessageInfo.RecipientIsReadIff | server/messagestorage.c:154-169 | in the order written the recipient is read back if and only if the sender begins with none of the names, or the recipient is empty and the sender does not begin with "to" |
| MessageInfo.WrittenIsFound | server/messagestorage.c:140-182 | which recipient the scan finds in that order for every sender and recipient, and that the submessageid is always read back |
| MessageInfo.SubMessageIdFound | server/messagestorage.c:142-144 | in any order and for any sender the submessageid found is the record's own, or empty, or the name of a field |
| MessageInfo.SubMessageIdSpoilt | server/messagestorage.c:142-144 | in an order with the sender between submessageid and recipient, a sender that begins with "submessageid" makes "to" of the submessageid |
| DeliveryUpkeep.PutSteps | server/messagestorage.c:228-279 | besides group commands a put sends its one placing and fields of its own record, and EXPIRE last; the recipient and state 0 come before the submessageid |
| DeliveryCalls.StartsSendCalls | server/messagestorage.c:535-627 | what a worker starts is what the storage function behind it sends |
| DeliveryCalls.ExpiryForgets | server/messagestorage.c:278-278 | a record expires only after its put has run to its end, and then whole and alone |
| DeliveryLanding.UntakenIsWhereItBelongs | server/messagestorage.c:230-242 | on every run a message nobody has taken is in the unread list of its device if that was offline, in the push list of its server if online, in the delayed set if it has a priority besides; or its putter has yet to place it, or has crashed |
| DeliverySafety.StepPlaced | server/messagestorage.c:535-627 | whatever worker acts, or crashes, or acknowledges what is no real id, every id stays in one place, the lists hold no id twice and watches stay sound |
| DeliverySafety.ExactlyOnePlace | server/messagestorage.c:535-627 | on every run every id ever created is in exactly one list (once), or the delayed set, or one hand, or lost; a string that is no real id is in read lists alone |
| DeliverySafety.AckRemovesNothing | server/messagestorage.c:575-578 | the lrem commands of an acknowledgement never find anything |
| DeliveryOrder.StepOrder | server/messagestorage.c:535-627 | one step pushes to a list or hands out its oldest id or leaves it as it is |
| DeliveryOrder.ListsAreQueues | server/messagestorage.c:605-627 | on every run each list has handed out a front of what was pushed to it, in that order, and holds the rest |
| DeliveryUpkeep.HeldIsUnacked | server/messagestorage.c:569-585 | an id held between calls is a real one and not acknowledged; its record has a submessageid only together with a recipient |
| DeliveryUpkeep.FieldValues | server/messagestorage.c:243-276 | in every state of the invariant each field of a record is what was put, content, file name, time, type and group included, but for state 1 of an acknowledged id |
| DeliveryUpkeep.ClearSenderIsReadBack | server/messagestorage.c:124-188 | of an id held, whose sender begins with none of the names or comes last in the reply, recipient and submessageid are read back in any order of the reply as far as they are there, the empty string otherwise |
| DeliveryUpkeep.StepRecords | server/messagestorage.c:228-279 | every step keeps records, lists, acknowledgements and the recipients read back in agreement, whoever takes an id, whenever, and whatever the sender is called |
| DeliveryMeaning.AckIsOfTheIdIff | server/messagestorage.c:569-585 | an acknowledgement is of the id in hand, for the recipient read back, and only if the record fetched has its submessageid; or it is of no real id and the one in hand is lost. With a clear sender it is of the id if and only if the submessageid is there, and goes to the id's own device, and is of the empty string otherwise |
| DeliveryMeaning.StateMeansRead | server/messagestorage.c:569-585 | state is 1 exactly when the id is in a read list, if and only if nobody is between the first and the last command of acknowledging it, or crashed there; in a read list it always is |
| DeliveryOvertaken.AcksAreCutShort | server/messagestorage.c:575-578 | such a crash happens: state 1, in no read list |
| DeliveryMeaning.ListsKeepRecipients | server/messagestorage.c:535-585 | an id in a read list is in that of the recipient last read back, one in an unread list in that of the recipient last read back or put; so with a clear sender read lists hold ids of their own device only, unread lists too but for the one of nobody |
| DeliveryMeaning.UnreadGoesHomeIff | server/messagestorage.c:535-542 | an id saved unread goes to the list of the recipient read back: with a clear sender to its own device's list if the record fetched has a recipient, to nobody's otherwise |
| DeliveryMeaning.WrittenGoesHomeIff | server/messagestorage.c:140-182 | on every run, when a record comes back in the order written and its address begins with no name, the recipient is read back if and only if the sender is clear, or the recipient is nobody and the sender does not begin with "to"; otherwise it is "to", "fromip" or nothing. The submessageid is read back whoever sent it |
| DeliveryOvertaken.OvertakenPutsStray | server/messagestorage.c:241-245 | every immediate put to a device online can be overtaken between its first field and its recipient, and end in nobody's unread list |
| DeliveryOvertaken.PutsAreOvertaken | server/messagestorage.c:228-274 | every immediate put to a device online, with a group or without, can be overtaken after each field it writes before the submessageid, the record having just those fields |
| DeliveryOvertaken.PutsAreOvertakenLate | server/messagestorage.c:228-274 | also with recipient, state, content, send time and type all there |
| DeliveryOvertaken.OvertakenAckLoses | server/messagestorage.c:569-585 | whenever a put is overtaken before its submessageid, in whatever order the record comes back, the acknowledgement can lose the id: what is no real id, with a clear sender the empty string, is written state 1 and read, the id taken is in no list and not acknowledged |
| DeliveryOvertaken.PutsAreOvertakenAtOnce | server/messagestorage.c:228-243 | every such put can also be overtaken before its first field: whoever holds the id finds no record of it and may let it go, and then it is lost |
| DeliveryOvertaken.PutsWriteRecords | server/messagestorage.c:243-278 | every immediate put to a device online can run to its end and leaves a record of just its fields with their values |
| DeliveryOvertaken.SendersSpoilRecipients | server/messagestorage.c:154-169 | every immediate put to a device online, other than nobody, whose sender begins with one of the names can end in the read list, or the unread list, of a device it was not for |
| DeliveryOvertaken.TomSpoils | server/messagestorage.c:154-156 | what "tom" or "Tom" sends can end in the read list of a device called "to" |
| DeliveryOvertaken.SendersSpoilIds | server/messagestorage.c:142-144 | what a sender beginning with "submessageid" sends can be lost by its acknowledgement with all of its record in place |
| DeliveryClaims.StepClaims | server/messagestorage.c:707-752 | with EXEC's reply heeded the delayed set shrinks by claims alone, each of an id due and never claimed before |
| DeliveryClaims.ClaimedAtMostOnce | server/messagestorage.c:707-752 | on every run each delayed id is claimed at most once, by one worker, and not before its due time |
| DeliveryClaims.LeavesByClaim | server/messagestorage.c:707-752 | an id leaves the delayed set in exactly the steps that put it into a claimer's hand, and no id waiting then is due earlier |
| DeliveryClaims.PutIsDue | server/messagestorage.c:231-238 | a put with a priority is due after now, within priority times ten minutes; other puts are never delayed |
| DeliveryClaims.AnyDueTime | server/messagestorage.c:236-236 | and every time up to priority times ten minutes can be its due time |
| DeliveryUnheeded.IgnoredReplyClaimsTwice | server/messagestorage.c:738-751 | with the reply ignored any two idle workers can both come to hold an id that is due |
| DeliveryUnheeded.TwoHandsHappen | server/messagestorage.c:231-238 | and every delayed put to a device online can come to that |
| Frames.BigEndianKeepsRemainder | server/parse_command.c:47-47 | n bytes in network order keep a number modulo 256^n |
| Frames.ClientRoundTrip | server/parse_command.c:111-146 | parsing a printed client body gives delay, recipients in order and content back, if and only if the delay is not negative and the content is shorter than 65536 bytes; otherwise it gives just what sixteen bits keep |
| Frames.ServerRoundTrip | server/parse_command.c:381-418 | the same for send time, recipient, message id and content: back if and only if the time fits 32 bits and the content sixteen |
| Frames.ServerLayout | server/parse_command.c:486-529 | every server frame byte by byte: command, type, server id modulo 65536 and total where the structure has them, send time, recipient, message id and content where and how a receiver expects them, nothing after |
| Frames.ClientLayout | server/parse_command.c:35-85 | every client frame likewise, each recipient at its place |
| Codec.RecipientsFitIff | server/parse_command.c:40-46 | recipients fit the buffer allocated for them if and only if they have at most 64 bytes each on average |
| Codec.DrainRecipients | server/parse_command.c:40-63 | empties the list into the buffer, in order, and within its bounds whenever they fit |
| Codec.CreateClientMessage | server/parse_command.c:35-93 | prints exactly the client frame, whose header reads back as message, client type, text and the number of bytes printed |
| Codec.CreateServerMessage | server/parse_command.c:483-529 | prints exactly the server frame, whose header reads back as message, text, the server id and the number of bytes printed |
| Codec.ParseClientMessage | server/parse_command.c:111-219 | reads what the frame says and stores the content once per recipient, with priority 0: the delay goes nowhere |
| Codec.ParseServerMessage | server/parse_command.c:381-418 | reads what the frame says |
| Transfer.SendFrame | server/parse_command.c:547-559 | whatever each write takes, the frame's bytes go out once and in order; without a socket nothing does |
| Transfer.ClientFramesAreFramed | server/parse_command.c:65-78 | the total in a printed client header is the length of the frame |
| Transfer.ServerFramesAreFramed | server/parse_command.c:489-505 | the total in a printed server header is the length of the frame |
| Transfer.SplitJoined | server/sc.h:106-161 | a stream of frames is cut by its headers into those frames and no others |
| Transfer.SendFrames | server/parse_command.c:547-559 | sending frames over short writes and cutting the stream gives the frames back |
| Wire.SendMessages | server/parse_command.c:483-564 | messages printed and sent one after the other over short writes, cut where the headers say and parsed, are those messages, in order, each header saying so |
| Transfer.Reassemble | Android/jni/push.c:577-637 | the bytes kept are the stream's, in order, none beyond the frame; the frame is whole if and only if it is longer than MAXBUF or the first read had it all |
| UserStorage.RegisteringKeepsPairsIff | server/extended_storage.c:235-238 | writing a name and a new id keeps the keyspace an involution if and only if the name was no key |
| UserStorage.RegistrationBreaksPairsIff | server/extended_storage.c:224-238 | a registration regUser lets through breaks it if and only if the name is the id of the user with the empty name |
| UserStorage.EmptyNameBreaksPairs | server/extended_storage.c:231-238 | registering the empty name and then its id does so |
| UserStorage.NamesAndIdsPair | server/extended_storage.c:219-247 | after any run of registrations, logins and befriendings, none of them registering the id of the user with the empty name, the keyspace is an involution without fixed points, one of each pair is a registered id, and every friend is the id of a registered name |
| UserStorage.FriendIsUserIff | server/extended_storage.c:66-72 | what befriending adds is a user's id if and only if the friend was given by a registered name, and it resolves to that name |
| UserStorage.FriendsWereAsked | server/extended_storage.c:66-73 | over any run the id of a registered user is in the set of another exactly when befriending it was asked for in that direction |
| UserStorage.DevicesAreKnown | server/extended_storage.c:235-288 | over any run the devices of a registered user are the one it registered from and those it logged in from |
| UserStorage.Directory.RegUser | server/extended_storage.c:219-247 | does one Register act and returns the new id, or nothing when the name is taken |
| UserStorage.Directory.Get | server/extended_storage.c:191-213 | looking a value up again leads back |
| UserStorage.Directory.AddFriend | server/extended_storage.c:66-83 | the id of the friend joins the set of the user who asks and no other set changes; returns what the friend's id resolves to |
| UserStorage.Directory.UserLogin | server/extended_storage.c:278-301 | the user's id is logged in, the device joins the user's devices and nobody else's |
| UserStorage.BefriendAndList | server/extended_storage.c:66-189 | a registered user who befriends another finds it among its friends, with its name and devices |
| UserStorage.Directory.Friends | server/extended_storage.c:162-189 | the list has one node per member, the info of the last one listed first: its id, the name and the devices the id resolves to |

## Left out

Assumptions of the model:

- `uint32` is 32 bits wide, as its name and RFC 1321 have it; server/md5.h:8 makes it `unsigned long`. `unsigned` is 32
  bits, so one update is shorter than 2^32 bytes. Words are little-endian in memory, as the empty `byteReverse` assumes.
- `memset(ctx, 0, sizeof(ctx))` clears eight bytes, the size of a pointer: the first two words of the state.
- A locked region of the pool is one step; so are each update of `queue_size` and `now_thread_count`, and the retire test
  together with its decrement. Thread ids are never used twice. `max_thr_num` is at least ten.
- The joins of `tpool_destroy`, the detaching of threads and the release of memory are not part of the pool model; the
  freeing loop may run at any time after the broadcast.
- Redis executes one command at a time; GUIDs are new, not empty, and called like no field; a leased connection is
  nobody else's. How server/redis_pool.c finds a free connection when all are taken, where it uses an uninitialised
  pointer, is not modelled.
- `getmessageinfo` asks whether a record exists and reads it in one step; a record that expires between the two, whose
  empty reply its loop does not stop for, is not part of this model. The reply may list the fields in any order. That a
  record comes back as written, which two results on the order written suppose, is how Redis keeps small ones; addresses
  in dotted decimals begin with no name, as those results ask.
- The messageid of a record is what `%d` makes of the address of the group's id, any number in the model.
- A worker that holds an id next acknowledges it, requeues it, lets it go or crashes, as the sending loops of
  server/server.c do. What those loops do with a record they have already freed is not part of this model. The device
  an id is saved unread for is the recipient its record names; the table that maps client ids to sockets is not part of
  this model.
- EXPIRE may delete a record at any time after it ran; a record that is written again after that stays.
- `header` structures lie in memory without gaps but for the byte before `total` of the client header.

What the repository does that the model does not:

- Sockets, select, files, logging, configuration, JNI and the Android user interface: input and output.
- server/extended_protocol.c: JSON framing through cJSON, which is not part of the repository's own code.
- The file branches of the frame printers and parsers, the iOS token of the hello frame, the partial-frame path of the
  parsers and the reply frames: printer and parser disagree about them, so there is no round trip to prove.
- The send loop inside `createClientMessage`, which does not advance its buffer; the server's loop is modelled.
- A send that fails with -1 or a read that returns 0: the send loop then moves backwards, the reassembly loop does not end.
- A first read longer than its frame, for which the receiver's buffer is too small.
- What `createServerMessage` does with a message whose record has no content yet, a null pointer; in the model a worker
  may crash at any time.
- `changeClientId` and `userLogout`, whose commands lack arguments; `getmessage`; the counters of unread messages.
- server/leak_detector_c.c and the callbacks of server/client.c: easier linked structures and thread glue.
- Names and ids longer than the 64-byte buffers of the user directory, and keys of different kinds that collide.
- Wrap-around of `int` lengths beyond 2^31, and of priority times 600.
- The constants of RFC 1321 as values of the sine function: the table is written out.

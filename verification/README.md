# An MQTT broker and client, modelled

This project models the parts of an MQTT 3.1.1 broker and of its client where the logic is
delicate, and proves what they guarantee. Each file is one component.

| file | component |
|---|---|
| `TopicLevels.dfy` | the topic splitter, filter matching, shared-subscription prefixes |
| `TriePlaces.dfy` | places in a tree of topic levels |
| `SubscriptionTrie.dfy` | the subscription trie, and the flat list it speeds up |
| `RetainedTree.dfy` | the tree of retained messages |
| `TopicIndex.dfy` | live and retained matching side by side |
| `Bookkeeping.dfy` | each client's subscription map against the shared trie, over every interleaving |
| `BrokerClient.dfy` | the subscribe, unsubscribe and close handlers of one client |
| `FanOut.dfy` | sending one publish to its receivers, shared groups included |
| `MessageIds.dfy` | packet identifiers and waiting tokens |
| `ClientStore.dfy` | the client's message store, its keys and its two walks |
| `NoLoss.dfy` | accepted publishes across reconnects of a persistent session |
| `InboundQos2.dfy` | identifiers that wait for PUBREL in the broker |
| `TwoPartyQos2.dfy` | client and broker together on one connection |
| `OutboundRetry.dfy` | the broker's inflight messages and the retry timer |
| `Dispatcher.dfy` | the client's dispatcher of received publishes |
| `WorkerPool.dfy` | the broker's worker pool |
| `PacketFields.dfy`, `Packets.dfy`, `PacketReader.dfy` | the packet codec: fields, packets and frames, and the loops on a buffer |
| `WireFormat.dfy` | the bytes of the packets in the terms of the MQTT 3.1.1 standard |
| `ClusterGc.dfy` | the cluster manager's garbage collection |

Objects that the program updates in place are classes with the same fields; their methods are
proved against specification functions, and the theorems are about those functions. Protocols
are step systems: every locked section, or every handled packet, is one step, and the theorems
hold in every state of every run. Time is whole seconds. Map iteration, random choice and
scheduling are arbitrary: the results hold for every order.

## What is true only under a condition

Some promises do not hold of the code in general. Each has a lemma with a concrete failure, and
a lemma that says exactly when the promise is kept.

- Matching over the splitter's levels is not matching over the plain "/" split: the splitter turns
  an empty level into "+", so the filter "/x" reaches the topic "a/x"
  (broker/lib/topics/memtopics.go:430-432; `EmptyLevelDisagrees`), and drops a last one. A filter is
  read alike on all topics without an empty level exactly when it has none itself
  (`FilterAlikeIff`), and a topic by all such filters exactly when it does not end in one
  (`TopicAlikeIff`).
- A publish on a malformed topic is not always refused: on a trie with "#" alone, "a/b#" is
  delivered (`MalformedDelivered`). It is refused exactly when some node lies where the levels
  before the malformed one lead: `Subscribers`, `ReachesMeaning`.
- The length decoder accepts more than the encoder writes: a fourth digit with its top bit set, and
  superfluous zeros (`OddLengthsAccepted`). The bytes it takes are those of the encoder exactly
  when `LengthMinimalIff` says.
- Clearing a retained message also loses the messages of ancestors that are left without a
  child: `ClearLosesAncestor`; nothing else is lost exactly when `ClearKeepsOthersIff` says.
- A client closed between a subscription's entry into the trie and its entry into the client's
  map leaves that subscription behind: `CloseInsideLeavesEntry`; the trie holds nothing stray
  exactly when no subscription is recorded after a clean-up: `StrayIffLateRecord`.
- An Unsubscribe can fail, ignored after a close inside a packet (`UnsubscribeAfterCloseFails`) or
  logged when two routines pass the unlocked status test of Close (`DoubleCloseFails`). One does
  exactly when a topic is dropped, or a second clean-up runs, while the map of a cleaned-up client
  still holds something from before: `FailedIff`.
- A client disconnected by an invalid packet, with no close on its way, is never cleaned up
  (`RefusedIsForever`); a client has entries left exactly when no clean-up has run, or for a late
  record: `ClientKeepsIff`.
- An accepted publish can be lost: overwritten by one made before the stored messages are
  resumed (`EarlyPublishOverwrites`), or dropped by a store that Disconnect closes under the call,
  even with ConnectRetry (`ClosedStoreDrops`). Nothing is lost exactly when every publish meets an
  open store and an identifier owed to no other: `NothingLostIff`. ConnectRetry gives the second
  half in runs in which the store is not closed under a call and no acknowledgement precedes its
  message: `AcceptedPublishesAreKept`.
- The allocator can hand out an identifier under which a message is stored, after an
  acknowledgement with QoS bits in its header: `AckWithQosFreesStored`; with stored identifiers
  claimed it does exactly when that message outlived its identifier: `IssuedIdStoredIff`.
- A token placed under an identifier that is just being freed may be lost: `LateTokenIsLost`;
  this is the only way (`NoTokenIsLost`), and none is lost exactly when every identifier is freed
  with its token done: `NoneLostIff`.
- Broker and client cut a topic such as "$shared/b" differently, and on "$share" the client
  fails: `ShareStripsDiffer`; they agree exactly when `ShareStripsAlikeIff` says.
- The garbage collection deletes by prefix, so a live client "ab" goes with a dead client "a":
  `ExtensionIsLost`; the pass is exact exactly when `PassExactIff` says.

Two more behaviours depart from MQTT 3.1.1 and are modelled as written.
A client's list of retained messages is never emptied, so every subscribe sends again what earlier
ones collected (broker/client.go:554-589; `ProcessSubscribe`). A CONNECT is written with one more
string at its end than section 3.1.3 of MQTT 3.1.1 has (mqtt/packets/connect.go:75;
`WrittenInLayout`); one without it is read (`StandardConnectRead`).

## Model

| member | source | states |
|---|---|---|
| `TopicLevels.NextTopicLevel` | broker/lib/topics/memtopics.go:420-470 | the byte-wise splitter returns the text up to the first separator, "+" for an empty level, and refuses a wildcard that shares its level or a "#" that is not last |
| `TopicLevels.LevelsHashLast` | broker/lib/topics/memtopics.go:420-470 | in the levels of an accepted topic "#" occurs only at the end |
| `TopicLevels.LevelsFromSplit` | broker/lib/topics/memtopics.go:420-470 | the iterated splitter is the plain "/" split with a trailing empty level dropped and other empty levels replaced by "+" |
| `TopicLevels.MatchMeaning` | mqtt/router.go:42-59 | the recursive match says: equal up to "+", to the end, or up to a "#" |
| `TopicLevels.MatchOnPlainNames` | mqtt/router.go:42-63 | on a filter without an empty level and a topic that does not end in one, matching over the splitter's levels is matching over the plain split |
| `TopicLevels.TopicAlikeIff` | mqtt/router.go:42-63 | both matchings agree on a topic for every filter without an empty level if and only if the topic does not end in an empty level |
| `TopicLevels.FilterAlikeIff` | mqtt/router.go:42-63 | they agree on a filter for every topic without an empty level if and only if the filter has none |
| `TopicLevels.EmptyLevelDisagrees` | broker/lib/topics/memtopics.go:427-437 | a filter with an empty level on which the two differ |
| `TopicLevels.GoodLevelsComplete` | broker/lib/topics/memtopics.go:420-470 | the levels met while walking an accepted topic are all of them |
| `TopicLevels.ShareStripsAlikeIff` | mqtt/router.go:67-75 | broker and client strip a topic to the same levels if and only if it does not begin with "$share" without being shared |
| `TopicLevels.ShareStripsDiffer` | mqtt/router.go:67-75 | a topic on which the client's way fails, and one that it cuts differently |
| `TopicLevels.ParseTargetExact` | broker/client.go:514-525 | behind "$share/" a topic is a group of one or more letters, digits, "_" or "-" and a filter without a newline in that group, and is refused if it has no such form; any other topic stands for itself, in no group |
| `SubscriptionTrie.InsertMeaning` | broker/lib/topics/memtopics.go:139-181 | an accepted insert grants exactly one place to one subscriber more, a rejected one grants nothing, and the trie stays well-formed |
| `SubscriptionTrie.RemoveMeaning` | broker/lib/topics/memtopics.go:183-236 | a remove succeeds exactly when the subscriber is there, and takes away that grant (or all at the place) and no other |
| `SubscriptionTrie.RemoveUndoesInsert` | broker/lib/topics/memtopics.go:139-236 | removing a fresh subscription gives back the trie before its insert, node for node, when the trie had no leftover nodes on the way |
| `SubscriptionTrie.ApplyAgrees` | broker/lib/topics/memtopics.go:51-80 | every call keeps the trie and the flat list of entries in agreement |
| `SubscriptionTrie.RunRefinesFlat` | broker/lib/topics/memtopics.go:51-80 | after any sequence of subscribe and unsubscribe calls the trie grants exactly what the flat list holds |
| `SubscriptionTrie.SubscriptionIndex.SInsert` | broker/lib/topics/memtopics.go:139-181 | the in-place insert has the effect of the specification, and succeeds exactly on acceptable topics |
| `SubscriptionTrie.SubscriptionIndex.SRemove` | broker/lib/topics/memtopics.go:183-236 | the in-place remove, with its pruning on the way back |
| `SubscriptionTrie.SubscriptionIndex.MatchQos` | broker/lib/topics/memtopics.go:481-490 | all subscribers of a node with the asked QoS |
| `SubscriptionTrie.ReachesMeaning` | broker/lib/topics/memtopics.go:261-272 | the walk reaches the end of the names if and only if a node lies there, at the end of a path of those names or "+" |
| `SubscriptionTrie.SubscriptionIndex.SMatch` | broker/lib/topics/memtopics.go:242-273 | the walk fails if and only if the topic is malformed and a node lies where its levels lead up to there; otherwise it finds exactly the live entries below the node whose path matches those levels, each once |
| `SubscriptionTrie.MalformedDelivered` | broker/lib/topics/memtopics.go:261-272 | a malformed topic on which the walk succeeds and finds a subscription |
| `SubscriptionTrie.SubscriptionIndex.Subscribe` | broker/lib/topics/memtopics.go:51-72 | grants the QoS and adds the entry, or fails and leaves every entry as it was |
| `SubscriptionTrie.SubscriptionIndex.Unsubscribe` | broker/lib/topics/memtopics.go:74-79 | succeeds exactly when the entry is live, removes it, and otherwise changes nothing |
| `SubscriptionTrie.SubscriptionIndex.Subscribers` | broker/lib/topics/memtopics.go:82-94 | refuses exactly a wrong QoS and a malformed topic whose malformed level the walk meets; otherwise exactly the live entries whose filter matches, each once |
| `RetainedTree.InsertExact` | broker/lib/topics/memtopics.go:289-316 | storing changes the message of the named topic and of no other; a malformed topic stores nothing |
| `RetainedTree.InsertGrowsOnTheWay` | broker/lib/topics/memtopics.go:289-316 | new nodes appear only on the way to the topic |
| `RetainedTree.ClearExact` | broker/lib/topics/memtopics.go:320-356 | what a clear removes: the topic and the ancestors it leaves without a child, and nothing else |
| `RetainedTree.ClearKeepsOthersIff` | broker/lib/topics/memtopics.go:320-356 | a clear removes only the named topic's message if and only if no ancestor left without a child holds one |
| `RetainedTree.ClearStaysOnThePath` | broker/lib/topics/memtopics.go:320-356 | a clear never touches a message off the path to its topic |
| `RetainedTree.ClearLosesAncestor` | broker/lib/topics/memtopics.go:345-356 | clearing "a/b" also loses the message at "a" |
| `RetainedTree.RetainedIndex.RInsertOrUpdate` | broker/lib/topics/memtopics.go:289-316 | the in-place store |
| `RetainedTree.RetainedIndex.RRemove` | broker/lib/topics/memtopics.go:320-356 | the in-place clear, with its pruning; a failed one changes nothing |
| `RetainedTree.RetainedIndex.Retain` | broker/lib/topics/memtopics.go:96-108 | an empty payload clears, any other stores |
| `RetainedTree.RetainedIndex.AllRetained` | broker/lib/topics/memtopics.go:401-409 | every message at or below a node, each once |
| `RetainedTree.RetainedIndex.RMatch` | broker/lib/topics/memtopics.go:361-399 | exactly the messages below the node whose path the filter matches, each once |
| `RetainedTree.RetainedIndex.Retained` | broker/lib/topics/memtopics.go:110-115 | exactly the retained messages whose topic the filter matches |
| `TopicIndex.SubscribersAfter` | broker/lib/topics/memtopics.go:51-94 | after any sequence of calls on the index, the subscribers of a topic are exactly the entries of the flat list whose filter matches, each once |
| `TopicIndex.LiveMeetsRetained` | broker/lib/topics/memtopics.go:242-409 | a live walk of the topic finds the filter if and only if a retained walk of the filter finds the topic |
| `Bookkeeping.StepKeeps` | broker/client.go:526-550 | every section of subscribe, unsubscribe and close keeps the index equal to what the clients' maps hold or are about to hold |
| `Bookkeeping.BeginIs` | broker/client.go:514-539 | the first section of a subscribe: the replaced subscription leaves map and index and no other does, and the one the topic asks for is made, with its group; a malformed shared topic changes nothing |
| `Bookkeeping.EnterIs` | broker/client.go:541-546 | the second: it enters the index at its filter with its QoS, or is refused for a malformed filter or a QoS above 2 |
| `Bookkeeping.RecordIs` | broker/client.go:548-550 | the third: it is in the map under the topic as the client wrote it |
| `Bookkeeping.ForgottenIs` | broker/client.go:617-624 | dropping a topic takes its subscription out of map and index, and no other |
| `Bookkeeping.CloseIs` | broker/client.go:695-705 | a clean-up takes every subscription of the client's map out of the index, and no other |
| `Bookkeeping.RunAgrees` | broker/client.go:486-716 | in every reachable state the trie holds exactly the maps of the clients not cleaned up, what a worker is about to record, and what was recorded after a clean-up |
| `Bookkeeping.PacketAtomicAgrees` | broker/client.go:617-716 | when no close takes effect inside a packet of its client and no client is cleaned up twice, no Unsubscribe fails, the trie is the union of the maps, and a cleaned-up client has no entry |
| `Bookkeeping.StrayIffLateRecord` | broker/client.go:526-716 | the trie holds nothing stray in any state of a run if and only if no subscription was recorded after a clean-up |
| `Bookkeeping.CloseInsideLeavesEntry` | broker/client.go:541-550 | a run in which a close inside a subscribe leaves an entry of a cleaned-up client |
| `Bookkeeping.FailedIff` | broker/client.go:526-716 | an Unsubscribe has failed in a run if and only if a topic was dropped, or a second clean-up ran, while the map of a cleaned-up client still held something from before its clean-up |
| `Bookkeeping.UnsubscribeAfterCloseFails` | broker/client.go:617-624 | a run in which an ignored one fails |
| `Bookkeeping.DoubleCloseFails` | broker/client.go:659-705 | a run in which two closes pass the status test and the second clean-up fails |
| `Bookkeeping.ClientKeepsIff` | broker/client.go:659-716 | a client has entries in the trie if and only if no clean-up of it has run and it has subscriptions, or something was or is about to be recorded after its clean-up |
| `Bookkeeping.RefusedIsForever` | broker/client.go:241-262 | a client disconnected by an invalid packet, with no close on its way, stays as it is in every later state |
| `BrokerClient.BrokerClient.constructor` | broker/client.go:103-117 | a new client agrees with an index that has nothing of it |
| `BrokerClient.BrokerClient.Forget` | broker/client.go:617-624 | a topic leaves map and index together, and no other client's entry changes |
| `BrokerClient.BrokerClient.SubscribeOne` | broker/client.go:506-554 | one topic: replaced, refused, or dropped by a refused resubscription, with its return code, and map and index in agreement; every entry of the map is the one its topic asks for, shared in its group behind "$share/" and plain otherwise |
| `BrokerClient.BrokerClient.CollectRetained` | broker/client.go:554 | exactly the messages retained for the topic's filter join the client's list |
| `BrokerClient.BrokerClient.ProcessSubscribe` | broker/client.go:486-590 | return codes topic by topic, the new map with every entry the one its topic asks for, group and share flag included, agreement with the index, other clients untouched; and the retained messages written: all collected before, then exactly those for this packet's topics |
| `BrokerClient.BrokerClient.ProcessUnSubscribe` | broker/client.go:592-645 | exactly the named topics leave the map and the index |
| `BrokerClient.BrokerClient.Close` | broker/client.go:659-716 | every Unsubscribe of the clean-up succeeds and nothing of the client stays in the index |
| `BrokerClient.LastMentionDecides` | broker/client.go:503-550 | of repeated topics in one subscribe the last decides |
| `BrokerClient.UnmentionedKeeps` | broker/client.go:503-550 | a topic a subscribe does not mention keeps its QoS |
| `BrokerClient.TakesExact` | broker/client.go:514-546 | a topic is taken if and only if its QoS is at most 2 and its filter is one the splitter accepts, alone or behind a well-formed group |
| `BrokerClient.FitsMeansEntry` | broker/client.go:514-539 | the subscription made for a topic has the group, the share flag and the filter that its text says, and no other does |
| `BrokerClient.MalformedShareKeeps` | broker/client.go:516-521 | a topic with a malformed group changes nothing |
| `FanOut.SendPlain` | broker/client.go:416-431 | the loop sends to every plain match, in order, and groups the shared ones |
| `FanOut.FanOut` | broker/client.go:416-440 | every plain match once, in order, then every group with a match exactly once through one of its members, and nothing else |
| `FanOut.SharedServedOnce` | broker/client.go:416-440 | of the members subscribed to a shared topic exactly one receives |
| `FanOut.SendToMatches` | broker/client.go:406-440 | a refused publish reaches nobody; any other, malformed topics included, reaches every live plain subscription whose filter matches once, and one member of every group with a match |
| `FanOut.ProcessPublishMessage` | broker/client.go:372-440 | a bridged publish is neither retained nor sent, a forwarded one goes to no match, any other goes to its matches; and what is retained afterwards |
| `MessageIds.NextIdExact` | mqtt/messageids.go:107-127 | 0 if and only if 1..65535 are all in use, and otherwise the first free identifier in cyclic order after the last one |
| `MessageIds.MessageIdTable.GetID` | mqtt/messageids.go:107-127 | the 16-bit search loop returns that identifier within 65535 rounds and records the token |
| `MessageIds.MessageIdTable.Advance` | mqtt/messageids.go:113-117 | the next candidate, with wrap-around and zero passed over |
| `MessageIds.MessageIdTable.FlowCompleteToken` | mqtt/token.go:101-107 | completing a token; a placeholder stays as it is |
| `MessageIds.MessageIdTable.ClaimID` | mqtt/messageids.go:90-103 | a claimed identifier gets the token, no other moves, and the one it displaces is completed without an error |
| `MessageIds.MessageIdTable.HandleAck` | mqtt/net.go:205-228 | the waiting token is completed with no error added and the identifier freed; a stray acknowledgement completes nobody |
| `MessageIds.MessageIdTable.CleanUpAll` | mqtt/messageids.go:46-64 | every token in the index is complete with the error text of its own kind, a placeholder and every other token is unchanged, and the index is empty |
| `MessageIds.MessageIdTable.CleanUpSubscribes` | mqtt/messageids.go:68-82 | exactly the subscribe and unsubscribe tokens in the index are complete with the error text of their kind and leave; the others stay under their identifiers, unchanged |
| `MessageIds.StepOutcome` | mqtt/messageids.go:46-82 | over one step of any run a token is completed with the error it had by an acknowledgement or a claim of its identifier, failed with the error of its timeout or loss, and otherwise untouched |
| `MessageIds.EndedBecause` | mqtt/token.go:101-118 | in every run a token that ended without an error was acknowledged or displaced by a claim, and one that ended with an error was failed with it by a timeout or a loss |
| `MessageIds.PlacesExactly` | mqtt/messageids.go:90-127 | a new token gets a free identifier if there is one, or the one it claims, and nobody else moves |
| `MessageIds.NoTokenIsLost` | mqtt/net.go:205-243 | in every run each token ever placed is still under its identifier or completed, unless it was placed for an identifier just being freed |
| `MessageIds.PacketAtomicNeverLate` | mqtt/net.go:205-243 | with acknowledgements handled without interruption no token is placed so |
| `MessageIds.NoneLostIff` | mqtt/net.go:205-243 | no token is lost in a run if and only if every identifier is freed with its token done |
| `MessageIds.LateTokenIsLost` | mqtt/net.go:205-228 | a run in which such a token is lost |
| `ClientStore.KeysRoundTrip` | mqtt/store.go:48-76 | a key gives back its identifier and its direction |
| `ClientStore.KeysDistinct` | mqtt/store.go:48-76 | no two identifiers and no two directions share a key |
| `ClientStore.PersistInOutbound` | mqtt/store.go:109-140 | receiving removes an outbound message only as the acknowledgement of its own identifier, with no QoS bits, and never changes one |
| `ClientStore.PersistOutAcks` | mqtt/store.go:78-106 | acknowledging a received packet never touches an outbound message |
| `ClientStore.PersistOutOutbound` | mqtt/store.go:78-106 | sending stores exactly a publish with QoS 1 or 2, a PUBREL, a subscribe and an unsubscribe, each itself under its own identifier, and leaves every other outbound message |
| `ClientStore.PersistOutInbound` | mqtt/store.go:83-86 | sending removes an inbound message only as the PUBACK or PUBCOMP of its identifier, and never changes one |
| `ClientStore.PersistInInbound` | mqtt/store.go:120-137 | receiving stores exactly a publish with QoS 1 or 2 and a PUBREL under its own identifier, and leaves every other inbound message |
| `ClientStore.MemoryStore.Get` | mqtt/memstore.go:69-84 | the message under the key, if open |
| `ClientStore.MemoryStore.All` | mqtt/memstore.go:88-100 | all keys, each once, if open |
| `ClientStore.MemoryStore.PersistOutbound` | mqtt/store.go:78-106 | the rule for packets sent, on the store object |
| `ClientStore.MemoryStore.PersistInbound` | mqtt/store.go:109-140 | the rule for packets received, on the store object |
| `ClientStore.ReserveClaims` | mqtt/client.go:924-943 | after reserving, every stored publish has its identifier in use, and none in use before was given up |
| `ClientStore.ReserveOnly` | mqtt/client.go:924-943 | and no other identifier is taken |
| `ClientStore.ResumeClaims` | mqtt/client.go:980-1075 | resuming keeps every outbound publish and puts the identifiers of those it passed in use |
| `ClientStore.ResumeSendsAll` | mqtt/client.go:980-1073 | resuming hands on, of the messages whose keys it passes, every outbound publish and PUBREL to the connection and every inbound PUBREL to the incoming queue, each once, and nothing else |
| `ClientStore.ResumeSendsStored` | mqtt/client.go:1018-1048 | each stored outbound publish and PUBREL is sent again |
| `ClientStore.ResumeLeaves` | mqtt/client.go:980-1073 | every PUBREL, the outbound publishes and what was not reached stay as they were; the rest is dropped |
| `ClientStore.StoredSession.ReserveStoredPublishIDs` | mqtt/client.go:924-943 | the reserving loop over all keys, in any order |
| `ClientStore.StoredSession.ResumeKey` | mqtt/client.go:981-1073 | one round of the resuming loop: claim, send, keep or discard by kind and direction |
| `ClientStore.StoredSession.Resume` | mqtt/client.go:950-1076 | the resuming loop, stopped after any number of sends or run to its end, and then everything is handed on and left as the walk says |
| `NoLoss.StepKeepsBase` | mqtt/client.go:498-541 | every section of publish, connect, resume, loss and disconnect, in any interleaving, keeps claimed and stored identifiers in use but for those freed without their message |
| `NoLoss.IndexAfter` | mqtt/messageids.go:46-127 | the identifiers in use after every section: Disconnect gives up all, a loss those of subscriptions, an acknowledgement its own, a call takes a free one |
| `NoLoss.StatusAfter` | mqtt/client.go:498-541 | the status after every section: a loss reconnects only with AutoReconnect and unless the user has disconnected |
| `NoLoss.PersistLosesIff` | mqtt/client.go:734-745 | storing a publish loses it or an earlier one, unless the store is open and its identifier is owed to no other |
| `NoLoss.NothingLostIff` | mqtt/client.go:709-764 | over every run, with any options and any interleaving: each accepted QoS 1 or 2 publish is stored under its own identifier until an acknowledgement carrying it arrives, if and only if every publish meets an open store and an identifier owed to no other |
| `NoLoss.OwedUntilAcked` | mqtt/client.go:734-764 | in every run an accepted publish is owed under the identifier it was given until an acknowledgement with that identifier arrives, whatever else happens |
| `NoLoss.OwedWasAccepted` | mqtt/net.go:225-243 | and whatever is owed was accepted, or there at the start, and its acknowledgement has not come since |
| `NoLoss.ResentBeforeSettled` | mqtt/client.go:980-1076 | in every run no connection settles before a resume of its own has passed every stored key, and every publish owed all through it, with the store open and nothing lost, was sent again by it |
| `NoLoss.RetryClaimsFirst` | mqtt/client.go:268-272 | in every run with ConnectRetry every stored identifier is in use whenever the store is open and no Connect or Disconnect is at work on it, but for those whose message outlived them |
| `NoLoss.AcceptedPublishesAreKept` | mqtt/client.go:924-943 | a corollary: nothing is lost in runs with ConnectRetry, or with stored identifiers claimed first, in which no Connect or Disconnect works on the store under a Publish call and no acknowledgement precedes its message |
| `NoLoss.IssuedIdStoredIff` | mqtt/messageids.go:107-127 | in every run, once stored identifiers are claimed, the allocator hands out one with a message under it if and only if that message outlived its identifier |
| `NoLoss.IssuedIdIsNotStored` | mqtt/store.go:109-140 | so it never does in a run without acknowledgements that leave their message, and without a publish stored after its identifier was freed |
| `NoLoss.AckWithQosFreesStored` | mqtt/store.go:109-140 | an orderly run with ConnectRetry after which it does |
| `NoLoss.EarlyPublishOverwrites` | mqtt/client.go:295-300 | a run without ConnectRetry in which a publish before resume overwrites a stored one |
| `NoLoss.ClosedStoreDrops` | mqtt/client.go:498-507 | a run with ConnectRetry in which Disconnect closes the store under a publish, which is dropped |
| `InboundQos2.AwaitingRel.RegisterPublishPacketId` | broker/client.go:751-777 | registered if and only if the identifier is not waiting and the maximum is 0 or not reached, in use, or full; and the new map |
| `InboundQos2.JudgeExact` | broker/client.go:751-777 | exactly when a publish is registered, its identifier in use, or the table full; never full with the maximum at 0 |
| `InboundQos2.AwaitingRel.ExpireAwaitingRel` | broker/client.go:779-792 | the sweep removes exactly the identifiers that have waited 20 seconds, in any order |
| `InboundQos2.AwaitingRel.PubRel` | broker/client.go:794-804 | the identifier leaves; it is an error if it was not there |
| `InboundQos2.PublishDelivers` | broker/client.go:352-364 | a QoS 2 publish is passed on exactly when its identifier is registered by it and the PUBREC is written |
| `InboundQos2.FreesExactly` | broker/client.go:779-804 | PUBREL frees its identifier and no other, a sweep those that have waited 20 seconds |
| `InboundQos2.DeliveriesSeparated` | broker/client.go:352-364 | any two onward deliveries of one identifier are separated by a PUBREL for it or an expiry at least the timeout after its registration |
| `InboundQos2.EntriesStayYoung` | broker/client.go:779-792 | with timers on time no entry gets older than the timeout |
| `InboundQos2.AwaitingBounded` | broker/client.go:767-777 | a non-zero maximum bounds the waiting identifiers |
| `TwoPartyQos2.RunKeepsInv` | mqtt/net.go:225-243 | in every run at most one packet per identifier is under way, and it tells how far its flow has got at both ends |
| `TwoPartyQos2.CompletedMeansPassedOnce` | broker/client.go:341-364 | a completed publish was passed on exactly once, none is passed on twice, and a reused identifier is never refused as in use |
| `TwoPartyQos2.QuietMeansSettled` | broker/client.go:298-311 | with nothing under way every accepted publish was completed, or dropped because the broker was full |
| `TwoPartyQos2.QuietMeansPassedOn` | broker/client.go:767-777 | without a maximum, which is the program's setting, quiet means that every accepted publish was passed on exactly once and completed |
| `TwoPartyQos2.NoMaxNoDrop` | broker/client.go:767-777 | without a maximum nothing is ever dropped |
| `TwoPartyQos2.DroppedWhileFull` | broker/client.go:767-777 | a dropped publish met the maximum of waiting identifiers |
| `TwoPartyQos2.AcceptExact` | mqtt/client.go:734-764 | a publish is accepted whenever an identifier is free, with a free one, and queued |
| `OutboundRetry.OutboundPeer.Publish` | broker/comm.go:164-183 | a publish becomes inflight with its timestamp, and a timer is armed |
| `OutboundRetry.OutboundPeer.ProcessPubrec` | broker/client.go:276-297 | PUBREC moves the element to its PUBREL phase and stamps it; a duplicate does not |
| `OutboundRetry.OutboundPeer.ResendOne` | broker/comm.go:262-285 | an element due is sent again in its phase and stamped; another is left alone: the step of `RetryWrites` |
| `OutboundRetry.OutboundPeer.RetryDelivery` | broker/comm.go:252-290 | the retry walk, in any order, and the next timer: the pass of `RetryWrites` |
| `OutboundRetry.RetryWrites` | broker/comm.go:252-290 | a pass on an open connection writes exactly one packet for each element that is due, PUBLISH or PUBREL by its phase before the pass, and nothing for any other |
| `OutboundRetry.ComesAndGoes` | broker/comm.go:174-183 | a publish becomes inflight and is written at once; its acknowledgement takes it out and no other |
| `OutboundRetry.PubrecAnswered` | broker/client.go:276-298 | PUBREC is answered with a PUBREL of its identifier, and moves the element on only the first time |
| `OutboundRetry.OutboundPeer.EnsureRetryTimer` | broker/comm.go:224-239 | arms a timer only if none is armed |
| `OutboundRetry.RetryBound` | broker/comm.go:224-290 | with timers on time, a timer is armed whenever something is inflight, and no last timestamp is as old as twice the interval |
| `OutboundRetry.WrittenInTime` | broker/comm.go:224-290 | with timers on time every inflight element of an open connection was written, as the packet of its phase, less than two intervals ago |
| `OutboundRetry.GoneForGood` | broker/client.go:267-275 | in every run nothing is written about an element once it is acknowledged |
| `OutboundRetry.BoundIsTight` | broker/comm.go:252-290 | a run that comes within a second of that bound |
| `OutboundRetry.PublishesBeforeReleases` | broker/client.go:267-311 | for every element all PUBLISHes the broker sends precede all its PUBRELs |
| `Dispatcher.StepKeeps` | mqtt/router.go:138-233 | every step keeps each unfinished message in the hands of a routine that will pass its Ack, and the channel states in line with where the routines are |
| `Dispatcher.DispatcherIsSafe` | mqtt/router.go:138-233 | for every interleaving and both order modes: no send on a closed channel, none closed twice, each acknowledgement run at most once |
| `Dispatcher.QuietMeansAcknowledged` | mqtt/message.go:76-78 | when all routines are through, every message a handler saw was acknowledged exactly once |
| `Dispatcher.EveryMatchIsCalled` | mqtt/router.go:180-214 | in every state of every run a message has as many handler calls as routes matched it, all through: in order mode once the main routine is past it, otherwise but for the routines at work |
| `Dispatcher.QuietMeansCalled` | mqtt/router.go:180-214 | when all routines are through, every matching handler was called and has ended |
| `Dispatcher.CountsAreMatches` | mqtt/router.go:175-210 | the messages and their routes are those of the run's own receive and match steps |
| `Dispatcher.StepBalances` | mqtt/router.go:152-172 | acknowledgement packets are conserved: out, in the copier's hands, or dropped after the input ended |
| `WorkerPool.StepConserves` | pool/fixpool.go:31-58 | a client's submitted tasks are, in order, those executed, the one in hand and those queued |
| `WorkerPool.ExecutedInOrder` | pool/fixpool.go:31-58 | for every interleaving the tasks executed for a client are a prefix of those submitted for it, none twice |
| `WorkerPool.OneWorkerPerClient` | pool/fixpool.go:45-58 | no two workers are busy with one client |
| `WorkerPool.DrainedMeansExecuted` | pool/fixpool.go:45-58 | with the queues drained everything submitted was executed |
| `WorkerPool.HistoryIs` | pool/fixpool.go:31-58 | a task for every submit that went through, in that order, and one executed for every one finished |
| `WorkerPool.WorkerPool.constructor` | pool/fixpool.go:13-29 | at least one worker, empty queues |
| `WorkerPool.WorkerPool.Submit` | pool/fixpool.go:31-36 | the task joins the end of its client's queue, a nil task none |
| `WorkerPool.WorkerPool.TakeTask` | pool/fixpool.go:45-58 | a worker takes the oldest task of its own queue |
| `WorkerPool.WorkerPool.FinishTask` | pool/fixpool.go:45-58 | the worker is idle and its task executed |
| `PacketFields.OrAdds` | mqtt/packets/packets.go:265-270 | joining bit fields that do not overlap is adding them |
| `PacketFields.BytesBack` | mqtt/packets/packets.go:308-336 | a string of at most 65535 bytes is read back, whatever follows |
| `PacketFields.LengthBackIff` | mqtt/packets/packets.go:338-372 | a remaining length is read back if and only if it is below 2^28 |
| `PacketFields.LengthBound` | mqtt/packets/packets.go:354-372 | on any bytes one to four are taken and the value is below 2^28 |
| `PacketFields.LengthMinimalIff` | mqtt/packets/packets.go:338-372 | the bytes the decoder takes are those the encoder writes for the decoded length if and only if the last has its top bit clear and, after the first, is not zero |
| `PacketFields.OddLengthsAccepted` | mqtt/packets/packets.go:354-372 | two inputs that it takes otherwise |
| `PacketFields.ManyBack` | mqtt/packets/packets.go:127-157 | items read back one by one are read back in sequence |
| `Packets.HeaderByteIsBits` | mqtt/packets/packets.go:265-270 | the header byte as a sum is the bitwise join of its shifted fields, spilling fields included |
| `Packets.HeaderBack` | mqtt/packets/packets.go:265-281 | the fixed header comes back from its byte |
| `Packets.FlagsByteIsBits` | mqtt/packets/connect.go:62 | the connect flags as a sum are the bitwise join |
| `Packets.FlagsBack` | mqtt/packets/connect.go:62-106 | the connect flags come back, the reserved bit clear |
| `Packets.ConnectBack` | mqtt/packets/connect.go:56-143 | a connect body comes back, optional fields and extension included |
| `Packets.PublishBack` | mqtt/packets/publish.go:38-81 | a publish body comes back, with the payload length computed from the remaining length |
| `Packets.SubscribePairsBack` | mqtt/packets/subscribe.go:38-79 | the topics of a subscribe come back with their QoS |
| `Packets.TopicsBack` | mqtt/packets/unsubscribe.go:37-66 | the topics of an unsubscribe come back if none is empty |
| `Packets.EmptyTopicCuts` | mqtt/packets/unsubscribe.go:54-66 | an empty topic cuts the list: only the topics before it are read |
| `Packets.UnpackReadable` | mqtt/packets/packets.go:200-231 | whatever is unpacked has its kind, fits its fields, and keeps its header |
| `Packets.ReadTakesOnePacket` | mqtt/packets/packets.go:127-157 | on any bytes a successful read takes exactly 1 + k + RemainingLength bytes, k from 1 to 4 |
| `Packets.RoundTripIff` | mqtt/packets/packets.go:127-157 | a packet of any kind is read back as written, whatever follows, if and only if it is well-formed |
| `Packets.StreamRoundTrip` | mqtt/packets/packets.go:127-157 | repeated reads of the concatenated writes of well-formed packets give the same list and leave what follows |
| `WireFormat.WrittenInLayout` | mqtt/packets/packets.go:56-72 | every packet that can be read back is written with the type of section 2.2.1 of MQTT 3.1.1, its flags, its length, and the layout of its kind byte by byte |
| `WireFormat.ReadByType` | mqtt/packets/packets.go:127-157 | whatever is read has the type and the flags that its first byte says |
| `WireFormat.NoSuchType` | mqtt/packets/packets.go:200-231 | nothing is read of the types 0 and 15 |
| `WireFormat.StandardConnectRead` | mqtt/packets/connect.go:86-143 | a CONNECT without the trailing string is read, with that string empty |
| `WireFormat.PublishRefusedIff` | mqtt/packets/publish.go:57-81 | a PUBLISH whose length says less than its topic and identifier take, or more with nothing left, is refused, and no other; the payload is as long as the length says |
| `WireFormat.ConnectExample` | mqtt/packets/connect.go:60-65 | the example of section 3.1.2.11 |
| `WireFormat.PublishExample` | mqtt/packets/publish.go:38-49 | the example of section 3.3.2.3 |
| `WireFormat.SubscribeExample` | mqtt/packets/subscribe.go:38-48 | the example of section 3.8.3 |
| `WireFormat.UnsubscribeExample` | mqtt/packets/unsubscribe.go:37-45 | the example of section 3.10.3 |
| `PacketReader.EncodeLengthLoop` | mqtt/packets/packets.go:338-352 | the encoding loop yields the specified digits |
| `PacketReader.Buffer.Read` | mqtt/packets/packets.go:283-300 | a read takes what there is, pads with zeros, and fails only on an empty buffer |
| `PacketReader.Buffer.ReadLength` | mqtt/packets/packets.go:354-372 | the decoding loop, with its bitwise accumulation, yields the specified length |
| `PacketReader.Buffer.ReadString` | mqtt/packets/packets.go:312-330 | a length-prefixed field |
| `PacketReader.Buffer.ReadPairs` | mqtt/packets/subscribe.go:57-79 | the length-driven loop |
| `PacketReader.Buffer.ReadTopics` | mqtt/packets/unsubscribe.go:54-66 | the loop until a failure or an empty topic |
| `PacketReader.Buffer.ReadControlPacket` | mqtt/packets/packets.go:127-157 | one packet off the stream, leaving the rest |
| `PacketReader.SubscribeBody` | mqtt/packets/subscribe.go:38-48 | the writing loop of a subscribe |
| `PacketReader.UnsubscribeBody` | mqtt/packets/unsubscribe.go:37-45 | the writing loop of an unsubscribe |
| `ClusterGc.KeysAre` | broker/cluster_sub.go:64-67 | the keys of nodes, clients and subscriptions, directory by directory |
| `ClusterGc.SubPrefix` | model/subscription.go:18-20 | a subscription's key is under another's exactly when the topic digests agree and the client identifier extends the other's |
| `ClusterGc.PassExactIff` | broker/cluster.go:188-233 | one pass leaves exactly the clients with a registered node, exactly the subscriptions of those, and everything else, if and only if no identifier to keep extends one to drop |
| `ClusterGc.PrefixFreeIsExact` | broker/cluster.go:188-233 | with identifiers none of which extends another the pass is exact |
| `ClusterGc.ExtensionIsLost` | broker/etcdstore.go:123-126 | a store from which a live client is deleted |
| `ClusterGc.EtcdStore.All` | broker/etcdstore.go:107-121 | the keys under a prefix |
| `ClusterGc.Cluster.StoreAddORUpdateClient` | broker/cluster_client.go:32-41 | stores the client under its key and keeps the store's layout |
| `ClusterGc.Cluster.StoreAddORUpdateSubscription` | broker/cluster_sub.go:37-45 | stores the subscription under its key and keeps the store's layout |
| `ClusterGc.Cluster.GetNodes` | broker/cluster_node.go:42-58 | exactly the registered nodes |
| `ClusterGc.Cluster.GetClients` | broker/cluster_client.go:85-101 | exactly the stored clients with their nodes |
| `ClusterGc.Cluster.GetSubscriptions` | broker/cluster_sub.go:107-123 | exactly the stored subscriptions by identifier |
| `ClusterGc.Cluster.RemoveDeadClients` | broker/cluster.go:202-213 | the client loop, in any order, removes what lies under a dead client's key |
| `ClusterGc.Cluster.RemoveOrphans` | broker/cluster.go:227-232 | the subscription loop, in any order, removes what lies under an orphan's key |
| `ClusterGc.Cluster.ManagerPass` | broker/cluster.go:188-233 | one pass has the specified effect on the store |

## Left out

- The pointers between tree nodes: a node of the two tries is named by its path, and the index object holds a map from paths to nodes, so sharing of nodes is not expressed.
- The comparison of subscribers by reflection: a subscription is identified by its client and a number, as the pointers are.
- SubscriptionTrie.RemoveUndoesInsert: gives the nodes back only where no leftover node of an earlier rejected insert lies on the way; the entries are given back in every case (RemoveMeaning).
- NoLoss.AcceptedPublishesAreKept: a sufficient condition; the exact one, over all runs, is NothingLostIff.
- NoLoss.NothingLostIff: QoS 0 publishes, clean sessions and resumed subscriptions are not part of the runs.
- ClientStore.StoredSession.Resume: the DUP flag set on resent publishes and the limit on simultaneous resends are not modelled, nor are resumed subscriptions.
- FanOut.ProcessPublishMessage: what the bridge does with a publish, and what publish does per receiver beyond the inflight rules, are not modelled.
- BrokerClient.BrokerClient.ProcessSubscribe: access control, session records, cluster records and notifications are not modelled.
- BrokerClient.BrokerClient.Close: the will message, cluster records and notifications are not modelled.
- ClusterGc.Cluster.ManagerPass: assumes that reads and deletes succeed and that nobody else writes during the pass; values are taken as already parsed.
- Packets.RoundTripIff: nil and empty byte slices are the same value, and packets are values, so that Write filling in the remaining length is a function of the packet.
- Exactly-once delivery across reconnects: the broker starts each connection with no waiting identifiers, so it is not a property of this program.
- Sockets, TLS, websockets, deadlines, keep-alive and the connect handshake: input and output.
- Leader election, leases, and the replication of clients and subscriptions by watching the store: they rest on the external store.
- Access control lists, users, HTTP views, notifications, bridges, logging and configuration of the broker.
- The file store and the ordered memory store of the client: file system behaviour, and a sort by time.
- The client's route list: adding, replacing and deleting routes; only matching is modelled.
- Validation of connect packets after decoding: one decision without state.

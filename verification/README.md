# Mosquitto 1.3.4, verified

A Dafny model of the Mosquitto 1.3.4 broker and client library, with proofs of what their
documentation and section 4 of MQTT 3.1.1 promise, and of one small component beside them, the
`readdir` replacement in `fw-toolchain-legacy/ext4_dir_order.c`.

`dafny verify dfyconfig.toml` checks the whole project.

## What is modelled

- **QoS 2 hand-over** (`ClientLibrary`, `Handover`, `HandoverIds`, `HandoverLink`,
  `HandoverParties`, `HandoverBroker`): the client library's out list as a class, and client,
  broker and the two links between them as a state machine over all interleavings, losses and
  reconnects. The last three modules show that the classes take the state machine's steps.
- **The library's window** (`ClientRuns`): whole runs of a client with a limit on the messages in
  flight.
- **Subscription tree** (`Topics`, `Tokens`, `SubTree`, `Subscriptions`, `RetainSearch`,
  `SubHierarchy`): the trie as a value with its flat reading, and the linked tree as a class whose
  methods are proved to do what the functions on values say.
- **Message queues** (`MessageQueue`, `ClientContext`, `QueueRuns`, `SenderPhases`): one client's
  message list as a class with all operations of `src/database.c`, whole runs of them, and what the
  broker as a sender puts on the wire in each phase of a hand-over.
- **Broker** (`FanOut`, `Served`, `Broker`): who is served by a publication and with what, said by
  filters and topics; and the database of clients, stored messages with reference counts
  and the linked tree, with the packet handlers working on all of it.
- **Wire** (`Framing`, `OutQueue`, `Codec`): remaining length, the resumable reader, the output
  queue, PUBLISH and CONNECT.
- **Persistence** (`PersistFile`, `SavedPaths`, `Persist`, `Recovery`, `Persistence`,
  `SavedBroker`): the chunks as bytes, what a backup holds, what restoring it gives back, the writer
  and reader as methods, and why the databases that the broker works on can be saved.
- **Bridges** (`Bridge`) and **directory order** (`DirOrder`).

Code that changes things step by step is a class or a method with loops, proved equal to a
function; the laws are lemmas about those functions and about whole runs.

## Findings

Properties that the code does not have everywhere, each with its exact condition.

- `mosquitto_topic_matches_sub` answers false although the filter matches exactly when the filter
  ends in "#" and the topic stops at a "+" directly in front of it, or "#" faces one empty level
  (`Topics.MatcherMeaning`, `Topics.BlindSpotExamples`).
- A backup mangles a filter exactly when its first level is empty or starts with '$', except "/"
  (`SavedPaths.FilterComesBack`, `SavedPaths.MangledFilters`); the restored subscriptions are the
  saved ones exactly when no durable client has such a filter (`Recovery.SubscriptionsSameIff`).
- A bridge topic without a remote prefix comes back as itself exactly when the matcher's '$' rule
  sees the same side of the rest and of the pattern (`Bridge.RemapRoundTrip`,
  `Bridge.RemapLosesDollar`).
- A retained message that matches only as the parent level of "#" is offered exactly when its node
  has children or is a last sibling below the first level; filters without "+" always have that,
  filters with both may not (`RetainSearch.OfferedExactly`, `RetainSearch.MixedFilterMisses`).
- The client library takes message ids in turn without asking whether they are free. Exactly-once
  holds on all runs that take no id in use, and can be broken from every state in which one is
  taken (`Handover.ExactlyOnce`, `HandoverIds.TakenIdBreaks`, `HandoverIds.IdsComeRound`).
- The in-flight limit is kept on all runs whose acknowledgements are for messages already sent. A
  PUBREC takes the number in flight past it exactly when the window is full and the message is
  still queued (`QueueRuns.InFlightBounded`, `QueueRuns.PubrecOverruns`,
  `QueueRuns.EarlyPubrecOverruns`).
- After the PUBREC of a QoS 2 message the broker does not publish it again, unless a reconnect finds
  it in the state `resend_pubrel`: that state is reset to `publish_qos2`, and the next write pass
  publishes. The state is reached when a client that had sent its PUBREC stays away for longer than
  the retry interval (`SenderPhases.NoPublishAfterPubrec`, `SenderPhases.ReconnectResumes`,
  `SenderPhases.PublishedAgain`).
- The same reset publishes an inbound QoS 2 message to its own sender exactly if it was queued inside
  the window (`SenderPhases.InboundEchoed`).
- The client library counts its whole list as in flight after a reconnect, but lets only the first
  n - 1 messages go. The count is right exactly if the list is shorter than the limit; from 2n - 1
  messages on, those that wait are never sent over that connection (`ClientRuns.ResetCounts`,
  `ClientRuns.ReconnectStalls`).
- Two different strings may share a token list, as "a" and "/a" do (`Tokens.TokensCollide`), so
  tree properties are stated over token lists.
- The PUBLISH and CONNECT writers fill the packet they allocated exactly when every text is shorter
  than 65536 bytes (`Codec.SendRealPublish`, `Codec.SendConnect`). A user name of 65536 bytes is one
  that breaks it (`Codec.LongNameLost`); topics of that length are kept out before, by the length
  check of `mosquitto_publish` (`Topics.TopicWildcardLenCheck`).
- A node may retain a message of another topic: a QoS 1 publication with RETAIN that uses the id of
  a waiting QoS 2 one files that other message (`SavedBroker.StrayRetained`), and delivers it too.
  Such a message does not come back at its node (`Recovery.RetainedSameIff`). No other operation
  does this (`SavedBroker.HandlesPublish` and the methods beside it).
- A filter in a "$" tree that fits its packet may not fit its chunk (`SavedBroker.FilterLegal`).

## Model

| member | source | states |
|---|---|---|
| Handover.ExactlyOnce | contrib/deb/mosquitto/mosquitto-1.3.4/src/read_handle.c:231-265 | Exactly-once publish (section 4.3.3): over links that may be cut at any moment, in every state of every run no QoS 2 publication has been routed twice, a confirmed one has been routed and confirmed once, and every other one is still in the client's queue |
| Handover.NoUnknownPubrec | contrib/deb/mosquitto/mosquitto-1.3.4/lib/read_handle_shared.c:118-145 | In no run does a PUBREC reach the client for an id it does not know, so a PUBREC never closes the connection |
| Handover.CanAlwaysFinish | contrib/deb/mosquitto/mosquitto-1.3.4/lib/messages_mosq.c:315-353 | From every reachable state some continuation, starting with a new connection, routes and confirms every publication: losses and retries never leave the two sides stuck |
| HandoverIds.TakenIdBreaks | contrib/deb/mosquitto/mosquitto-1.3.4/lib/util_mosq.c:149-157 | The other half of the condition on ids: whenever the next message id is still in use, publishing with it can be continued to a state where the new publication is confirmed to the application but was never routed |
| HandoverIds.IdsComeRound | contrib/deb/mosquitto/mosquitto-1.3.4/lib/mosquitto.c:533-598 | A run from the start reaches such a state: after 65535 unanswered publications the next id is in use |
| HandoverLink.OutwardIsOtherWork | contrib/deb/mosquitto/mosquitto-1.3.4/src/database.c:244-400 | Delivering to the client, timeouts, write passes and reconnects never touch what its list holds for the other direction |
| HandoverParties.AppPublishes | contrib/deb/mosquitto/mosquitto-1.3.4/lib/mosquitto.c:533-598 | mosquitto_publish on the client object is the state machine's publication step, and the link gains exactly what the client sent |
| HandoverParties.PacketHandle | contrib/deb/mosquitto/mosquitto-1.3.4/lib/read_handle.c:45-75 | Handling a PUBREC or PUBCOMP on the client object is the state machine's receive step, with one on_publish call for each publication confirmed |
| HandoverParties.RetriesOverdue | contrib/deb/mosquitto/mosquitto-1.3.4/lib/messages_mosq.c:315-364 | A retry check is a sequence of the state machine's retry steps, and sends exactly their packets in that order |
| HandoverParties.Reconnects | contrib/deb/mosquitto/mosquitto-1.3.4/lib/messages_mosq.c:152-210 | The client's reconnect reset without a limit on messages in flight keeps every pending publication in its phase |
| HandoverBroker.ReceivesPublish | contrib/deb/mosquitto/mosquitto-1.3.4/src/read_handle.c:231-288 | Handling a QoS 2 PUBLISH that is not refused is the state machine's broker step: the publication is held once, and the link to the client gains a PUBREC in any case |
| HandoverBroker.ReceivesPubrel | contrib/deb/mosquitto/mosquitto-1.3.4/lib/read_handle_shared.c:147-195 | Handling a PUBREL in the database is the state machine's broker step, and routing means delivery: every client with a filter that matches the held message's topic in the old tree, and room for its copy, gains it with the smaller QoS, no other client gains anything, and it is retained if it asked for that; the link to the client gains a PUBCOMP in any case |
| HandoverBroker.WritesOut | contrib/deb/mosquitto/mosquitto-1.3.4/src/database.c:747-867 | A write pass of the broker on this client is a sequence of the state machine's PUBREC retries and of packets of the other direction, and the link to the client gains exactly those packets in that order |
| HandoverBroker.ChecksTimeouts | contrib/deb/mosquitto/mosquitto-1.3.4/src/database.c:633-678 | A timeout check leaves the state machine's broker where it is and sends nothing |
| HandoverBroker.Reconnects | contrib/deb/mosquitto/mosquitto-1.3.4/src/read_handle_server.c:391-430 | Taking a client back to its session is the state machine's reconnect: every held publication stays held |
| HandoverBroker.Disconnects | contrib/deb/mosquitto/mosquitto-1.3.4/src/context.c:196-215 | Noticing a lost connection is the state machine's step, even if the client's own will comes to its list |
| ClientLibrary.LibClient.PublishMessage | contrib/deb/mosquitto/mosquitto-1.3.4/lib/mosquitto.c:533-598 | The id is the next one, skipping 0; the message is queued and sent only inside the window |
| ClientLibrary.LibClient.RemoveOut | contrib/deb/mosquitto/mosquitto-1.3.4/lib/messages_mosq.c:212-275 | The first message with the id leaves the list; then QoS 1 and 2 messages in state invalid leave it in list order while the window has room, with one PUBLISH for each, until none is left or the window is full; nothing else changes |
| ClientLibrary.LibClient.HandlePubrec | contrib/deb/mosquitto/mosquitto-1.3.4/lib/read_handle_shared.c:118-145 | A known id goes to its second phase and is answered; an unknown one is an error and changes nothing |
| ClientLibrary.LibClient.HandlePubackcomp | contrib/deb/mosquitto/mosquitto-1.3.4/lib/read_handle_shared.c:80-116 | on_publish fires once for a known id and not for an unknown one, and for a known one the window moves on as by RemoveOut |
| ClientLibrary.LibClient.RetryCheck | contrib/deb/mosquitto/mosquitto-1.3.4/lib/messages_mosq.c:315-353 | Exactly the messages whose answer has been due since before the interval are sent again, in list order, and marked as duplicates |
| ClientLibrary.RetriedInPhase | contrib/deb/mosquitto/mosquitto-1.3.4/lib/messages_mosq.c:313-353 | A retry check sends one packet for each such message, its PUBREL after a PUBREC and its PUBLISH before, with DUP, and none for a younger message |
| ClientLibrary.LibClient.ReconnectReset | contrib/deb/mosquitto/mosquitto-1.3.4/lib/messages_mosq.c:152-210 | Every message is kept with a state that depends on its position against the window, and the number in flight is recounted |
| ClientRuns.WindowOverRuns | contrib/deb/mosquitto/mosquitto-1.3.4/lib/messages_mosq.c:212-275 | Over every run of publications, answers to messages sent, retries, lost connections and reconnects: the number in flight is the number of QoS 1 and 2 messages not waiting for room, it stays within the limit, nothing waits while there is room, what waits is the end of the list, and first transmissions are in publication order, without gaps but for what was published offline |
| ClientRuns.EarlyAnswer | contrib/deb/mosquitto/mosquitto-1.3.4/lib/messages_mosq.c:233-235 | An acknowledgement leaves the number in flight right exactly when its message did not wait |
| ClientRuns.ResetCounts | contrib/deb/mosquitto/mosquitto-1.3.4/lib/messages_mosq.c:185-209 | After a reconnect the number in flight is right if and only if there is no limit or fewer messages than the limit are unfinished |
| ClientRuns.ReconnectStalls | contrib/deb/mosquitto/mosquitto-1.3.4/lib/messages_mosq.c:185-209 | With twice the limit or more unfinished (one less is enough), no message that waits is sent over that connection, whatever is published and answered on it |
| ClientRuns.Handle | contrib/deb/mosquitto/mosquitto-1.3.4/lib/messages_mosq.c:152-275 | Every call into the client object is a step of these runs |
| Subscriptions.TreeIsFlatTable | contrib/deb/mosquitto/mosquitto-1.3.4/src/subs.c:375-558 | After any sequence of subscribe, unsubscribe, clean session and retained publish the tree reads as a flat table of (filter, client, QoS) and a map of retained messages; siblings stay unique, "#" has no children, no wildcard node retains, and both counters are the sizes of the table and the map |
| Subscriptions.RecipientsExact | contrib/deb/mosquitto/mosquitto-1.3.4/src/subs.c:343-373 | A search on a wildcard-free topic visits exactly the subscriptions whose token list matches (section 4.7), each once |
| Subscriptions.RetainCounts | contrib/deb/mosquitto/mosquitto-1.3.4/src/subs.c:87-107 | A retained publish moves one pointer: the references of the old and the new message and the number of retaining nodes change by exactly one each, for the topic's own node only |
| Tokens.TopicTokenise | contrib/deb/mosquitto/mosquitto-1.3.4/src/subs.c:154-233 | The tokeniser yields the levels of the string, below an empty first token unless it starts with '$' or '/' |
| Tokens.TokensCollide | contrib/deb/mosquitto/mosquitto-1.3.4/src/subs.c:164-191 | Two strings share a token list exactly when one is the other behind a separator and that other one starts with neither '$' nor a separator |
| Tokens.TokensMatchIsTopicMatch | contrib/deb/mosquitto/mosquitto-1.3.4/src/subs.c:343-373 | On a valid filter and a topic that do not start with a separator, matching by tokens is matching in the sense of sections 4.7.1 and 4.7.2 |
| SubHierarchy.SubHier.AddSub | contrib/deb/mosquitto/mosquitto-1.3.4/src/subs.c:235-294 | The linked tree after adding a path is the value-level addition, and subscription_count follows |
| SubHierarchy.SubHier.RemoveSub | contrib/deb/mosquitto/mosquitto-1.3.4/src/subs.c:296-341 | The linked tree after a removal is the value-level removal with its pruning, and the count follows |
| SubHierarchy.SubHier.CleanSession | contrib/deb/mosquitto/mosquitto-1.3.4/src/subs.c:493-543 | The linked tree after cleaning a session has lost exactly that client's leaves and the nodes left bare |
| SubHierarchy.SubHier.SearchSubs | contrib/deb/mosquitto/mosquitto-1.3.4/src/subs.c:343-373 | The recursive search over the linked tree yields the hits of the value-level search, sets or clears the retained message where the search ends, and keeps reference counts and retained_count in step |
| SubHierarchy.SubHier.RootAdd | contrib/deb/mosquitto/mosquitto-1.3.4/src/subs.c:375-427 | Subscribing creates a missing top-level node in front and adds the leaf below it |
| SubHierarchy.SubHier.RootRemove | contrib/deb/mosquitto/mosquitto-1.3.4/src/subs.c:429-457 | Unsubscribing works below the top-level node of the filter and never unlinks it |
| SubHierarchy.SubHier.RootClean | contrib/deb/mosquitto/mosquitto-1.3.4/src/subs.c:547-558 | A session is cleaned below every top-level node |
| SubHierarchy.SubHier.RootPublish | contrib/deb/mosquitto/mosquitto-1.3.4/src/subs.c:459-491 | A publication is searched for in the tree as it was, and a retained one is stored only if its top-level node exists |
| SubHierarchy.SubHier.SearchRetained | contrib/deb/mosquitto/mosquitto-1.3.4/src/subs.c:615-656 | The recursive retained search over the linked tree yields the offers of the value-level search, with its -1 flag |
| RetainSearch.OfferedExactly | contrib/deb/mosquitto/mosquitto-1.3.4/src/subs.c:615-656 | For every valid filter a retained message is offered exactly when its topic matches and, if it matches only as the parent level of "#", the search notices that level; no message is offered twice |
| RetainSearch.OfferedAll | contrib/deb/mosquitto/mosquitto-1.3.4/src/subs.c:658-685 | Right after subscribing, a filter that does not combine "+" with "#" is offered every retained message whose topic matches, and nothing else |
| RetainSearch.SubscribedHasNode | contrib/deb/mosquitto/mosquitto-1.3.4/src/subs.c:375-427 | Subscribing makes the node that OfferedAll asks for |
| RetainSearch.MixedFilterMisses | contrib/deb/mosquitto/mosquitto-1.3.4/src/subs.c:637-645 | A reachable tree in which a client that subscribes to "+/#" is not offered the matching retained message of "x" |
| Served.OneEntryPerSubscriber | contrib/deb/mosquitto/mosquitto-1.3.4/src/subs.c:108-147 | However many of a client's filters match, one publication adds exactly one outbound entry, with the smaller of its QoS and that of one matching filter, if the limits have room for the copy of any of them, and none otherwise; said with table lookup and level matching |
| Served.DeliverServes | contrib/deb/mosquitto/mosquitto-1.3.4/src/subs.c:108-147 | What a delivery to the hits of the search gives a client is what its matching filters ask for, with duplicates allowed or not; with duplicates and no limit there is one entry for each |
| Served.UnmatchedUnserved | contrib/deb/mosquitto/mosquitto-1.3.4/src/subs.c:108-147 | A client no filter of which matches the topic gets nothing |
| Served.MessageRetained | contrib/deb/mosquitto/mosquitto-1.3.4/src/subs.c:87-107 | A retained publication leaves every subscription as it is and is what the node of its topic retains (nothing, if it has no payload), unless the top-level node does not exist; no other node changes |
| FanOut.OthersGetNothing | contrib/deb/mosquitto/mosquitto-1.3.4/src/subs.c:108-147 | A client no subscription of which matches is given nothing |
| FanOut.DeliverElsewhere | contrib/deb/mosquitto/mosquitto-1.3.4/src/database.c:244-400 | What a delivery puts into a list depends on the list only through its number of QoS 1 and 2 entries, and is put behind it |
| FanOut.EachOfferOnce | contrib/deb/mosquitto/mosquitto-1.3.4/src/subs.c:591-613 | Under any limits, connected or not, the retained messages offered to a new subscription are put behind the list in their order, each at most once, with the smaller of the message's QoS and the subscription's and with an id exactly if that is not 0, sent at once inside the window and queued otherwise; left out are exactly those that the limits leave no room for, in closed form |
| Broker.Database.constructor | contrib/deb/mosquitto/mosquitto-1.3.4/src/database.c:46-107 | A new database has the two top-level nodes, no client and no stored message, and is well formed |
| Broker.Database.StoreMessage | contrib/deb/mosquitto/mosquitto-1.3.4/src/database.c:459-531 | The new message gets a fresh id and no references |
| Broker.Database.StoreClean | contrib/deb/mosquitto/mosquitto-1.3.4/src/database.c:869-903 | The store keeps exactly the messages that some queue entry or tree node points to, in order, and msg_store_count stays its length |
| Broker.Database.HandlePublish | contrib/deb/mosquitto/mosquitto-1.3.4/src/read_handle.c:88-295 | Duplicate detection by id, then QoS 2 is held and acknowledged while QoS 0 and 1 are delivered at once to every client with a matching filter and room, and retained if asked; a publication that is too large or denied is acknowledged as its QoS asks and reaches nobody, a QoS 2 one being stored without a topic for its PUBREL; a topic with wildcards ends the connection; reference counts stay exact |
| Broker.Database.HandlePubrel | contrib/deb/mosquitto/mosquitto-1.3.4/lib/read_handle_shared.c:147-195 | A waiting message is delivered once and leaves the list: every client with a filter that matches its topic in the old tree, and room, gains its copy with the smaller QoS, clients without one gain nothing, and the topic's node retains it if it asked for that; PUBCOMP goes out in any case; for an unknown id nobody else is touched |
| Broker.Database.Release | contrib/deb/mosquitto/mosquitto-1.3.4/src/database.c:680-745 | The walk that releases a message, promotes queued entries by position and unlinks, delivering while it walks; what is delivered and retained is said by filters and topics as for HandlePubrel |
| Broker.Database.HandlePubrec | contrib/deb/mosquitto/mosquitto-1.3.4/lib/read_handle_shared.c:118-145 | PUBREL goes out exactly for a known id |
| Broker.Database.HandlePubackcomp | contrib/deb/mosquitto/mosquitto-1.3.4/lib/read_handle_shared.c:80-116 | The acknowledged entry leaves the list and the window moves on |
| Broker.Database.MessagesQueue | contrib/deb/mosquitto/mosquitto-1.3.4/src/subs.c:459-491 | Every client's list, last id and packets after a publication are those of the delivery function over the recipients found in the old tree; other messages' destinations do not change |
| Broker.Database.MessagesEasyQueue | contrib/deb/mosquitto/mosquitto-1.3.4/src/database.c:440-457 | A will is stored as the newest message and delivered and retained like any publication |
| Broker.Database.AddClient | contrib/deb/mosquitto/mosquitto-1.3.4/src/read_handle_server.c:388-430 | A new client joins with an empty list and nothing else changes |
| Broker.Database.Subscribe | contrib/deb/mosquitto/mosquitto-1.3.4/src/subs.c:375-427 | The tree takes the subscription, and references, counters and ownership of leaves stay right |
| Broker.Database.Unsubscribe | contrib/deb/mosquitto/mosquitto-1.3.4/src/subs.c:429-457 | The tree loses the subscription, and references, counters and ownership of leaves stay right |
| Broker.Database.QueueRetained | contrib/deb/mosquitto/mosquitto-1.3.4/src/subs.c:658-685 | The new subscription's client is queued exactly the retained messages offered, in order, each with the smaller of its QoS and the subscription's, as far as the limits have room |
| Broker.Database.CleanSession | contrib/deb/mosquitto/mosquitto-1.3.4/src/context.c:101-194 | A clean session loses its subscriptions and its queue, and the references of the queue are given back |
| Broker.Database.Reconnect | contrib/deb/mosquitto/mosquitto-1.3.4/src/read_handle_server.c:391-430 | A returning client keeps its queue, or loses it with its subscriptions if it asks for a clean session; an entry it keeps is to be sent again in its phase: PUBREL if it waited for PUBCOMP, PUBLISH otherwise, queued outside the window; inbound entries outside the queue stay as they are |
| Broker.Database.Disconnect | contrib/deb/mosquitto/mosquitto-1.3.4/src/context.c:196-215 | The will is delivered to every client with a matching filter and room unless the client said goodbye, and only this client's connection closes |
| Broker.Database.WriteOut | contrib/deb/mosquitto/mosquitto-1.3.4/src/database.c:747-867 | A write pass over the list is the pass function, and keeps the whole database well formed |
| Broker.Database.CheckTimeouts | contrib/deb/mosquitto/mosquitto-1.3.4/src/database.c:633-678 | Timed-out entries go back to their sending states and nothing else changes |
| ClientContext.Context.Insert | contrib/deb/mosquitto/mosquitto-1.3.4/src/database.c:244-400 | Admission, state and return code by connection, window and queue limits; counters, last_msg and references follow |
| ClientContext.Context.Delete | contrib/deb/mosquitto/mosquitto-1.3.4/src/database.c:197-242 | The removal loop with promotion by position; with unique ids its result is the list without the entry, promoted |
| ClientContext.Context.Update | contrib/deb/mosquitto/mosquitto-1.3.4/src/database.c:402-416 | The first entry with the id in that direction changes state, and the return code says whether there is one |
| ClientContext.Context.DeleteAll | contrib/deb/mosquitto/mosquitto-1.3.4/src/database.c:418-438 | The list is emptied and its references are given back |
| ClientContext.Context.Write | contrib/deb/mosquitto/mosquitto-1.3.4/src/database.c:747-867 | The write pass, including its inbound-queued branch that does not advance, terminates and is the pass function; msg_count, msg_count12, last_msg and references follow |
| ClientContext.Context.ReconnectReset | contrib/deb/mosquitto/mosquitto-1.3.4/src/database.c:554-631 | Every entry stays in its place and takes up its phase: an outbound QoS 2 entry that waited for PUBCOMP is to send PUBREL again, other outbound ones their PUBLISH, and the queue is left exactly inside the window; the counters are recomputed |
| ClientContext.Context.TimeoutCheck | contrib/deb/mosquitto/mosquitto-1.3.4/src/database.c:633-678 | Exactly the entries older than the timeout go back to their sending states |
| QueueRuns.InFlightBounded | contrib/deb/mosquitto/mosquitto-1.3.4/src/database.c:285-336 | Over every run in which acknowledgements are for messages already sent, never more than max_inflight outbound QoS 1 and 2 messages of a client are out of the queue |
| QueueRuns.QueueBounded | contrib/deb/mosquitto/mosquitto-1.3.4/src/database.c:285-336 | Over every run, with both limits set, a list never holds more QoS 1 and 2 messages than max_inflight and max_queued together |
| QueueRuns.PubrecCount | contrib/deb/mosquitto/mosquitto-1.3.4/lib/read_handle_shared.c:118-145 | A PUBREC raises the number in flight exactly when its message was still queued |
| QueueRuns.PubrecOverruns | contrib/deb/mosquitto/mosquitto-1.3.4/lib/read_handle_shared.c:118-145 | A PUBREC takes the number in flight past a window that it was within exactly when the window is full and the message is a queued outbound QoS 1 or 2 one |
| QueueRuns.EarlyPubrecOverruns | contrib/deb/mosquitto/mosquitto-1.3.4/lib/read_handle_shared.c:118-145 | A run with a window of one and a PUBREC for a message never sent has two messages in flight |
| QueueRuns.DeliveryInOrder | contrib/deb/mosquitto/mosquitto-1.3.4/src/database.c:747-867 | Over every run on outbound QoS 1 and 2 messages: a message of a connected client is queued exactly when its position is beyond the window, and first transmissions happen in insertion order (section 4.6), across errors, timeouts, reconnects and deleted queues |
| SenderPhases.PassExplained | contrib/deb/mosquitto/mosquitto-1.3.4/src/database.c:747-867 | The packets of a write pass come from entries in list order, at most one of each, with the entry's own fields and in its phase; if the link takes them all, every entry with something to send has sent it |
| SenderPhases.PassSettles | contrib/deb/mosquitto/mosquitto-1.3.4/src/database.c:747-867 | After a complete pass no entry has anything left to send |
| SenderPhases.PhaseKnown | contrib/deb/mosquitto/mosquitto-1.3.4/src/database.c:571-590 | Over every run, an outbound QoS 2 entry is in the second phase of its hand-over exactly if it has had its PUBREC and no reconnect since has found it in the state resend_pubrel |
| SenderPhases.NoPublishAfterPubrec | contrib/deb/mosquitto/mosquitto-1.3.4/src/database.c:747-867 | After its PUBREC an entry is never published again, through timeouts, write errors and reconnects, as long as no reconnect finds it in that state (section 4.3.3) |
| SenderPhases.PacketOfPhase | contrib/deb/mosquitto/mosquitto-1.3.4/src/database.c:747-867 | In every reachable state what such an entry sends before its PUBREC is its PUBLISH, and afterwards its PUBREL |
| SenderPhases.ReconnectResumes | contrib/deb/mosquitto/mosquitto-1.3.4/src/database.c:571-590 | The next complete write pass after a reconnect sends PUBREL, and no PUBLISH, for an entry that waited for PUBCOMP, and PUBLISH in every other phase, resend_pubrel included: so the condition of NoPublishAfterPubrec is exact |
| SenderPhases.PublishedAgain | contrib/deb/mosquitto/mosquitto-1.3.4/src/database.c:581-585 | A run in which the broker publishes after the PUBREC: the client is away for longer than the retry interval |
| SenderPhases.OverdueResent | contrib/deb/mosquitto/mosquitto-1.3.4/src/database.c:633-678 | After a timeout check the next complete write pass sends the packet of every entry unanswered for longer than the interval, in its own phase and with DUP, and none of a younger one |
| SenderPhases.WindowAnswers | contrib/deb/mosquitto/mosquitto-1.3.4/src/database.c:693-717 | When a message is let go, exactly the inbound messages queued inside the window get their PUBREC, in list order |
| SenderPhases.InboundEchoed | contrib/deb/mosquitto/mosquitto-1.3.4/src/database.c:605-627 | After a reconnect an inbound message that was queued inside the window is published to the client that sent it, and no other one is |
| Topics.TopicMatchesSub | contrib/deb/mosquitto/mosquitto-1.3.4/lib/util_mosq.c:207-282 | The single-pass matcher decides level-by-level matching on valid filters and wildcard-free topics, except where it is blind |
| Topics.MatcherMeaning | contrib/deb/mosquitto/mosquitto-1.3.4/lib/util_mosq.c:207-282 | The same for its recursive form, exactly: true if and only if the levels match and the pair is not in the blind spot |
| Topics.BlindSpotExamples | contrib/deb/mosquitto/mosquitto-1.3.4/lib/util_mosq.c:207-282 | "+/#" against "a" and "a/#" against "a/" match and are refused |
| Topics.TopicWildcardLenCheck | contrib/deb/mosquitto/mosquitto-1.3.4/lib/util_mosq.c:163-176 | Accepts exactly the wildcard-free topics of at most 65535 characters |
| Topics.TopicWildcardPosCheck | contrib/deb/mosquitto/mosquitto-1.3.4/lib/util_mosq.c:183-204 | Accepts exactly the valid filters of at most 65535 characters |
| Topics.ValidFilterByLevels | contrib/deb/mosquitto/mosquitto-1.3.4/lib/util_mosq.c:183-204 | The character check is the level-by-level reading of section 4.7.1 |
| Topics.MatcherBehindPrefix | contrib/deb/mosquitto/mosquitto-1.3.4/lib/util_mosq.c:207-282 | Behind a shared literal prefix the matcher's answer does not depend on the prefix |
| Bridge.RemapOut | contrib/deb/mosquitto/mosquitto-1.3.4/lib/send_mosq.c:125-171 | The first outgoing rule that matches swaps the local prefix for the remote one |
| Bridge.RemapIn | contrib/deb/mosquitto/mosquitto-1.3.4/src/read_handle.c:128-171 | The first incoming rule that matches swaps the remote prefix for the local one |
| Bridge.FirstRuleDecides | contrib/deb/mosquitto/mosquitto-1.3.4/src/read_handle.c:128-171 | For filters and topics by levels: the first of the rules that have this direction, a prefix and a matching filter takes the prefix of one side off and puts that of the other in front; without one the topic stays as it is |
| Bridge.OneWayRules | contrib/deb/mosquitto/mosquitto-1.3.4/lib/send_mosq.c:125-171 | Rules for one direction change nothing that goes the other way |
| Bridge.RemapRoundTrip | contrib/deb/mosquitto/mosquitto-1.3.4/src/read_handle.c:128-171 | With one "both" rule a topic sent out comes back as itself exactly under the stated condition on the prefixes and '$', which always holds with a remote prefix |
| Bridge.RemapLosesDollar | contrib/deb/mosquitto/mosquitto-1.3.4/src/read_handle.c:128-171 | Without a remote prefix "l/$x" goes out as "$x" and does not come back |
| Framing.LengthFits | contrib/deb/mosquitto/mosquitto-1.3.4/lib/util_mosq.c:50-83 | The remaining length takes at most k digits exactly for lengths below 128 to the power of k, so four digits hold exactly those below 268435456 (section 2.2.3) |
| Framing.LengthExamples | contrib/deb/mosquitto/mosquitto-1.3.4/lib/util_mosq.c:50-83 | The ends of the ranges of section 2.2.3 have the bytes that are tabulated there |
| Framing.Packet.Alloc | contrib/deb/mosquitto/mosquitto-1.3.4/lib/util_mosq.c:50-83 | A packet is allocated exactly for lengths below 268435456, with its command byte and length digits in front |
| Framing.Packet.WriteString | contrib/deb/mosquitto/mosquitto-1.3.4/lib/net_mosq.c:568-573 | Writing a string lays down its two length bytes and as many of its bytes as they say, behind what is there |
| Framing.ReadBackExactly | contrib/deb/mosquitto/mosquitto-1.3.4/lib/net_mosq.c:823-970 | For any list of packets the reader's automaton hands over exactly those packets if and only if each has a non-zero command byte and a length that fits |
| Framing.PrefixRead | contrib/deb/mosquitto/mosquitto-1.3.4/lib/net_mosq.c:823-970 | At any cut of the byte stream the packets handed over are a prefix of those sent, and nothing else is |
| Framing.Reader.PacketRead | contrib/deb/mosquitto/mosquitto-1.3.4/lib/net_mosq.c:823-970 | However bytes arrive, with would-block anywhere, one call leaves the reader where the automaton is after the bytes taken |
| Framing.ReadAll | contrib/deb/mosquitto/mosquitto-1.3.4/lib/net_mosq.c:823-970 | Reading until the stream ends hands over exactly the packets sent, in order, however the stream is cut into reads |
| OutQueue.OutPackets.PacketQueue | contrib/deb/mosquitto/mosquitto-1.3.4/lib/net_mosq.c:150-191 | Queueing keeps the conservation law: bytes accepted are bytes written plus the rest of the current packet plus the queue; out_packet_last is the last node whenever the queue is not empty |
| OutQueue.OutPackets.PacketWrite | contrib/deb/mosquitto/mosquitto-1.3.4/lib/net_mosq.c:694-818 | The same under partial and blocked writes: what was written is the next part of what was queued |
| Codec.SendRealPublish | contrib/deb/mosquitto/mosquitto-1.3.4/lib/send_mosq.c:255-289 | The writer fills the packet it allocated exactly if and only if the topic is shorter than 65536 bytes, and then it holds the encoded packet |
| Codec.HandlePublish | contrib/deb/mosquitto/mosquitto-1.3.4/lib/read_handle.c:77-126 | The decoder reads the fields of the packet in place and refuses what is too short, has QoS 3 or no topic |
| Codec.PublishRoundTrip | contrib/deb/mosquitto/mosquitto-1.3.4/lib/read_handle.c:77-126 | Encoding then decoding PUBLISH returns dup, QoS, retain, topic, id and payload |
| Codec.PublishExample | contrib/deb/mosquitto/mosquitto-1.3.4/lib/send_mosq.c:255-289 | The PUBLISH of the example in section 3.3.2, byte for byte |
| Codec.SendConnect | contrib/deb/mosquitto/mosquitto-1.3.4/lib/send_client_mosq.c:45-126 | The writer fills the packet exactly if and only if every text is shorter than 65536 bytes |
| Codec.HandleConnect | contrib/deb/mosquitto/mosquitto-1.3.4/src/read_handle_server.c:82-304 | The decoder follows the flags field by field and refuses what the code refuses, which the rows on CONNECT below say on the bytes |
| Codec.ConnectRoundTrip | contrib/deb/mosquitto/mosquitto-1.3.4/src/read_handle_server.c:82-304 | Encoding then decoding CONNECT returns client id, keepalive, clean flag, will, user name and password |
| Codec.ConnectRoundTrip311 | contrib/deb/mosquitto/mosquitto-1.3.4/src/read_handle_server.c:82-304 | A CONNECT of version 3.1.1 with any fields is read back; an empty client id is replaced by the broker's if the session is clean and the broker gives out ids, and refused otherwise |
| Codec.ConnectExample | contrib/deb/mosquitto/mosquitto-1.3.4/src/read_handle_server.c:82-304 | The variable header of the example in section 3.1.2, byte for byte |
| Codec.ProtocolRefused | contrib/deb/mosquitto/mosquitto-1.3.4/src/read_handle_server.c:82-118 | A CONNECT is refused with code 1 if and only if its bytes start with a known name and a level that is not that name's |
| Codec.IdentifierRefused | contrib/deb/mosquitto/mosquitto-1.3.4/src/read_handle_server.c:150-190 | It is refused with code 2 if and only if its bytes are laid out up to an empty client id behind the right name, level and reserved bits, and it is of version 3.1, or asks for a lasting session, or the broker gives out no ids |
| Codec.BadBitsDropped | contrib/deb/mosquitto/mosquitto-1.3.4/src/read_handle_server.c:118-304 | A 3.1.1 CONNECT with reserved bits, will bits without a will, or a password without a user name is dropped without an answer |
| Codec.LongNameLost | contrib/deb/mosquitto/mosquitto-1.3.4/lib/send_client_mosq.c:45-126 | A CONNECT with a user name of 65536 bytes is framed, leaves 65536 bytes of its packet unfilled, and is read with an empty user name |
| SavedPaths.FilterComesBack | contrib/deb/mosquitto/mosquitto-1.3.4/src/persist.c:285-292 | A filter comes back from a backup as it was exactly when its first level is neither empty nor starts with '$' (or it is "/") |
| SavedPaths.MangledFilters | contrib/deb/mosquitto/mosquitto-1.3.4/src/persist.c:285-292 | "$a" comes back one level longer and "//a" loses a level |
| PersistFile.AnnouncedRight | contrib/deb/mosquitto/mosquitto-1.3.4/src/persist.c:100-354 | Every chunk's length field is the size of its body |
| PersistFile.ChunkBack | contrib/deb/mosquitto/mosquitto-1.3.4/src/persist.c:483-739 | Every chunk that is written is read back as it was, whatever follows it |
| PersistFile.ConcatTaken | contrib/deb/mosquitto/mosquitto-1.3.4/src/persist.c:779-822 | A file of chunks is taken apart into exactly those chunks |
| Persist.OthersIgnored | contrib/deb/mosquitto/mosquitto-1.3.4/src/persist.c:817-820 | Chunks of unknown types between known ones change nothing |
| Recovery.BackupRestored | contrib/deb/mosquitto/mosquitto-1.3.4/src/persist.c:356-430 | Restoring a backup, filters of any kind: messages, durable clients and queues come back, and the tree is the one that the saved contributions build in order |
| Recovery.EverythingComesBack | contrib/deb/mosquitto/mosquitto-1.3.4/src/persist.c:741-837 | With filters that can be spelled and retained messages at the nodes of their own topics: every stored message, durable client with last mid, queue in order, subscription, and retained message outside the "$" trees comes back, and nothing else |
| Recovery.RetainedExact | contrib/deb/mosquitto/mosquitto-1.3.4/src/persist.c:674-697 | What a node outside the "$" trees retains after a restore is the message of the last retained-message chunk whose own topic is the node's, wherever that message was retained before |
| Recovery.RetainedSameIff | contrib/deb/mosquitto/mosquitto-1.3.4/src/persist.c:674-697 | If the retained messages outside the "$" trees come back as they were, each was published to its node's own topic with RETAIN; the converse holds if what is saved of the "$" trees is of this kind too |
| Recovery.SubscriptionsSameIff | contrib/deb/mosquitto/mosquitto-1.3.4/src/persist.c:343-354 | The restored tree holds the durable clients' subscriptions and no others if and only if all their filters can be spelled |
| Persistence.MessageStoreWrite | contrib/deb/mosquitto/mosquitto-1.3.4/src/persist.c:159-236 | The loop over the store writes exactly the store chunks |
| Persistence.ClientWrite | contrib/deb/mosquitto/mosquitto-1.3.4/src/persist.c:238-273 | The loops over clients and their queues write exactly the client and message chunks, of durable clients only |
| Persistence.SubsRetainWriteNode | contrib/deb/mosquitto/mosquitto-1.3.4/src/persist.c:275-341 | The walk below a node writes exactly its subscription and retained chunks, in the order of the walk |
| Persistence.BackupWrite | contrib/deb/mosquitto/mosquitto-1.3.4/src/persist.c:356-430 | The file is the header and the chunks of the backup |
| Persistence.Store.MsgStoreChunkRestore | contrib/deb/mosquitto/mosquitto-1.3.4/src/persist.c:591-672 | Reading a store chunk field by field adds its message, or fails where the bytes end or the topic is empty |
| Persistence.Store.ClientMsgChunkRestore | contrib/deb/mosquitto/mosquitto-1.3.4/src/persist.c:543-589 | Reading a message chunk appends it to its client's queue, or fails for an unknown stored message |
| Persistence.Store.ClientChunkRestore | contrib/deb/mosquitto/mosquitto-1.3.4/src/persist.c:483-541 | Reading a client chunk finds or adds the client; version 2 files take the time of reading |
| Persistence.Store.DbRestore | contrib/deb/mosquitto/mosquitto-1.3.4/src/persist.c:741-837 | The loop over the chunks ends in the state that restoring them one by one gives, and succeeds exactly if it gets to the end |
| Persistence.FileComesBack | contrib/deb/mosquitto/mosquitto-1.3.4/src/persist.c:741-837 | The bytes of a backup, read into a fresh broker, give what restoring the backup gives |
| SavedBroker.ReachablePersistable | contrib/deb/mosquitto/mosquitto-1.3.4/src/persist.c:356-430 | A well-formed database whose texts came from packets is one that a backup can hold: ids, texts and counts fit, every queue entry and retained message is in the store, every subscription can be written |
| SavedBroker.FaithfulRetains | contrib/deb/mosquitto/mosquitto-1.3.4/src/persist.c:317-329 | In a database whose retained messages were filed by publications of their own, every node holds a message of its own topic, as EverythingComesBack asks |
| SavedBroker.HandlesPublish | contrib/deb/mosquitto/mosquitto-1.3.4/src/read_handle.c:88-295 | Every publication but a refused QoS 2 one leaves a database that can be saved, and every one but a retained QoS 1 publication with the id of a waiting QoS 2 one leaves each retained message at its own topic |
| SavedBroker.StrayRetained | contrib/deb/mosquitto/mosquitto-1.3.4/src/read_handle.c:231-257 | Two publications after which a node retains a message of another topic |
| SavedBroker.HandlesPubrel | contrib/deb/mosquitto/mosquitto-1.3.4/lib/read_handle_shared.c:147-195 | A PUBREL leaves a database that can be saved, with each retained message at its own topic if it was so |
| SavedBroker.Subscribes | contrib/deb/mosquitto/mosquitto-1.3.4/src/subs.c:375-427 | A subscription with a filter that fits its chunk leaves a database that can be saved |
| SavedBroker.FilterLegal | contrib/deb/mosquitto/mosquitto-1.3.4/src/persist.c:285-313 | A filter that fits its packet fits its chunk, except in a "$" tree exactly when the filter and its first level together, with a separator, reach 65536 bytes |
| SavedBroker.Disconnects | contrib/deb/mosquitto/mosquitto-1.3.4/src/context.c:196-215 | A will leaves a database that can be saved, with each retained message at its own topic if it was so |
| SavedBroker.StoreCleans | contrib/deb/mosquitto/mosquitto-1.3.4/src/database.c:869-903 | Cleaning the store keeps every message that a backup needs |
| DirOrder.Str2Hashbuf | fw-toolchain-legacy/ext4_dir_order.c:70-93 | Each 32-byte block fills exactly eight words, as the padded block says |
| DirOrder.Dirhash | fw-toolchain-legacy/ext4_dir_order.c:100-120 | The hash is the one over all blocks; its major part is even and at most 0xfffffffc |
| DirOrder.CmpConsistent | fw-toolchain-legacy/ext4_dir_order.c:186-197 | The comparison is a consistent order: antisymmetric in sign, transitive, and zero exactly for equal keys |
| DirOrder.Sort | fw-toolchain-legacy/ext4_dir_order.c:199-245 | Sorting a listing permutes its entries and puts them in order |
| DirOrder.Shim.Readdir | fw-toolchain-legacy/ext4_dir_order.c:262-268 | One call hands out the next entry of the handle's listing, which is sorted by dot, major and minor hash in ascending order, making the listing on first use, as a step of the calls; it says the end only when everything has been handed out |
| DirOrder.Shim.Closedir | fw-toolchain-legacy/ext4_dir_order.c:278-295 | Closing drops the handle's listing and no other, as a step of the calls |
| DirOrder.HandedOutInOrder | fw-toolchain-legacy/ext4_dir_order.c:199-295 | For every sequence of opendir, readdir and closedir calls over any handles: the names that an open handle has been given since it was opened are a prefix of one permutation of its real entries, in which marked names come first, then lower major hashes, then lower minor hashes, and all of them when readdir says the end; in an indexed directory "." is handed out first and ".." behind it |

## Left out

- Broker.Database.MessagesEasyQueue: does not cover wills that are to be retained under a topic with wildcards, which CONNECT admits because it checks the will topic as a filter.
- Broker.Database.Disconnect: the same as MessagesEasyQueue.
- Broker.Database.HandlePublish: starts behind the reading of topic, id and payload, which Codec models for the library, and does not add the mount point.
- Broker.Database.Reconnect: does not model the removal of queued messages that a changed access rule no longer allows; the access check always allows.
- HandoverBroker.ReceivesPublish: is for publications that the access check allows and that are not too large; a refused one is acknowledged in the same way and routed nowhere.
- SavedBroker.HandlesPublish: leaves out refused QoS 2 publications, whose message has no topic that the writer could take the length of.
- SavedBroker.ReachablePersistable: whether a session is clean and when its client disconnected are parameters, and database ids stay below 256 to the power of eight.
- Recovery.BackupRestored: does not model the counters of restored messages, which the code leaves at zero until the client reconnects.
- Subscriptions.TreeIsFlatTable: a retained publish below a top-level node that does not exist is not stored, as in the code; the flat table follows that with its set of top-level names.
- Handover.ExactlyOnce: has no limit on messages in flight on either side and a persistent session; with a limit the client's reset holds messages back.
- SenderPhases.PhaseKnown: is for lists that change by the operations of `QueueRuns`, whose only update of an entry is the one for a PUBREC, as in the code.
- ClientRuns.WindowOverRuns: covers reconnects while fewer messages than the limit are unfinished; ResetCounts says what happens otherwise.
- QueueRuns.DeliveryInOrder: is about lists of outbound QoS 1 and 2 messages; a QoS 0 entry in the list can stop promotion.
- DirOrder.Shim.Readdir: does not model mixing `readdir` and `readdir64` on one handle, or which of two equal entries comes first.
- Persistence.SubsRetainWriteNode: walks the tree as a value; that the linked tree follows the same values is proved in SubHierarchy.
- List entries are values that carry the name of their node; last_msg is that name. Aliasing between lists is not captured.
- Clocks and what a link accepts are parameters; sockets, poll loops, TLS, name lookup, threads and mutexes are not modelled, and handlers are atomic steps.
- The payload, source and topic of a publication in the hand-over are one tag.
- Delivery to recipients happens after the walk over the tree, not during it; the order of deliveries is that of the walk.
- Mount points, and bridges in the fan-out, which skip their own messages.
- The client library's receiving QoS 2 queue, which queues repeats.
- Allocation failure, null arguments, and message queue limits in bytes.
- Options, logging, `$SYS` statistics, password and access files, and command-line programs.
- The id prefix list, automatic client ids beyond their place in CONNECT, and the bridge bit of the protocol version.
- In the framing model the first packet need not be a CONNECT, and the keep-alive timer is not modelled.
- Errors while writing the backup file and its renaming; state bytes that no version writes are restored as the invalid state.
- `mosquitto_sub_topic_tokenise` of the client library, and lazy bridge connections.

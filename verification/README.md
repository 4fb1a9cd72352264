# Jane's reply service, verified

Jane answers customers' WhatsApp messages from a brand's own facts and hands over to a human
when no fact fits. Several worker slots run the inbound task, web replicas run the agents'
replies, and a nightly job removes stale phone numbers, all against the same MongoDB documents
and without transactions. This project models that service and proves what its unique-index
claims, single-document updates and fixed order of side effects do and do not guarantee.

There are three layers, and they are proved to agree.

* **Interleaved** (`Records`, `Processes`, `Service`). A shared world (claims, conversations,
  message rows, and the log of every operation that took effect) and any number of processes,
  one program counter per awaited call. Every awaited call can return, raise without effect, or
  take effect and raise; a worker can be lost at any point, with or without redelivery; claims
  expire after a day; one clock moves. The theorems about runs (`ClaimProtocol`, `Ledger`,
  `Progress`, `Quiet`, `LateReplies`, `StateMachine`, `Resolves`, `Retention`, `Destination`,
  `Sharing`, `Deliveries`, `Completion`, `Contents`, `Fate`) hold for every run, any number of
  processes, any number of slots, any hash and any cipher. `Contents` says field by field what every
  entry of the log holds, who wrote it and what it made of the documents. `Tightness` and `Overtaking` (with `Volleys`) hold the
  runs that attain the bounds, `Gaps` those that show what the protocol does not give.
* **Sequential** (`Sequential`, `Timeline`). What each call does from its first line to its last
  when nothing else runs, for every way its awaits can go: a `Net` says of each of them whether it
  returns, raises without effect, or takes effect and raises. `Solo` proves that an uninterrupted
  process of the interleaved layer does exactly this, within fourteen awaits, and that each such
  call is part of a run. On this layer stand non-interference (`Isolation`, `NonInterference`),
  redelivery transparency (`Redelivery`), the retry laws of an agent's reply (`Replies`) and of an
  escalation's notification (`Notices`), and, written out in full, all that a call which goes well
  adds and leaves (`Traces`).
* **Imperative** (`Storage`, `ConversationService`, `AgentReplyService`, `MessageProcessor`,
  `RetentionJob`, with `CloudApi` for the two outside calls). A store class and the functions of
  the service as methods that change it step by step, each proved equal to its sequential
  function for every `Net`, including the `claimed` flag and the `except` branches.

Beside them: the deterministic matcher and the phrasing fallback (`Text`, `Matcher`,
`ReplyEngine`, and `FactReading`, which reads a fact back from its line), the two per-key caches (`Caches`, `CacheRuns`), the routing of business numbers
and the one-off migration (`Connections`, `Migration`), and phone normalisation (`Phone`).

## How to read the model

* A conversation's id is its position in the collection; documents are never deleted.
* Both idempotency collections are one map keyed by `Inbound(message id)` or `Reply(key)`.
* `oplog` holds exactly the operations that took effect, in order. Counting it is how the theorems
  speak of what happened. A `Send` entry is a delivery by Meta. A `Notify` entry is a call of
  `notify_escalation` that did its work: a mail, or only a console line when the brand has no inbox
  or no SMTP host is set (`app/services/escalation_notifier.py:22-31`).
* `Effective` is the unique index or the query of an update; `Perform` is a driver call that
  returns; `Fault` says how a call goes.
* A claim's time to live is the action `Expire`, enabled from 86400 seconds on. The clock cannot
  pass a live Celery task's 300 second limit, nor, as an assumption about the web replicas, a
  whole day while an agent's request is still open.
* The registry's and the reply engine's answers are inputs of each step (`Env`), so the theorems
  about runs hold whatever the caches return.
* The retention job is one atomic update per document, in any order, with the cutoff fixed when
  the job starts.

## Where the obvious slogan fails

* "Every message is answered or handed over": it is, unless a delivery was given up or an attempt
  left its claim behind (`Fate.AnsweredOrHandedOver`; `Completion.CompletedAttempts` says what a
  completed attempt did, `Fate.FateOfAMessage` counts both kinds of claim). A claim is left behind
  in exactly three ways (`Fate.WhenLeftBehind`), and then the retry returns as a duplicate. The
  insertion of the claim takes effect and raises, so that `claimed` is still false and nothing
  releases it: `Gaps.MessageIsLost` is such a run for every message. The release is refused. Or
  the worker is lost while it holds the claim, which the redelivery that `app/celery_app.py:33-34`
  asks for then meets: `Gaps.WorkerIsLost` is such a run for every message, nothing raising in it.
* "Jane is quiet on an escalated conversation": she may still deliver one message for every other
  worker slot. `Quiet.BoundedLag` is the bound and `Tightness.LagIsAttained` a run that reaches it,
  for every number of slots.
* "One escalation, one human answer": two agents with different keys can both deliver before
  either has resolved (`Gaps.TwoAgentsCanBothReply`), and a reply that has gone through and resolved
  the conversation stops only requests that have not yet passed their check
  (`Replies.LaterRepliesFail`). Those past it still deliver, for the state is not read again:
  `LateReplies.RepliesAfterResolve` bounds their number, and `Overtaking.LagIsAttained` is a run
  that reaches the bound, for every number of requests.
* "One key, one delivery": the comment at `app/services/agent_reply_service.py:126-127` calls the
  release safe because nothing was confirmed as sent. A raising send may have been delivered all
  the same, and the `try` block also covers the update that marks the claim, so that a send that
  returned can be released too. `Replies.RetryWithTheSameKey` says exactly when a retry delivers
  twice, and `Gaps.SameKeyDeliversTwice` is a run in which every send returns.
* "A delivered reply is logged and resolves": not when the log or the resolve raises, and as the
  key then answers `already_sent` no retry makes up for it (`Replies.DeliveredButUnfinished`).
* "A resolve ends the escalation its caller saw": it does unless a newer escalation came between
  (`Resolves.ResolveEndsWhatItRead`); it writes without reading again and then undoes the newer
  one (`Gaps.StaleResolveUndoes`), for which one worker slot is enough (`Gaps.StaleResolveHappens`).
* "Every escalation is notified": only if the attempt that escalates also gets as far as the
  notification; the retry finds the conversation escalated and stays quiet
  (`Notices.NotificationIsLost`, and for whole runs `Ledger.NotificationsAreAccounted`).
* "An escalated conversation can be answered": not when its number was purged before
  (`Notices.PurgedNumberIsADeadEnd`).
* "The purge spares live escalations": it does with a retention of a day or more
  (`Retention.PurgeCannotStrand`), not with none (`Tightness.NoRetentionStrands`).
* "A retry leaves no trace": the customer's message is logged once for every attempt that gets as
  far (`Redelivery.RetryLogsTheMessageAgain`).
* Jane addresses the raw number, an agent the normalised one. They agree exactly when the raw
  number has no outer white space (`Phone.AddressedIsNormal`).

## Model

| member | source | states |
|---|---|---|
| ClaimProtocol.ClaimOwnership | app/tasks/message_processor.py:87-95 | In every reachable state, for every message id and idempotency key: insertions that took effect, less releases and expiries, are 0 or 1 and equal the claim's presence; at most one live process holds it; only the holder's release can remove it |
| ClaimProtocol.SendsPerClaim | app/services/agent_reply_service.py:101-129 | Deliveries under one id or key never exceed 1 + the releases made after a delivery + the expiries, one less when the claim is gone; a claim marked sent implies a delivery |
| ClaimProtocol.ClaimsAreAccounted | app/tasks/message_processor.py:87-95 | In every reachable state, for every id and key: presence of the claim plus its expiries = live owners + owners that completed + owners that ended otherwise or died and left it behind |
| Ledger.SendsAreConserved | app/tasks/message_processor.py:119-140 | For every conversation, kind of message and body (or all bodies together): deliveries = logged rows of that kind with that very body + processes alive between delivery and log + processes that ended or died there; customer and echo rows never stand for a send |
| Ledger.EscalationIsNeverSilent | app/tasks/message_processor.py:130-143 | Notifications <= escalation writes <= logged holding replies <= delivered holding replies in every reachable state, each of those replies saying the holding text; an escalated conversation has had its holding reply delivered and logged |
| Ledger.NotificationsAreAccounted | app/tasks/message_processor.py:142-143 | In every reachable state and for every conversation: escalation writes = notifications + attempts alive between the two + attempts that ended or died there |
| Quiet.BoundedLag | app/tasks/message_processor.py:97-143 | While a conversation stays escalated Jane delivers at most slots - 1 messages to it, in every run |
| Quiet.LateSendsAreOld | app/tasks/message_processor.py:112-131 | Each of those messages is sent by an attempt that already held an unescalated reading of the conversation when the stretch began |
| Tightness.LagIsAttained | app/tasks/message_processor.py:112-142 | For every number of slots, hash and cipher there is a run in which exactly slots - 1 messages are delivered to a conversation that stays escalated |
| StateMachine.ConversationsAreSound | app/services/conversation_service.py:38-57 | In every reachable state (phone_hash, brand_id) is unique and escalated_reason is set exactly on the escalated conversations |
| StateMachine.StateEdges | app/services/conversation_service.py:60-114 | In one step of the service a conversation leaves escalated only to jane_handling and only by a resolve's write, reaches closed only from jane_handling, and keeps its identity fields except that phone_encrypted may be removed |
| StateMachine.LeavingEscalated | app/services/conversation_service.py:73-101 | Whenever a run leaves escalated, the step is a resolve's write, and that same process had earlier in the run read the conversation as escalated |
| Retention.PurgeCannotStrand | scripts/purge_stale_phone_numbers.py:44-57 | With at least one day of retention, a phone number present while an attempt has touched the conversation stays, unchanged, until that attempt escalates and through the escalated stretch after it |
| Tightness.NoRetentionStrands | scripts/purge_stale_phone_numbers.py:44-57 | The retention premise is needed: with zero days, for every configuration with a slot, a run in which an attempt touches a conversation that has a number, the job removes it, and the attempt escalates without one |
| Retention.PurgedForever | app/services/conversation_service.py:38-57 | A phone number once removed is never restored in any continuation of the run |
| RetentionJob.Purge | scripts/purge_stale_phone_numbers.py:40-57 | The job returns the number of stale documents; a dry run changes nothing, a real run yields exactly the document-by-document purge |
| RetentionJob.PurgeMeaning | scripts/purge_stale_phone_numbers.py:44-57 | A whole run clears a number exactly when it is stale and not escalated, changes nothing else, and a second run with the same cutoff finds nothing |
| Deliveries.AttemptsAreBounded | app/tasks/message_processor.py:25-30 | A delivery makes at most 4 attempts plus one per lost worker, exactly that many when exhausted; 0, 1, 2 or 3 retries wait 0, 1, 3 or 7 seconds in all |
| Completion.CompletedAttempts | app/tasks/message_processor.py:97-143 | In every run, a completed attempt has logged what the customer said; if it had found the conversation escalated it sent, logged, escalated and notified nothing; otherwise it sent to the sender, from the number written to and with that connection's token, the engine's answer or, without one, the holding text, logged the same text and, exactly when it had no answer, escalated with the fixed reason and notified the inbox with the question; the document it decided on was the conversation in an earlier state, its context the registry's answer, its answer the engine's |
| Contents.EveryStep | app/tasks/message_processor.py:79-143 | Every step of every run leaves the documents as they are or adds one entry to the log: a claim at least 86400 seconds old expires, or a process writes, at the await it has come to, what the source writes there, field by field (claim, conversation, touch, rows, sends, mark, escalation, notification, resolve with its provenance, close, purge), and the documents change by exactly that |
| Contents.EveryAwait | app/tasks/message_processor.py:79-143 | Every await of every run: at a write the process writes just that, and whenever the call takes effect and its query or unique index matches the documents change by exactly that; at any other await they stay; the next request carries the time of this one |
| Contents.EveryRead | app/tasks/message_processor.py:79-117 | Every read of every run asks for what the source asks there: the registry for the number written to or the document's own, the facts of the brand with the customer's text, the claim of the request's key, the conversation of the sender's hash and the brand, or the one at hand |
| Contents.EveryEntry | app/tasks/message_processor.py:79-143 | Every entry of the log in any state of a run was added by one such step |
| Contents.RowsAreEntries | app/tasks/message_processor.py:102-140 | The message rows are exactly the row insertions of the log, in order |
| Contents.JaneSendsTheAnswer | app/tasks/message_processor.py:117-131 | In every run each message Jane has sent goes to the sender of the message it replies to, from the number written to, with the token the registry answered, and says what the engine answered or, if it answered nothing, the holding text; the conversation had been read as not escalated |
| Contents.AgentSendsTheReply | app/services/agent_reply_service.py:59-120 | In every run each message an agent has sent says the body of a request with that key on that conversation; it goes to the number decrypted from the document that request read, escalated, from its phone_number_id, with the token of the connection the registry answered or none |
| Fate.FateOfAMessage | app/tasks/message_processor.py:25-30 | In every run, whatever fails in it: once all deliveries of an id are over, each completed, returned as a duplicate, or was given up (attempts exhausted, worker lost for good, number unknown); presence of the claim plus its expiries = deliveries that completed + attempts that left their claim behind; and with neither claim nor expiry some delivery was given up |
| Fate.AnsweredOrHandedOver | app/tasks/message_processor.py:144-150 | In every run, once all deliveries of a message are over: some attempt completed, having done all that Completion.CompletedAttempts says, or an attempt left its claim behind, or a delivery was given up |
| Fate.WhenLeftBehind | app/tasks/message_processor.py:87-93 | In any run whatsoever, an attempt is over, not completed, with its claim unreleased, if and only if an earlier step was its insertion of the claim taking effect and raising, the refusal of its release, or the loss of its worker while it held the claim |
| Gaps.MessageIsLost | app/tasks/message_processor.py:87-95 | For every configuration with a slot and every message there is a run, with no worker lost, after which the claim is kept, the delivery settled as a duplicate, and nothing logged, answered or escalated |
| Gaps.WorkerIsLost | app/celery_app.py:33-34 | For every configuration with a slot and every message there is a run in which nothing raises, one worker is lost and its payload redelivered, after which the claim is kept, the delivery settled as a duplicate, and nothing logged, answered or escalated |
| Destination.OneDestination | app/services/agent_reply_service.py:59-70 | With one business number per brand and raw numbers free of outer white space, all sends on a conversation, by Jane or agents, come from the same business number and go to the same customer number, whose hash is phone_hash |
| Sharing.SharedExactlyWhenNormalEqual | app/services/conversation_service.py:38-57 | With an injective hash, in every reachable state: any two tasks that have reached a conversation act on the same one if and only if their brands are equal and their raw numbers normalise equally |
| Phone.AddressedIsNormal | app/services/cloud_api_client.py:58 | The address of Jane's own send equals the normal form used for hash and storage if and only if the raw number has no outer white space |
| Phone.NormalizeIs | app/services/crypto_utils.py:34-38 | The normal form is the stretch of the raw number that remains when exactly the white space at both ends and then exactly the leading plus signs are taken away |
| Phone.AddressedIs | app/services/cloud_api_client.py:58 | An address is the number without exactly its leading plus signs |
| Progress.AwaitsAreBounded | app/tasks/message_processor.py:67-152 | In every run, whatever is interleaved and however the awaits go, a process other than the retention job makes at most 14 awaits, is over when it has made 14, and while alive and not over can always make the next |
| Solo.AloneIsSequential | app/tasks/message_processor.py:67-152 | An uninterrupted process of any role but the retention job ends within fourteen awaits with the world and outcome of its sequential call, for every way its awaits go |
| Solo.RunsToItsEnd | app/services/agent_reply_service.py:73-145 | The same from any point inside any call: the rest of the process is the rest of the sequential call |
| Solo.AloneIsARun | app/tasks/message_processor.py:79-150 | From every reachable state, a process advanced alone through its awaits reaches a reachable state with exactly that effect, no other process moving |
| MessageProcessor.ProcessMessage | app/tasks/message_processor.py:67-152 | The step-by-step port, with the claimed flag and the except branch, leaves the store and returns the outcome that the sequential function gives, for every way each of its awaits can go |
| Traces.MessageTrace | app/tasks/message_processor.py:87-143 | The whole world after a new message when nothing raises: claim, conversation found or begun with every field given, touch, customer row and, unless it was escalated, the send of the answer or the holding text, its row and, without an answer, escalation and notification; nothing else |
| MessageProcessor.ProcessEcho | app/tasks/message_processor.py:155-188 | The port of the echo path equals its sequential function, for every way its awaits can go |
| Traces.EchoTrace | app/services/agent_reply_service.py:180-198 | The whole world after an echo when nothing raises: conversation found or begun, touch, one agent row by nobody, and, if it was escalated, a resolve via whatsapp_echo that keeps resolved_by; nothing else |
| AgentReplyService.SendAgentReply | app/services/agent_reply_service.py:73-145 | The port of an agent's reply equals its sequential function for every way its awaits can go, the marking of the claim and the release among them; on success or already_sent it returns the conversation as stored, otherwise none |
| AgentReplyService.ResolveOnlyBy | app/services/agent_reply_service.py:148-161 | The port of the out-of-band resolve equals its sequential function for every way its awaits can go, reports whether the conversation had been escalated, and returns the conversation as stored, resolved via manual by that agent |
| Traces.ByHandTrace | app/services/agent_reply_service.py:148-161 | When it returns, an escalated conversation is in jane_handling, without reason, resolved via manual by that agent, otherwise unchanged; any other stays as it is |
| AgentReplyService.LogAgentEcho | app/services/agent_reply_service.py:164-198 | The port of the echo log equals its sequential function for every way its awaits can go, sends nothing, and returns the stored conversation, resolved via whatsapp_echo, exactly when it had been escalated |
| ConversationService.GetOrCreateConversation | app/services/conversation_service.py:25-57 | Returns the first document of the hash and brand, or inserts exactly one new one, or raises; position, document and store equal the sequential function for every way its awaits can go |
| ConversationService.ResolveConversation | app/services/conversation_service.py:73-101 | Changes the conversation only when it is escalated: state jane_handling, no reason, resolved_via and, if given, resolved_by set, every other field kept, and returns that document; otherwise returns nothing and changes nothing; for every way its two awaits can go |
| ConversationService.EscalateConversation | app/services/conversation_service.py:60-70 | Sets state, reason and time of the conversation and nothing else |
| ConversationService.Close | app/services/conversation_service.py:108-114 | Closes a conversation that Jane is handling and leaves any other alone |
| Storage.Store.FindByKey | app/services/conversation_service.py:39-41 | The scan returns the first document with the hash and the brand, or nothing when none has them; it raises exactly when the call does |
| Storage.Store.InsertClaim | app/services/db_indexes.py:18-29 | Inserts an unsent claim, or reports a duplicate and changes nothing, or raises with or without having inserted it |
| NonInterference.NobodyInterferes | app/services/conversation_service.py:28-41 | For every sequence of customer messages, echoes, agent replies, resolves, closes and purges in which ids and keys are not shared between conversations, each with its own failures at any await: claims, document, rows, sends and every other operation of one conversation are those of its own events run alone |
| NonInterference.ProjectionIsSolitude | app/tasks/message_processor.py:97-143 | The same from any tidy starting world |
| Isolation.OpProjects | app/services/conversation_service.py:38-57 | Each single-document operation commutes with looking at one conversation: it acts on the view if it concerns that conversation and leaves the view alone otherwise |
| Redelivery.RedeliveryIsTransparent | app/tasks/message_processor.py:88-95 | With fixed registry and facts, any history of messages, echoes, replies, resolves, closes and purges, each with its own failures, gives the same world as the history without the later copies of accepted message ids (known number, nothing raising) |
| Redelivery.FirstCopiesOnce | app/tasks/message_processor.py:88-95 | The reduced history holds no accepted id twice |
| Redelivery.RetryLogsTheMessageAgain | app/tasks/message_processor.py:102-110 | For an attempt and its retry, however both go: the customer message is logged twice exactly when each gets as far as logging it, and so whenever the first logged it and left no claim and nothing fails in the retry |
| Replies.ReplyOutcome | app/services/agent_reply_service.py:84-145 | A reply goes through if and only if its key is unclaimed, its conversation escalated with a phone number, and each of its awaits returns |
| Replies.ReplyGoesThrough | app/services/agent_reply_service.py:101-145 | A reply that goes through is delivered once, marked sent, logged once with its channel, agent and body, and leaves its conversation in jane_handling, without reason, resolved via that channel by that agent, otherwise unchanged |
| Traces.ReplyTrace | app/services/agent_reply_service.py:59-145 | The whole world after a reply that goes through, however it came about: the five entries it adds, in order (claim; one send of the typed body to the decrypted number from the document's own number with the connection's token or none; mark; row; resolve), and every field of the documents |
| Replies.ReplyWithoutATrace | app/services/agent_reply_service.py:101-129 | However its awaits go, a reply leaves documents, rows and claims as they were if and only if it leaves no claim; the three ways to leave one are a raising insertion that took effect, a completed try block and a refused release |
| Replies.DeliveredButUnfinished | app/services/agent_reply_service.py:131-145 | When the log or the resolve raises after the claim was marked sent, the message is delivered once, and a retry under the key, however it goes, changes nothing and never completes |
| Replies.LaterRepliesFail | app/services/agent_reply_service.py:95-99 | After a reply that went through, a reply to that conversation that only begins afterwards, under any key and however its awaits go, is not delivered, never goes through, and changes no document or row |
| LateReplies.RepliesAfterResolve | app/services/agent_reply_service.py:95-120 | In every run, over any stretch in which a conversation is not escalated, agents deliver at most as many messages on it as there were, when it began, live requests past their check of the state |
| LateReplies.LateRepliesAreOld | app/services/agent_reply_service.py:95-120 | Each of those messages is sent by a request that already held, when the stretch began, the reading of the conversation as escalated on which it sends |
| Overtaking.RepliesOvertaken | app/services/agent_reply_service.py:95-145 | From every reachable state in which a conversation awaits a reply, and for any list of unused keys: the reply of the first can go through with its row and its resolve, and afterwards all the others are delivered while every document stays as that resolve left it |
| Overtaking.LagIsAttained | app/services/agent_reply_service.py:95-120 | For every number n, hash and cipher, and at least one slot, there is a run with n such requests at the start of an unescalated stretch and n messages delivered in it |
| Replies.SameKeyIsANoOp | app/services/agent_reply_service.py:84-93 | Once the claim is marked sent, even if the call raised afterwards, any later request with the key, whatever its content and however its awaits go, changes nothing and answers already_sent unless its own reads raise |
| Replies.DeliveriesOfAReply | app/services/agent_reply_service.py:118-129 | However the awaits go, Meta delivers once when key, conversation and phone allow it, the awaits before the send return and the send is not refused, never otherwise |
| Replies.RetryWithTheSameKey | app/services/agent_reply_service.py:118-129 | However the awaits of an attempt that raised and of its retry go: if the claim was left, the retry changes nothing; if not, it fares as if it were the first; the customer has the message twice exactly when the first attempt was delivered, raised at the send or at the marking of the claim, was then released, and the retry is delivered |
| Gaps.SameKeyDeliversTwice | app/services/agent_reply_service.py:118-129 | From every reachable state in which a conversation awaits a reply and a key is unused, two deliveries under that one key are reachable with every send returning |
| Gaps.TwoAgentsCanBothReply | app/services/agent_reply_service.py:95-120 | From every reachable state in which a conversation awaits a reply, two unused keys can both have a message delivered to it with no new escalation |
| Gaps.StaleResolveUndoes | app/services/conversation_service.py:89-99 | From every reachable state with an escalated conversation and an attempt about to escalate it, a resolve can read the first escalation, be overtaken by another resolve and a newer escalation, and undo the newer one |
| Gaps.StaleResolveHappens | app/services/conversation_service.py:89-99 | One worker slot is enough for such a run to exist, from the empty database |
| Resolves.ResolveEndsWhatItRead | app/services/conversation_service.py:89-99 | In every run, a resolve about to write had earlier read the conversation as escalated; if no escalation of it took effect since that reading, the conversation is no longer escalated or still is by the very escalation read |
| Notices.DeliverTells | app/tasks/message_processor.py:130-143 | However its awaits go, the processing of a message notifies exactly when it gets to the escalation, that returns, and the notification is not refused; the conversation of its sender is then escalated |
| Notices.NotificationIsLost | app/tasks/message_processor.py:112-115 | For an attempt that escalates and any retry of it, however both go: the escalation stands, and it is notified exactly when the attempt itself got there; the retry never makes up for it |
| Notices.PurgedNumberIsADeadEnd | app/services/agent_reply_service.py:64 | A message that escalates a purged conversation, however its awaits go, leaves it escalated, and then no reply under any key, however its awaits go, is delivered or goes through |
| Matcher.MatchIsFirst | app/services/reply_engine.py:66-102 | The matcher answers with the fact of highest precedence whose condition the question meets, and with nothing exactly when none is met; the conditions are written out: significant words of an item's name, area names, and the keywords of hours, payment, negotiation and returns |
| Matcher.NamesAre | app/services/reply_engine.py:42-63 | An item is asked for exactly when its lower-cased name occurs in the question or it has significant words and all of them occur; a significant word is a maximal run without white space in the lower-cased name, of at least three characters, no digit among them, and none of the ten stopwords |
| Text.WordsAre | app/services/reply_engine.py:47 | A split has exactly the maximal non-empty runs without white space |
| Matcher.JoinAppend | app/services/reply_engine.py:90 | Payment methods are joined by a comma and a space |
| Matcher.MatchingIsMonotone | app/services/reply_engine.py:66-102 | A question containing a matching question matches too, at the same place of the order or an earlier one |
| Matcher.NamingFindsIt | app/services/reply_engine.py:74-77 | Asking exactly a non-empty item's lower-cased name returns that item if and only if no earlier non-empty item matches |
| Matcher.VerbatimClauseIsRedundant | app/services/reply_engine.py:50-63 | An item with significant words is asked for exactly when they all occur, one without exactly when its whole name does |
| Matcher.CatalogueOrderIsIrrelevant | app/services/reply_engine.py:74-77 | When at most one item matches, the answer is the same for every order of the catalogue |
| ReplyEngine.PhraseFact | app/services/reply_engine.py:105-147 | The text is the model's answer without outer white space, or the raw fact line when the model raises |
| FactReading.FactReadsBack | app/services/reply_engine.py:109-124 | Reading a raw fact line label by label gives the fact back, every detail under its own label, whenever the details do not contain the labels; an empty price, fee or timeline, and nothing else, reads not listed |
| ReplyEngine.FallbackStatesTheFact | app/services/reply_engine.py:109-124 | The raw fact line contains every detail of the matched fact |
| ReplyEngine.Handle | app/services/reply_engine.py:150-157 | Matched exactly when some fact's condition is met; with the model down the reply is the raw line of the first such fact and contains every detail of it |
| Caches.ClientRegistry.GetClient | app/services/client_registry.py:26-47 | An entry less than 60 seconds old is returned unchanged; otherwise the first record that is a whatsapp_business connection of the number and active, or its absence, is returned and cached for that number only |
| Connections.RouteIs | app/tasks/message_processor.py:33-64 | A number routes to the first such record's brand or, if that is unset or empty, its user, with its inbox and token; URI's own number without a record to the settings, if they name a brand; any other nowhere |
| Caches.BrandFactsReader.GetFacts | app/services/brand_facts_reader.py:24-59 | The same per brand, with the facts of the first profile that carries the id as brand or as user, empty without one; an unset brand raises and caches nothing |
| CacheRuns.BoundedStaleness | app/services/client_registry.py:30-47 | Over any run of store updates, clock advances and overlapping lookups, a returned value (or absence) is what the store held for that key at an instant less than 60 seconds before the call or during it |
| CacheRuns.LookUpIsARun | app/services/client_registry.py:26-47 | A lookup that nothing overlaps, as the two caches do it, is a run of that system and ends with the same value and the same cache |
| Migration.Database.Migrate | scripts/migrate_uri_own_connection.py:71-124 | The port of main: upsert and backfill as specified, whatever the live service inserts between the two counts, before the backfill or after it; it returns the number of documents that lacked a brand, raises after both writes exactly when something was inserted, and changes nothing when it raises before them |
| Migration.MigratedRecord | scripts/migrate_uri_own_connection.py:34-110 | Every field of the record the migration leaves, given the first profile that carries the configured id as brand or as user; an existing record keeps its token only, and every other record stays |
| Migration.RoutingAfter | scripts/migrate_uri_own_connection.py:93-110 | For every earlier collection: URI's number routes to the migrated record unless an active record precedes it, and every number the overwritten record did not serve routes as before |
| Migration.RoutingPreserved | scripts/migrate_uri_own_connection.py:34-48 | With no active record for URI's number before, the registry afterwards gives URI's number the routing of the fallback if and only if the record that is overwritten, if there is one, holds no access token |
| Migration.BackfillLookup | scripts/migrate_uri_own_connection.py:118-121 | A backfilled conversation is found by hash and brand if and only if no earlier document of the hash belongs to the brand after the backfill |
| Migration.BackfillPreservesLookup | app/services/conversation_service.py:38-41 | With unique hashes, the lookup by hash and brand afterwards finds for every backfilled conversation the document the hash alone found before |
| Migration.BackfillNeedsUniqueness | scripts/migrate_uri_own_connection.py:118-121 | Two old documents of one customer show that uniqueness is needed |
| Migration.SecondRunOnlyTimestamps | scripts/migrate_uri_own_connection.py:108-121 | A second run changes nothing but the record's two timestamps |

## Left out

- HTTP, FastAPI routing, Docker, SMTP and OpenAI: send, notify and phrasing are steps with every possible outcome, or inputs.
- Fernet, SHA-256 and webhook signatures: cipher and hash are arbitrary functions; inversion and injectivity are assumed only where a theorem names them. Message bodies are kept in the clear.
- Unicode: lower-casing is ASCII per character, because Python's context-dependent final sigma breaks monotonicity, and digits are ASCII digits; white space is Python's.
- `extract_inbound_message` and `extract_message_echo`: messages arrive extracted. The echo extractor is a stub that returns nothing today; echoes are modelled as events that may arrive.
- Effects that reach MongoDB or Meta only after their worker was lost: a crash falls between awaits.
- Waiting times of retries: the countdowns are summed but a retry may start at any later moment.
- One instant per sequential call: the sequential and imperative layers use a single clock reading where the code takes several; the interleaved layer takes a fresh reading at each await.
- A connection with neither brand nor user id makes the reply engine raise: that is one of the ways the read of the facts can go, but no theorem ties it to the unset brand.
- The index that makes (phone_hash, brand_id) unique, and the TTL index, are taken as given, as their creation in `app/services/db_indexes.py` intends.
- Storage.Store.UpdateConversation: one method stands for the driver's `update_one` on conversations; MongoDB's query and update language is not modelled.
- RetentionJob.Purge: the driver's `update_many` is written as a loop over the collection.
- Migration.Database.Migrate: of what the live service does meanwhile only inserted conversations are modelled.
- Deliveries.AttemptsAreBounded: a lost worker adds an attempt without a bound, because the broker redelivers without counting.
- Quiet.BoundedLag: slots are those of live attempts; an effect of a lost worker's send arriving late is not counted.
- The connection record's `display_phone_number` and `subscribed_apps` fields, `brand_name` in the facts cache, `format_operational_facts_for_prompt`, index creation, command-line arguments, printing, and the Graph API lookup that the migration's `main` does not use.

# UnifiedBox ingestion and reconciliation, in Dafny

This project models the core of UnifiedBox's API server. That core is the pipeline that turns reply events from the
two outreach platforms, Instantly and PlusVibe, into canonical Workspace, Lead, Conversation and Message rows. The
model also covers the conversation and reply routes that change those rows afterwards.

- **Store.** The store is one value, `Store.Tables`. It holds a map per table, keyed by that table's uniqueness tuple:
  - workspaces by externalId;
  - leads by (email, workspaceId, sourcePlatform);
  - conversations by (platform, externalThreadId);
  - messages by (platform, externalMessageId);
  - labels as a set of (conversationId, label).

  Notes, audit logs and outgoing replies are sequences in creation order. All tables draw ids from one counter of
  fresh `nat` ids. `Store.Valid` is the store's invariant:
  - every row sits under its own key;
  - every id came from the counter, the appended notes, audit logs and outgoing replies included;
  - in each keyed table no two rows share an id.
- **Handlers on the store's value.** Each handler is a function on `Tables` that describes its effect:
  - `WebhookProcessor.ProcessInstantly`, `ProcessPlusVibe` and `ProcessJob`;
  - `Webhooks.Handle`;
  - `Sync.RunTables` and `Sync.RunResponse`;
  - `Conversations.Patch` and its siblings;
  - `Replies.SendReply`.
- **Handlers as code.** Each handler is also an imperative method on `Database.Db`, a class whose fields are the
  tables. Its Prisma calls become `Db` methods. Each handler method is proved to leave `Db` in exactly the state its
  function describes. The webhook router's module-level mutable state (the Redis handle, the queue handle, the
  idempotency ledger and the job queue) is the class `Webhooks.Gateway`.
- **Properties.** They are proved as lemmas about the functions.

Payloads are maps from field names to a JSON string or `null`. An absent key is `undefined`. `Common.Truthy` models
JavaScript's truthiness of an optional string. These are passed in as parameters:

- the clock (`now`);
- `new Date(string)` (`parseDate`), which gives None for an Invalid Date;
- the platform clients (listing emails, sending a reply);
- the results of calls that may throw (the queue import, the enqueue, Redis `get`/`setex`);
- the message of the error a store write throws in sync (`storeError`).

Notes on behaviour:

- **lastMessageAt.** An upsert on an existing conversation overwrites `lastMessageAt` with the event's time (now for
  webhooks, the listed timestamp or now for sync). It does not advance it to the maximum of the old and new values.
- **campaignName.** A webhook replaces `campaignName` whenever the payload carries a non-empty one, not only when the
  stored value is null.
- **campaign_id.** The Instantly processor also drops a payload without `campaign_id`.
- **Sync and errors.** Sync does not isolate a failing connection. The run ends with 500 at the first thrown error:
  - a listing that throws;
  - or an accepted email whose timestamp does not parse. The conversation upsert throws on the Invalid Date, after
    the email's workspace and lead writes.

  The writes already made stay in the store.
- **Null profile fields.** A PlusVibe payload that carries `null` for first_name, last_name or company_name clears
  the stored value. An absent field keeps it (`WebhookProcessor.PlusVibeNullClearsName`).
- **PlusVibe timestamps.** A modified_at or created_at that does not parse throws at the message upsert. The
  workspace, lead and conversation writes stay, no message is stored, and the job throws. The gateway's inline path
  still answers 200.
- **Sync's own path.** Sync does not feed the webhook path. It has its own field choices: workspace name "Workspace",
  a lead upsert with an empty update, and a conversation update that only sets `lastMessageAt`.
- **Ledger order.** The webhook router consults the ledger before it imports the queue module. So until the first
  dispatch, the Redis handle is null and the ledger is neither read nor written. The ledger itself is what Redis
  kept from earlier processes. The first accepted delivery after start-up is therefore never looked up nor
  recorded. An identical second delivery is a duplicate exactly when the kept ledger holds its key live
  (`Webhooks.FirstDeliveryIsNotRecorded`).
- **Key before enqueue.** The key is recorded before the enqueue. An enqueue that throws loses the event, and the
  ledger then drops redeliveries for the TTL (`Webhooks.EnqueueFailureLosesEvent`).

## Model

| member | source | states |
|---|---|---|
| Store.ResolveWorkspace | apps/api/src/workers/webhook.processor.ts:19-26 | the row with that externalId is reused unchanged; otherwise exactly one row with a fresh id and the given name is created; nothing else changes |
| Store.ResolveWorkspaceValid | apps/api/src/workers/webhook.processor.ts:19-26 | workspace resolution keeps the store invariant |
| Store.MergeProfile | apps/api/src/workers/webhook.processor.ts:126-130 | a written first name, last name or company, a string or null, overwrites the stored one; a field left undefined keeps it |
| Store.MergeProfileIdempotent | apps/api/src/workers/webhook.processor.ts:126-130 | merging the same profile update twice equals merging it once |
| Store.UpsertLead | apps/api/src/workers/webhook.processor.ts:28-43 | upsert on (email, workspaceId, sourcePlatform): an existing lead only has its profile merged with the update and keeps its id; a new lead gets a fresh id, the key's fields and the create profile; other leads are untouched |
| Store.UpsertLeadValid | apps/api/src/workers/webhook.processor.ts:28-43 | the lead upsert keeps the store invariant |
| Store.UpsertLeadStable | apps/api/src/workers/webhook.processor.ts:42 | an upsert whose merge changes nothing leaves the store as it was and returns the stored lead |
| Store.ApplyConversationUpdate | apps/api/src/workers/webhook.processor.ts:58 | lastMessageAt is overwritten; campaignName changes only when one is supplied; no other field changes |
| Store.UpsertConversation | apps/api/src/workers/webhook.processor.ts:46-59 | upsert on (platform, externalThreadId): an existing row gets only the update and keeps its id; a new row has a fresh id, OPEN status and no assignee; other rows are untouched |
| Store.UpsertConversationValid | apps/api/src/workers/webhook.processor.ts:46-59 | the conversation upsert keeps the store invariant |
| Store.UpsertMessage | apps/api/src/workers/webhook.processor.ts:61-79 | upsert with an empty update: a known (platform, externalMessageId) leaves the store unchanged; a new one inserts exactly one message with a fresh id |
| Store.UpsertMessageValid | apps/api/src/workers/webhook.processor.ts:61-79 | the message upsert keeps the store invariant |
| Store.ReplaceConversationValid | apps/api/src/routes/conversations.ts:59-66 | replacing a conversation by one with the same id and key keeps the store invariant |
| Store.ConversationKeyOf | apps/api/src/routes/conversations.ts:37-38 | lookup by id: a key is found exactly when some conversation has that id, and the row under it has that id |
| Store.AppendAuditLog | apps/api/src/routes/conversations.ts:67-75 | `auditLog.create` keeps the old entries as a prefix and adds one last entry with the given fields and an id no stored entry carries, drawn from the counter; nothing else changes and the invariant holds |
| Store.AppendNote | apps/api/src/routes/conversations.ts:109-116 | `conversationNote.create` keeps the old notes as a prefix and adds one last note with the given fields and an id no stored note carries, drawn from the counter; nothing else changes and the invariant holds |
| Store.AppendOutgoingReply | apps/api/src/routes/replies.ts:51-59 | `outgoingReply.create` keeps the old replies as a prefix and adds one last reply with the given fields and an id no stored reply carries, drawn from the counter; nothing else changes and the invariant holds |
| Store.SideTablesValid | apps/api/src/routes/conversations.ts:86-92 | changing labels, notes, audit logs or outgoing replies, or advancing the counter, keeps the store invariant |
| Database.Db.FindWorkspace | apps/api/src/workers/webhook.processor.ts:19-21 | `workspace.findFirst` returns the row stored under that externalId, if any, and changes nothing |
| Database.Db.CreateWorkspace | apps/api/src/workers/webhook.processor.ts:23-25 | `workspace.create` ends in the state `ResolveWorkspace` describes for a new externalId |
| Database.Db.UpsertLead | apps/api/src/workers/webhook.processor.ts:28-43 | the store ends as `Store.UpsertLead` describes, and the method returns that lead |
| Database.Db.UpsertConversation | apps/api/src/workers/webhook.processor.ts:46-59 | the store ends as `Store.UpsertConversation` describes, and the method returns that row |
| Database.Db.UpsertMessage | apps/api/src/workers/webhook.processor.ts:61-79 | the store ends as `Store.UpsertMessage` describes |
| Database.Db.UpdateConversation | apps/api/src/routes/conversations.ts:59-66 | `conversation.update` replaces exactly that row and keeps the invariant |
| Database.Db.CreateAuditLog | apps/api/src/routes/conversations.ts:67-75 | the store and the returned row are those of `Store.AppendAuditLog` |
| Database.Db.UpsertLabel | apps/api/src/routes/conversations.ts:86-92 | the label set gains that (conversationId, label) pair and nothing else changes |
| Database.Db.DeleteLabels | apps/api/src/routes/conversations.ts:97-102 | the label set loses that pair and nothing else changes |
| Database.Db.CreateNote | apps/api/src/routes/conversations.ts:109-116 | the store and the returned note are those of `Store.AppendNote` |
| Database.Db.CreateOutgoingReply | apps/api/src/routes/replies.ts:51-59 | the store and the returned row are those of `Store.AppendOutgoingReply` |
| WebhookProcessor.ProcessInstantly | apps/api/src/workers/webhook.processor.ts:6-80 | the Instantly processor's effect on the store: guard, workspace, lead, conversation, message; its properties are the Instantly lemmas below |
| WebhookProcessor.ProcessPlusVibe | apps/api/src/workers/webhook.processor.ts:82-168 | the PlusVibe processor's effect on the store, stopping after the conversation write when the timestamp does not parse; its properties are the PlusVibe lemmas below |
| WebhookProcessor.ProcessJob | apps/api/src/workers/webhook.processor.ts:170-179 | the job dispatcher's effect: Instantly, PlusVibe, or nothing for another tag (`UnknownPlatformIsNoOp`, `ProcessJobValid`) |
| WebhookProcessor.ProcessInstantlyWebhook | apps/api/src/workers/webhook.processor.ts:6-80 | the step-by-step processor ends in the state `ProcessInstantly` describes, and keeps the invariant |
| WebhookProcessor.ProcessPlusVibeWebhook | apps/api/src/workers/webhook.processor.ts:82-168 | the step-by-step processor ends in the state `ProcessPlusVibe` describes, keeps the invariant, and throws exactly when the message timestamp does not parse |
| WebhookProcessor.ProcessWebhookJob | apps/api/src/workers/webhook.processor.ts:170-179 | the dispatcher ends in the state `ProcessJob` describes and throws exactly when a PlusVibe timestamp does not parse |
| WebhookProcessor.InstantlyIncompleteIsNoOp | apps/api/src/workers/webhook.processor.ts:17 | an Instantly payload missing lead_email, campaign_id, email_id or workspace leaves the store unchanged |
| WebhookProcessor.PlusVibeIncompleteIsNoOp | apps/api/src/workers/webhook.processor.ts:98 | a PlusVibe payload missing from_email, thread_id, last_email_id or workspace_id leaves the store unchanged |
| WebhookProcessor.UnknownPlatformIsNoOp | apps/api/src/workers/webhook.processor.ts:170-179 | a platform tag other than "instantly" or "plusvibe" leaves the store unchanged |
| WebhookProcessor.ProcessInstantlyValid | apps/api/src/workers/webhook.processor.ts:6-80 | Instantly processing keeps the store invariant |
| WebhookProcessor.ProcessPlusVibeValid | apps/api/src/workers/webhook.processor.ts:82-168 | PlusVibe processing keeps the store invariant |
| WebhookProcessor.PlusVibeConversationStageValid | apps/api/src/workers/webhook.processor.ts:100-147 | the PlusVibe steps up to the conversation upsert keep the store invariant |
| WebhookProcessor.ProcessJobValid | apps/api/src/workers/webhook.processor.ts:170-179 | every job keeps the store invariant |
| WebhookProcessor.InstantlyWorkspaceResolution | apps/api/src/workers/webhook.processor.ts:19-26 | an existing workspace is reused; otherwise exactly one is created, named "Workspace " plus the id's first 8 characters |
| WebhookProcessor.PlusVibeWorkspaceResolution | apps/api/src/workers/webhook.processor.ts:100-107 | the same, except that a non-empty workspace_name is used as the name |
| WebhookProcessor.InstantlyNeverUpdatesLeads | apps/api/src/workers/webhook.processor.ts:28-43 | an Instantly payload adds at most its own lead and never changes a stored lead |
| WebhookProcessor.PlusVibeLeadMerge | apps/api/src/workers/webhook.processor.ts:109-131 | a stored PlusVibe lead has each profile field the payload carries, string or null, overwritten and every other kept; a new lead gets the payload's profile and lead_id; no other lead changes |
| WebhookProcessor.PlusVibeLeadsOfStage | apps/api/src/workers/webhook.processor.ts:109-131 | the leads after PlusVibe processing are those after its lead upsert: later steps do not touch leads |
| WebhookProcessor.NullFirstNameSameLead | apps/api/src/workers/webhook.processor.ts:109-131 | setting first_name to null keeps the payload complete and its lead key, and makes the update write null to the first name |
| WebhookProcessor.PlusVibeNullClearsName | apps/api/src/workers/webhook.processor.ts:126-130 | for a stored lead with a first name: a payload without first_name keeps the name, and the same payload with first_name set to null clears it on that same lead |
| WebhookProcessor.InstantlyThreadIdInjective | apps/api/src/workers/webhook.processor.ts:45 | `instantly-<emailId>-<leadId>` determines both email_id and lead id |
| WebhookProcessor.PlusVibeThreadIdInjective | apps/api/src/workers/webhook.processor.ts:133 | `plusvibe-<thread_id>` determines thread_id |
| WebhookProcessor.InstantlySharedEmailIdSplitsConversations | apps/api/src/workers/webhook.processor.ts:45-79 | two Instantly payloads with one email_id from two leads land in two conversations, and the second message is not stored |
| WebhookProcessor.PlusVibeSharedThread | apps/api/src/workers/webhook.processor.ts:133-147 | two PlusVibe payloads with one thread_id share one conversation, which keeps its id and its creator's leadId |
| WebhookProcessor.InstantlyConversationUpsert | apps/api/src/workers/webhook.processor.ts:46-59 | on an existing conversation only lastMessageAt (set to now) and a non-empty campaign_name change; status, campaignId, leadId and all other rows are untouched; a new one is OPEN and unassigned |
| WebhookProcessor.PlusVibeConversationUpsert | apps/api/src/workers/webhook.processor.ts:134-147 | the same for PlusVibe, where a new row drops an empty campaign_id or campaign_name |
| WebhookProcessor.InstantlyCreatedMessage | apps/api/src/workers/webhook.processor.ts:11-13 | a new Instantly message: direction IN, subject reply_subject or "Re:", bodyHtml falling back to the reply text, and the payload's conversation |
| WebhookProcessor.PlusVibeCreatedMessage | apps/api/src/workers/webhook.processor.ts:149-167 | a new PlusVibe message whose timestamp parses: IN, bodyText = text_body or body or "", bodyHtml = body or text_body or "", sentAt from modified_at, else created_at, else now |
| WebhookProcessor.PlusVibeInvalidDateStopsAtMessage | apps/api/src/workers/webhook.processor.ts:149-167 | a timestamp that does not parse leaves the messages as they were, while the workspace, lead and conversation are written |
| WebhookProcessor.KnownMessageIsKept | apps/api/src/workers/webhook.processor.ts:61-79 | a message already stored under the payload's key is never rewritten |
| WebhookProcessor.InstantlyRevisit | apps/api/src/workers/webhook.processor.ts:19-79 | a payload whose rows all exist only moves its conversation's lastMessageAt |
| WebhookProcessor.InstantlyLeavesRecords | apps/api/src/workers/webhook.processor.ts:19-79 | after one payload, its workspace, lead, conversation and message all exist |
| WebhookProcessor.InstantlyReplayIsIdempotent | apps/api/src/workers/webhook.processor.ts:6-80 | processing an Instantly payload again changes only that conversation's lastMessageAt: one message per (platform, email_id), with the first call's fields |
| WebhookProcessor.PlusVibeRevisit | apps/api/src/workers/webhook.processor.ts:100-167 | the PlusVibe counterpart of InstantlyRevisit |
| WebhookProcessor.PlusVibeLeavesRecords | apps/api/src/workers/webhook.processor.ts:100-167 | after one payload, its workspace, lead, conversation and message all exist |
| WebhookProcessor.PlusVibeReplayIsIdempotent | apps/api/src/workers/webhook.processor.ts:82-168 | processing a PlusVibe payload again changes only that conversation's lastMessageAt |
| Webhooks.InstantlyEventAccepted | apps/api/src/routes/webhooks.ts:47 | the Instantly event filter; `InstantlyEventFilter` states it |
| Webhooks.PlusVibeEventAccepted | apps/api/src/routes/webhooks.ts:66 | the PlusVibe event filter; `PlusVibeEventFilter` states it |
| Webhooks.InstantlyKey | apps/api/src/routes/webhooks.ts:50 | the Instantly idempotency key; `KeysOfPlatformsDiffer` and `InstantlyKeyIgnoresEventType` state what it determines |
| Webhooks.PlusVibeKey | apps/api/src/routes/webhooks.ts:69 | the PlusVibe idempotency key; `KeysOfPlatformsDiffer` and `PlusVibeKeyDeterminedByWebhookId` state what it determines |
| Webhooks.LedgerCheck | apps/api/src/routes/webhooks.ts:23-33 | a duplicate answer leaves the ledger as it was; otherwise the ledger is unchanged or records the checked key for the TTL |
| Webhooks.StartState | apps/api/src/routes/webhooks.ts:7-8 | the start state is valid, has neither handle nor job, and keeps the given ledger |
| Webhooks.InitQueueStep | apps/api/src/routes/webhooks.ts:10-19 | the ledger and jobs are untouched; a queue is set afterwards exactly when one was set before or the import succeeds; the handles stay paired |
| Webhooks.Dispatch | apps/api/src/routes/webhooks.ts:35-42 | the ledger is untouched; the jobs are unchanged or gain exactly this job, and when they gain it the store is untouched |
| Webhooks.Handle | apps/api/src/routes/webhooks.ts:44-80 | one POST: the jobs are unchanged or gain exactly this job; a duplicate leaves store and jobs alone; a dropped event leaves the ledger alone |
| Webhooks.HandleInstantly | apps/api/src/routes/webhooks.ts:44-61 | `Handle` with the Instantly filter and key; the Handle lemmas apply to it |
| Webhooks.HandlePlusVibe | apps/api/src/routes/webhooks.ts:63-80 | `Handle` with the PlusVibe filter and key; the Handle lemmas apply to it |
| Webhooks.Gateway.constructor | apps/api/src/routes/webhooks.ts:7-8 | at start-up neither the Redis handle nor the queue is set, no job is queued, and the ledger is whatever Redis kept |
| Webhooks.Gateway.InitQueue | apps/api/src/routes/webhooks.ts:10-19 | the handles end as `InitQueueStep` describes: unchanged once a queue is set, both set when the import succeeds, neither when it throws |
| Webhooks.Gateway.CheckIdempotency | apps/api/src/routes/webhooks.ts:23-33 | the answer and the new ledger are those of `LedgerCheck`; the handles and the queue are untouched |
| Webhooks.Gateway.ProcessWebhook | apps/api/src/routes/webhooks.ts:35-42 | the gateway and store end as `Dispatch` describes; it reports a throw exactly when a queue exists and the enqueue fails, or the inline processor throws |
| Webhooks.Gateway.PostInstantly | apps/api/src/routes/webhooks.ts:44-61 | the gateway, the store and the response are those of `HandleInstantly` |
| Webhooks.Gateway.PostPlusVibe | apps/api/src/routes/webhooks.ts:63-80 | the gateway, the store and the response are those of `HandlePlusVibe` |
| Webhooks.InstantlyEventFilter | apps/api/src/routes/webhooks.ts:47 | an Instantly event passes exactly when event_type is reply_received or auto_reply_received |
| Webhooks.PlusVibeEventFilter | apps/api/src/routes/webhooks.ts:66 | a PlusVibe event passes exactly when webhook_event is ALL_EMAIL_REPLIES, FIRST_EMAIL_REPLIES or ALL_POSITIVE_REPLIES |
| Webhooks.IgnoredEventTouchesNothing | apps/api/src/routes/webhooks.ts:47-49 | a dropped event gets 200 (not a duplicate) and touches neither ledger, queue nor store |
| Webhooks.KeysOfPlatformsDiffer | apps/api/src/routes/webhooks.ts:50 | an Instantly key never equals a PlusVibe key, nor do their ledger keys |
| Webhooks.PlusVibeKeyDeterminedByWebhookId | apps/api/src/routes/webhooks.ts:69 | two PlusVibe keys are equal exactly when their webhook_ids render alike; deliveries without one share a key |
| Webhooks.InstantlyKeyIgnoresEventType | apps/api/src/routes/webhooks.ts:50 | the Instantly key depends on timestamp, lead_email, campaign_id and email_id only |
| Webhooks.LedgerRecordsFirstSight | apps/api/src/routes/webhooks.ts:26-29 | a key with no live entry is not a duplicate and is recorded for exactly 86400 s |
| Webhooks.LedgerSeesRepeatWithinTtl | apps/api/src/routes/webhooks.ts:26-27 | any later check of that key within the TTL is a duplicate and leaves the ledger alone, unless the get throws |
| Webhooks.LedgerForgetsAfterTtl | apps/api/src/routes/webhooks.ts:21-29 | once the TTL has run out the key is new again |
| Webhooks.LedgerFailsOpen | apps/api/src/routes/webhooks.ts:24-32 | with no handle or a throwing get the answer is "not a duplicate" and nothing is recorded; a throwing setex lets a new key through unrecorded |
| Webhooks.LedgerAnswer | apps/api/src/routes/webhooks.ts:23-33 | the answer is "duplicate" exactly when the handle is set, the get works and the key is live; the ledger changes only by recording the checked key for the TTL |
| Webhooks.DuplicateDispatchesNothing | apps/api/src/routes/webhooks.ts:51-54 | a duplicate is answered `{received, duplicate}` and the queue, store and handles stay as they were |
| Webhooks.FreshEventDispatchedOnce | apps/api/src/routes/webhooks.ts:35-42 | a new accepted event is dispatched exactly once: appended to the queue when one exists, processed inline otherwise, dropped when the enqueue throws |
| Webhooks.HandleKeepsValid | apps/api/src/routes/webhooks.ts:44-80 | every path, thrown errors included, keeps the store and the two handles valid; the status is 200 by construction, as `Response` has no status field |
| Webhooks.FirstDeliveryIsNotRecorded | apps/api/src/routes/webhooks.ts:7-8 | whatever ledger Redis kept, the first accepted delivery after start-up is not a duplicate and is neither looked up nor recorded; an identical second one is a duplicate exactly when the kept ledger holds its key live, and is recorded otherwise |
| Webhooks.RedeliveryWithinTtlIsDuplicate | apps/api/src/routes/webhooks.ts:23-56 | with a working ledger, a redelivery within the TTL is a duplicate and dispatches nothing |
| Webhooks.EnqueueFailureLosesEvent | apps/api/src/routes/webhooks.ts:28-38 | when the enqueue throws the event is acknowledged, nothing is queued or stored, and a redelivery within the TTL is dropped |
| Sync.ConnectionsOf | apps/api/src/routes/sync.ts:12-14 | exactly the caller's connections |
| Sync.CountAccepted | apps/api/src/routes/sync.ts:24 | the number of accepted emails is at most the listing's length |
| Sync.TargetOf | apps/api/src/routes/sync.ts:25-33 | an email's target has the connection's platform, the email's lead and id, and the org the platform's branch picks |
| Sync.SyncStep | apps/api/src/routes/sync.ts:25-55 | one email's effect; `SyncStepExtends`, `SyncStepOnSynced`, `SyncStepInvalidDate` and the other SyncStep lemmas state it |
| Sync.SyncEmails | apps/api/src/routes/sync.ts:22-57 | one listing's effect; `SyncListing`, `DateFailureFreezes`, `SyncEmailsExtends` and `SyncEmailsStable` state it |
| Sync.RunResponse | apps/api/src/routes/sync.ts:15-103 | the answer; `RunResponseCounts` and `RunResponseFirstError` state it |
| Sync.RunTables | apps/api/src/routes/sync.ts:15-103 | the store after the run; `FailureFreezesStore`, `RunTablesExtends` and `RunTablesStable` state it |
| Sync.SyncOne | apps/api/src/routes/sync.ts:25-55 | one iteration's store calls end in the state `SyncStep` describes, and throw exactly when the email's timestamp does not parse |
| Sync.SyncListing | apps/api/src/routes/sync.ts:22-57 | the inner loop ends in the state `SyncEmails` describes, throws exactly when some accepted email has a bad timestamp, and otherwise counts exactly the accepted emails |
| Sync.RunSync | apps/api/src/routes/sync.ts:10-104 | the handler ends in the state `RunTables` describes and answers `RunResponse`, a store error included |
| Sync.DateFailureFreezes | apps/api/src/routes/sync.ts:34-38 | once an email's timestamp has failed, the listing fails and later emails write nothing |
| Sync.DateFailsExactly | apps/api/src/routes/sync.ts:22-57 | a listing throws exactly when some accepted email in it has a timestamp that does not parse |
| Sync.FailureSticks | apps/api/src/routes/sync.ts:100-103 | once a turn has thrown, later connections do not change the answer |
| Sync.FailureFreezesStore | apps/api/src/routes/sync.ts:100-103 | once a turn has thrown, later connections write nothing |
| Sync.RunResponseCounts | apps/api/src/routes/sync.ts:15-103 | the run fails exactly when some qualifying connection's listing throws or holds an accepted email whose timestamp does not parse; otherwise `processed` is the number of accepted emails over Instantly connections and PlusVibe ones with a workspace id |
| Sync.RunResponseFirstError | apps/api/src/routes/sync.ts:100-103 | the error reported is that of the first qualifying connection whose turn throws: the listing's error, or the store's |
| Sync.SyncStepExtends | apps/api/src/routes/sync.ts:25-55 | one email keeps every existing row (only lastMessageAt may move) and leaves its own rows in place, only its workspace and lead when its timestamp does not parse |
| Sync.SyncStepOnSynced | apps/api/src/routes/sync.ts:28-55 | an email whose rows are present only overwrites its conversation's lastMessageAt, and changes nothing when its timestamp does not parse |
| Sync.SyncStepExistingConversation | apps/api/src/routes/sync.ts:37 | on an existing conversation, an email whose timestamp parses overwrites lastMessageAt with it, or with now, and nothing else |
| Sync.SyncStepCreatedMessage | apps/api/src/routes/sync.ts:39-55 | a new message of an email whose timestamp parses is IN, its subject defaults to "Re:", its bodies are as listed, and it points at the email's conversation |
| Sync.SyncStepInvalidDate | apps/api/src/routes/sync.ts:34-38 | an email whose timestamp does not parse writes its workspace and its lead only: conversations and messages are unchanged, and the lead keys gain only its lead |
| Sync.TargetLeadExtends | apps/api/src/routes/sync.ts:25-32 | the workspace and lead writes keep every existing row and leave the email's workspace and lead in place |
| Sync.TargetDerivation | apps/api/src/routes/sync.ts:25-33 | Instantly uses org "instantly-default" when absent, timestamp_email and `instantly-<thread_id or id>-<leadId>`; PlusVibe uses the connection's workspace, timestamp_created and `plusvibe-<thread_id or id>`; a missing timestamp is now |
| Sync.PlusVibeSyncMeetsWebhook | apps/api/src/routes/sync.ts:71-73 | a PlusVibe email from sync and a PlusVibe webhook with the same thread_id use the same conversation key |
| Sync.SyncEmailsExtends | apps/api/src/routes/sync.ts:22-57 | a listing keeps every existing row and leaves in place the rows of each accepted email before the first bad timestamp |
| Sync.SyncEmailsStable | apps/api/src/routes/sync.ts:22-57 | a listing whose emails are all in place only moves timestamps |
| Sync.RunTablesExtends | apps/api/src/routes/sync.ts:17-97 | a run keeps every existing row and leaves in place the rows of every email of every connection it reached |
| Sync.RunTablesStable | apps/api/src/routes/sync.ts:17-97 | a run whose emails are all in place only moves lastMessageAt |
| Sync.SyncRerunIsStable | apps/api/src/routes/sync.ts:10-104 | re-running sync on the same listings adds no row, changes no stored row except lastMessageAt, and answers the same count |
| Conversations.BuildFilter | apps/api/src/routes/conversations.ts:10-20 | the `where` clause; `ListFilterRules` states it |
| Conversations.FilterRows | apps/api/src/routes/conversations.ts:12-20 | a row is kept exactly when it is stored and satisfies the filter |
| Conversations.SortDesc | apps/api/src/routes/conversations.ts:30 | the result is ordered by lastMessageAt descending and is a permutation of the input |
| Conversations.InsertDesc | apps/api/src/routes/conversations.ts:30 | inserting into a descending run keeps it descending and adds exactly that row |
| Conversations.ListSound | apps/api/src/routes/conversations.ts:9-34 | the list holds at most 50 rows, newest first, each a stored row matching every supplied filter |
| Conversations.ListComplete | apps/api/src/routes/conversations.ts:30-31 | the list holds min(50, matches) rows, all the matches when there are at most 50, and a left-out match is no newer than any listed row |
| Conversations.ListConversations | apps/api/src/routes/conversations.ts:9-34 | `GET /` over rows in some order; `ListSound`, `ListComplete` and `ListFilterRules` state it |
| Conversations.ListStored | apps/api/src/routes/conversations.ts:9-34 | `GET /` over the store's conversation rows in storage order; `ListStoredSpec` states it |
| Conversations.ListStoredSpec | apps/api/src/routes/conversations.ts:9-34 | over the store: rejected exactly when the filter is invalid; otherwise at most 50 rows, newest first, each a stored conversation matching the filter, and every match when there are at most 50 |
| Conversations.ListFilterRules | apps/api/src/routes/conversations.ts:10-20 | an absent or empty parameter imposes nothing; the query is rejected exactly when a non-empty status or platform is not an enum name |
| Conversations.GetConversation | apps/api/src/routes/conversations.ts:36-49 | `GET /:id`; `GetById` states it |
| Conversations.GetById | apps/api/src/routes/conversations.ts:36-49 | 404 exactly when no conversation has the id; otherwise the stored row with that id |
| Conversations.ParsePatch | apps/api/src/routes/conversations.ts:51-54 | the body schema; `PatchValidation` states it |
| Conversations.Patch | apps/api/src/routes/conversations.ts:56-81 | PATCH's effect; `PatchEffect`, `PatchIdempotent` and `PatchValid` state it |
| Conversations.PatchConversation | apps/api/src/routes/conversations.ts:56-81 | the handler ends in the state, and answers as, `Patch` describes |
| Conversations.PatchValidation | apps/api/src/routes/conversations.ts:51-54 | the body gives 400 exactly when status is null, not a string or not OPEN/PENDING/CLOSED, or assignedTo is neither a string nor null |
| Conversations.PatchEffect | apps/api/src/routes/conversations.ts:56-81 | status changes only when given; assignedTo changes whenever sent, null clearing it; nothing else in the row, no other row or table changes, except one appended "updated" audit entry by the caller; a rejected body changes nothing |
| Conversations.PatchIdempotent | apps/api/src/routes/conversations.ts:59-66 | applying the same patch twice equals applying it once |
| Conversations.PatchValid | apps/api/src/routes/conversations.ts:56-81 | PATCH keeps the store invariant |
| Conversations.AddLabel | apps/api/src/routes/conversations.ts:83-94 | the label POST's effect; `AddLabelEffect` and `AddLabelIdempotent` state it |
| Conversations.PostLabel | apps/api/src/routes/conversations.ts:84-94 | the handler ends in the state, and answers as, `AddLabel` describes |
| Conversations.AddLabelIdempotent | apps/api/src/routes/conversations.ts:86-92 | adding the same label twice equals adding it once: at most one (conversationId, label) row |
| Conversations.AddLabelEffect | apps/api/src/routes/conversations.ts:84-94 | the add succeeds exactly for a string label on a stored conversation, then adds only that pair; otherwise nothing changes |
| Conversations.RemoveLabel | apps/api/src/routes/conversations.ts:96-104 | the label DELETE's effect; `RemoveLabelEffect` states it |
| Conversations.DeleteLabel | apps/api/src/routes/conversations.ts:96-104 | the handler removes exactly that pair and always succeeds |
| Conversations.RemoveLabelEffect | apps/api/src/routes/conversations.ts:96-104 | the pair is gone, every other label stays, and removing an absent label is a no-op |
| Conversations.AddThenRemoveLabel | apps/api/src/routes/conversations.ts:84-104 | removing a label just added to a conversation that lacked it restores the store |
| Conversations.LabelRoutesKeepReferences | apps/api/src/routes/conversations.ts:84-104 | adding and removing labels keep every label pointing at a stored conversation |
| Conversations.AddNote | apps/api/src/routes/conversations.ts:106-118 | the note POST's effect; `AddNoteEffect` states it |
| Conversations.PostNote | apps/api/src/routes/conversations.ts:107-118 | the handler ends in the state, and answers as, `AddNote` describes |
| Conversations.AddNoteEffect | apps/api/src/routes/conversations.ts:106-118 | a string content on a stored conversation appends exactly one note by the caller, with an id no stored note carries; otherwise nothing changes |
| Replies.ParseSend | apps/api/src/routes/replies.ts:11-15 | the body schema; `SendRefusals` states its 400 |
| Replies.FirstConnection | apps/api/src/routes/replies.ts:36-38 | nothing is found exactly when no connection has the caller and the platform; a found one has both |
| Replies.FirstConnectionIsFirst | apps/api/src/routes/replies.ts:36-38 | the connection found is the earliest with that user and platform |
| Replies.LatestExists | apps/api/src/routes/replies.ts:24-27 | a conversation with inbound messages has one sent no earlier than any other |
| Replies.Send | apps/api/src/routes/replies.ts:17-88 | the handler picks a latest inbound message the store could return, and ends in the state, answering as, `SendReply` describes for that choice |
| Replies.ReplySubject | apps/api/src/routes/replies.ts:41 | the subject chosen; `ReplySubjectRules` states it |
| Replies.Deliver | apps/api/src/routes/replies.ts:43-48 | the platform client the conversation's platform selects; `SendRoutesByPlatform` states it |
| Replies.SendReply | apps/api/src/routes/replies.ts:17-88 | `POST /send`'s effect; `SendRefusals`, `SendSuccess`, `SendFailure` and `SendValid` state it |
| Replies.ReplySubjectRules | apps/api/src/routes/replies.ts:41 | a non-empty subject is used as given; a derived one starts with "Re:", keeps a subject already starting with "Re:", and deriving again changes nothing |
| Replies.SendRefusals | apps/api/src/routes/replies.ts:11-39 | 400 for a bad body, 404 for an unknown conversation, 400 when it has no inbound message, 400 when the caller has no connection for its platform, each exactly in its case and in this order, and none records anything |
| Replies.SendSuccess | apps/api/src/routes/replies.ts:63-83 | a delivered reply appends one SENT reply to the latest inbound message, stamped now, with an id no stored reply carries, and one "reply_sent" audit entry naming it, answering 200 with its id; nothing else changes |
| Replies.SendFailure | apps/api/src/routes/replies.ts:50-61 | a failed delivery appends one FAILED reply carrying the client's error and no send time, writes no audit entry, and answers 500 |
| Replies.SendRoutesByPlatform | apps/api/src/routes/replies.ts:44-48 | an Instantly conversation depends only on the Instantly client and any other only on the PlusVibe client |
| Replies.SendValid | apps/api/src/routes/replies.ts:17-88 | sending keeps the store invariant |

## Left out

- Authentication and the caller's identity: the caller's user id is a parameter. The `userId` foreign keys of notes and logs are not checked.
- Response bodies beyond the status and the fields the routes compute. The lead, labels, messages, counts and user names that Prisma `include` joins onto results are not modelled.
- The queue worker is not part of this model: retries, backoff, concurrency and job removal. An enqueue is an append to an abstract job list.
- The platform clients are oracles: listing emails and sending replies. So are their own checks, such as a missing eaccount or workspace id.
- Time and dates: the clock is one `now` per request. `new Date(s)` is an oracle from strings to milliseconds or to None for an Invalid Date. A PlusVibe numeric timestamp is also passed through it.
- Tie order: the store's order among rows with equal `lastMessageAt` or `sentAt` is not fixed.
  - The list sorts by insertion and keeps stable order.
  - The reply route accepts any latest message.
- Concurrency and atomicity: each handler is one sequential transaction. The non-atomic find-then-create of a workspace cannot race here.
- Store failures other than those the routes handle, such as a database that is unreachable.
- Ids are `nat` from one counter, not cuid strings. A request's conversation id is such an id, not an arbitrary string.
- JSON values: a webhook payload field is a string, `null` or absent. Numbers, booleans, objects and arrays in payloads are not modelled. A route body field is a string, `null`, absent or of another type. Arrays in query strings are not modelled.
- Message metadata: the JSON written to a message's metadata holds optional strings, so a null and an absent field there are one value.
- Sync's error text: the message of the error a store write throws is the parameter `storeError`.
- Decoding: the `decodeURIComponent` of the label parameter and the base64 decoding of API keys are left to the caller.
- Conversations.ListConversations: an invalid status or platform value is modelled as a rejected query. The error body Prisma would return is not modelled.

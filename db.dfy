/** The store as a mutable object: the tables are fields that the methods
    reassign, one method per Prisma call the handlers make. */
module Database {
  import opened Common
  import opened Domain
  import opened Store

  class Db {
    var workspaces: map<string, Workspace>
    var leads: map<LeadKey, Lead>
    var conversations: map<ThreadKey, Conversation>
    var messages: map<MessageKey, Message>
    var labels: set<LabelKey>
    var notes: seq<Note>
    var auditLogs: seq<AuditLog>
    var outgoingReplies: seq<OutgoingReply>
    var connections: seq<PlatformConnection>
    var nextId: nat

    /** The whole store as a value. */
    function Snapshot(): Tables
      reads this
    {
      Tables(workspaces, leads, conversations, messages, labels, notes, auditLogs,
             outgoingReplies, connections, nextId)
    }

    ghost predicate Valid()
      reads this
    {
      Store.Valid(Snapshot())
    }

    /** An empty store holding the given platform connections. */
    constructor (connections: seq<PlatformConnection>)
      ensures Valid() && Snapshot() == EmptyTables(connections)
    {
      workspaces, leads, conversations, messages := map[], map[], map[], map[];
      labels, notes, auditLogs, outgoingReplies := {}, [], [], [];
      this.connections := connections;
      nextId := 0;
    }

    /** `workspace.findFirst({ where: { externalId } })`. */
    method FindWorkspace(externalId: string) returns (w: Option<Workspace>)
      ensures w.Some? <==> externalId in workspaces
      ensures w.Some? ==> w.value == workspaces[externalId]
    {
      w := if externalId in workspaces then Some(workspaces[externalId]) else None;
    }

    /** `workspace.create`, reached only after FindWorkspace found nothing. */
    method CreateWorkspace(externalId: string, name: string) returns (w: Workspace)
      requires Valid() && externalId !in workspaces
      modifies this
      ensures Valid()
      ensures (Snapshot(), w) == ResolveWorkspace(old(Snapshot()), externalId, name)
    {
      ResolveWorkspaceValid(Snapshot(), externalId, name);
      w := Workspace(nextId, externalId, name);
      workspaces := workspaces[externalId := w];
      nextId := nextId + 1;
    }

    /** `lead.upsert({ where: key, create, update })`. */
    method UpsertLead(key: LeadKey, externalLeadId: Option<string>, create: Profile, update: ProfileUpdate)
      returns (lead: Lead)
      requires Valid()
      modifies this
      ensures Valid()
      ensures (Snapshot(), lead) == Store.UpsertLead(old(Snapshot()), key, externalLeadId, create, update)
    {
      UpsertLeadValid(Snapshot(), key, externalLeadId, create, update);
      if key in leads {
        lead := leads[key].(profile := MergeProfile(leads[key].profile, update));
        leads := leads[key := lead];
      } else {
        lead := Lead(nextId, key.email, key.workspaceId, key.sourcePlatform, externalLeadId, create);
        leads := leads[key := lead];
        nextId := nextId + 1;
      }
    }

    /** `conversation.upsert({ where: key, create, update })`. */
    method UpsertConversation(key: ThreadKey, leadId: Id, campaignId: Option<string>,
                              campaignName: Option<string>, lastMessageAt: Time, update: ConversationUpdate)
      returns (conversation: Conversation)
      requires Valid()
      modifies this
      ensures Valid()
      ensures (Snapshot(), conversation) ==
              Store.UpsertConversation(old(Snapshot()), key, leadId, campaignId, campaignName, lastMessageAt, update)
    {
      UpsertConversationValid(Snapshot(), key, leadId, campaignId, campaignName, lastMessageAt, update);
      if key in conversations {
        conversation := ApplyConversationUpdate(conversations[key], update);
        conversations := conversations[key := conversation];
      } else {
        conversation := Conversation(nextId, leadId, key.platform, key.externalThreadId, campaignId,
                                     campaignName, OPEN, lastMessageAt, None);
        conversations := conversations[key := conversation];
        nextId := nextId + 1;
      }
    }

    /** `message.upsert({ where: key, create: draft, update: {} })`. */
    method UpsertMessage(key: MessageKey, d: MessageDraft)
      requires Valid()
      modifies this
      ensures Valid()
      ensures Snapshot() == Store.UpsertMessage(old(Snapshot()), key, d)
    {
      UpsertMessageValid(Snapshot(), key, d);
      if key !in messages {
        messages := messages[key := NewMessage(nextId, key, d)];
        nextId := nextId + 1;
      }
    }

    /** `conversation.update` on an existing row, keeping its id and key. */
    method UpdateConversation(key: ThreadKey, c: Conversation)
      requires Valid() && key in conversations && c.id == conversations[key].id && c.Key() == key
      modifies this
      ensures Valid()
      ensures Snapshot() == old(Snapshot()).(conversations := old(conversations)[key := c])
    {
      ReplaceConversationValid(Snapshot(), key, c);
      conversations := conversations[key := c];
    }

    /** `auditLog.create`. */
    method CreateAuditLog(entityType: string, entityId: Id, action: string, userId: string, metadata: AuditMeta)
      returns (log: AuditLog)
      requires Valid()
      modifies this
      ensures Valid()
      ensures (Snapshot(), log) == AppendAuditLog(old(Snapshot()), entityType, entityId, action, userId, metadata)
    {
      var r := AppendAuditLog(Snapshot(), entityType, entityId, action, userId, metadata);
      auditLogs, nextId, log := r.0.auditLogs, r.0.nextId, r.1;
    }

    /** `conversationLabel.upsert` with an empty update. */
    method UpsertLabel(k: LabelKey)
      requires Valid()
      modifies this
      ensures Valid()
      ensures Snapshot() == old(Snapshot()).(labels := old(labels) + {k})
    {
      SideTablesValid(Snapshot(), labels + {k}, notes, auditLogs, outgoingReplies, nextId);
      labels := labels + {k};
    }

    /** `conversationLabel.deleteMany({ where: { conversationId, label } })`. */
    method DeleteLabels(k: LabelKey)
      requires Valid()
      modifies this
      ensures Valid()
      ensures Snapshot() == old(Snapshot()).(labels := old(labels) - {k})
    {
      SideTablesValid(Snapshot(), labels - {k}, notes, auditLogs, outgoingReplies, nextId);
      labels := labels - {k};
    }

    /** `conversationNote.create`. */
    method CreateNote(conversationId: Id, userId: string, content: string) returns (note: Note)
      requires Valid()
      modifies this
      ensures Valid()
      ensures (Snapshot(), note) == AppendNote(old(Snapshot()), conversationId, userId, content)
    {
      var r := AppendNote(Snapshot(), conversationId, userId, content);
      notes, nextId, note := r.0.notes, r.0.nextId, r.1;
    }

    /** `outgoingReply.create`. */
    method CreateOutgoingReply(messageId: Id, conversationId: Id, platform: Platform, status: ReplyStatus,
                               errorMessage: Option<string>, sentAt: Option<Time>)
      returns (reply: OutgoingReply)
      requires Valid()
      modifies this
      ensures Valid()
      ensures (Snapshot(), reply) ==
              AppendOutgoingReply(old(Snapshot()), messageId, conversationId, platform, status, errorMessage, sentAt)
    {
      var r := AppendOutgoingReply(Snapshot(), messageId, conversationId, platform, status, errorMessage, sentAt);
      outgoingReplies, nextId, reply := r.0.outgoingReplies, r.0.nextId, r.1;
    }
  }
}

/** The canonical records of the inbox and the enums they use. Record ids are
    modelled as natural numbers drawn from one counter; timestamps are
    milliseconds since the epoch, as a JavaScript Date holds them. */
module Domain {
  import opened Common

  type Id = nat
  type Time = int

  datatype Platform = INSTANTLY | PLUSVIBE
  datatype ConversationStatus = OPEN | PENDING | CLOSED
  datatype Direction = IN | OUT
  datatype ReplyStatus = PENDING | SENT | FAILED | BOUNCED

  /** A tenant: one external account on one platform. */
  datatype Workspace = Workspace(id: Id, externalId: string, name: string)

  /** The optional name and company fields of a lead. */
  datatype Profile = Profile(firstName: Option<string>, lastName: Option<string>, companyName: Option<string>)

  const NoProfile := Profile(None, None, None)

  /** Uniqueness tuple `email_workspaceId_sourcePlatform`. */
  datatype LeadKey = LeadKey(email: string, workspaceId: Id, sourcePlatform: Platform)

  datatype Lead = Lead(id: Id, email: string, workspaceId: Id, sourcePlatform: Platform,
                       externalLeadId: Option<string>, profile: Profile)
  {
    function Key(): LeadKey { LeadKey(email, workspaceId, sourcePlatform) }
  }

  /** Uniqueness tuple `platform_externalThreadId`. */
  datatype ThreadKey = ThreadKey(platform: Platform, externalThreadId: string)

  datatype Conversation = Conversation(id: Id, leadId: Id, platform: Platform, externalThreadId: string,
                                       campaignId: Option<string>, campaignName: Option<string>,
                                       status: ConversationStatus, lastMessageAt: Time,
                                       assignedTo: Option<string>)
  {
    function Key(): ThreadKey { ThreadKey(platform, externalThreadId) }
  }

  /** Uniqueness tuple `platform_externalMessageId`. */
  datatype MessageKey = MessageKey(platform: Platform, externalMessageId: string)

  /** The routing hints kept in a message's JSON metadata; absent keys are None. */
  datatype MessageMeta = MessageMeta(eaccount: Option<string>, emailAccountId: Option<string>, toEmail: Option<string>)

  datatype Message = Message(id: Id, conversationId: Id, platform: Platform, externalMessageId: string,
                             direction: Direction, subject: string,
                             bodyText: Option<string>, bodyHtml: Option<string>,
                             fromEmail: string, toEmail: string, sentAt: Time, metadata: MessageMeta)
  {
    function Key(): MessageKey { MessageKey(platform, externalMessageId) }
  }

  /** Uniqueness tuple `conversationId_label`. */
  datatype LabelKey = LabelKey(conversationId: Id, name: string)

  datatype Note = Note(id: Id, conversationId: Id, userId: string, content: string)

  /** A field validated as `z.string().nullable().optional()`. */
  datatype AssignField = Absent | Null | Assign(user: string)

  datatype AuditMeta =
    | PatchMeta(status: Option<ConversationStatus>, assignedTo: AssignField)
    | ReplyMeta(outgoingReplyId: Id)

  datatype AuditLog = AuditLog(id: Id, entityType: string, entityId: Id, action: string,
                               userId: string, metadata: AuditMeta)

  datatype OutgoingReply = OutgoingReply(id: Id, messageId: Id, conversationId: Id, platform: Platform,
                                         status: ReplyStatus, errorMessage: Option<string>,
                                         sentAt: Option<Time>)

  /** A user's stored credentials for one platform (read-only here). */
  datatype PlatformConnection = PlatformConnection(userId: string, platform: Platform,
                                                   apiKeyEncrypted: string, workspaceId: Option<string>)
}

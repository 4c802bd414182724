/** The persistent store as an in-memory state. Each table with a composite
    unique constraint is a map keyed by that tuple, so a second row with the
    same tuple cannot exist; rows get fresh ids from one counter. `Tables` is
    the value of the whole store, and the functions here are the store calls
    the handlers make (get-or-create and upsert on one tuple). */
module Store {
  import opened Common
  import opened Domain

  datatype Tables = Tables(
    workspaces: map<string, Workspace>,        // keyed by externalId
    leads: map<LeadKey, Lead>,
    conversations: map<ThreadKey, Conversation>,
    messages: map<MessageKey, Message>,
    labels: set<LabelKey>,
    notes: seq<Note>,
    auditLogs: seq<AuditLog>,
    outgoingReplies: seq<OutgoingReply>,
    connections: seq<PlatformConnection>,
    nextId: nat)

  ghost predicate WorkspacesValid(t: Tables) {
    && (forall x :: x in t.workspaces ==> t.workspaces[x].externalId == x && t.workspaces[x].id < t.nextId)
    && (forall x1, x2 :: x1 in t.workspaces && x2 in t.workspaces && t.workspaces[x1].id == t.workspaces[x2].id
          ==> x1 == x2)
  }

  ghost predicate LeadsValid(t: Tables) {
    && (forall k :: k in t.leads ==> t.leads[k].Key() == k && t.leads[k].id < t.nextId)
    && (forall k1, k2 :: k1 in t.leads && k2 in t.leads && t.leads[k1].id == t.leads[k2].id ==> k1 == k2)
  }

  ghost predicate ConversationsValid(t: Tables) {
    && (forall k :: k in t.conversations ==> t.conversations[k].Key() == k && t.conversations[k].id < t.nextId)
    && (forall k1, k2 :: k1 in t.conversations && k2 in t.conversations &&
          t.conversations[k1].id == t.conversations[k2].id
          ==> k1 == k2)
  }

  ghost predicate MessagesValid(t: Tables) {
    && (forall k :: k in t.messages ==> t.messages[k].Key() == k && t.messages[k].id < t.nextId)
    && (forall k1, k2 :: k1 in t.messages && k2 in t.messages && t.messages[k1].id == t.messages[k2].id ==> k1 == k2)
  }

  /** Every appended row carries an id the counter has already handed out. */
  ghost predicate AppendedBelow(notes: seq<Note>, auditLogs: seq<AuditLog>, outgoingReplies: seq<OutgoingReply>,
                                bound: nat) {
    && (forall x :: x in notes ==> x.id < bound)
    && (forall x :: x in auditLogs ==> x.id < bound)
    && (forall x :: x in outgoingReplies ==> x.id < bound)
  }

  /** Every row sits under its own uniqueness tuple, every id was handed out
      by the counter, and no two rows of one keyed table share an id. */
  ghost predicate Valid(t: Tables) {
    && WorkspacesValid(t) && LeadsValid(t) && ConversationsValid(t) && MessagesValid(t)
    && AppendedBelow(t.notes, t.auditLogs, t.outgoingReplies, t.nextId)
  }

  function EmptyTables(connections: seq<PlatformConnection>): (t: Tables)
    ensures Valid(t)
  {
    Tables(map[], map[], map[], map[], {}, [], [], [], connections, 0)
  }

  /** Some conversation row has this id. */
  predicate HasConversation(t: Tables, id: Id) {
    exists k :: k in t.conversations && t.conversations[k].id == id
  }

  // ---------------------------------------------------------------- workspaces

  /** `workspace.findFirst({externalId}) || workspace.create(...)`. */
  function ResolveWorkspace(t: Tables, externalId: string, name: string): (r: (Tables, Workspace))
    ensures externalId in r.0.workspaces && r.0.workspaces[externalId] == r.1
    ensures externalId in t.workspaces ==> r == (t, t.workspaces[externalId])
    ensures externalId !in t.workspaces ==>
              && r.1 == Workspace(t.nextId, externalId, name)
              && r.0.workspaces.Keys == t.workspaces.Keys + {externalId}
              && r.0.nextId == t.nextId + 1
    ensures forall x :: x in t.workspaces ==> x in r.0.workspaces && r.0.workspaces[x] == t.workspaces[x]
    ensures r.0 == t.(workspaces := r.0.workspaces, nextId := r.0.nextId)
  {
    if externalId in t.workspaces then (t, t.workspaces[externalId])
    else
      var w := Workspace(t.nextId, externalId, name);
      (t.(workspaces := t.workspaces[externalId := w], nextId := t.nextId + 1), w)
  }

  lemma ResolveWorkspaceValid(t: Tables, externalId: string, name: string)
    requires Valid(t)
    ensures Valid(ResolveWorkspace(t, externalId, name).0)
  {
  }

  // --------------------------------------------------------------------- leads

  /** One field of a Prisma `update`: `undefined` leaves the stored value,
      a string or `null` overwrites it. */
  datatype FieldWrite = Keep | Write(value: Option<string>)

  /** The profile half of a lead update. */
  datatype ProfileUpdate = ProfileUpdate(firstName: FieldWrite, lastName: FieldWrite, companyName: FieldWrite)

  const NoUpdate := ProfileUpdate(Keep, Keep, Keep)

  function ApplyWrite(stored: Option<string>, w: FieldWrite): Option<string> {
    if w.Write? then w.value else stored
  }

  /** Prisma's `update`: a written field takes the written value, `null`
      included; a field left `undefined` keeps what is stored. */
  function MergeProfile(stored: Profile, update: ProfileUpdate): (r: Profile)
    ensures update.firstName.Write? ==> r.firstName == update.firstName.value
    ensures update.firstName.Keep? ==> r.firstName == stored.firstName
    ensures update.lastName.Write? ==> r.lastName == update.lastName.value
    ensures update.lastName.Keep? ==> r.lastName == stored.lastName
    ensures update.companyName.Write? ==> r.companyName == update.companyName.value
    ensures update.companyName.Keep? ==> r.companyName == stored.companyName
  {
    Profile(ApplyWrite(stored.firstName, update.firstName), ApplyWrite(stored.lastName, update.lastName),
            ApplyWrite(stored.companyName, update.companyName))
  }

  /** `lead.upsert` on `email_workspaceId_sourcePlatform`. */
  function UpsertLead(t: Tables, key: LeadKey, externalLeadId: Option<string>, create: Profile, update: ProfileUpdate)
    : (r: (Tables, Lead))
    ensures key in r.0.leads && r.0.leads[key] == r.1
    ensures r.0.leads.Keys == t.leads.Keys + {key}
    ensures forall k :: k in t.leads && k != key ==> r.0.leads[k] == t.leads[k]
    ensures key in t.leads ==>
              && r.1 == t.leads[key].(profile := MergeProfile(t.leads[key].profile, update))
              && r.0.nextId == t.nextId
    ensures key !in t.leads ==>
              && r.1 == Lead(t.nextId, key.email, key.workspaceId, key.sourcePlatform, externalLeadId, create)
              && r.0.nextId == t.nextId + 1
    ensures r.0 == t.(leads := r.0.leads, nextId := r.0.nextId)
  {
    if key in t.leads then
      var l := t.leads[key].(profile := MergeProfile(t.leads[key].profile, update));
      (t.(leads := t.leads[key := l]), l)
    else
      var l := Lead(t.nextId, key.email, key.workspaceId, key.sourcePlatform, externalLeadId, create);
      (t.(leads := t.leads[key := l], nextId := t.nextId + 1), l)
  }

  lemma UpsertLeadValid(t: Tables, key: LeadKey, externalLeadId: Option<string>, create: Profile, update: ProfileUpdate)
    requires Valid(t)
    ensures Valid(UpsertLead(t, key, externalLeadId, create, update).0)
  {
    var r := UpsertLead(t, key, externalLeadId, create, update).0;
    assert WorkspacesValid(r);
    assert ConversationsValid(r);
    assert MessagesValid(r);
  }

  /** Upserting a lead whose merge changes nothing leaves the store as it is. */
  lemma UpsertLeadStable(t: Tables, key: LeadKey, externalLeadId: Option<string>, create: Profile, update: ProfileUpdate)
    requires key in t.leads && MergeProfile(t.leads[key].profile, update) == t.leads[key].profile
    ensures UpsertLead(t, key, externalLeadId, create, update) == (t, t.leads[key])
  {
    assert t.leads[key := t.leads[key]] == t.leads;
  }

  /** Applying the same profile update twice is the same as applying it once. */
  lemma MergeProfileIdempotent(stored: Profile, update: ProfileUpdate)
    ensures MergeProfile(MergeProfile(stored, update), update) == MergeProfile(stored, update)
  {
  }

  // ------------------------------------------------------------- conversations

  /** The `update` half of a conversation upsert: lastMessageAt is always
      overwritten; campaignName only when one is supplied. */
  datatype ConversationUpdate = ConversationUpdate(lastMessageAt: Time, campaignName: Option<string>)

  function ApplyConversationUpdate(c: Conversation, u: ConversationUpdate): (r: Conversation)
    ensures r.lastMessageAt == u.lastMessageAt
    ensures r.campaignName == if u.campaignName.Some? then u.campaignName else c.campaignName
    ensures r == c.(lastMessageAt := r.lastMessageAt, campaignName := r.campaignName)
  {
    c.(lastMessageAt := u.lastMessageAt,
       campaignName := if u.campaignName.Some? then u.campaignName else c.campaignName)
  }

  /** `conversation.upsert` on `platform_externalThreadId`; a created row is
      OPEN and unassigned. */
  function UpsertConversation(t: Tables, key: ThreadKey, leadId: Id, campaignId: Option<string>,
                              campaignName: Option<string>, lastMessageAt: Time, update: ConversationUpdate)
    : (r: (Tables, Conversation))
    ensures key in r.0.conversations && r.0.conversations[key] == r.1
    ensures r.0.conversations.Keys == t.conversations.Keys + {key}
    ensures forall k :: k in t.conversations && k != key ==> r.0.conversations[k] == t.conversations[k]
    ensures key in t.conversations ==>
              && r.1 == ApplyConversationUpdate(t.conversations[key], update)
              && r.0.nextId == t.nextId
    ensures key !in t.conversations ==>
              && r.1 == Conversation(t.nextId, leadId, key.platform, key.externalThreadId, campaignId,
                                     campaignName, OPEN, lastMessageAt, None)
              && r.0.nextId == t.nextId + 1
    ensures r.0 == t.(conversations := r.0.conversations, nextId := r.0.nextId)
  {
    if key in t.conversations then
      var c := ApplyConversationUpdate(t.conversations[key], update);
      (t.(conversations := t.conversations[key := c]), c)
    else
      var c := Conversation(t.nextId, leadId, key.platform, key.externalThreadId, campaignId,
                            campaignName, OPEN, lastMessageAt, None);
      (t.(conversations := t.conversations[key := c], nextId := t.nextId + 1), c)
  }

  lemma UpsertConversationValid(t: Tables, key: ThreadKey, leadId: Id, campaignId: Option<string>,
                                campaignName: Option<string>, lastMessageAt: Time, update: ConversationUpdate)
    requires Valid(t)
    ensures Valid(UpsertConversation(t, key, leadId, campaignId, campaignName, lastMessageAt, update).0)
  {
    var r := UpsertConversation(t, key, leadId, campaignId, campaignName, lastMessageAt, update).0;
    assert WorkspacesValid(r);
    assert LeadsValid(r);
    assert MessagesValid(r);
  }

  // ------------------------------------------------------------------ messages

  /** The `create` half of a message upsert, before an id is assigned. */
  datatype MessageDraft = MessageDraft(conversationId: Id, direction: Direction, subject: string,
                                       bodyText: Option<string>, bodyHtml: Option<string>,
                                       fromEmail: string, toEmail: string, sentAt: Time, metadata: MessageMeta)

  function NewMessage(id: Id, key: MessageKey, d: MessageDraft): Message {
    Message(id, d.conversationId, key.platform, key.externalMessageId, d.direction, d.subject,
            d.bodyText, d.bodyHtml, d.fromEmail, d.toEmail, d.sentAt, d.metadata)
  }

  /** `message.upsert` with an empty update: insert if the key is new,
      otherwise leave the stored message exactly as it is. */
  function UpsertMessage(t: Tables, key: MessageKey, d: MessageDraft): (r: Tables)
    ensures key in r.messages
    ensures key in t.messages ==> r == t
    ensures key !in t.messages ==>
              r == t.(messages := t.messages[key := NewMessage(t.nextId, key, d)], nextId := t.nextId + 1)
  {
    if key in t.messages then t
    else t.(messages := t.messages[key := NewMessage(t.nextId, key, d)], nextId := t.nextId + 1)
  }

  lemma UpsertMessageValid(t: Tables, key: MessageKey, d: MessageDraft)
    requires Valid(t)
    ensures Valid(UpsertMessage(t, key, d))
  {
    var r := UpsertMessage(t, key, d);
    assert WorkspacesValid(r);
    assert LeadsValid(r);
    assert ConversationsValid(r);
  }

  /** A conversation with a fresh id, lastMessageAt or campaignName changed, or
      an appended log row keeps the store valid when only those change. */
  lemma ReplaceConversationValid(t: Tables, key: ThreadKey, c: Conversation)
    requires Valid(t) && key in t.conversations
    requires c.id == t.conversations[key].id && c.Key() == key
    ensures Valid(t.(conversations := t.conversations[key := c]))
  {
    var r := t.(conversations := t.conversations[key := c]);
    assert WorkspacesValid(r);
    assert LeadsValid(r);
    assert MessagesValid(r);
  }

  // ------------------------------------------------------------ lookups by id

  /** `conversation.findUnique({ where: { id } })`: ids are unique, so at most one
      key carries the id. */
  function ConversationKeyOf(t: Tables, id: Id): (r: Option<ThreadKey>)
    requires Valid(t)
    ensures r.Some? <==> HasConversation(t, id)
    ensures r.Some? ==> r.value in t.conversations && t.conversations[r.value].id == id
  {
    if exists k :: k in t.conversations && t.conversations[k].id == id then
      var k :| k in t.conversations && t.conversations[k].id == id;
      Some(k)
    else None
  }

  // ------------------------------------------------------------ appended rows

  /** `auditLog.create`: one row at the end of the log, with the given fields
      and an id no stored log row carries. */
  function AppendAuditLog(t: Tables, entityType: string, entityId: Id, action: string, userId: string,
                          metadata: AuditMeta): (r: (Tables, AuditLog))
    requires Valid(t)
    ensures Valid(r.0)
    ensures |r.0.auditLogs| == |t.auditLogs| + 1
    ensures r.0.auditLogs[..|t.auditLogs|] == t.auditLogs && r.0.auditLogs[|t.auditLogs|] == r.1
    ensures r.1 == AuditLog(r.1.id, entityType, entityId, action, userId, metadata)
    ensures forall x :: x in t.auditLogs ==> x.id != r.1.id
    ensures t.nextId <= r.1.id < r.0.nextId
    ensures r.0 == t.(auditLogs := r.0.auditLogs, nextId := r.0.nextId)
  {
    var log := AuditLog(t.nextId, entityType, entityId, action, userId, metadata);
    var r := t.(auditLogs := t.auditLogs + [log], nextId := t.nextId + 1);
    assert r.auditLogs[..|t.auditLogs|] == t.auditLogs;
    SideTablesValid(t, r.labels, r.notes, r.auditLogs, r.outgoingReplies, r.nextId);
    (r, log)
  }

  /** `conversationNote.create`: one note at the end, with the given fields
      and an id no stored note carries. */
  function AppendNote(t: Tables, conversationId: Id, userId: string, content: string): (r: (Tables, Note))
    requires Valid(t)
    ensures Valid(r.0)
    ensures |r.0.notes| == |t.notes| + 1
    ensures r.0.notes[..|t.notes|] == t.notes && r.0.notes[|t.notes|] == r.1
    ensures r.1 == Note(r.1.id, conversationId, userId, content)
    ensures forall x :: x in t.notes ==> x.id != r.1.id
    ensures t.nextId <= r.1.id < r.0.nextId
    ensures r.0 == t.(notes := r.0.notes, nextId := r.0.nextId)
  {
    var note := Note(t.nextId, conversationId, userId, content);
    var r := t.(notes := t.notes + [note], nextId := t.nextId + 1);
    assert r.notes[..|t.notes|] == t.notes;
    SideTablesValid(t, r.labels, r.notes, r.auditLogs, r.outgoingReplies, r.nextId);
    (r, note)
  }

  /** `outgoingReply.create`: one row at the end, with the given fields and
      an id no stored outgoing reply carries. */
  function AppendOutgoingReply(t: Tables, messageId: Id, conversationId: Id, platform: Platform,
                               status: ReplyStatus, errorMessage: Option<string>, sentAt: Option<Time>)
    : (r: (Tables, OutgoingReply))
    requires Valid(t)
    ensures Valid(r.0)
    ensures |r.0.outgoingReplies| == |t.outgoingReplies| + 1
    ensures r.0.outgoingReplies[..|t.outgoingReplies|] == t.outgoingReplies
    ensures r.0.outgoingReplies[|t.outgoingReplies|] == r.1
    ensures r.1 == OutgoingReply(r.1.id, messageId, conversationId, platform, status, errorMessage, sentAt)
    ensures forall x :: x in t.outgoingReplies ==> x.id != r.1.id
    ensures t.nextId <= r.1.id < r.0.nextId
    ensures r.0 == t.(outgoingReplies := r.0.outgoingReplies, nextId := r.0.nextId)
  {
    var reply := OutgoingReply(t.nextId, messageId, conversationId, platform, status, errorMessage, sentAt);
    var r := t.(outgoingReplies := t.outgoingReplies + [reply], nextId := t.nextId + 1);
    assert r.outgoingReplies[..|t.outgoingReplies|] == t.outgoingReplies;
    SideTablesValid(t, r.labels, r.notes, r.auditLogs, r.outgoingReplies, r.nextId);
    (r, reply)
  }

  /** Changing labels, replacing the appended tables by ones whose ids the
      counter has handed out, or advancing the counter keeps the store valid. */
  lemma SideTablesValid(t: Tables, labels: set<LabelKey>, notes: seq<Note>, auditLogs: seq<AuditLog>,
                        outgoingReplies: seq<OutgoingReply>, nextId: nat)
    requires Valid(t) && t.nextId <= nextId
    requires AppendedBelow(notes, auditLogs, outgoingReplies, nextId)
    ensures Valid(t.(labels := labels, notes := notes, auditLogs := auditLogs,
                     outgoingReplies := outgoingReplies, nextId := nextId))
  {
    var r := t.(labels := labels, notes := notes, auditLogs := auditLogs,
                outgoingReplies := outgoingReplies, nextId := nextId);
    assert WorkspacesValid(r);
    assert LeadsValid(r);
    assert ConversationsValid(r);
    assert MessagesValid(r);
  }
}

/** Reconciliation of one inbound reply event into the store
    (apps/api/src/workers/webhook.processor.ts). Each processor validates the
    payload, finds or creates the workspace, upserts the lead, derives the
    thread id, upserts the conversation and inserts the message only if its
    `(platform, externalMessageId)` is new.

    `ProcessInstantly`, `ProcessPlusVibe` and `ProcessJob` are the processors as
    functions on the store's value; the methods at the end perform the same
    steps on a `Db` one store call at a time and are proved to end in the state
    the functions describe. The clock reading `new Date()` is the parameter
    `now`; `new Date(text)` is the parameter `parseDate`, which gives None for
    an Invalid Date. The store refuses an Invalid Date, so a PlusVibe payload
    whose timestamp does not parse throws at the message upsert, after the
    workspace, lead and conversation writes. */
module WebhookProcessor {
  import opened Common
  import opened Domain
  import opened Store
  import opened Database

  /** A JSON field value of a webhook body: a string or `null`. */
  datatype Json = JString(s: string) | JNull

  /** A webhook body as received: JSON field name to value; a field that is
      absent from the map was not sent (`undefined`). */
  type Payload = map<string, Json>

  /** The field as a string. Absent and `null` both give None: `||`, `!` and
      Prisma's `create` treat them alike. */
  function Field(p: Payload, name: string): Option<string> {
    if name in p && p[name].JString? then Some(p[name].s) else None
  }

  /** `${p.name}` in a template literal. */
  function RenderField(p: Payload, name: string): string {
    if name !in p then "undefined" else if p[name].JNull? then "null" else p[name].s
  }

  /** The field in a Prisma `update`: `undefined` keeps the stored value,
      while a string or `null` is written. */
  function WriteOf(p: Payload, name: string): FieldWrite {
    if name in p then Write(Field(p, name)) else Keep
  }

  /** `Workspace ${id.slice(0, 8)}`, the name of a workspace created on the fly. */
  function DefaultWorkspaceName(externalId: string): string {
    "Workspace " + Prefix(externalId, 8)
  }

  /** Instantly thread ids fold in the lead's id: `instantly-<emailId>-<leadId>`. */
  function InstantlyThreadId(emailId: string, leadId: Id): string {
    "instantly-" + emailId + "-" + NatToString(leadId)
  }

  /** PlusVibe thread ids are used as they come: `plusvibe-<thread_id>`. */
  function PlusVibeThreadId(threadId: string): string {
    "plusvibe-" + threadId
  }

  // ------------------------------------------------------------------ Instantly

  /** The guard at the top of processInstantlyWebhook. */
  predicate InstantlyComplete(p: Payload) {
    Truthy(Field(p, "lead_email")) && Truthy(Field(p, "campaign_id")) &&
    Truthy(Field(p, "email_id")) && Truthy(Field(p, "workspace"))
  }

  /** Workspace resolution: find by externalId, else create with the default name. */
  function InstantlyWorkspace(t: Tables, p: Payload): (Tables, Workspace)
    requires InstantlyComplete(p)
  {
    var ext := Field(p, "workspace").value;
    ResolveWorkspace(t, ext, DefaultWorkspaceName(ext))
  }

  function InstantlyLeadKey(t: Tables, p: Payload): LeadKey
    requires InstantlyComplete(p)
  {
    LeadKey(Field(p, "lead_email").value, InstantlyWorkspace(t, p).1.id, INSTANTLY)
  }

  /** Workspace resolution and the lead upsert; the update half is empty. */
  function InstantlyLeadStage(t: Tables, p: Payload): (Tables, Lead)
    requires InstantlyComplete(p)
  {
    UpsertLead(InstantlyWorkspace(t, p).0, InstantlyLeadKey(t, p), None, NoProfile, NoUpdate)
  }

  /** The conversation an Instantly payload lands in, computed in state t. */
  function InstantlyConversationKey(t: Tables, p: Payload): ThreadKey
    requires InstantlyComplete(p)
  {
    ThreadKey(INSTANTLY, InstantlyThreadId(Field(p, "email_id").value, InstantlyLeadStage(t, p).1.id))
  }

  /** The message an Instantly payload creates when its email_id is new. */
  function InstantlyDraft(p: Payload, conversationId: Id, now: Time): MessageDraft
    requires InstantlyComplete(p)
  {
    var replyText := OrElse(Field(p, "reply_text"), "");
    MessageDraft(conversationId, IN, OrElse(Field(p, "reply_subject"), "Re:"),
                 Some(replyText), Some(OrElse(Field(p, "reply_html"), replyText)),
                 Field(p, "lead_email").value, OrElse(Field(p, "email_account"), ""), now,
                 MessageMeta(Field(p, "email_account"), None, None))
  }

  /** processInstantlyWebhook on the store's value. */
  function ProcessInstantly(t: Tables, p: Payload, now: Time): Tables {
    if !InstantlyComplete(p) then t
    else
      var (t2, lead) := InstantlyLeadStage(t, p);
      var campaignName := Field(p, "campaign_name");
      var (t3, conversation) :=
        UpsertConversation(t2, InstantlyConversationKey(t, p), lead.id, Field(p, "campaign_id"), campaignName,
                           now, ConversationUpdate(now, OrUndefined(campaignName)));
      UpsertMessage(t3, MessageKey(INSTANTLY, Field(p, "email_id").value), InstantlyDraft(p, conversation.id, now))
  }

  // ------------------------------------------------------------------- PlusVibe

  /** The guard at the top of processPlusVibeWebhook. */
  predicate PlusVibeComplete(p: Payload) {
    Truthy(Field(p, "from_email")) && Truthy(Field(p, "thread_id")) &&
    Truthy(Field(p, "last_email_id")) && Truthy(Field(p, "workspace_id"))
  }

  /** The profile a new PlusVibe lead is created with (absent and `null`
      fields are None). */
  function PlusVibeProfile(p: Payload): Profile {
    Profile(Field(p, "first_name"), Field(p, "last_name"), Field(p, "company_name"))
  }

  /** The update half of the PlusVibe lead upsert. */
  function PlusVibeUpdate(p: Payload): ProfileUpdate {
    ProfileUpdate(WriteOf(p, "first_name"), WriteOf(p, "last_name"), WriteOf(p, "company_name"))
  }

  function PlusVibeWorkspaceName(p: Payload): string
    requires PlusVibeComplete(p)
  {
    OrElse(Field(p, "workspace_name"), DefaultWorkspaceName(Field(p, "workspace_id").value))
  }

  function PlusVibeWorkspace(t: Tables, p: Payload): (Tables, Workspace)
    requires PlusVibeComplete(p)
  {
    ResolveWorkspace(t, Field(p, "workspace_id").value, PlusVibeWorkspaceName(p))
  }

  function PlusVibeLeadKey(t: Tables, p: Payload): LeadKey
    requires PlusVibeComplete(p)
  {
    LeadKey(Field(p, "from_email").value, PlusVibeWorkspace(t, p).1.id, PLUSVIBE)
  }

  /** Workspace resolution and the lead upsert, whose update half writes the
      profile fields the payload carries, `null` ones included. */
  function PlusVibeLeadStage(t: Tables, p: Payload): (Tables, Lead)
    requires PlusVibeComplete(p)
  {
    UpsertLead(PlusVibeWorkspace(t, p).0, PlusVibeLeadKey(t, p), Field(p, "lead_id"),
               PlusVibeProfile(p), PlusVibeUpdate(p))
  }

  function PlusVibeConversationKey(p: Payload): ThreadKey
    requires PlusVibeComplete(p)
  {
    ThreadKey(PLUSVIBE, PlusVibeThreadId(Field(p, "thread_id").value))
  }

  /** `new Date(modified_at || created_at || Date.now())`; None is an Invalid
      Date. */
  function PlusVibeSentAt(p: Payload, now: Time, parseDate: string -> Option<Time>): Option<Time> {
    if Truthy(Field(p, "modified_at")) then parseDate(Field(p, "modified_at").value)
    else if Truthy(Field(p, "created_at")) then parseDate(Field(p, "created_at").value)
    else Some(now)
  }

  /** The payload gets past the guard and its timestamp does not parse, so
      the message upsert throws. */
  predicate PlusVibeThrows(p: Payload, now: Time, parseDate: string -> Option<Time>) {
    PlusVibeComplete(p) && PlusVibeSentAt(p, now, parseDate).None?
  }

  function PlusVibeDraft(p: Payload, conversationId: Id, sentAt: Time): MessageDraft
    requires PlusVibeComplete(p)
  {
    var body, textBody := Field(p, "body"), Field(p, "text_body");
    MessageDraft(conversationId, IN, OrElse(Field(p, "subject"), "Re:"),
                 Some(OrElse(textBody, OrElse(body, ""))), Some(OrElse(body, OrElse(textBody, ""))),
                 Field(p, "from_email").value, OrElse(Field(p, "email_account_name"), ""),
                 sentAt, MessageMeta(None, Field(p, "email_account_id"), Field(p, "email_account_name")))
  }

  /** Workspace resolution, the lead upsert and the conversation upsert. */
  function PlusVibeConversationStage(t: Tables, p: Payload, now: Time): (Tables, Conversation)
    requires PlusVibeComplete(p)
  {
    var (t2, lead) := PlusVibeLeadStage(t, p);
    var campaignName := OrUndefined(Field(p, "campaign_name"));
    UpsertConversation(t2, PlusVibeConversationKey(p), lead.id, OrUndefined(Field(p, "campaign_id")),
                       campaignName, now, ConversationUpdate(now, campaignName))
  }

  /** processPlusVibeWebhook on the store's value: the state it leaves,
      whether it returns or throws at the message upsert. */
  function ProcessPlusVibe(t: Tables, p: Payload, now: Time, parseDate: string -> Option<Time>): Tables {
    if !PlusVibeComplete(p) then t
    else
      var (t3, conversation) := PlusVibeConversationStage(t, p, now);
      match PlusVibeSentAt(p, now, parseDate)
      case None => t3
      case Some(sentAt) =>
        UpsertMessage(t3, MessageKey(PLUSVIBE, Field(p, "last_email_id").value),
                      PlusVibeDraft(p, conversation.id, sentAt))
  }

  /** processWebhookJob: dispatch on the platform tag; any other tag is ignored. */
  function ProcessJob(t: Tables, platform: string, p: Payload, now: Time, parseDate: string -> Option<Time>): Tables {
    if platform == "instantly" then ProcessInstantly(t, p, now)
    else if platform == "plusvibe" then ProcessPlusVibe(t, p, now, parseDate)
    else t
  }

  /** Whether processWebhookJob throws. */
  predicate JobThrows(platform: string, p: Payload, now: Time, parseDate: string -> Option<Time>) {
    platform == "plusvibe" && PlusVibeThrows(p, now, parseDate)
  }

  // ------------------------------------------------------------------ the methods

  method ProcessInstantlyWebhook(db: Db, payload: Payload, now: Time)
    requires db.Valid()
    modifies db
    ensures db.Valid()
    ensures db.Snapshot() == ProcessInstantly(old(db.Snapshot()), payload, now)
  {
    var emailId := Field(payload, "email_id");
    var leadEmail := Field(payload, "lead_email");
    var campaignId := Field(payload, "campaign_id");
    var campaignName := Field(payload, "campaign_name");
    var replyText := OrElse(Field(payload, "reply_text"), "");
    var replyHtml := OrElse(Field(payload, "reply_html"), replyText);
    var replySubject := OrElse(Field(payload, "reply_subject"), "Re:");
    var emailAccount := Field(payload, "email_account");
    var workspace := Field(payload, "workspace");

    if !Truthy(leadEmail) || !Truthy(campaignId) || !Truthy(emailId) || !Truthy(workspace) {
      return;
    }

    var workspaceRecord := db.FindWorkspace(workspace.value);
    if workspaceRecord.None? {
      var created := db.CreateWorkspace(workspace.value, DefaultWorkspaceName(workspace.value));
      workspaceRecord := Some(created);
    }

    var lead := db.UpsertLead(LeadKey(leadEmail.value, workspaceRecord.value.id, INSTANTLY), None, NoProfile, NoUpdate);

    var threadId := InstantlyThreadId(emailId.value, lead.id);
    var conversation := db.UpsertConversation(ThreadKey(INSTANTLY, threadId), lead.id, campaignId, campaignName,
                                              now, ConversationUpdate(now, OrUndefined(campaignName)));

    db.UpsertMessage(MessageKey(INSTANTLY, emailId.value),
                     MessageDraft(conversation.id, IN, replySubject, Some(replyText), Some(replyHtml),
                                  leadEmail.value, OrElse(emailAccount, ""), now,
                                  MessageMeta(emailAccount, None, None)));
  }

  /** Returns whether the message upsert threw. */
  method ProcessPlusVibeWebhook(db: Db, payload: Payload, now: Time, parseDate: string -> Option<Time>)
    returns (threw: bool)
    requires db.Valid()
    modifies db
    ensures db.Valid()
    ensures db.Snapshot() == ProcessPlusVibe(old(db.Snapshot()), payload, now, parseDate)
    ensures threw <==> PlusVibeThrows(payload, now, parseDate)
  {
    var workspaceId := Field(payload, "workspace_id");
    var campaignId := Field(payload, "campaign_id");
    var campaignName := Field(payload, "campaign_name");
    var threadId := Field(payload, "thread_id");
    var lastEmailId := Field(payload, "last_email_id");
    var leadId := Field(payload, "lead_id");
    var fromEmail := Field(payload, "from_email");
    var subject := Field(payload, "subject");
    var body := Field(payload, "body");
    var textBody := Field(payload, "text_body");
    var emailAccountName := Field(payload, "email_account_name");
    var emailAccountId := Field(payload, "email_account_id");

    if !Truthy(fromEmail) || !Truthy(threadId) || !Truthy(lastEmailId) || !Truthy(workspaceId) {
      return false;
    }

    var workspaceRecord := db.FindWorkspace(workspaceId.value);
    if workspaceRecord.None? {
      var name := OrElse(Field(payload, "workspace_name"), DefaultWorkspaceName(workspaceId.value));
      var created := db.CreateWorkspace(workspaceId.value, name);
      workspaceRecord := Some(created);
    }

    var create := Profile(Field(payload, "first_name"), Field(payload, "last_name"), Field(payload, "company_name"));
    var update := ProfileUpdate(WriteOf(payload, "first_name"), WriteOf(payload, "last_name"),
                                WriteOf(payload, "company_name"));
    var lead := db.UpsertLead(LeadKey(fromEmail.value, workspaceRecord.value.id, PLUSVIBE), leadId, create, update);

    var externalThreadId := PlusVibeThreadId(threadId.value);
    var conversation := db.UpsertConversation(ThreadKey(PLUSVIBE, externalThreadId), lead.id,
                                              OrUndefined(campaignId), OrUndefined(campaignName),
                                              now, ConversationUpdate(now, OrUndefined(campaignName)));

    var sentAt := PlusVibeSentAt(payload, now, parseDate);
    if sentAt.None? {
      return true;
    }
    db.UpsertMessage(MessageKey(PLUSVIBE, lastEmailId.value),
                     MessageDraft(conversation.id, IN, OrElse(subject, "Re:"),
                                  Some(OrElse(textBody, OrElse(body, ""))), Some(OrElse(body, OrElse(textBody, ""))),
                                  fromEmail.value, OrElse(emailAccountName, ""), sentAt.value,
                                  MessageMeta(None, emailAccountId, emailAccountName)));
    return false;
  }

  /** Returns whether the processor threw. */
  method ProcessWebhookJob(db: Db, platform: string, payload: Payload, now: Time, parseDate: string -> Option<Time>)
    returns (threw: bool)
    requires db.Valid()
    modifies db
    ensures db.Valid()
    ensures db.Snapshot() == ProcessJob(old(db.Snapshot()), platform, payload, now, parseDate)
    ensures threw <==> JobThrows(platform, payload, now, parseDate)
  {
    threw := false;
    if platform == "instantly" {
      ProcessInstantlyWebhook(db, payload, now);
    } else if platform == "plusvibe" {
      threw := ProcessPlusVibeWebhook(db, payload, now, parseDate);
    }
  }

  // ------------------------------------------------------------------ properties

  lemma InstantlyIncompleteIsNoOp(t: Tables, p: Payload, now: Time)
    requires !InstantlyComplete(p)
    ensures ProcessInstantly(t, p, now) == t
  {
  }

  lemma PlusVibeIncompleteIsNoOp(t: Tables, p: Payload, now: Time, parseDate: string -> Option<Time>)
    requires !PlusVibeComplete(p)
    ensures ProcessPlusVibe(t, p, now, parseDate) == t
  {
  }

  /** A tag other than "instantly" or "plusvibe" leaves the store as it was. */
  lemma UnknownPlatformIsNoOp(t: Tables, platform: string, p: Payload, now: Time, parseDate: string -> Option<Time>)
    requires platform != "instantly" && platform != "plusvibe"
    ensures ProcessJob(t, platform, p, now, parseDate) == t
  {
  }

  lemma ProcessInstantlyValid(t: Tables, p: Payload, now: Time)
    requires Valid(t)
    ensures Valid(ProcessInstantly(t, p, now))
  {
    if InstantlyComplete(p) {
      var ext := Field(p, "workspace").value;
      ResolveWorkspaceValid(t, ext, DefaultWorkspaceName(ext));
      UpsertLeadValid(InstantlyWorkspace(t, p).0, InstantlyLeadKey(t, p), None, NoProfile, NoUpdate);
      var (t2, lead) := InstantlyLeadStage(t, p);
      var campaignName := Field(p, "campaign_name");
      var update := ConversationUpdate(now, OrUndefined(campaignName));
      UpsertConversationValid(t2, InstantlyConversationKey(t, p), lead.id, Field(p, "campaign_id"),
                              campaignName, now, update);
      var (t3, conversation) := UpsertConversation(t2, InstantlyConversationKey(t, p), lead.id,
                                                   Field(p, "campaign_id"), campaignName, now, update);
      UpsertMessageValid(t3, MessageKey(INSTANTLY, Field(p, "email_id").value), InstantlyDraft(p, conversation.id, now));
    }
  }

  lemma PlusVibeConversationStageValid(t: Tables, p: Payload, now: Time)
    requires Valid(t) && PlusVibeComplete(p)
    ensures Valid(PlusVibeConversationStage(t, p, now).0)
  {
    ResolveWorkspaceValid(t, Field(p, "workspace_id").value, PlusVibeWorkspaceName(p));
    UpsertLeadValid(PlusVibeWorkspace(t, p).0, PlusVibeLeadKey(t, p), Field(p, "lead_id"),
                    PlusVibeProfile(p), PlusVibeUpdate(p));
    var (t2, lead) := PlusVibeLeadStage(t, p);
    var campaignName := OrUndefined(Field(p, "campaign_name"));
    UpsertConversationValid(t2, PlusVibeConversationKey(p), lead.id, OrUndefined(Field(p, "campaign_id")),
                            campaignName, now, ConversationUpdate(now, campaignName));
  }

  lemma ProcessPlusVibeValid(t: Tables, p: Payload, now: Time, parseDate: string -> Option<Time>)
    requires Valid(t)
    ensures Valid(ProcessPlusVibe(t, p, now, parseDate))
  {
    if PlusVibeComplete(p) {
      PlusVibeConversationStageValid(t, p, now);
      var (t3, conversation) := PlusVibeConversationStage(t, p, now);
      var sentAt := PlusVibeSentAt(p, now, parseDate);
      if sentAt.Some? {
        var key := MessageKey(PLUSVIBE, Field(p, "last_email_id").value);
        var draft := PlusVibeDraft(p, conversation.id, sentAt.value);
        assert ProcessPlusVibe(t, p, now, parseDate) == UpsertMessage(t3, key, draft);
        UpsertMessageValid(t3, key, draft);
      } else {
        assert ProcessPlusVibe(t, p, now, parseDate) == t3;
      }
    }
  }

  lemma ProcessJobValid(t: Tables, platform: string, p: Payload, now: Time, parseDate: string -> Option<Time>)
    requires Valid(t)
    ensures Valid(ProcessJob(t, platform, p, now, parseDate))
  {
    if platform == "instantly" {
      ProcessInstantlyValid(t, p, now);
    } else if platform == "plusvibe" {
      ProcessPlusVibeValid(t, p, now, parseDate);
    }
  }

  /** Workspace resolution reuses the row with that externalId, or creates
      exactly one named "Workspace " and the id's first 8 characters. */
  lemma InstantlyWorkspaceResolution(t: Tables, p: Payload, now: Time)
    requires InstantlyComplete(p)
    ensures var ext := Field(p, "workspace").value;
            var r := ProcessInstantly(t, p, now);
            && (ext in t.workspaces ==> r.workspaces == t.workspaces)
            && (ext !in t.workspaces ==>
                  r.workspaces == t.workspaces[ext := Workspace(t.nextId, ext, "Workspace " + Prefix(ext, 8))])
  {
  }

  /** The same for PlusVibe, where a non-empty workspace_name wins. */
  lemma PlusVibeWorkspaceResolution(t: Tables, p: Payload, now: Time, parseDate: string -> Option<Time>)
    requires PlusVibeComplete(p)
    ensures var ext := Field(p, "workspace_id").value;
            var name := if Truthy(Field(p, "workspace_name")) then Field(p, "workspace_name").value
                        else "Workspace " + Prefix(ext, 8);
            var r := ProcessPlusVibe(t, p, now, parseDate);
            && (ext in t.workspaces ==> r.workspaces == t.workspaces)
            && (ext !in t.workspaces ==> r.workspaces == t.workspaces[ext := Workspace(t.nextId, ext, name)])
  {
  }

  /** An Instantly payload adds at most the one lead it names and never
      changes a stored lead. */
  lemma InstantlyNeverUpdatesLeads(t: Tables, p: Payload, now: Time)
    requires InstantlyComplete(p)
    ensures var r := ProcessInstantly(t, p, now);
            && r.leads.Keys == t.leads.Keys + {InstantlyLeadKey(t, p)}
            && (forall k :: k in t.leads ==> r.leads[k] == t.leads[k])
  {
  }

  /** A PlusVibe payload overwrites the stored lead's first name, last name and
      company with each of those fields it carries, a `null` one clearing the
      stored value, keeps the absent ones, and touches nothing else of the
      lead nor any other lead; a new lead gets the payload's profile and
      lead_id. */
  lemma PlusVibeLeadMerge(t: Tables, p: Payload, now: Time, parseDate: string -> Option<Time>)
    requires PlusVibeComplete(p)
    ensures var r := ProcessPlusVibe(t, p, now, parseDate);
            var key := PlusVibeLeadKey(t, p);
            && r.leads.Keys == t.leads.Keys + {key}
            && (forall k :: k in t.leads && k != key ==> r.leads[k] == t.leads[k])
            && (key in t.leads ==>
                  var stored := t.leads[key].profile;
                  && r.leads[key] == t.leads[key].(profile := r.leads[key].profile)
                  && r.leads[key].profile.firstName ==
                       (if "first_name" in p then Field(p, "first_name") else stored.firstName)
                  && r.leads[key].profile.lastName ==
                       (if "last_name" in p then Field(p, "last_name") else stored.lastName)
                  && r.leads[key].profile.companyName ==
                       (if "company_name" in p then Field(p, "company_name") else stored.companyName))
            && (key !in t.leads ==>
                  && r.leads[key].profile == PlusVibeProfile(p)
                  && r.leads[key].externalLeadId == Field(p, "lead_id"))
  {
  }

  /** The leads a PlusVibe payload leaves are those of its lead stage. */
  lemma PlusVibeLeadsOfStage(t: Tables, p: Payload, now: Time, parseDate: string -> Option<Time>)
    requires PlusVibeComplete(p)
    ensures ProcessPlusVibe(t, p, now, parseDate).leads == PlusVibeLeadStage(t, p).0.leads
  {
  }

  /** Sending first_name as `null` changes neither the guard nor the lead
      the payload names, and asks the update to clear the first name. */
  lemma NullFirstNameSameLead(t: Tables, p: Payload)
    requires PlusVibeComplete(p)
    ensures var q := p["first_name" := JNull];
            PlusVibeComplete(q) && PlusVibeLeadKey(t, q) == PlusVibeLeadKey(t, p) && PlusVibeUpdate(q).firstName == Write(None)
  {
    var q := p["first_name" := JNull];
    assert Field(q, "from_email") == Field(p, "from_email") && Field(q, "thread_id") == Field(p, "thread_id");
    assert Field(q, "last_email_id") == Field(p, "last_email_id");
    assert Field(q, "workspace_id") == Field(p, "workspace_id");
    assert Field(q, "workspace_name") == Field(p, "workspace_name");
    assert PlusVibeWorkspace(t, q) == PlusVibeWorkspace(t, p);
  }

  /** A stored name is kept when the payload leaves first_name out, and
      cleared when the payload sends first_name as `null`. */
  lemma PlusVibeNullClearsName(t: Tables, p: Payload, now: Time, parseDate: string -> Option<Time>, name: string)
    requires PlusVibeComplete(p) && PlusVibeLeadKey(t, p) in t.leads
    requires t.leads[PlusVibeLeadKey(t, p)].profile.firstName == Some(name)
    ensures var r, key := ProcessPlusVibe(t, p, now, parseDate), PlusVibeLeadKey(t, p);
            "first_name" !in p ==> key in r.leads && r.leads[key].profile.firstName == Some(name)
    ensures var q := p["first_name" := JNull];
            var r, key := ProcessPlusVibe(t, q, now, parseDate), PlusVibeLeadKey(t, p);
            PlusVibeComplete(q) && PlusVibeLeadKey(t, q) == key && key in r.leads && r.leads[key].profile.firstName == None
  {
    PlusVibeLeadsOfStage(t, p, now, parseDate);
    NullFirstNameSameLead(t, p);
    PlusVibeLeadsOfStage(t, p["first_name" := JNull], now, parseDate);
  }


  /** Distinct (email_id, lead) pairs give distinct Instantly thread ids: the
      lead's id is all digits, so the last '-' separates the two parts. */
  lemma {:induction false} InstantlyThreadIdInjective(e1: string, l1: Id, e2: string, l2: Id)
    requires InstantlyThreadId(e1, l1) == InstantlyThreadId(e2, l2)
    ensures e1 == e2 && l1 == l2
  {
    NatToStringDigits(l1);
    NatToStringDigits(l2);
    var a1, a2 := "instantly-" + e1, "instantly-" + e2;
    SplitAtLastDash(a1, NatToString(l1), a2, NatToString(l2));
    NatToStringInjective(l1, l2);
    assert e1 == a1[10..] == a2[10..] == e2;
  }

  /** Equal PlusVibe thread ids come from equal thread_ids. */
  lemma PlusVibeThreadIdInjective(x: string, y: string)
    requires PlusVibeThreadId(x) == PlusVibeThreadId(y)
    ensures x == y
  {
    assert x == PlusVibeThreadId(x)[9..] == PlusVibeThreadId(y)[9..] == y;
  }

  /** Two Instantly payloads with the same email_id from two different leads
      end up in two different conversations; the second payload's message is
      not stored, because the message key is the email_id alone. */
  lemma InstantlySharedEmailIdSplitsConversations(t: Tables, p1: Payload, p2: Payload, n1: Time, n2: Time)
    requires Valid(t) && InstantlyComplete(p1) && InstantlyComplete(p2)
    requires Field(p1, "email_id") == Field(p2, "email_id")
    requires Field(p1, "lead_email") != Field(p2, "lead_email")
    ensures var t1 := ProcessInstantly(t, p1, n1);
            var t2 := ProcessInstantly(t1, p2, n2);
            var k1, k2 := InstantlyConversationKey(t, p1), InstantlyConversationKey(t1, p2);
            && k1 in t2.conversations && k2 in t2.conversations && k1 != k2
            && t2.messages == t1.messages
  {
    var t1 := ProcessInstantly(t, p1, n1);
    ProcessInstantlyValid(t, p1, n1);
    var (s1, lead1) := InstantlyLeadStage(t, p1);
    var (s2, lead2) := InstantlyLeadStage(t1, p2);
    var lk1, lk2 := InstantlyLeadKey(t, p1), InstantlyLeadKey(t1, p2);
    assert lk1 != lk2;
    assert t1.leads == s1.leads;
    assert lk1 in t1.leads && t1.leads[lk1] == lead1;
    ResolveWorkspaceValid(t1, Field(p2, "workspace").value, DefaultWorkspaceName(Field(p2, "workspace").value));
    UpsertLeadValid(InstantlyWorkspace(t1, p2).0, lk2, None, NoProfile, NoUpdate);
    assert s2.leads[lk1] == lead1 && s2.leads[lk2] == lead2;
    assert lead1.id != lead2.id;
    var e := Field(p1, "email_id").value;
    if InstantlyThreadId(e, lead1.id) == InstantlyThreadId(e, lead2.id) {
      InstantlyThreadIdInjective(e, lead1.id, e, lead2.id);
    }
  }

  /** Two PlusVibe payloads with the same thread_id share one conversation
      whatever lead sent them; the conversation keeps its id and the lead that
      created it. */
  lemma PlusVibeSharedThread(t: Tables, p1: Payload, p2: Payload, n1: Time, n2: Time, parseDate: string -> Option<Time>)
    requires PlusVibeComplete(p1) && PlusVibeComplete(p2)
    requires Field(p1, "thread_id") == Field(p2, "thread_id")
    ensures var t1 := ProcessPlusVibe(t, p1, n1, parseDate);
            var t2 := ProcessPlusVibe(t1, p2, n2, parseDate);
            var k := PlusVibeConversationKey(p1);
            && PlusVibeConversationKey(p2) == k
            && k in t1.conversations
            && t2.conversations.Keys == t1.conversations.Keys
            && t2.conversations[k].id == t1.conversations[k].id
            && t2.conversations[k].leadId == t1.conversations[k].leadId
            && (k !in t.conversations ==> t1.conversations[k].leadId == PlusVibeLeadStage(t, p1).1.id)
  {
    var t1 := ProcessPlusVibe(t, p1, n1, parseDate);
    PlusVibeConversationUpsert(t, p1, n1, parseDate);
    PlusVibeConversationUpsert(t1, p2, n2, parseDate);
  }

  /** On a conversation that already exists, an Instantly payload sets
      lastMessageAt to now and replaces campaignName only with a non-empty
      campaign_name; status, campaignId, leadId and every other conversation
      stay as they were. A new conversation is OPEN and unassigned. */
  lemma InstantlyConversationUpsert(t: Tables, p: Payload, now: Time)
    requires InstantlyComplete(p)
    ensures var r := ProcessInstantly(t, p, now);
            var k := InstantlyConversationKey(t, p);
            var cn := Field(p, "campaign_name");
            && r.conversations.Keys == t.conversations.Keys + {k}
            && (forall k' :: k' in t.conversations && k' != k ==> r.conversations[k'] == t.conversations[k'])
            && (k in t.conversations ==>
                  r.conversations[k] == t.conversations[k].(lastMessageAt := now,
                    campaignName := if Truthy(cn) then cn else t.conversations[k].campaignName))
            && (k !in t.conversations ==>
                  r.conversations[k] == Conversation(r.conversations[k].id, InstantlyLeadStage(t, p).1.id, INSTANTLY,
                                                     k.externalThreadId, Field(p, "campaign_id"), cn, OPEN, now, None))
  {
  }

  /** The same rule for PlusVibe; a new conversation drops an empty
      campaign_id or campaign_name. */
  lemma PlusVibeConversationUpsert(t: Tables, p: Payload, now: Time, parseDate: string -> Option<Time>)
    requires PlusVibeComplete(p)
    ensures var r := ProcessPlusVibe(t, p, now, parseDate);
            var k := PlusVibeConversationKey(p);
            var cn := Field(p, "campaign_name");
            && r.conversations.Keys == t.conversations.Keys + {k}
            && (forall k' :: k' in t.conversations && k' != k ==> r.conversations[k'] == t.conversations[k'])
            && (k in t.conversations ==>
                  r.conversations[k] == t.conversations[k].(lastMessageAt := now,
                    campaignName := if Truthy(cn) then cn else t.conversations[k].campaignName))
            && (k !in t.conversations ==>
                  r.conversations[k] == Conversation(r.conversations[k].id, PlusVibeLeadStage(t, p).1.id, PLUSVIBE,
                                                     k.externalThreadId, OrUndefined(Field(p, "campaign_id")),
                                                     OrUndefined(cn), OPEN, now, None))
  {
  }

  /** A new Instantly message is inbound, its subject defaults to "Re:", its
      HTML body falls back to the reply text, and it hangs off the payload's
      conversation. */
  lemma InstantlyCreatedMessage(t: Tables, p: Payload, now: Time)
    requires InstantlyComplete(p)
    requires MessageKey(INSTANTLY, Field(p, "email_id").value) !in t.messages
    ensures var r := ProcessInstantly(t, p, now);
            var mk := MessageKey(INSTANTLY, Field(p, "email_id").value);
            var m := r.messages[mk];
            && r.messages.Keys == t.messages.Keys + {mk}
            && m.direction == IN
            && m.subject == OrElse(Field(p, "reply_subject"), "Re:")
            && m.bodyText == Some(OrElse(Field(p, "reply_text"), ""))
            && m.bodyHtml == Some(OrElse(Field(p, "reply_html"), m.bodyText.value))
            && m.fromEmail == Field(p, "lead_email").value
            && m.toEmail == OrElse(Field(p, "email_account"), "")
            && m.sentAt == now
            && m.metadata.eaccount == Field(p, "email_account")
            && m.conversationId == r.conversations[InstantlyConversationKey(t, p)].id
  {
  }

  /** A new PlusVibe message is inbound, bodyText = text_body || body || "",
      bodyHtml = body || text_body || "", and sentAt comes from modified_at,
      else created_at, else now. */
  lemma PlusVibeCreatedMessage(t: Tables, p: Payload, now: Time, parseDate: string -> Option<Time>)
    requires PlusVibeComplete(p) && !PlusVibeThrows(p, now, parseDate)
    requires MessageKey(PLUSVIBE, Field(p, "last_email_id").value) !in t.messages
    ensures var r := ProcessPlusVibe(t, p, now, parseDate);
            var mk := MessageKey(PLUSVIBE, Field(p, "last_email_id").value);
            var m := r.messages[mk];
            var body, textBody := Field(p, "body"), Field(p, "text_body");
            && r.messages.Keys == t.messages.Keys + {mk}
            && m.direction == IN
            && m.subject == OrElse(Field(p, "subject"), "Re:")
            && m.bodyText == Some(if Truthy(textBody) then textBody.value else if Truthy(body) then body.value else "")
            && m.bodyHtml == Some(if Truthy(body) then body.value else if Truthy(textBody) then textBody.value else "")
            && m.fromEmail == Field(p, "from_email").value
            && Some(m.sentAt) == PlusVibeSentAt(p, now, parseDate)
            && m.conversationId == r.conversations[PlusVibeConversationKey(p)].id
  {
  }

  /** A timestamp that does not parse stops the processor at the message
      upsert: the workspace, lead and conversation are written, the message
      table is as it was. */
  lemma PlusVibeInvalidDateStopsAtMessage(t: Tables, p: Payload, now: Time, parseDate: string -> Option<Time>)
    requires PlusVibeThrows(p, now, parseDate)
    ensures var r := ProcessPlusVibe(t, p, now, parseDate);
            && r.messages == t.messages
            && Field(p, "workspace_id").value in r.workspaces
            && PlusVibeLeadKey(t, p) in r.leads
            && PlusVibeConversationKey(p) in r.conversations
  {
  }

  /** A message already stored under the payload's key is never rewritten. */
  lemma KnownMessageIsKept(t: Tables, platform: string, p: Payload, now: Time, parseDate: string -> Option<Time>)
    requires platform == "instantly" ==>
               InstantlyComplete(p) && MessageKey(INSTANTLY, Field(p, "email_id").value) in t.messages
    requires platform == "plusvibe" ==>
               PlusVibeComplete(p) && MessageKey(PLUSVIBE, Field(p, "last_email_id").value) in t.messages
    ensures ProcessJob(t, platform, p, now, parseDate).messages == t.messages
  {
  }

  /** An Instantly payload whose workspace, lead, conversation and message
      are all already stored only moves the conversation's lastMessageAt
      (campaignName is rewritten with the value it already holds). */
  lemma InstantlyRevisit(t: Tables, p: Payload, now: Time)
    requires InstantlyComplete(p)
    requires Field(p, "workspace").value in t.workspaces
    requires InstantlyLeadKey(t, p) in t.leads
    requires InstantlyConversationKey(t, p) in t.conversations
    requires Truthy(Field(p, "campaign_name")) ==>
               t.conversations[InstantlyConversationKey(t, p)].campaignName == Field(p, "campaign_name")
    requires MessageKey(INSTANTLY, Field(p, "email_id").value) in t.messages
    ensures var k := InstantlyConversationKey(t, p);
            ProcessInstantly(t, p, now) == t.(conversations := t.conversations[k := t.conversations[k].(lastMessageAt := now)])
  {
    var key := InstantlyLeadKey(t, p);
    assert InstantlyWorkspace(t, p).0 == t;
    UpsertLeadStable(t, key, None, NoProfile, NoUpdate);
    assert InstantlyLeadStage(t, p) == (t, t.leads[key]);
  }

  /** After one Instantly payload, its workspace, lead, conversation and
      message are stored, and the conversation holds the campaign name. */
  lemma InstantlyLeavesRecords(t: Tables, p: Payload, now: Time)
    requires InstantlyComplete(p)
    ensures var t1 := ProcessInstantly(t, p, now);
            && Field(p, "workspace").value in t1.workspaces
            && InstantlyWorkspace(t1, p).1 == InstantlyWorkspace(t, p).1
            && InstantlyLeadKey(t1, p) == InstantlyLeadKey(t, p)
            && InstantlyLeadKey(t, p) in t1.leads && t1.leads[InstantlyLeadKey(t, p)] == InstantlyLeadStage(t, p).1
            && InstantlyConversationKey(t1, p) == InstantlyConversationKey(t, p)
            && InstantlyConversationKey(t, p) in t1.conversations
            && (Truthy(Field(p, "campaign_name")) ==>
                  t1.conversations[InstantlyConversationKey(t, p)].campaignName == Field(p, "campaign_name"))
            && MessageKey(INSTANTLY, Field(p, "email_id").value) in t1.messages
  {
  }

  /** Processing the same Instantly payload again changes nothing but the
      conversation's lastMessageAt: one message per email_id, with the fields
      the first call gave it, and no new workspace, lead or conversation. */
  lemma InstantlyReplayIsIdempotent(t: Tables, p: Payload, n1: Time, n2: Time)
    ensures var t1 := ProcessInstantly(t, p, n1);
            InstantlyComplete(p) ==>
              var k := InstantlyConversationKey(t, p);
              && k in t1.conversations
              && ProcessInstantly(t1, p, n2) == t1.(conversations := t1.conversations[k := t1.conversations[k].(lastMessageAt := n2)])
  {
    if InstantlyComplete(p) {
      InstantlyLeavesRecords(t, p, n1);
      var t1 := ProcessInstantly(t, p, n1);
      InstantlyRevisit(t1, p, n2);
    }
  }

  /** The PlusVibe counterpart of InstantlyRevisit; the lead's profile must
      already carry what the payload supplies. */
  lemma PlusVibeRevisit(t: Tables, p: Payload, now: Time, parseDate: string -> Option<Time>)
    requires PlusVibeComplete(p)
    requires Field(p, "workspace_id").value in t.workspaces
    requires PlusVibeLeadKey(t, p) in t.leads
    requires MergeProfile(t.leads[PlusVibeLeadKey(t, p)].profile, PlusVibeUpdate(p)) == t.leads[PlusVibeLeadKey(t, p)].profile
    requires PlusVibeConversationKey(p) in t.conversations
    requires Truthy(Field(p, "campaign_name")) ==>
               t.conversations[PlusVibeConversationKey(p)].campaignName == Field(p, "campaign_name")
    requires !PlusVibeThrows(p, now, parseDate) ==> MessageKey(PLUSVIBE, Field(p, "last_email_id").value) in t.messages
    ensures var k := PlusVibeConversationKey(p);
            ProcessPlusVibe(t, p, now, parseDate) ==
              t.(conversations := t.conversations[k := t.conversations[k].(lastMessageAt := now)])
  {
    var key := PlusVibeLeadKey(t, p);
    assert PlusVibeWorkspace(t, p).0 == t;
    UpsertLeadStable(t, key, Field(p, "lead_id"), PlusVibeProfile(p), PlusVibeUpdate(p));
    assert PlusVibeLeadStage(t, p) == (t, t.leads[key]);
  }

  lemma PlusVibeLeavesRecords(t: Tables, p: Payload, now: Time, parseDate: string -> Option<Time>)
    requires PlusVibeComplete(p)
    ensures var t1 := ProcessPlusVibe(t, p, now, parseDate);
            && Field(p, "workspace_id").value in t1.workspaces
            && PlusVibeWorkspace(t1, p).1 == PlusVibeWorkspace(t, p).1
            && PlusVibeLeadKey(t1, p) == PlusVibeLeadKey(t, p)
            && PlusVibeLeadKey(t, p) in t1.leads && t1.leads[PlusVibeLeadKey(t, p)] == PlusVibeLeadStage(t, p).1
            && PlusVibeConversationKey(p) in t1.conversations
            && (Truthy(Field(p, "campaign_name")) ==>
                  t1.conversations[PlusVibeConversationKey(p)].campaignName == Field(p, "campaign_name"))
            && (!PlusVibeThrows(p, now, parseDate) ==> MessageKey(PLUSVIBE, Field(p, "last_email_id").value) in t1.messages)
  {
  }

  /** The same for PlusVibe: re-applying the supplied profile is a no-op, and
      a payload whose timestamp does not parse stops at the same place again. */
  lemma PlusVibeReplayIsIdempotent(t: Tables, p: Payload, n1: Time, n2: Time, parseDate: string -> Option<Time>)
    ensures var t1 := ProcessPlusVibe(t, p, n1, parseDate);
            PlusVibeComplete(p) ==>
              var k := PlusVibeConversationKey(p);
              && k in t1.conversations
              && ProcessPlusVibe(t1, p, n2, parseDate) ==
                   t1.(conversations := t1.conversations[k := t1.conversations[k].(lastMessageAt := n2)])
  {
    if PlusVibeComplete(p) {
      PlusVibeLeavesRecords(t, p, n1, parseDate);
      var t1 := ProcessPlusVibe(t, p, n1, parseDate);
      var key := PlusVibeLeadKey(t, p);
      var w := PlusVibeWorkspace(t, p).0;
      if key in w.leads {
        MergeProfileIdempotent(w.leads[key].profile, PlusVibeUpdate(p));
      }
      PlusVibeRevisit(t1, p, n2, parseDate);
    }
  }
}

/** The pull reconciler (apps/api/src/routes/sync.ts, `POST /run`): for each
    of the caller's platform connections it lists recent emails from the
    platform and reconciles every email that has an id and a lead through the
    same get-or-create and upsert chain as the webhooks, counting them. A
    listing that throws aborts the whole run with a 500, and so does a store
    write that throws: the store refuses an Invalid Date, so an email whose
    timestamp does not parse stops the run at its conversation upsert, after
    its workspace and lead writes. Whatever was written before stays written.

    The platform listing calls are the parameter `fetch` of `SyncEnv`, the
    clock and date parsing its `now` and `parseDate` (None for an Invalid
    Date), and the text the route renders from the store's error its
    `storeError`. `RunTables` and
    `RunResponse` say what a run leaves in the store and what it answers;
    `RunSync` performs it with the route's nested loops. */
module Sync {
  import opened Common
  import opened Domain
  import opened Store
  import opened Database
  import opened WebhookProcessor

  /** One element of a listing, with the fields the route reads; `bodyText`
      and `bodyHtml` are `body?.text` and `body?.html`. */
  datatype ListedEmail = ListedEmail(
    id: Option<string>, lead: Option<string>, leadId: Option<string>, campaignId: Option<string>,
    threadId: Option<string>, organizationId: Option<string>,
    bodyText: Option<string>, bodyHtml: Option<string>, subject: Option<string>,
    fromAddressEmail: Option<string>, toAddressEmailList: Option<string>,
    timestampEmail: Option<string>, timestampCreated: Option<string>, eaccount: Option<string>)

  /** What a listing call gives back: a body (None when it is not an array, or
      has no `data`), or the error it threw. */
  datatype ListResponse = Listed(body: Option<seq<ListedEmail>>) | Threw(error: string)

  /** `{ success: true, processed }`, or status 500 with `{ error }`. */
  datatype SyncResponse = SyncOk(processed: nat) | SyncFailed(error: string)

  datatype SyncEnv = SyncEnv(now: Time, parseDate: string -> Option<Time>, fetch: PlatformConnection -> ListResponse,
                             storeError: string)

  /** `findMany({ where: { userId } })`: the caller's connections, in order. */
  function ConnectionsOf(connections: seq<PlatformConnection>, userId: string): (r: seq<PlatformConnection>)
    ensures forall c :: c in r ==> c in connections && c.userId == userId
    ensures forall c :: c in connections && c.userId == userId ==> c in r
    ensures |r| <= |connections|
  {
    if connections == [] then []
    else (if connections[0].userId == userId then [connections[0]] else []) + ConnectionsOf(connections[1..], userId)
  }

  /** The connections the loop lists: every Instantly one, and PlusVibe ones
      with a workspace id. */
  predicate Qualifies(c: PlatformConnection) {
    c.platform == INSTANTLY || (c.platform == PLUSVIBE && Truthy(c.workspaceId))
  }

  /** `if (!e.id || !e.lead) continue;` skips the rest. */
  predicate Accepted(e: ListedEmail) {
    Truthy(e.id) && Truthy(e.lead)
  }

  /** `new Date(ts || Date.now())`; None is an Invalid Date. */
  function SyncTime(ts: Option<string>, env: SyncEnv): Option<Time> {
    if Truthy(ts) then env.parseDate(ts.value) else Some(env.now)
  }

  /** The emails of a listing that did not throw; a missing body is empty. */
  function ListedEmails(r: ListResponse): seq<ListedEmail>
    requires r.Listed?
  {
    if r.body.Some? then r.body.value else []
  }

  // ------------------------------------------------------------ one email

  /** Everything one accepted email contributes, once the platform-specific
      choices have been made. */
  datatype SyncTarget = SyncTarget(
    platform: Platform, org: string, leadEmail: string, externalLeadId: Option<string>,
    threadRoot: string, campaignId: Option<string>, messageId: string, at: Option<Time>,
    subject: string, bodyText: Option<string>, bodyHtml: Option<string>,
    fromEmail: string, toEmail: string, metadata: MessageMeta)

  /** The Instantly branch: organization "instantly-default" when absent. */
  function InstantlyTarget(e: ListedEmail, env: SyncEnv): SyncTarget
    requires Accepted(e)
  {
    SyncTarget(INSTANTLY, OrElse(e.organizationId, "instantly-default"), e.lead.value, None,
               OrElse(e.threadId, e.id.value), e.campaignId, e.id.value, SyncTime(e.timestampEmail, env),
               OrElse(e.subject, "Re:"), e.bodyText, e.bodyHtml,
               OrElse(e.fromAddressEmail, e.lead.value), OrElse(e.toAddressEmailList, ""),
               MessageMeta(e.eaccount, None, None))
  }

  /** The PlusVibe branch: the connection's workspace, the lead's platform id,
      and the creation timestamp. */
  function PlusVibeTarget(workspaceId: string, e: ListedEmail, env: SyncEnv): SyncTarget
    requires Accepted(e)
  {
    SyncTarget(PLUSVIBE, workspaceId, e.lead.value, e.leadId,
               OrElse(e.threadId, e.id.value), e.campaignId, e.id.value, SyncTime(e.timestampCreated, env),
               OrElse(e.subject, "Re:"), e.bodyText, e.bodyHtml,
               OrElse(e.fromAddressEmail, e.lead.value), OrElse(e.toAddressEmailList, ""),
               MessageMeta(e.eaccount, None, e.toAddressEmailList))
  }

  function TargetOf(c: PlatformConnection, e: ListedEmail, env: SyncEnv): (g: SyncTarget)
    requires Qualifies(c) && Accepted(e)
    ensures g.platform == c.platform && g.leadEmail == e.lead.value && g.messageId == e.id.value
    ensures g.org == (if c.platform == INSTANTLY then OrElse(e.organizationId, "instantly-default") else c.workspaceId.value)
  {
    if c.platform == INSTANTLY then InstantlyTarget(e, env) else PlusVibeTarget(c.workspaceId.value, e, env)
  }

  /** The thread ids the webhooks derive, from `thread_id || id`. */
  function SyncThreadId(platform: Platform, root: string, leadId: Id): string {
    if platform == INSTANTLY then InstantlyThreadId(root, leadId) else PlusVibeThreadId(root)
  }

  function TargetLeadKey(t: Tables, g: SyncTarget): LeadKey {
    LeadKey(g.leadEmail, ResolveWorkspace(t, g.org, "Workspace").1.id, g.platform)
  }

  function TargetLead(t: Tables, g: SyncTarget): (Tables, Lead) {
    UpsertLead(ResolveWorkspace(t, g.org, "Workspace").0, TargetLeadKey(t, g), g.externalLeadId, NoProfile, NoUpdate)
  }

  function TargetThreadKey(t: Tables, g: SyncTarget): ThreadKey {
    ThreadKey(g.platform, SyncThreadId(g.platform, g.threadRoot, TargetLead(t, g).1.id))
  }

  function TargetDraft(g: SyncTarget, conversationId: Id, at: Time): MessageDraft {
    MessageDraft(conversationId, IN, g.subject, g.bodyText, g.bodyHtml, g.fromEmail, g.toEmail, at, g.metadata)
  }

  /** One loop iteration: workspace named "Workspace" if new, a lead upsert with
      an empty update, a conversation upsert whose update only sets
      lastMessageAt, and a message inserted if its id is new. With an Invalid
      Date the conversation upsert throws, leaving the first two writes. */
  function SyncStep(t: Tables, g: SyncTarget): Tables {
    var (t2, lead) := TargetLead(t, g);
    if g.at.None? then t2
    else
      var at := g.at.value;
      var (t3, conversation) := UpsertConversation(t2, TargetThreadKey(t, g), lead.id, g.campaignId, None, at,
                                                   ConversationUpdate(at, None));
      UpsertMessage(t3, MessageKey(g.platform, g.messageId), TargetDraft(g, conversation.id, at))
  }

  /** The email is reconciled and its timestamp does not parse. */
  predicate BadDate(c: PlatformConnection, e: ListedEmail, env: SyncEnv)
    requires Qualifies(c)
  {
    Accepted(e) && TargetOf(c, e, env).at.None?
  }

  /** The inner loop throws on this listing: some reconciled email has a
      timestamp that does not parse. */
  predicate DateFails(c: PlatformConnection, es: seq<ListedEmail>, env: SyncEnv)
    requires Qualifies(c)
    decreases |es|
  {
    es != [] && (DateFails(c, es[..|es| - 1], env) || BadDate(c, es[|es| - 1], env))
  }

  /** The inner loop over one listing (a fold from the left); nothing more is
      written once an email has thrown. */
  function SyncEmails(t: Tables, c: PlatformConnection, es: seq<ListedEmail>, env: SyncEnv): Tables
    requires Qualifies(c)
    decreases |es|
  {
    if es == [] then t
    else
      var prev := es[..|es| - 1];
      var t1 := SyncEmails(t, c, prev, env);
      var e := es[|es| - 1];
      if DateFails(c, prev, env) || !Accepted(e) then t1 else SyncStep(t1, TargetOf(c, e, env))
  }

  /** The number of accepted emails in a listing. */
  function CountAccepted(es: seq<ListedEmail>): (n: nat)
    ensures n <= |es|
  {
    if es == [] then 0 else (if Accepted(es[0]) then 1 else 0) + CountAccepted(es[1..])
  }

  // --------------------------------------------------------- the whole run

  /** The connection's turn of the outer loop throws: its listing does, or a
      store write on one of its emails does. */
  predicate Fails(c: PlatformConnection, env: SyncEnv) {
    Qualifies(c) && (env.fetch(c).Threw? || DateFails(c, ListedEmails(env.fetch(c)), env))
  }

  /** The error a failing turn reports. */
  function FailureOf(c: PlatformConnection, env: SyncEnv): string {
    if env.fetch(c).Threw? then env.fetch(c).error else env.storeError
  }

  /** The answer after the connections so far: the first turn that throws
      decides it; otherwise the count of accepted emails. */
  function RunResponse(conns: seq<PlatformConnection>, env: SyncEnv): SyncResponse
    decreases |conns|
  {
    if conns == [] then SyncOk(0)
    else
      var r := RunResponse(conns[..|conns| - 1], env);
      var c := conns[|conns| - 1];
      if r.SyncFailed? || !Qualifies(c) then r
      else if Fails(c, env) then SyncFailed(FailureOf(c, env))
      else SyncOk(r.processed + CountAccepted(ListedEmails(env.fetch(c))))
  }

  /** The store after the connections so far; nothing is written once a turn
      has thrown. */
  function RunTables(t: Tables, conns: seq<PlatformConnection>, env: SyncEnv): Tables
    decreases |conns|
  {
    if conns == [] then t
    else
      var prev := conns[..|conns| - 1];
      var t1 := RunTables(t, prev, env);
      var c := conns[|conns| - 1];
      if RunResponse(prev, env).SyncFailed? || !Qualifies(c) || env.fetch(c).Threw? then t1
      else SyncEmails(t1, c, ListedEmails(env.fetch(c)), env)
  }

  // ------------------------------------------------------------- the methods

  /** The store calls of one loop iteration; returns whether the
      conversation upsert threw. */
  method SyncOne(db: Db, g: SyncTarget) returns (threw: bool)
    requires db.Valid()
    modifies db
    ensures db.Valid()
    ensures db.Snapshot() == SyncStep(old(db.Snapshot()), g)
    ensures threw <==> g.at.None?
  {
    var workspace := db.FindWorkspace(g.org);
    if workspace.None? {
      var created := db.CreateWorkspace(g.org, "Workspace");
      workspace := Some(created);
    }
    var lead := db.UpsertLead(LeadKey(g.leadEmail, workspace.value.id, g.platform), g.externalLeadId,
                              NoProfile, NoUpdate);
    if g.at.None? {
      return true;
    }
    var threadId := SyncThreadId(g.platform, g.threadRoot, lead.id);
    var conversation := db.UpsertConversation(ThreadKey(g.platform, threadId), lead.id, g.campaignId, None,
                                              g.at.value, ConversationUpdate(g.at.value, None));
    db.UpsertMessage(MessageKey(g.platform, g.messageId), TargetDraft(g, conversation.id, g.at.value));
    return false;
  }

  /** The inner loop: reconcile each accepted email and count it; returns
      whether a store write threw, which ends the loop. */
  method SyncListing(db: Db, c: PlatformConnection, emails: seq<ListedEmail>, env: SyncEnv)
    returns (count: nat, threw: bool)
    requires Qualifies(c) && db.Valid()
    modifies db
    ensures db.Valid()
    ensures db.Snapshot() == SyncEmails(old(db.Snapshot()), c, emails, env)
    ensures threw <==> DateFails(c, emails, env)
    ensures !threw ==> count == CountAccepted(emails)
  {
    ghost var t0 := db.Snapshot();
    count := 0;
    for j := 0 to |emails|
      invariant db.Valid()
      invariant db.Snapshot() == SyncEmails(t0, c, emails[..j], env)
      invariant !DateFails(c, emails[..j], env)
      invariant count == CountAccepted(emails[..j])
    {
      var e := emails[j];
      assert emails[..j + 1][..j] == emails[..j];
      CountAcceptedSnoc(emails[..j], e);
      assert emails[..j] + [e] == emails[..j + 1];
      if Accepted(e) {
        var failed := SyncOne(db, TargetOf(c, e, env));
        if failed {
          DateFailureFreezes(t0, c, emails, j + 1, env);
          return count, true;
        }
        count := count + 1;
      }
    }
    assert emails[..|emails|] == emails;
    return count, false;
  }

  /** `POST /run` for the caller `userId`. */
  method RunSync(db: Db, userId: string, env: SyncEnv) returns (res: SyncResponse)
    requires db.Valid()
    modifies db
    ensures db.Valid()
    ensures db.Snapshot() == RunTables(old(db.Snapshot()), ConnectionsOf(old(db.connections), userId), env)
    ensures res == RunResponse(ConnectionsOf(old(db.connections), userId), env)
  {
    ghost var t0 := db.Snapshot();
    var connections := ConnectionsOf(db.connections, userId);
    var processed := 0;
    for i := 0 to |connections|
      invariant db.Valid()
      invariant db.Snapshot() == RunTables(t0, connections[..i], env)
      invariant RunResponse(connections[..i], env) == SyncOk(processed)
    {
      var conn := connections[i];
      RunStep(t0, connections, i, env);
      if Qualifies(conn) {
        var listing := env.fetch(conn);
        if listing.Threw? {
          FailureSticks(connections, i + 1, env);
          FailureFreezesStore(t0, connections, i + 1, env);
          assert connections[..|connections|] == connections;
          return SyncFailed(listing.error);
        }
        var emails := if listing.body.Some? then listing.body.value else [];
        assert emails == ListedEmails(env.fetch(conn));
        var count, threw := SyncListing(db, conn, emails, env);
        if threw {
          assert RunResponse(connections[..i + 1], env) == SyncFailed(env.storeError);
          assert db.Snapshot() == RunTables(t0, connections[..i + 1], env);
          FailureSticks(connections, i + 1, env);
          FailureFreezesStore(t0, connections, i + 1, env);
          assert connections[..|connections|] == connections;
          return SyncFailed(env.storeError);
        }
        processed := processed + count;
      }
    }
    assert connections[..|connections|] == connections;
    return SyncOk(processed);
  }

  // --------------------------------------------------------------- counting

  /** One turn of the outer loop, while no turn has thrown. */
  lemma RunStep(t: Tables, conns: seq<PlatformConnection>, i: nat, env: SyncEnv)
    requires i < |conns| && RunResponse(conns[..i], env).SyncOk?
    ensures var c, r := conns[i], RunResponse(conns[..i], env);
            && (!Qualifies(c) ==>
                  RunTables(t, conns[..i + 1], env) == RunTables(t, conns[..i], env)
                  && RunResponse(conns[..i + 1], env) == r)
            && (Qualifies(c) && env.fetch(c).Threw? ==>
                  RunTables(t, conns[..i + 1], env) == RunTables(t, conns[..i], env)
                  && RunResponse(conns[..i + 1], env) == SyncFailed(env.fetch(c).error))
            && (Qualifies(c) && env.fetch(c).Listed? ==>
                  var es := ListedEmails(env.fetch(c));
                  && RunTables(t, conns[..i + 1], env) == SyncEmails(RunTables(t, conns[..i], env), c, es, env)
                  && RunResponse(conns[..i + 1], env) ==
                       if DateFails(c, es, env) then SyncFailed(env.storeError)
                       else SyncOk(r.processed + CountAccepted(es)))
  {
    assert conns[..i + 1][..i] == conns[..i];
  }

  lemma {:induction false} CountAcceptedSnoc(es: seq<ListedEmail>, e: ListedEmail)
    ensures CountAccepted(es + [e]) == CountAccepted(es) + (if Accepted(e) then 1 else 0)
    decreases |es|
  {
    if es != [] {
      assert (es + [e])[1..] == es[1..] + [e];
      CountAcceptedSnoc(es[1..], e);
    }
  }

  /** A store write that throws ends the inner loop: an email past it
      changes neither the outcome of the listing nor the store. */
  lemma {:induction false} DateFailureFreezes(t: Tables, c: PlatformConnection, es: seq<ListedEmail>, k: nat,
                                              env: SyncEnv)
    requires Qualifies(c) && k <= |es| && DateFails(c, es[..k], env)
    ensures DateFails(c, es, env)
    ensures SyncEmails(t, c, es, env) == SyncEmails(t, c, es[..k], env)
    decreases |es|
  {
    if k < |es| {
      var prev := es[..|es| - 1];
      assert prev[..k] == es[..k];
      DateFailureFreezes(t, c, prev, k, env);
    } else {
      assert es[..k] == es;
    }
  }

  /** The recursive reading of DateFails is the direct one: some accepted
      email of the listing has a timestamp that does not parse. */
  lemma {:induction false} DateFailsExactly(c: PlatformConnection, es: seq<ListedEmail>, env: SyncEnv)
    requires Qualifies(c)
    ensures DateFails(c, es, env) <==> exists j :: 0 <= j < |es| && BadDate(c, es[j], env)
    decreases |es|
  {
    if es != [] {
      var prev := es[..|es| - 1];
      DateFailsExactly(c, prev, env);
      if DateFails(c, prev, env) {
        var j :| 0 <= j < |prev| && BadDate(c, prev[j], env);
        assert es[j] == prev[j];
      }
      if exists j :: 0 <= j < |es| && BadDate(c, es[j], env) {
        var j :| 0 <= j < |es| && BadDate(c, es[j], env);
        if j < |prev| {
          assert prev[j] == es[j];
        }
      }
    }
  }

  /** Once a turn has thrown, later connections do not change the answer. */
  lemma {:induction false} FailureSticks(conns: seq<PlatformConnection>, k: nat, env: SyncEnv)
    requires k <= |conns| && RunResponse(conns[..k], env).SyncFailed?
    ensures RunResponse(conns, env) == RunResponse(conns[..k], env)
    decreases |conns|
  {
    if k < |conns| {
      var prev := conns[..|conns| - 1];
      assert prev[..k] == conns[..k];
      FailureSticks(prev, k, env);
    } else {
      assert conns[..k] == conns;
    }
  }

  /** ... nor what is in the store. */
  lemma {:induction false} FailureFreezesStore(t: Tables, conns: seq<PlatformConnection>, k: nat, env: SyncEnv)
    requires k <= |conns| && RunResponse(conns[..k], env).SyncFailed?
    ensures RunTables(t, conns, env) == RunTables(t, conns[..k], env)
    decreases |conns|
  {
    if k < |conns| {
      var prev := conns[..|conns| - 1];
      assert prev[..k] == conns[..k];
      FailureSticks(prev, k, env);
      FailureFreezesStore(t, prev, k, env);
    } else {
      assert conns[..k] == conns;
    }
  }

  /** The number of accepted emails over the qualifying connections, summed
      from the front. */
  function ExpectedProcessed(conns: seq<PlatformConnection>, env: SyncEnv): nat {
    if conns == [] then 0
    else
      var c := conns[0];
      (if Qualifies(c) && env.fetch(c).Listed? then CountAccepted(ListedEmails(env.fetch(c))) else 0)
      + ExpectedProcessed(conns[1..], env)
  }

  /** Some connection's turn throws. */
  predicate SomeConnectionFails(conns: seq<PlatformConnection>, env: SyncEnv) {
    exists i :: 0 <= i < |conns| && Fails(conns[i], env)
  }

  lemma {:induction false} ExpectedProcessedSnoc(conns: seq<PlatformConnection>, c: PlatformConnection, env: SyncEnv)
    ensures ExpectedProcessed(conns + [c], env) ==
            ExpectedProcessed(conns, env) +
            (if Qualifies(c) && env.fetch(c).Listed? then CountAccepted(ListedEmails(env.fetch(c))) else 0)
    decreases |conns|
  {
    if conns != [] {
      assert (conns + [c])[1..] == conns[1..] + [c];
      ExpectedProcessedSnoc(conns[1..], c, env);
    }
  }

  /** The run fails exactly when some qualifying connection's listing
      throws or has an accepted email whose timestamp does not parse, and
      otherwise answers the number of accepted emails over the qualifying
      connections; connections of other platforms, and PlusVibe ones without
      a workspace id, contribute nothing. */
  lemma {:induction false} RunResponseCounts(conns: seq<PlatformConnection>, env: SyncEnv)
    ensures RunResponse(conns, env).SyncFailed? <==> SomeConnectionFails(conns, env)
    ensures RunResponse(conns, env).SyncOk? ==> RunResponse(conns, env).processed == ExpectedProcessed(conns, env)
    decreases |conns|
  {
    if conns != [] {
      var prev := conns[..|conns| - 1];
      var c := conns[|conns| - 1];
      RunResponseCounts(prev, env);
      assert prev + [c] == conns;
      ExpectedProcessedSnoc(prev, c, env);
      if SomeConnectionFails(prev, env) {
        var i :| 0 <= i < |prev| && Fails(prev[i], env);
        assert conns[i] == prev[i];
      }
      if SomeConnectionFails(conns, env) {
        var i :| 0 <= i < |conns| && Fails(conns[i], env);
        if i < |prev| {
          assert prev[i] == conns[i];
        } else {
          assert conns[i] == c;
        }
      }
      if Fails(c, env) {
        assert conns[|conns| - 1] == c;
      }
    }
  }

  /** The error reported is that of the first connection whose turn throws:
      the listing's own error, or the store's. */
  lemma {:induction false} RunResponseFirstError(conns: seq<PlatformConnection>, i: nat, env: SyncEnv)
    requires i < |conns| && Fails(conns[i], env)
    requires !SomeConnectionFails(conns[..i], env)
    ensures RunResponse(conns, env) == SyncFailed(FailureOf(conns[i], env))
  {
    RunResponseCounts(conns[..i], env);
    assert conns[..i + 1][..i] == conns[..i];
    assert conns[..i + 1][i] == conns[i];
    FailureSticks(conns, i + 1, env);
  }

  // ------------------------------------------------------------ one email's effect

  /** u keeps every row of t: workspaces, leads and messages unchanged, every
      conversation unchanged but for lastMessageAt, and the other tables as
      they were. */
  ghost predicate Extends(t: Tables, u: Tables) {
    && (forall x :: x in t.workspaces ==> x in u.workspaces && u.workspaces[x] == t.workspaces[x])
    && (forall k :: k in t.leads ==> k in u.leads && u.leads[k] == t.leads[k])
    && (forall k :: k in t.conversations ==>
          k in u.conversations && u.conversations[k] == t.conversations[k].(lastMessageAt := u.conversations[k].lastMessageAt))
    && (forall k :: k in t.messages ==> k in u.messages && u.messages[k] == t.messages[k])
    && u.labels == t.labels && u.notes == t.notes && u.auditLogs == t.auditLogs
    && u.outgoingReplies == t.outgoingReplies && u.connections == t.connections
    && t.nextId <= u.nextId
  }

  /** u is t with some conversations' lastMessageAt moved and nothing else. */
  ghost predicate OnlyTimestampsMoved(t: Tables, u: Tables) {
    && u == t.(conversations := u.conversations)
    && u.conversations.Keys == t.conversations.Keys
    && (forall k :: k in t.conversations ==>
          u.conversations[k] == t.conversations[k].(lastMessageAt := u.conversations[k].lastMessageAt))
  }

  /** The rows an email's reconciliation writes are all present: the
      workspace and the lead, and with a valid timestamp the conversation and
      the message. */
  ghost predicate Synced(t: Tables, g: SyncTarget) {
    && g.org in t.workspaces
    && LeadKey(g.leadEmail, t.workspaces[g.org].id, g.platform) in t.leads
    && (g.at.Some? ==>
          && ThreadKey(g.platform, SyncThreadId(g.platform, g.threadRoot,
                                               t.leads[LeadKey(g.leadEmail, t.workspaces[g.org].id, g.platform)].id))
               in t.conversations
          && MessageKey(g.platform, g.messageId) in t.messages)
  }

  lemma ExtendsTransitive(t: Tables, u: Tables, v: Tables)
    requires Extends(t, u) && Extends(u, v)
    ensures Extends(t, v)
  {
  }

  lemma OnlyTimestampsMovedTransitive(t: Tables, u: Tables, v: Tables)
    requires OnlyTimestampsMoved(t, u) && OnlyTimestampsMoved(u, v)
    ensures OnlyTimestampsMoved(t, v)
  {
  }

  lemma SyncedPersists(t: Tables, u: Tables, g: SyncTarget)
    requires Extends(t, u) && Synced(t, g)
    ensures Synced(u, g)
  {
  }

  /** The workspace and lead writes of one email keep every existing row. */
  lemma TargetLeadExtends(t: Tables, g: SyncTarget)
    ensures var (t2, lead) := TargetLead(t, g);
            && Extends(t, t2)
            && g.org in t2.workspaces && t2.workspaces[g.org] == ResolveWorkspace(t, g.org, "Workspace").1
            && TargetLeadKey(t, g) in t2.leads && t2.leads[TargetLeadKey(t, g)] == lead
  {
    var (t1, w) := ResolveWorkspace(t, g.org, "Workspace");
    var (t2, lead) := TargetLead(t, g);
    assert Extends(t, t1);
    assert Extends(t1, t2);
    ExtendsTransitive(t, t1, t2);
  }

  /** One email keeps every existing row (an existing conversation only has
      its lastMessageAt moved) and leaves its own rows in place. */
  lemma SyncStepExtends(t: Tables, g: SyncTarget)
    ensures Extends(t, SyncStep(t, g)) && Synced(SyncStep(t, g), g)
  {
    TargetLeadExtends(t, g);
    var (t2, lead) := TargetLead(t, g);
    if g.at.Some? {
      var at := g.at.value;
      var k := TargetThreadKey(t, g);
      var (t3, conversation) := UpsertConversation(t2, k, lead.id, g.campaignId, None, at, ConversationUpdate(at, None));
      assert Extends(t2, t3);
      var t4 := SyncStep(t, g);
      assert t4 == UpsertMessage(t3, MessageKey(g.platform, g.messageId), TargetDraft(g, conversation.id, at));
      assert Extends(t3, t4);
      ExtendsTransitive(t, t2, t3);
      ExtendsTransitive(t, t3, t4);
      assert t4.workspaces[g.org] == t2.workspaces[g.org] && t4.leads[TargetLeadKey(t, g)] == lead;
    } else {
      assert SyncStep(t, g) == t2;
    }
  }

  /** An email whose rows are already present only overwrites its
      conversation's lastMessageAt with the email's timestamp, and changes
      nothing when the timestamp does not parse. */
  lemma SyncStepOnSynced(t: Tables, g: SyncTarget)
    requires Synced(t, g)
    ensures g.at.None? ==> SyncStep(t, g) == t
    ensures g.at.Some? ==>
              var k := TargetThreadKey(t, g);
              && k in t.conversations
              && SyncStep(t, g) == t.(conversations := t.conversations[k := t.conversations[k].(lastMessageAt := g.at.value)])
  {
    var lk := TargetLeadKey(t, g);
    assert ResolveWorkspace(t, g.org, "Workspace").0 == t;
    UpsertLeadStable(t, lk, g.externalLeadId, NoProfile, NoUpdate);
  }

  /** For a conversation that already exists, an email with a valid timestamp
      overwrites lastMessageAt with it (the listed one, or now) and changes
      nothing else on any conversation. */
  lemma SyncStepExistingConversation(t: Tables, g: SyncTarget)
    requires g.at.Some? && TargetThreadKey(t, g) in t.conversations
    ensures var k := TargetThreadKey(t, g);
            SyncStep(t, g).conversations == t.conversations[k := t.conversations[k].(lastMessageAt := g.at.value)]
  {
  }

  /** A new message is inbound, defaults its subject to "Re:", keeps the
      bodies as listed and points at the email's conversation. */
  lemma SyncStepCreatedMessage(t: Tables, g: SyncTarget)
    requires g.at.Some? && MessageKey(g.platform, g.messageId) !in t.messages
    ensures var r := SyncStep(t, g);
            var mk := MessageKey(g.platform, g.messageId);
            var m := r.messages[mk];
            && r.messages.Keys == t.messages.Keys + {mk}
            && m.conversationId == r.conversations[TargetThreadKey(t, g)].id
            && m.direction == IN && m.subject == g.subject && m.bodyText == g.bodyText && m.bodyHtml == g.bodyHtml
            && m.fromEmail == g.fromEmail && m.toEmail == g.toEmail && Some(m.sentAt) == g.at
            && m.metadata == g.metadata
  {
  }

  /** An email whose timestamp does not parse writes its workspace and lead
      and then throws: no conversation or message is written. */
  lemma SyncStepInvalidDate(t: Tables, g: SyncTarget)
    requires g.at.None?
    ensures var r := SyncStep(t, g);
            && r.conversations == t.conversations && r.messages == t.messages
            && g.org in r.workspaces && TargetLeadKey(t, g) in r.leads
            && r.leads.Keys == t.leads.Keys + {TargetLeadKey(t, g)}
  {
  }

  /** How an email's fields are chosen on each platform. */
  lemma TargetDerivation(c: PlatformConnection, e: ListedEmail, env: SyncEnv)
    requires Qualifies(c) && Accepted(e)
    ensures var g := TargetOf(c, e, env);
            && g.threadRoot == (if Truthy(e.threadId) then e.threadId.value else e.id.value)
            && g.messageId == e.id.value && g.leadEmail == e.lead.value
            && g.subject == (if Truthy(e.subject) then e.subject.value else "Re:")
            && g.fromEmail == (if Truthy(e.fromAddressEmail) then e.fromAddressEmail.value else e.lead.value)
            && (c.platform == INSTANTLY ==>
                  && g.org == (if Truthy(e.organizationId) then e.organizationId.value else "instantly-default")
                  && g.at == (if Truthy(e.timestampEmail) then env.parseDate(e.timestampEmail.value) else Some(env.now))
                  && g.externalLeadId == None)
            && (c.platform == PLUSVIBE ==>
                  && g.org == c.workspaceId.value
                  && g.at == (if Truthy(e.timestampCreated) then env.parseDate(e.timestampCreated.value)
                              else Some(env.now))
                  && g.externalLeadId == e.leadId)
  {
  }

  /** A PlusVibe email listed by sync and a PlusVibe webhook about the same
      thread_id land in the same conversation. */
  lemma PlusVibeSyncMeetsWebhook(t: Tables, c: PlatformConnection, e: ListedEmail, env: SyncEnv, p: Payload)
    requires c.platform == PLUSVIBE && Qualifies(c) && Accepted(e) && PlusVibeComplete(p)
    requires Truthy(e.threadId) && Field(p, "thread_id") == e.threadId
    ensures TargetThreadKey(t, TargetOf(c, e, env)) == PlusVibeConversationKey(p)
  {
  }

  // --------------------------------------------------------------- a listing's effect

  /** Every accepted email the inner loop reached has its rows in place. */
  ghost predicate EmailsSynced(t: Tables, c: PlatformConnection, es: seq<ListedEmail>, env: SyncEnv) {
    Qualifies(c) &&
    forall j :: 0 <= j < |es| && Accepted(es[j]) && !DateFails(c, es[..j], env) ==> Synced(t, TargetOf(c, es[j], env))
  }

  lemma EmailsSyncedPersists(t: Tables, u: Tables, c: PlatformConnection, es: seq<ListedEmail>, env: SyncEnv)
    requires Extends(t, u) && EmailsSynced(t, c, es, env)
    ensures EmailsSynced(u, c, es, env)
  {
    forall j | 0 <= j < |es| && Accepted(es[j]) && !DateFails(c, es[..j], env)
      ensures Synced(u, TargetOf(c, es[j], env))
    {
      SyncedPersists(t, u, TargetOf(c, es[j], env));
    }
  }

  lemma OnlyTimestampsMovedExtends(t: Tables, u: Tables)
    requires OnlyTimestampsMoved(t, u)
    ensures Extends(t, u)
  {
  }

  /** A listing keeps every existing row and leaves the rows of every
      accepted email up to the first one that throws in place. */
  lemma {:induction false} SyncEmailsExtends(t: Tables, c: PlatformConnection, es: seq<ListedEmail>, env: SyncEnv)
    requires Qualifies(c)
    ensures Extends(t, SyncEmails(t, c, es, env)) && EmailsSynced(SyncEmails(t, c, es, env), c, es, env)
    decreases |es|
  {
    if es != [] {
      var prev := es[..|es| - 1];
      var e := es[|es| - 1];
      SyncEmailsExtends(t, c, prev, env);
      var t1 := SyncEmails(t, c, prev, env);
      var r := SyncEmails(t, c, es, env);
      if !DateFails(c, prev, env) && Accepted(e) {
        SyncStepExtends(t1, TargetOf(c, e, env));
        ExtendsTransitive(t, t1, r);
      }
      EmailsSyncedPersists(t1, r, c, prev, env);
      forall j | 0 <= j < |es| && Accepted(es[j]) && !DateFails(c, es[..j], env)
        ensures Synced(r, TargetOf(c, es[j], env))
      {
        if j < |prev| {
          assert es[j] == prev[j] && es[..j] == prev[..j];
        } else {
          assert es[..j] == prev;
        }
      }
    }
  }

  /** A listing whose accepted emails are all in place only moves timestamps. */
  lemma {:induction false} SyncEmailsStable(t: Tables, c: PlatformConnection, es: seq<ListedEmail>, env: SyncEnv)
    requires EmailsSynced(t, c, es, env)
    ensures OnlyTimestampsMoved(t, SyncEmails(t, c, es, env))
    decreases |es|
  {
    if es != [] {
      var prev := es[..|es| - 1];
      var e := es[|es| - 1];
      assert EmailsSynced(t, c, prev, env) by {
        forall j | 0 <= j < |prev| && Accepted(prev[j]) && !DateFails(c, prev[..j], env)
          ensures Synced(t, TargetOf(c, prev[j], env))
        {
          assert prev[j] == es[j] && prev[..j] == es[..j];
        }
      }
      SyncEmailsStable(t, c, prev, env);
      var t1 := SyncEmails(t, c, prev, env);
      if !DateFails(c, prev, env) && Accepted(e) {
        OnlyTimestampsMovedExtends(t, t1);
        assert es[..|es| - 1] == prev;
        assert Synced(t, TargetOf(c, es[|es| - 1], env));
        SyncedPersists(t, t1, TargetOf(c, e, env));
        SyncStepOnSynced(t1, TargetOf(c, e, env));
        OnlyTimestampsMovedTransitive(t, t1, SyncEmails(t, c, es, env));
      }
    }
  }

  // ---------------------------------------------------------------- a run's effect

  /** Connection i was listed and reconciled: no earlier listing threw. */
  ghost predicate Reached(conns: seq<PlatformConnection>, i: int, env: SyncEnv) {
    0 <= i < |conns| && RunResponse(conns[..i], env).SyncOk? && Qualifies(conns[i]) && env.fetch(conns[i]).Listed?
  }

  ghost predicate ConnsSynced(t: Tables, conns: seq<PlatformConnection>, env: SyncEnv) {
    forall i :: Reached(conns, i, env) ==> EmailsSynced(t, conns[i], ListedEmails(env.fetch(conns[i])), env)
  }

  lemma ReachedPrefix(conns: seq<PlatformConnection>, i: int, env: SyncEnv)
    requires conns != [] && 0 <= i < |conns| - 1
    ensures Reached(conns, i, env) <==> Reached(conns[..|conns| - 1], i, env)
  {
    assert conns[..|conns| - 1][..i] == conns[..i];
  }

  /** A run keeps every existing row and leaves in place the rows of every
      accepted email of every connection it reached. */
  lemma {:induction false} RunTablesExtends(t: Tables, conns: seq<PlatformConnection>, env: SyncEnv)
    ensures Extends(t, RunTables(t, conns, env)) && ConnsSynced(RunTables(t, conns, env), conns, env)
    decreases |conns|
  {
    var r := RunTables(t, conns, env);
    if conns != [] {
      var prev := conns[..|conns| - 1];
      var c := conns[|conns| - 1];
      RunTablesExtends(t, prev, env);
      var t1 := RunTables(t, prev, env);
      var live := !RunResponse(prev, env).SyncFailed? && Qualifies(c) && env.fetch(c).Listed?;
      if live {
        SyncEmailsExtends(t1, c, ListedEmails(env.fetch(c)), env);
        ExtendsTransitive(t, t1, r);
      }
      forall i | Reached(conns, i, env)
        ensures EmailsSynced(r, conns[i], ListedEmails(env.fetch(conns[i])), env)
      {
        if i < |prev| {
          ReachedPrefix(conns, i, env);
          assert prev[i] == conns[i];
          if live {
            EmailsSyncedPersists(t1, r, conns[i], ListedEmails(env.fetch(conns[i])), env);
          }
        } else {
          assert i == |conns| - 1 && conns[..i] == prev;
        }
      }
    } else {
      assert Extends(t, t);
    }
  }

  /** A run over connections whose emails are all in place only moves
      timestamps. */
  lemma {:induction false} RunTablesStable(u: Tables, conns: seq<PlatformConnection>, env: SyncEnv)
    requires ConnsSynced(u, conns, env)
    ensures OnlyTimestampsMoved(u, RunTables(u, conns, env))
    decreases |conns|
  {
    if conns != [] {
      var prev := conns[..|conns| - 1];
      var c := conns[|conns| - 1];
      assert ConnsSynced(u, prev, env) by {
        forall i | Reached(prev, i, env)
          ensures EmailsSynced(u, prev[i], ListedEmails(env.fetch(prev[i])), env)
        {
          ReachedPrefix(conns, i, env);
          assert prev[i] == conns[i];
        }
      }
      RunTablesStable(u, prev, env);
      var u1 := RunTables(u, prev, env);
      if !RunResponse(prev, env).SyncFailed? && Qualifies(c) && env.fetch(c).Listed? {
        assert Reached(conns, |conns| - 1, env);
        var es := ListedEmails(env.fetch(c));
        OnlyTimestampsMovedExtends(u, u1);
        EmailsSyncedPersists(u, u1, c, es, env);
        SyncEmailsStable(u1, c, es, env);
        OnlyTimestampsMovedTransitive(u, u1, RunTables(u, conns, env));
      }
    } else {
      assert RunTables(u, conns, env) == u;
    }
  }

  /** Re-running sync on the same listings adds no workspace, lead,
      conversation or message, changes no stored row except conversations'
      lastMessageAt, and answers the same; the first run itself changed no
      existing row except lastMessageAt. */
  lemma SyncRerunIsStable(t: Tables, userId: string, env: SyncEnv)
    ensures var conns := ConnectionsOf(t.connections, userId);
            var t1 := RunTables(t, conns, env);
            var conns1 := ConnectionsOf(t1.connections, userId);
            && Extends(t, t1)
            && conns1 == conns
            && OnlyTimestampsMoved(t1, RunTables(t1, conns1, env))
            && RunResponse(conns1, env) == RunResponse(conns, env)
  {
    var conns := ConnectionsOf(t.connections, userId);
    RunTablesExtends(t, conns, env);
    RunTablesStable(RunTables(t, conns, env), conns, env);
  }
}

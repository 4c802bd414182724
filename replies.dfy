/** `POST /send` (apps/api/src/routes/replies.ts): answer a conversation's
    latest inbound message through the platform it came from, and record the
    attempt.

    The two platform clients are oracles in `ReplyEnv`; the clock is
    `env.now`. "The latest inbound message" is what the store returns for
    `direction: IN`, `orderBy: sentAt desc`, `take: 1`: when several messages
    share the latest time the store may return any of them, so the function
    `SendReply` takes the chosen one as a parameter and requires that it is
    such a message; the method `Send` makes the choice. */
module Replies {
  import opened Common
  import opened Domain
  import opened Store
  import opened Database

  /** The JSON body: `conversationId` and `body` are required strings,
      `subject` an optional string. */
  datatype SendRequest = SendRequest(conversationId: BodyField<Id>, body: BodyField<string>, subject: BodyField<string>)

  /** What a platform client reports. */
  datatype SendResult = SendResult(success: bool, error: Option<string>)

  datatype ReplyEnv = ReplyEnv(
    now: Time,
    sendInstantly: (PlatformConnection, Message, string, string) -> SendResult,
    sendPlusVibe: (PlatformConnection, Message, string, string) -> SendResult)

  /** How the handler answers. */
  datatype ReplyOutcome =
    | Replied(outgoingReplyId: Id)          // 200 { success, outgoingReplyId }
    | SendFailed(error: Option<string>)     // 500, the client's error
    | Invalid                               // 400, a ZodError
    | NoConversation                        // 404
    | NoMessage                             // 400 "No message to reply to"
    | NotConnected                          // 400 "Platform not connected"

  function StatusCode(o: ReplyOutcome): nat {
    match o
    case Replied(_) => 200
    case SendFailed(_) => 500
    case NoConversation => 404
    case _ => 400
  }

  /** `sendReplySchema.parse`: None is a ZodError. */
  function ParseSend(req: SendRequest): Option<(Id, string, Option<string>)> {
    if !req.conversationId.Sent? || !req.body.Sent? then None
    else match req.subject
      case NotSent => Some((req.conversationId.v, req.body.v, None))
      case Sent(s) => Some((req.conversationId.v, req.body.v, Some(s)))
      case _ => None
  }

  /** An inbound message of the conversation. */
  predicate Inbound(m: Message, conversationId: Id) {
    m.conversationId == conversationId && m.direction == IN
  }

  /** `m` is an inbound message of the conversation with no inbound message
      of it sent later. */
  ghost predicate IsLatestInbound(t: Tables, conversationId: Id, m: Message) {
    && m in t.messages.Values && Inbound(m, conversationId)
    && forall k :: k in t.messages && Inbound(t.messages[k], conversationId) ==> t.messages[k].sentAt <= m.sentAt
  }

  /** What the message query may return: nothing exactly when the
      conversation has no inbound message, otherwise a latest one. */
  ghost predicate LatestInboundChoice(t: Tables, conversationId: Id, latest: Option<Message>) {
    && (latest.None? <==> forall k :: k in t.messages ==> !Inbound(t.messages[k], conversationId))
    && (latest.Some? ==> IsLatestInbound(t, conversationId, latest.value))
  }

  /** The message chosen for a request that names a conversation. */
  ghost predicate ChoiceFor(t: Tables, req: SendRequest, latest: Option<Message>) {
    req.conversationId.Sent? ==> LatestInboundChoice(t, req.conversationId.v, latest)
  }

  /** `platformConnection.findFirst({ where: { userId, platform } })`, in
      storage order. */
  function FirstConnection(conns: seq<PlatformConnection>, userId: string, platform: Platform)
    : (r: Option<PlatformConnection>)
    ensures r.None? <==> forall c :: c in conns ==> !(c.userId == userId && c.platform == platform)
    ensures r.Some? ==> r.value in conns && r.value.userId == userId && r.value.platform == platform
  {
    if conns == [] then None
    else if conns[0].userId == userId && conns[0].platform == platform then Some(conns[0])
    else
      assert conns == [conns[0]] + conns[1..];
      FirstConnection(conns[1..], userId, platform)
  }

  /** The connection found is the earliest one of that user and platform. */
  lemma {:induction false} FirstConnectionIsFirst(conns: seq<PlatformConnection>, userId: string, platform: Platform)
    requires FirstConnection(conns, userId, platform).Some?
    ensures exists i :: 0 <= i < |conns| && conns[i] == FirstConnection(conns, userId, platform).value &&
              forall j :: 0 <= j < i ==> !(conns[j].userId == userId && conns[j].platform == platform)
  {
    var r := FirstConnection(conns, userId, platform);
    if conns[0].userId == userId && conns[0].platform == platform {
      assert conns[0] == r.value;
    } else {
      var tail := conns[1..];
      FirstConnectionIsFirst(tail, userId, platform);
      var i :| 0 <= i < |tail| && tail[i] == r.value &&
               forall j :: 0 <= j < i ==> !(tail[j].userId == userId && tail[j].platform == platform);
      assert conns[i + 1] == r.value;
      forall j | 0 <= j < i + 1
        ensures !(conns[j].userId == userId && conns[j].platform == platform)
      {
        if j > 0 {
          assert conns[j] == tail[j - 1];
        }
      }
    }
  }

  /** `subject || (last starts with "Re:" ? last : "Re: " + last)`: an empty
      subject counts as none. */
  function ReplySubject(subject: Option<string>, last: string): string {
    if Truthy(subject) then subject.value
    else if StartsWith(last, "Re:") then last
    else "Re: " + last
  }

  /** The platform client the conversation's platform selects. */
  function Deliver(env: ReplyEnv, platform: Platform, conn: PlatformConnection, m: Message, subject: string, body: string)
    : SendResult
  {
    if platform == INSTANTLY then env.sendInstantly(conn, m, subject, body) else env.sendPlusVibe(conn, m, subject, body)
  }

  /** `POST /send` by `userId`, given the message the store picks as the
      latest inbound one. */
  function SendReply(t: Tables, userId: string, req: SendRequest, env: ReplyEnv, latest: Option<Message>)
    : (Tables, ReplyOutcome)
    requires Valid(t)
  {
    match ParseSend(req)
    case None => (t, Invalid)
    case Some((id, body, subject)) =>
      match ConversationKeyOf(t, id)
      case None => (t, NoConversation)
      case Some(k) =>
        var platform := t.conversations[k].platform;
        if latest.None? then (t, NoMessage)
        else
          match FirstConnection(t.connections, userId, platform)
          case None => (t, NotConnected)
          case Some(conn) =>
            var m := latest.value;
            var result := Deliver(env, platform, conn, m, ReplySubject(subject, m.subject), body);
            if !result.success then
              (AppendOutgoingReply(t, m.id, id, platform, FAILED, result.error, None).0, SendFailed(result.error))
            else
              var (t1, outgoing) := AppendOutgoingReply(t, m.id, id, platform, SENT, None, Some(env.now));
              var (t2, _) := AppendAuditLog(t1, "conversation", id, "reply_sent", userId, ReplyMeta(outgoing.id));
              (t2, Replied(outgoing.id))
  }

  /** A non-empty finite set of message keys has one whose message was sent
      no earlier than any other. */
  lemma {:induction false} LatestExists(ms: map<MessageKey, Message>, keys: set<MessageKey>)
    requires keys != {} && keys <= ms.Keys
    ensures exists k :: k in keys && forall k' :: k' in keys ==> ms[k'].sentAt <= ms[k].sentAt
    decreases keys
  {
    var x :| x in keys;
    if keys == {x} {
      assert forall k' :: k' in keys ==> ms[k'].sentAt <= ms[x].sentAt;
    } else {
      LatestExists(ms, keys - {x});
      var y :| y in keys - {x} && forall k' :: k' in keys - {x} ==> ms[k'].sentAt <= ms[y].sentAt;
      if ms[x].sentAt <= ms[y].sentAt {
        assert forall k' :: k' in keys ==> ms[k'].sentAt <= ms[y].sentAt;
      } else {
        assert forall k' :: k' in keys ==> ms[k'].sentAt <= ms[x].sentAt;
      }
    }
  }

  /** The handler on the mutable store. */
  method Send(db: Db, userId: string, req: SendRequest, env: ReplyEnv) returns (r: ReplyOutcome)
    requires db.Valid()
    modifies db
    ensures db.Valid()
    ensures exists latest :: ChoiceFor(old(db.Snapshot()), req, latest) &&
              (db.Snapshot(), r) == SendReply(old(db.Snapshot()), userId, req, env, latest)
  {
    ghost var t0 := db.Snapshot();
    var latest: Option<Message> := None;
    if req.conversationId.Sent? {
      var id := req.conversationId.v;
      var inbound := set k | k in db.messages && Inbound(db.messages[k], id);
      if inbound != {} {
        LatestExists(db.messages, inbound);
        var k :| k in inbound && forall k' :: k' in inbound ==> db.messages[k'].sentAt <= db.messages[k].sentAt;
        latest := Some(db.messages[k]);
      } else {
        forall k | k in db.messages
          ensures !Inbound(db.messages[k], id)
        {
          assert k !in inbound;
        }
      }
    }
    assert ChoiceFor(t0, req, latest);

    var parsed := ParseSend(req);
    if parsed.None? {
      return Invalid;
    }
    var (id, body, subject) := parsed.value;
    var key := ConversationKeyOf(db.Snapshot(), id);
    if key.None? {
      return NoConversation;
    }
    var platform := db.conversations[key.value].platform;
    if latest.None? {
      return NoMessage;
    }
    var connection := FirstConnection(db.connections, userId, platform);
    if connection.None? {
      return NotConnected;
    }
    var m := latest.value;
    var result := Deliver(env, platform, connection.value, m, ReplySubject(subject, m.subject), body);
    if !result.success {
      var _ := db.CreateOutgoingReply(m.id, id, platform, FAILED, result.error, None);
      assert (db.Snapshot(), SendFailed(result.error)) == SendReply(t0, userId, req, env, latest);
      return SendFailed(result.error);
    }
    var outgoing := db.CreateOutgoingReply(m.id, id, platform, SENT, None, Some(env.now));
    ghost var t1 := db.Snapshot();
    var _ := db.CreateAuditLog("conversation", id, "reply_sent", userId, ReplyMeta(outgoing.id));
    assert (t1, outgoing) == AppendOutgoingReply(t0, m.id, id, platform, SENT, None, Some(env.now));
    assert (db.Snapshot(), Replied(outgoing.id)) == SendReply(t0, userId, req, env, latest);
    return Replied(outgoing.id);
  }

  // ----------------------------------------------------------------- properties

  /** A subject derived from the last message starts with "Re:", and deriving
      again from a derived subject changes nothing; a non-empty subject is
      used as given. */
  lemma ReplySubjectRules(subject: Option<string>, last: string)
    ensures Truthy(subject) ==> ReplySubject(subject, last) == subject.value
    ensures !Truthy(subject) ==> StartsWith(ReplySubject(subject, last), "Re:")
    ensures !Truthy(subject) ==> ReplySubject(None, ReplySubject(subject, last)) == ReplySubject(subject, last)
    ensures !Truthy(subject) && StartsWith(last, "Re:") ==> ReplySubject(subject, last) == last
  {
    if !Truthy(subject) && !StartsWith(last, "Re:") {
      assert ("Re: " + last)[..3] == "Re:";
    }
  }

  /** The checks run in the handler's order, each with its status code, and
      every refusal leaves the store as it was. */
  lemma SendRefusals(t: Tables, userId: string, req: SendRequest, env: ReplyEnv, latest: Option<Message>)
    requires Valid(t) && ChoiceFor(t, req, latest)
    ensures var (t', r) := SendReply(t, userId, req, env, latest);
            && (r == Invalid <==> ParseSend(req).None?)
            && (r == NoConversation <==> ParseSend(req).Some? && !HasConversation(t, req.conversationId.v))
            && (r == NoMessage <==>
                  ParseSend(req).Some? && HasConversation(t, req.conversationId.v) &&
                  forall k :: k in t.messages ==> !Inbound(t.messages[k], req.conversationId.v))
            && (r == NotConnected <==>
                  && ParseSend(req).Some? && HasConversation(t, req.conversationId.v)
                  && (exists k :: k in t.messages && Inbound(t.messages[k], req.conversationId.v))
                  && forall c :: c in t.connections && c.userId == userId ==>
                       c.platform != t.conversations[ConversationKeyOf(t, req.conversationId.v).value].platform)
            && (r.Invalid? || r.NoConversation? || r.NoMessage? || r.NotConnected? ==> t' == t && StatusCode(r) in {400, 404})
  {
  }

  /** A delivered reply appends exactly one SENT reply stamped with the
      current time, addressed to the latest inbound message of the
      conversation, and one "reply_sent" audit entry that names it; nothing
      else in the store changes. */
  lemma SendSuccess(t: Tables, userId: string, req: SendRequest, env: ReplyEnv, latest: Option<Message>)
    requires Valid(t) && ChoiceFor(t, req, latest)
    ensures var (t', r) := SendReply(t, userId, req, env, latest);
            r.Replied? ==>
              var id := req.conversationId.v;
              var c := t.conversations[ConversationKeyOf(t, id).value];
              var reply := OutgoingReply(t.nextId, latest.value.id, id, c.platform, SENT, None, Some(env.now));
              && r.outgoingReplyId == t.nextId
              && (forall x :: x in t.outgoingReplies ==> x.id != r.outgoingReplyId)
              && IsLatestInbound(t, id, latest.value)
              && t'.outgoingReplies == t.outgoingReplies + [reply]
              && t'.auditLogs == t.auditLogs + [AuditLog(t.nextId + 1, "conversation", id, "reply_sent", userId,
                                                         ReplyMeta(reply.id))]
              && t' == t.(outgoingReplies := t'.outgoingReplies, auditLogs := t'.auditLogs, nextId := t.nextId + 2)
              && StatusCode(r) == 200
  {
    var (t', r) := SendReply(t, userId, req, env, latest);
    if r.Replied? {
      var id := req.conversationId.v;
      var platform := t.conversations[ConversationKeyOf(t, id).value].platform;
      var (t1, outgoing) := AppendOutgoingReply(t, latest.value.id, id, platform, SENT, None, Some(env.now));
      assert r == Replied(outgoing.id);
      assert t' == AppendAuditLog(t1, "conversation", id, "reply_sent", userId, ReplyMeta(outgoing.id)).0;
    }
  }

  /** A failed delivery records one FAILED reply carrying the client's error,
      with no send time and no audit entry, and answers 500 with that error. */
  lemma SendFailure(t: Tables, userId: string, req: SendRequest, env: ReplyEnv, latest: Option<Message>)
    requires Valid(t) && ChoiceFor(t, req, latest)
    ensures var (t', r) := SendReply(t, userId, req, env, latest);
            r.SendFailed? ==>
              var id := req.conversationId.v;
              var c := t.conversations[ConversationKeyOf(t, id).value];
              && t'.outgoingReplies ==
                   t.outgoingReplies + [OutgoingReply(t.nextId, latest.value.id, id, c.platform, FAILED, r.error, None)]
              && t' == t.(outgoingReplies := t'.outgoingReplies, nextId := t.nextId + 1)
              && t'.auditLogs == t.auditLogs
              && StatusCode(r) == 500
  {
  }

  /** An Instantly conversation is answered through the Instantly client only
      and a PlusVibe one through the PlusVibe client only, with the first
      connection the user has for that platform. */
  lemma SendRoutesByPlatform(t: Tables, userId: string, req: SendRequest, env1: ReplyEnv, env2: ReplyEnv,
                             latest: Option<Message>)
    requires Valid(t) && env1.now == env2.now
    requires ParseSend(req).Some? && HasConversation(t, req.conversationId.v)
    ensures var p := t.conversations[ConversationKeyOf(t, req.conversationId.v).value].platform;
            (p == INSTANTLY && env1.sendInstantly == env2.sendInstantly) ||
            (p == PLUSVIBE && env1.sendPlusVibe == env2.sendPlusVibe)
            ==> SendReply(t, userId, req, env1, latest) == SendReply(t, userId, req, env2, latest)
  {
  }

  /** Sending keeps the store valid. */
  lemma SendValid(t: Tables, userId: string, req: SendRequest, env: ReplyEnv, latest: Option<Message>)
    requires Valid(t)
    ensures Valid(SendReply(t, userId, req, env, latest).0)
  {
    var (t', r) := SendReply(t, userId, req, env, latest);
    if r.Replied? || r.SendFailed? {
      var id := req.conversationId.v;
      var c := t.conversations[ConversationKeyOf(t, id).value];
      var m := latest.value;
      var status := if r.Replied? then SENT else FAILED;
      var (t1, outgoing) := AppendOutgoingReply(t, m.id, id, c.platform, status,
                                                if r.Replied? then None else r.error,
                                                if r.Replied? then Some(env.now) else None);
      assert Valid(t1);
    }
  }
}

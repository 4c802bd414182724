/** The conversation routes (apps/api/src/routes/conversations.ts): the
    filtered, newest-first, 50-row list; lookup by id; the partial PATCH of
    status and assignee with its audit entry; label add and remove; note add.

    The list and the lookup only read, and are functions. The routes that
    write are methods on a `Db`, each proved to end in the state a function
    here describes. An outcome `Unhandled` stands for an error the handler
    does not catch (a failed schema parse outside the try block, or a store
    call that throws): the request gets no answer from the handler and the
    store is left as it was. */
module Conversations {
  import opened Common
  import opened Domain
  import opened Store
  import opened Database

  datatype Outcome<T> = Ok(value: T) | BadRequest | NotFound | Unhandled

  function ParseStatus(s: string): Option<ConversationStatus> {
    if s == "OPEN" then Some(OPEN)
    else if s == "PENDING" then Some(ConversationStatus.PENDING)
    else if s == "CLOSED" then Some(CLOSED)
    else None
  }

  function ParsePlatform(s: string): Option<Platform> {
    if s == "INSTANTLY" then Some(INSTANTLY) else if s == "PLUSVIBE" then Some(PLUSVIBE) else None
  }

  // ----------------------------------------------------------------------- list

  /** The query string of `GET /`; an absent or empty parameter is no filter. */
  datatype ListQuery = ListQuery(campaignId: Option<string>, status: Option<string>, platform: Option<string>,
                                 labelName: Option<string>, assignedTo: Option<string>)

  /** The `where` clause the handler builds; None is no restriction. */
  datatype Filter = Filter(campaignId: Option<string>, status: Option<ConversationStatus>,
                           platform: Option<Platform>, labelName: Option<string>, assignedTo: Option<string>)

  const ListLimit: nat := 50

  /** The `where` clause, or None when a status or platform is not one of the
      enum's names (the store rejects the query). */
  function BuildFilter(q: ListQuery): Option<Filter> {
    var status := if Truthy(q.status) then ParseStatus(q.status.value) else None;
    var platform := if Truthy(q.platform) then ParsePlatform(q.platform.value) else None;
    if (Truthy(q.status) && status.None?) || (Truthy(q.platform) && platform.None?) then None
    else Some(Filter(OrUndefined(q.campaignId), status, platform, OrUndefined(q.labelName), OrUndefined(q.assignedTo)))
  }

  /** A row satisfies every constraint the filter carries; the label filter
      asks for some label row with that name on the conversation. */
  predicate Matches(f: Filter, labels: set<LabelKey>, c: Conversation) {
    && (f.campaignId.Some? ==> c.campaignId == f.campaignId)
    && (f.status.Some? ==> c.status == f.status.value)
    && (f.platform.Some? ==> c.platform == f.platform.value)
    && (f.labelName.Some? ==> LabelKey(c.id, f.labelName.value) in labels)
    && (f.assignedTo.Some? ==> c.assignedTo == f.assignedTo)
  }

  function FilterRows(rows: seq<Conversation>, f: Filter, labels: set<LabelKey>): (r: seq<Conversation>)
    ensures forall c :: c in r <==> c in rows && Matches(f, labels, c)
    ensures multiset(r) <= multiset(rows)
  {
    if rows == [] then []
    else
      var rest := FilterRows(rows[1..], f, labels);
      assert rows == [rows[0]] + rows[1..];
      if Matches(f, labels, rows[0]) then [rows[0]] + rest else rest
  }

  predicate SortedDesc(s: seq<Conversation>) {
    forall i, j :: 0 <= i < j < |s| ==> s[i].lastMessageAt >= s[j].lastMessageAt
  }

  function InsertDesc(c: Conversation, s: seq<Conversation>): (r: seq<Conversation>)
    requires SortedDesc(s)
    ensures SortedDesc(r) && multiset(r) == multiset(s) + multiset{c}
  {
    if s == [] then [c]
    else if c.lastMessageAt >= s[0].lastMessageAt then [c] + s
    else
      var rest := InsertDesc(c, s[1..]);
      assert s == [s[0]] + s[1..];
      ConsSorted(s[0], rest, s[1..], c);
      [s[0]] + rest
  }

  /** Putting a row in front of a sorted run keeps it sorted when it is at
      least as recent as every row of that run. */
  lemma ConsSorted(h: Conversation, rest: seq<Conversation>, tail: seq<Conversation>, c: Conversation)
    requires SortedDesc(rest) && multiset(rest) == multiset(tail) + multiset{c}
    requires c.lastMessageAt <= h.lastMessageAt && SortedDesc([h] + tail)
    ensures SortedDesc([h] + rest)
  {
    forall j | 0 <= j < |rest|
      ensures rest[j].lastMessageAt <= h.lastMessageAt
    {
      assert rest[j] in multiset(rest);
      if rest[j] != c {
        assert rest[j] in multiset(tail);
        var i :| 0 <= i < |tail| && tail[i] == rest[j];
        var ht := [h] + tail;
        assert ht[0] == h && ht[i + 1] == tail[i];
        assert ht[0].lastMessageAt >= ht[i + 1].lastMessageAt;
      }
    }
    var r := [h] + rest;
    forall i, j | 0 <= i < j < |r|
      ensures r[i].lastMessageAt >= r[j].lastMessageAt
    {
      if i > 0 {
        assert r[i] == rest[i - 1] && r[j] == rest[j - 1];
      } else {
        assert r[j] == rest[j - 1];
      }
    }
  }

  /** `orderBy: { lastMessageAt: "desc" }`, as an insertion sort. */
  function SortDesc(s: seq<Conversation>): (r: seq<Conversation>)
    ensures SortedDesc(r) && multiset(r) == multiset(s)
  {
    if s == [] then []
    else
      assert s == [s[0]] + s[1..];
      InsertDesc(s[0], SortDesc(s[1..]))
  }

  datatype ListResult = Rows(rows: seq<Conversation>) | Rejected

  /** `GET /` over the table's rows in storage order. */
  function ListConversations(rows: seq<Conversation>, labels: set<LabelKey>, q: ListQuery): ListResult {
    match BuildFilter(q)
    case None => Rejected
    case Some(f) =>
      var sorted := SortDesc(FilterRows(rows, f, labels));
      Rows(if |sorted| <= ListLimit then sorted else sorted[..ListLimit])
  }

  /** The rows of the table in storage order: each stored conversation once. */
  ghost predicate StorageOrder(t: Tables, rows: seq<Conversation>) {
    && (forall c :: c in rows <==> c in t.conversations.Values)
    && (forall i, j :: 0 <= i < j < |rows| ==> rows[i] != rows[j])
  }

  /** `GET /` over the store. */
  function ListStored(t: Tables, rows: seq<Conversation>, q: ListQuery): ListResult
    requires StorageOrder(t, rows)
  {
    ListConversations(rows, t.labels, q)
  }

  // ------------------------------------------------------------------ get by id

  /** `GET /:id`: the row, or 404. */
  function GetConversation(t: Tables, id: Id): Outcome<Conversation>
    requires Valid(t)
  {
    match ConversationKeyOf(t, id)
    case None => NotFound
    case Some(k) => Ok(t.conversations[k])
  }

  // ---------------------------------------------------------------------- patch

  /** The body of `PATCH /:id`. */
  datatype PatchBody = PatchBody(status: BodyField<string>, assignedTo: BodyField<string>)

  /** `updateSchema.parse`: status optional and one of the enum's names;
      assignedTo optional, a string or null. None is a ZodError. */
  function ParsePatch(b: PatchBody): Option<(Option<ConversationStatus>, AssignField)> {
    var status :=
      match b.status
      case NotSent => Some(None)
      case Sent(s) => if ParseStatus(s).Some? then Some(ParseStatus(s)) else None
      case _ => None;
    var assign :=
      match b.assignedTo
      case NotSent => Some(Absent)
      case SentNull => Some(AssignField.Null)
      case Sent(u) => Some(Assign(u))
      case SentOther => None;
    if status.None? || assign.None? then None else Some((status.value, assign.value))
  }

  /** The `data` of the update: status only when given, assignedTo whenever it
      was sent, null included. */
  function ApplyPatch(c: Conversation, status: Option<ConversationStatus>, assign: AssignField): Conversation {
    c.(status := if status.Some? then status.value else c.status,
       assignedTo := match assign
                     case Absent => c.assignedTo
                     case Null => None
                     case Assign(u) => Some(u))
  }

  /** `PATCH /:id` by `userId`. */
  function Patch(t: Tables, userId: string, id: Id, b: PatchBody): (Tables, Outcome<Conversation>)
    requires Valid(t)
  {
    match ParsePatch(b)
    case None => (t, BadRequest)
    case Some((status, assign)) =>
      match ConversationKeyOf(t, id)
      case None => (t, Unhandled)
      case Some(k) =>
        var c := ApplyPatch(t.conversations[k], status, assign);
        var t1 := t.(conversations := t.conversations[k := c]);
        ReplaceConversationValid(t, k, c);
        (AppendAuditLog(t1, "conversation", id, "updated", userId, PatchMeta(status, assign)).0, Ok(c))
  }

  method PatchConversation(db: Db, userId: string, id: Id, b: PatchBody) returns (r: Outcome<Conversation>)
    requires db.Valid()
    modifies db
    ensures db.Valid()
    ensures (db.Snapshot(), r) == Patch(old(db.Snapshot()), userId, id, b)
  {
    var body := ParsePatch(b);
    if body.None? {
      return BadRequest;
    }
    var (status, assign) := body.value;
    var key := ConversationKeyOf(db.Snapshot(), id);
    if key.None? {
      return Unhandled;
    }
    var conversation := ApplyPatch(db.conversations[key.value], status, assign);
    db.UpdateConversation(key.value, conversation);
    var _ := db.CreateAuditLog("conversation", id, "updated", userId, PatchMeta(status, assign));
    return Ok(conversation);
  }

  // --------------------------------------------------------------------- labels

  /** `POST /:id/labels`: the label row is upserted; a body without a string
      label, or an id with no conversation, is an error nobody catches. */
  function AddLabel(t: Tables, id: Id, name: BodyField<string>): (Tables, Outcome<()>) {
    if !name.Sent? || !HasConversation(t, id) then (t, Unhandled)
    else (t.(labels := t.labels + {LabelKey(id, name.v)}), Ok(()))
  }

  method PostLabel(db: Db, id: Id, name: BodyField<string>) returns (r: Outcome<()>)
    requires db.Valid()
    modifies db
    ensures db.Valid()
    ensures (db.Snapshot(), r) == AddLabel(old(db.Snapshot()), id, name)
  {
    if !name.Sent? {
      return Unhandled;
    }
    if !HasConversation(db.Snapshot(), id) {
      return Unhandled;
    }
    db.UpsertLabel(LabelKey(id, name.v));
    return Ok(());
  }

  /** `DELETE /:id/labels/:label`: always succeeds. */
  function RemoveLabel(t: Tables, id: Id, name: string): Tables {
    t.(labels := t.labels - {LabelKey(id, name)})
  }

  method DeleteLabel(db: Db, id: Id, name: string) returns (r: Outcome<()>)
    requires db.Valid()
    modifies db
    ensures db.Valid()
    ensures db.Snapshot() == RemoveLabel(old(db.Snapshot()), id, name) && r == Ok(())
  {
    db.DeleteLabels(LabelKey(id, name));
    return Ok(());
  }

  // ---------------------------------------------------------------------- notes

  /** `POST /:id/notes` by `userId`. */
  function AddNote(t: Tables, userId: string, id: Id, content: BodyField<string>): (Tables, Outcome<Note>)
    requires Valid(t)
  {
    if !content.Sent? || !HasConversation(t, id) then (t, Unhandled)
    else
      var (t1, note) := AppendNote(t, id, userId, content.v);
      (t1, Ok(note))
  }

  method PostNote(db: Db, userId: string, id: Id, content: BodyField<string>) returns (r: Outcome<Note>)
    requires db.Valid()
    modifies db
    ensures db.Valid()
    ensures (db.Snapshot(), r) == AddNote(old(db.Snapshot()), userId, id, content)
  {
    if !content.Sent? {
      return Unhandled;
    }
    if !HasConversation(db.Snapshot(), id) {
      return Unhandled;
    }
    var note := db.CreateNote(id, userId, content.v);
    return Ok(note);
  }

  // ----------------------------------------------------------------- properties

  /** The list answers at most 50 rows, newest first, each one a stored row
      that satisfies every supplied filter. */
  lemma ListSound(rows: seq<Conversation>, labels: set<LabelKey>, q: ListQuery)
    ensures var r := ListConversations(rows, labels, q);
            r.Rows? ==>
              && |r.rows| <= ListLimit
              && SortedDesc(r.rows)
              && forall c :: c in r.rows ==> c in rows && Matches(BuildFilter(q).value, labels, c)
  {
    var r := ListConversations(rows, labels, q);
    if r.Rows? {
      var f := BuildFilter(q).value;
      var sorted := SortDesc(FilterRows(rows, f, labels));
      forall c | c in r.rows
        ensures c in rows && Matches(f, labels, c)
      {
        assert c in multiset(sorted);
      }
    }
  }

  /** No matching row is left out unless 50 rows at least as recent were
      listed; with 50 matches or fewer the list holds exactly the matches, as
      many times as they occur. */
  lemma ListComplete(rows: seq<Conversation>, labels: set<LabelKey>, q: ListQuery)
    requires BuildFilter(q).Some?
    ensures var r := ListConversations(rows, labels, q).rows;
            var matching := FilterRows(rows, BuildFilter(q).value, labels);
            && |r| == (if |matching| <= ListLimit then |matching| else ListLimit)
            && (|matching| <= ListLimit ==> multiset(r) == multiset(matching))
            && forall c :: c in rows && Matches(BuildFilter(q).value, labels, c) && c !in r ==>
                 |r| == ListLimit && forall d :: d in r ==> c.lastMessageAt <= d.lastMessageAt
  {
    var f := BuildFilter(q).value;
    var matching := FilterRows(rows, f, labels);
    var sorted := SortDesc(matching);
    assert |sorted| == |matching| by {
      assert |multiset(sorted)| == |multiset(matching)|;
    }
    forall c | c in rows && Matches(f, labels, c)
      ensures c in sorted
    {
      assert c in multiset(sorted);
    }
    TopRowsAreNewest(sorted, ListLimit);
  }

  /** The list over the store: rejected exactly when the filter is; otherwise
      at most 50 stored conversations, newest first, each satisfying the
      filter, and a stored conversation that satisfies it is left out only
      when 50 rows at least as recent were listed. */
  lemma ListStoredSpec(t: Tables, rows: seq<Conversation>, q: ListQuery)
    requires StorageOrder(t, rows)
    ensures ListStored(t, rows, q).Rejected? <==> BuildFilter(q).None?
    ensures var r := ListStored(t, rows, q);
            r.Rows? ==>
              var f := BuildFilter(q).value;
              && |r.rows| <= ListLimit
              && SortedDesc(r.rows)
              && (forall c :: c in r.rows ==> c in t.conversations.Values && Matches(f, t.labels, c))
              && (forall k ::
                    k in t.conversations && Matches(f, t.labels, t.conversations[k]) && t.conversations[k] !in r.rows
                    ==> |r.rows| == ListLimit &&
                        forall d :: d in r.rows ==> t.conversations[k].lastMessageAt <= d.lastMessageAt)
  {
    ListSound(rows, t.labels, q);
    if BuildFilter(q).Some? {
      ListComplete(rows, t.labels, q);
      forall k | k in t.conversations
        ensures t.conversations[k] in rows
      {
        assert t.conversations[k] in t.conversations.Values;
      }
    }
  }

  /** In a newest-first run, a row beyond the first n is no more recent than
      any of the first n. */
  lemma TopRowsAreNewest(sorted: seq<Conversation>, n: nat)
    requires SortedDesc(sorted)
    ensures var r := if |sorted| <= n then sorted else sorted[..n];
            forall c :: c in sorted && c !in r ==>
              |r| == n && forall d :: d in r ==> c.lastMessageAt <= d.lastMessageAt
  {
    var r := if |sorted| <= n then sorted else sorted[..n];
    forall c | c in sorted && c !in r
      ensures |r| == n && forall d :: d in r ==> c.lastMessageAt <= d.lastMessageAt
    {
      var i :| 0 <= i < |sorted| && sorted[i] == c;
      assert i >= n;
      forall d | d in r
        ensures c.lastMessageAt <= d.lastMessageAt
      {
        var j :| 0 <= j < n && r[j] == d;
        assert sorted[j] == d;
      }
    }
  }

  /** An absent or empty parameter imposes nothing; a query is rejected
      exactly when a non-empty status or platform is not an enum name. */
  lemma ListFilterRules(q: ListQuery, labels: set<LabelKey>, c: Conversation)
    ensures BuildFilter(q).None? <==>
              (Truthy(q.status) && ParseStatus(q.status.value).None?) ||
              (Truthy(q.platform) && ParsePlatform(q.platform.value).None?)
    ensures BuildFilter(q).Some? ==>
              (Matches(BuildFilter(q).value, labels, c) <==>
                && (Truthy(q.campaignId) ==> c.campaignId == q.campaignId)
                && (Truthy(q.status) ==> Some(c.status) == ParseStatus(q.status.value))
                && (Truthy(q.platform) ==> Some(c.platform) == ParsePlatform(q.platform.value))
                && (Truthy(q.labelName) ==> LabelKey(c.id, q.labelName.value) in labels)
                && (Truthy(q.assignedTo) ==> c.assignedTo == q.assignedTo))
  {
  }

  /** The lookup finds the row with that id, or answers 404 when there is none. */
  lemma GetById(t: Tables, id: Id)
    requires Valid(t)
    ensures GetConversation(t, id).NotFound? <==> !HasConversation(t, id)
    ensures GetConversation(t, id).Ok? ==>
              GetConversation(t, id).value.id == id &&
              GetConversation(t, id).value.Key() in t.conversations &&
              t.conversations[GetConversation(t, id).value.Key()] == GetConversation(t, id).value
  {
  }

  /** The body is rejected with 400 exactly when status is null, of another
      type or not an enum name, or assignedTo is neither string nor null. */
  lemma PatchValidation(b: PatchBody)
    ensures ParsePatch(b).None? <==>
              || b.status.SentNull? || b.status.SentOther?
              || (b.status.Sent? && ParseStatus(b.status.v).None?)
              || b.assignedTo.SentOther?
  {
  }

  /** A successful PATCH changes status only when one was given and
      assignedTo whenever it was sent (null clears it); every other field of
      the row, every other row, and the other tables stay as they were except
      for exactly one appended "updated" audit entry by the caller. A rejected
      body changes nothing. */
  lemma PatchEffect(t: Tables, userId: string, id: Id, b: PatchBody)
    requires Valid(t)
    ensures var (t', r) := Patch(t, userId, id, b);
            && (ParsePatch(b).None? ==> r == BadRequest && t' == t)
            && (ParsePatch(b).Some? && !HasConversation(t, id) ==> r == Unhandled && t' == t)
            && (r.Ok? ==>
                  var (status, assign) := ParsePatch(b).value;
                  var k := r.value.Key();
                  && k in t.conversations && t.conversations[k].id == id
                  && r.value.status == (if status.Some? then status.value else t.conversations[k].status)
                  && (assign.Absent? ==> r.value.assignedTo == t.conversations[k].assignedTo)
                  && (assign.Null? ==> r.value.assignedTo == None)
                  && (assign.Assign? ==> r.value.assignedTo == Some(assign.user))
                  && r.value == t.conversations[k].(status := r.value.status, assignedTo := r.value.assignedTo)
                  && t'.conversations == t.conversations[k := r.value]
                  && t'.auditLogs == t.auditLogs + [AuditLog(t.nextId, "conversation", id, "updated", userId,
                                                             PatchMeta(status, assign))]
                  && t' == t.(conversations := t'.conversations, auditLogs := t'.auditLogs, nextId := t.nextId + 1))
  {
  }

  /** Sending the same PATCH twice leaves the row as one does. */
  lemma PatchIdempotent(c: Conversation, status: Option<ConversationStatus>, assign: AssignField)
    ensures ApplyPatch(ApplyPatch(c, status, assign), status, assign) == ApplyPatch(c, status, assign)
  {
  }

  /** PATCH keeps the store valid. */
  lemma PatchValid(t: Tables, userId: string, id: Id, b: PatchBody)
    requires Valid(t)
    ensures Valid(Patch(t, userId, id, b).0)
  {
    if ParsePatch(b).Some? && ConversationKeyOf(t, id).Some? {
      var (status, assign) := ParsePatch(b).value;
      var k := ConversationKeyOf(t, id).value;
      var c := ApplyPatch(t.conversations[k], status, assign);
      ReplaceConversationValid(t, k, c);
    }
  }

  /** Adding a label twice is adding it once: the label table is a set, so
      there is at most one row per (conversation, label). */
  lemma AddLabelIdempotent(t: Tables, id: Id, name: BodyField<string>)
    ensures var (t1, r1) := AddLabel(t, id, name);
            AddLabel(t1, id, name) == (t1, r1)
  {
    var (t1, r1) := AddLabel(t, id, name);
    if r1.Ok? {
      assert t1.conversations == t.conversations;
      assert t1.labels + {LabelKey(id, name.v)} == t1.labels;
    }
  }

  /** A successful add puts in exactly that label and touches nothing else;
      anything else changes nothing. */
  lemma AddLabelEffect(t: Tables, id: Id, name: BodyField<string>)
    ensures var (t', r) := AddLabel(t, id, name);
            && (r.Ok? <==> name.Sent? && HasConversation(t, id))
            && (r.Ok? ==> t'.labels == t.labels + {LabelKey(id, name.v)} && t' == t.(labels := t'.labels))
            && (!r.Ok? ==> t' == t)
  {
  }

  /** Removing a label deletes exactly that row, succeeds when it is absent,
      and leaves every other label alone. */
  lemma RemoveLabelEffect(t: Tables, id: Id, name: string)
    ensures var t' := RemoveLabel(t, id, name);
            && LabelKey(id, name) !in t'.labels
            && (forall k :: k in t.labels && k != LabelKey(id, name) ==> k in t'.labels)
            && t'.labels <= t.labels
            && (LabelKey(id, name) !in t.labels ==> t' == t)
            && t' == t.(labels := t'.labels)
  {
    if LabelKey(id, name) !in t.labels {
      assert t.labels - {LabelKey(id, name)} == t.labels;
    }
  }

  /** Removing a label that was just added, and was not there before, gives
      the labels back. */
  lemma AddThenRemoveLabel(t: Tables, id: Id, name: string)
    requires HasConversation(t, id) && LabelKey(id, name) !in t.labels
    ensures RemoveLabel(AddLabel(t, id, Sent(name)).0, id, name) == t
  {
    assert (t.labels + {LabelKey(id, name)}) - {LabelKey(id, name)} == t.labels;
  }

  /** Every label row names a stored conversation. */
  ghost predicate LabelsReferenceConversations(t: Tables) {
    forall k :: k in t.labels ==> HasConversation(t, k.conversationId)
  }

  lemma LabelRoutesKeepReferences(t: Tables, id: Id, name: BodyField<string>, other: string)
    requires LabelsReferenceConversations(t)
    ensures LabelsReferenceConversations(AddLabel(t, id, name).0)
    ensures LabelsReferenceConversations(RemoveLabel(t, id, other))
  {
    var t1 := AddLabel(t, id, name).0;
    forall k | k in t1.labels
      ensures HasConversation(t1, k.conversationId)
    {
      assert t1.conversations == t.conversations;
    }
    var t2 := RemoveLabel(t, id, other);
    forall k | k in t2.labels
      ensures HasConversation(t2, k.conversationId)
    {
      assert t2.conversations == t.conversations;
    }
  }

  /** A note is appended exactly once, authored by the caller, on a stored
      conversation; otherwise nothing changes. */
  lemma AddNoteEffect(t: Tables, userId: string, id: Id, content: BodyField<string>)
    requires Valid(t)
    ensures var (t', r) := AddNote(t, userId, id, content);
            && (r.Ok? <==> content.Sent? && HasConversation(t, id))
            && (r.Ok? ==>
                  && t'.notes == t.notes + [r.value]
                  && r.value.userId == userId && r.value.conversationId == id && r.value.content == content.v
                  && r.value.id == t.nextId
                  && (forall n :: n in t.notes ==> n.id != r.value.id)
                  && t' == t.(notes := t'.notes, nextId := t.nextId + 1))
            && (!r.Ok? ==> t' == t)
  {
  }
}

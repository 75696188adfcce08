/** The `POST /api/conversations/messages` route: it validates a batch of
    transcript messages sent by the browser and upserts the valid ones into
    the `conversation_messages` table, ignoring rows whose
    (conversation_id, seq) key is already present. */
module MessagesRoute {
  import opened Wrappers
  import opened Text
  import opened Json

  /** The composite key of `conversation_messages`. */
  datatype MessageKey = MessageKey(conversationId: string, seqNo: int)

  /** The non-key columns of a stored message; `sender` is `None` when the
      request carried none. */
  datatype StoredMessage = StoredMessage(sender: Option<Json>, content: string)

  /** A row as the route builds it for the upsert. */
  datatype Row = Row(conversationId: string, seqNo: int, sender: Option<Json>, content: string)

  function KeyOf(r: Row): MessageKey {
    MessageKey(r.conversationId, r.seqNo)
  }

  function StoredOf(r: Row): StoredMessage {
    StoredMessage(r.sender, r.content)
  }

  /** The route's answers: 400 for a missing conversation id, 200 with the
      number of rows sent to the upsert, or 500 (a body that is not JSON, a
      JavaScript `TypeError` while reading it, or a database error). */
  datatype Response = BadRequest | Saved(inserted: nat) | ServerError

  // ----------------------------------------------------------------------
  // Reading the body

  /** `(body.conversationId || "").toString().trim()`. */
  function ConversationIdOf(body: Json): string
  {
    var v := Get(body, "conversationId");
    Trim(if Truthy(v) then ToJsString(v.value) else "")
  }

  /** `Array.isArray(body.messages) ? body.messages : []`. */
  function MessagesOf(body: Json): (ms: seq<Json>)
    ensures ms != [] ==> Get(body, "messages").Some? && Get(body, "messages").value.JArr?
  {
    var v := Get(body, "messages");
    if v.Some? && v.value.JArr? then v.value.items else []
  }

  /** `Number.isFinite(msg.seq) && msg.seq > 0`: only a number passes
      `Number.isFinite`, which does not convert its argument. */
  predicate HasPositiveSeq(m: Json) {
    var v := Get(m, "seq");
    v.Some? && v.value.JNum? && v.value.n > 0
  }

  /** The filter callback on one element: `Err` where JavaScript throws a
      `TypeError` (reading `seq` of `null`, or calling `trim` on a content
      that is neither a string nor `null`/`undefined`). */
  function KeepMessage(m: Json): (r: Result<bool, ()>)
    ensures r == Ok(true) ==> HasPositiveSeq(m)
  {
    if m.JNull? then Err(())
    else if !HasPositiveSeq(m) then Ok(false)
    else
      var c := Get(m, "content");
      if c.None? || c.value.JNull? then Ok(false)
      else if c.value.JStr? then Ok(Trim(c.value.s) != "")
      else Err(())
  }

  /** The row the `map` callback builds from a kept message. */
  function RowOf(conversationId: string, m: Json): Row
    requires KeepMessage(m) == Ok(true)
  {
    Row(conversationId, Get(m, "seq").value.n, Get(m, "sender"), Trim(Get(m, "content").value.s))
  }

  /** `messages.filter(...).map(...)`: the kept messages as rows, in input
      order, or `Err` when the filter throws on some element. */
  function ValidRows(conversationId: string, ms: seq<Json>): Result<seq<Row>, ()>
    decreases |ms|
  {
    if ms == [] then Ok([])
    else
      var keep := KeepMessage(ms[0]);
      var rest := ValidRows(conversationId, ms[1..]);
      if keep.Err? || rest.Err? then Err(())
      else if keep.value then Ok([RowOf(conversationId, ms[0])] + rest.value)
      else rest
  }

  // ----------------------------------------------------------------------
  // The upsert with ignoreDuplicates

  /** Inserting one row with ON CONFLICT DO NOTHING. */
  function InsertOne(table: map<MessageKey, StoredMessage>, r: Row): map<MessageKey, StoredMessage>
  {
    if KeyOf(r) in table then table else table[KeyOf(r) := StoredOf(r)]
  }

  /** Inserting a batch in order with ON CONFLICT DO NOTHING. */
  function InsertIgnoring(table: map<MessageKey, StoredMessage>, batch: seq<Row>): map<MessageKey, StoredMessage>
  {
    if batch == [] then table
    else InsertOne(InsertIgnoring(table, batch[..|batch| - 1]), batch[|batch| - 1])
  }

  /** The keys a batch carries. */
  function BatchKeys(batch: seq<Row>): set<MessageKey> {
    set i | 0 <= i < |batch| :: KeyOf(batch[i])
  }

  /** The whole request: the response and the new table. */
  function Handle(table: map<MessageKey, StoredMessage>, body: Option<Json>, dbFails: bool)
    : (Response, map<MessageKey, StoredMessage>)
  {
    if body.None? || body.value.JNull? then (ServerError, table)
    else
      var id := ConversationIdOf(body.value);
      var ms := MessagesOf(body.value);
      if id == "" then (BadRequest, table)
      else if ms == [] then (Saved(0), table)
      else
        var rows := ValidRows(id, ms);
        if rows.Err? then (ServerError, table)
        else if rows.value == [] then (Saved(0), table)
        else if dbFails then (ServerError, table)
        else (Saved(|rows.value|), InsertIgnoring(table, rows.value))
  }

  /** The `conversation_messages` table. */
  class MessageTable {
    var rows: map<MessageKey, StoredMessage>

    constructor ()
      ensures rows == map[]
    {
      rows := map[];
    }

    /** The route handler. `body` is `None` when the request body is not
        JSON; `dbFails` is whether the database reports an error. */
    method Post(body: Option<Json>, dbFails: bool) returns (response: Response)
      modifies this
      ensures (response, rows) == Handle(old(rows), body, dbFails)
    {
      if body.None? || body.value.JNull? {
        return ServerError;
      }
      var conversationId := ConversationIdOf(body.value);
      var messages := MessagesOf(body.value);
      if conversationId == "" {
        return BadRequest;
      }
      if |messages| == 0 {
        return Saved(0);
      }
      var valid := ValidRows(conversationId, messages);
      if valid.Err? {
        return ServerError;
      }
      var batch := valid.value;
      if |batch| == 0 {
        return Saved(0);
      }
      if dbFails {
        return ServerError;
      }
      UpsertIgnoringDuplicates(batch);
      return Saved(|batch|);
    }

    /** `upsert(rows, { onConflict: "conversation_id,seq", ignoreDuplicates: true })`. */
    method UpsertIgnoringDuplicates(batch: seq<Row>)
      modifies this
      ensures rows == InsertIgnoring(old(rows), batch)
    {
      var i := 0;
      while i < |batch|
        invariant 0 <= i <= |batch|
        invariant rows == InsertIgnoring(old(rows), batch[..i])
      {
        assert batch[..i + 1][..i] == batch[..i];
        if KeyOf(batch[i]) !in rows {
          rows := rows[KeyOf(batch[i]) := StoredOf(batch[i])];
        }
        i := i + 1;
      }
      assert batch[..i] == batch;
    }
  }

  // ----------------------------------------------------------------------
  // Properties

  /** The table changes only on a 200 answer reporting at least one row;
      every other answer writes nothing. */
  lemma OnlySuccessWrites(table: map<MessageKey, StoredMessage>, body: Option<Json>, dbFails: bool)
    ensures var (response, after) := Handle(table, body, dbFails);
      after != table ==> response.Saved? && response.inserted > 0
  {
  }

  /** A body that is JSON other than `null` is answered 400 exactly when its
      conversation id is blank. */
  lemma BlankConversationIdIsBadRequest(table: map<MessageKey, StoredMessage>, body: Json, dbFails: bool)
    requires !body.JNull?
    ensures Handle(table, Some(body), dbFails).0 == BadRequest <==> ConversationIdOf(body) == ""
    ensures ConversationIdOf(body) == "" ==> Handle(table, Some(body), dbFails).1 == table
  {
  }

  /** A `messages` property that is not an array counts as an empty list:
      the answer is `{inserted: 0}` and nothing is written. */
  lemma NonArrayMessagesSaveNothing(table: map<MessageKey, StoredMessage>, body: Json, dbFails: bool)
    requires !body.JNull? && ConversationIdOf(body) != ""
    requires Get(body, "messages").None? || !Get(body, "messages").value.JArr?
    ensures Handle(table, Some(body), dbFails) == (Saved(0), table)
  {
  }

  /** A request whose batch passes the filter with at least one row is
      answered with the batch size, and the rows are upserted. */
  lemma ValidBatchIsUpserted(table: map<MessageKey, StoredMessage>, body: Json, batch: seq<Row>)
    requires !body.JNull? && ConversationIdOf(body) != ""
    requires ValidRows(ConversationIdOf(body), MessagesOf(body)) == Ok(batch) && batch != []
    ensures Handle(table, Some(body), false) == (Saved(|batch|), InsertIgnoring(table, batch))
  {
  }

  /** The filter distributes over concatenation: it keeps input order. */
  lemma {:induction false} ValidRowsAppend(id: string, a: seq<Json>, b: seq<Json>)
    ensures ValidRows(id, a + b).Ok? <==> ValidRows(id, a).Ok? && ValidRows(id, b).Ok?
    ensures ValidRows(id, a + b).Ok? ==>
      ValidRows(id, a + b).value == ValidRows(id, a).value + ValidRows(id, b).value
    decreases |a|
  {
    if a == [] {
      assert a + b == b;
    } else {
      assert (a + b)[1..] == a[1..] + b;
      assert (a + b)[0] == a[0];
      ValidRowsAppend(id, a[1..], b);
    }
  }

  /** `msg.content` is a string. */
  predicate StringContent(m: Json) {
    Get(m, "content").Some? && Get(m, "content").value.JStr?
  }

  /** `msg.content` is `null` or `undefined`, so `msg.content?.trim()` is `undefined`. */
  predicate NullishContent(m: Json) {
    Get(m, "content").None? || Get(m, "content").value.JNull?
  }

  /** One message on its own: the filter throws on `null` and on a content
      of another type behind a valid seq; it keeps the message exactly when
      the seq is a positive number and the content a non-blank string, and
      then the row carries the trimmed content. */
  lemma SingleMessage(id: string, m: Json)
    ensures ValidRows(id, [m]).Err? <==>
      m.JNull? || (HasPositiveSeq(m) && !NullishContent(m) && !StringContent(m))
    ensures ValidRows(id, [m]) == Ok([]) <==>
      !m.JNull? && (!HasPositiveSeq(m) || NullishContent(m)
                    || (StringContent(m) && Trim(Get(m, "content").value.s) == ""))
    ensures HasPositiveSeq(m) && StringContent(m) && Trim(Get(m, "content").value.s) != "" ==>
      ValidRows(id, [m]) == Ok([Row(id, Get(m, "seq").value.n, Get(m, "sender"),
                                    Trim(Get(m, "content").value.s))])
  {
    assert [m][1..] == [];
    assert ValidRows(id, [m][1..]) == Ok([]);
    if KeepMessage(m) == Ok(true) {
      var r := RowOf(id, m);
      assert [r] + [] == [r];
      assert ValidRows(id, [m]) == Ok([r]);
    }
  }

  /** Every row the filter keeps belongs to the request's conversation, has
      a positive seq and a non-blank content that is already trimmed, and
      there are never more rows than messages. */
  lemma {:induction false} ValidRowsAreClean(id: string, ms: seq<Json>)
    requires ValidRows(id, ms).Ok?
    ensures |ValidRows(id, ms).value| <= |ms|
    ensures forall r | r in ValidRows(id, ms).value ::
      r.conversationId == id && r.seqNo > 0 && r.content != "" && Trim(r.content) == r.content
    decreases |ms|
  {
    if ms != [] {
      ValidRowsAreClean(id, ms[1..]);
      if KeepMessage(ms[0]).value {
        var r := RowOf(id, ms[0]);
        TrimIdempotent(Get(ms[0], "content").value.s);
      }
    }
  }

  /** Rows already in the table keep their contents: a duplicate never
      overwrites. */
  lemma {:induction false} InsertIgnoringKeepsExisting(table: map<MessageKey, StoredMessage>, batch: seq<Row>)
    ensures forall k | k in table :: k in InsertIgnoring(table, batch) && InsertIgnoring(table, batch)[k] == table[k]
    decreases |batch|
  {
    if batch != [] {
      InsertIgnoringKeepsExisting(table, batch[..|batch| - 1]);
    }
  }

  /** After the upsert the table holds exactly the old keys and the batch's keys. */
  lemma {:induction false} InsertIgnoringKeys(table: map<MessageKey, StoredMessage>, batch: seq<Row>)
    ensures InsertIgnoring(table, batch).Keys == table.Keys + BatchKeys(batch)
    decreases |batch|
  {
    if batch != [] {
      var init := batch[..|batch| - 1];
      InsertIgnoringKeys(table, init);
      assert BatchKeys(batch) == BatchKeys(init) + {KeyOf(batch[|batch| - 1])} by {
        forall k | k in BatchKeys(batch) ensures k in BatchKeys(init) + {KeyOf(batch[|batch| - 1])} {
          var i :| 0 <= i < |batch| && k == KeyOf(batch[i]);
          if i < |batch| - 1 { assert KeyOf(init[i]) == k; }
        }
        forall k | k in BatchKeys(init) ensures k in BatchKeys(batch) {
          var i :| 0 <= i < |init| && k == KeyOf(init[i]);
          assert KeyOf(batch[i]) == k;
        }
      }
    }
  }

  /** A new key receives the first row of the batch that carries it; later
      rows with the same key are ignored. */
  lemma {:induction false} InsertIgnoringFirstWins(table: map<MessageKey, StoredMessage>, batch: seq<Row>, i: nat)
    requires i < |batch| && KeyOf(batch[i]) !in table
    requires forall j | 0 <= j < i :: KeyOf(batch[j]) != KeyOf(batch[i])
    ensures KeyOf(batch[i]) in InsertIgnoring(table, batch)
    ensures InsertIgnoring(table, batch)[KeyOf(batch[i])] == StoredOf(batch[i])
    decreases |batch|
  {
    var init := batch[..|batch| - 1];
    if i == |batch| - 1 {
      InsertIgnoringKeys(table, init);
      forall j | 0 <= j < |init| ensures KeyOf(init[j]) != KeyOf(batch[i]) {
        assert init[j] == batch[j];
      }
    } else {
      assert init[i] == batch[i];
      InsertIgnoringFirstWins(table, init, i);
    }
  }

  /** The answer counts every row sent to the upsert, including the ones the
      database ignored as duplicates: a batch whose keys all exist already
      is answered with its full size while the table does not change. */
  lemma {:induction false} DuplicatesAreCountedButNotWritten(table: map<MessageKey, StoredMessage>, body: Json, dbFails: bool)
    requires !body.JNull? && !dbFails
    requires ValidRows(ConversationIdOf(body), MessagesOf(body)).Ok?
    requires BatchKeys(ValidRows(ConversationIdOf(body), MessagesOf(body)).value) <= table.Keys
    requires ConversationIdOf(body) != ""
    ensures Handle(table, Some(body), dbFails)
         == (Saved(|ValidRows(ConversationIdOf(body), MessagesOf(body)).value|), table)
  {
    var batch := ValidRows(ConversationIdOf(body), MessagesOf(body)).value;
    InsertIgnoringKeys(table, batch);
    InsertIgnoringKeepsExisting(table, batch);
    var after := InsertIgnoring(table, batch);
    assert after == table;
  }
}

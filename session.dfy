/** The bookkeeping of the live-avatar session component: the loop that
    sends the not yet saved chat messages to the messages route in batches,
    numbered by a running sequence counter; the guard that ends a
    conversation at most once; the stop button and the two-minute countdown
    that stop the session; and the `M:SS` rendering of the remaining time. */
module Session {
  import opened Wrappers
  import opened Text
  import opened Json
  import opened ChatHistory
  import MessagesRoute

  /** `SESSION_DURATION_LIMIT`, in seconds. */
  const SessionDurationLimit: int := 2 * 60

  /** One entry of the request's `messages` array. */
  datatype Outgoing = Outgoing(seqNo: int, sender: Sender, content: string)

  /** How the save request of `persistPendingMessages` ends: a 2xx answer,
      another status, or a `fetch` that rejects (a network failure). */
  datatype SaveOutcome = SaveOk | SaveFailed | SaveThrew

  /** The component's refs and countdown state:
      `nextSeqRef`, `lastSavedMessageCountRef`, `isPersistingRef`,
      `conversationEndedRef`, the `timeRemaining` state, `timerStartedRef`,
      whether the countdown interval is installed, and how many times the
      component asked for the end route, asked for the session to stop and
      called `onSessionStopped`. */
  datatype State = State(
    nextSeq: int, lastSaved: nat, isPersisting: bool,
    ended: bool, endRequests: nat,
    timeRemaining: int, timerStarted: bool, intervalRunning: bool,
    stopRequests: nat, stopNotices: nat)

  function Initial(): State {
    State(1, 0, false, false, 0, SessionDurationLimit, false, false, 0, 0)
  }

  // ----------------------------------------------------------------------
  // Batching the pending messages

  /** `pending.map((msg, idx) => ({ seq: nextSeq + idx, ... }))`. */
  function Numbered(pending: seq<ChatMessage>, start: int): seq<Outgoing>
  {
    seq(|pending|, i requires 0 <= i < |pending| => Outgoing(start + i, pending[i].sender, pending[i].message))
  }

  /** `.filter((msg) => msg.content?.trim())`. */
  function NonBlankOnly(xs: seq<Outgoing>): seq<Outgoing>
  {
    if xs == [] then []
    else (if Trim(xs[0].content) != "" then [xs[0]] else []) + NonBlankOnly(xs[1..])
  }

  /** The request payload for the pending messages: numbered first, then
      stripped of blank messages. */
  function Payload(pending: seq<ChatMessage>, start: int): seq<Outgoing>
  {
    NonBlankOnly(Numbered(pending, start))
  }

  /** One call of `persistPendingMessages` with the `messages` the callback
      captured, and the payload of the save request when one is made. At
      most one request is sent: a successful save accounts for every pending
      message, which ends the loop, and a failed one breaks it. A rejected
      `fetch` leaves the counters as a failed save does (the `finally`
      clears `isPersistingRef`), but the call itself then rejects: see
      `PersistThrows`. */
  function Persist(s: State, conversationId: string, messages: seq<ChatMessage>, outcome: SaveOutcome)
    : (State, Option<seq<Outgoing>>)
  {
    if conversationId == "" || s.isPersisting || s.lastSaved >= |messages| then (s, None)
    else
      var pending := messages[s.lastSaved..];
      var payload := Payload(pending, s.nextSeq);
      if payload == [] then (s.(lastSaved := |messages|), None)
      else if !outcome.SaveOk? then (s, Some(payload))
      else (s.(nextSeq := s.nextSeq + |payload|, lastSaved := s.lastSaved + |pending|), Some(payload))
  }

  /** Whether the call rejects: a save request is made and its `fetch` rejects. */
  predicate PersistThrows(s: State, conversationId: string, messages: seq<ChatMessage>, outcome: SaveOutcome)
  {
    Persist(s, conversationId, messages, outcome).1.Some? && outcome.SaveThrew?
  }

  /** `endConversation`: effective once per component, and only with a
      conversation id. It marks the conversation ended, then awaits the save
      of the pending messages outside its `try`, so a rejected save makes it
      reject before the end route is called; otherwise it calls the end
      route, whose failure is only logged. */
  function End(s: State, conversationId: string, messages: seq<ChatMessage>, outcome: SaveOutcome)
    : (State, Option<seq<Outgoing>>)
  {
    if conversationId == "" || s.ended then (s, None)
    else
      var (s1, sent) := Persist(s.(ended := true), conversationId, messages, outcome);
      if PersistThrows(s.(ended := true), conversationId, messages, outcome) then (s1, sent)
      else (s1.(endRequests := s1.endRequests + 1), sent)
  }

  /** Whether `endConversation` rejects. */
  predicate EndThrows(s: State, conversationId: string, messages: seq<ChatMessage>, outcome: SaveOutcome)
  {
    conversationId != "" && !s.ended && PersistThrows(s.(ended := true), conversationId, messages, outcome)
  }

  /** `stopAndFinalizeSession`: stop the avatar session, end the
      conversation, then call `onSessionStopped`, which a rejected
      `endConversation` skips. */
  function StopAndFinalize(s: State, conversationId: string, messages: seq<ChatMessage>, outcome: SaveOutcome)
    : (State, Option<seq<Outgoing>>)
  {
    var t := s.(stopRequests := s.stopRequests + 1);
    var (s1, sent) := End(t, conversationId, messages, outcome);
    if EndThrows(t, conversationId, messages, outcome) then (s1, sent)
    else (s1.(stopNotices := s1.stopNotices + 1), sent)
  }

  // ----------------------------------------------------------------------
  // The countdown

  /** The state updater of the one-second interval: the new remaining time
      and whether the time ran out (which clears the interval and stops the
      session). */
  function CountdownStep(prev: int): (int, bool)
  {
    if prev <= 1 then (0, true) else (prev - 1, false)
  }

  /** The cleanup of the countdown effect, `clearInterval(interval)`, which
      React runs before the effect runs again and at unmount. */
  function ClearTimer(s: State): State
  {
    s.(intervalRunning := false)
  }

  /** The body of the countdown effect: it installs the interval when the
      stream is ready and the timer has not been started before. */
  function StartTimer(s: State, isStreamReady: bool): State
  {
    if !isStreamReady || s.timerStarted then s
    else s.(timerStarted := true, intervalRunning := true)
  }

  /** One tick of the interval. */
  function Tick(s: State, conversationId: string, messages: seq<ChatMessage>, outcome: SaveOutcome)
    : (State, Option<seq<Outgoing>>)
  {
    if !s.intervalRunning then (s, None)
    else
      var (next, expired) := CountdownStep(s.timeRemaining);
      if !expired then (s.(timeRemaining := next), None)
      else StopAndFinalize(s.(timeRemaining := next, intervalRunning := false), conversationId, messages, outcome)
  }

  // ----------------------------------------------------------------------
  // The component

  class LiveAvatarSessionComponent {
    const conversationId: string
    var nextSeq: int
    var lastSaved: nat
    var isPersisting: bool
    var ended: bool
    var endRequests: nat
    var timeRemaining: int
    var timerStarted: bool
    var intervalRunning: bool
    var stopRequests: nat
    var stopNotices: nat

    function Snapshot(): State
      reads this
    {
      State(nextSeq, lastSaved, isPersisting, ended, endRequests,
            timeRemaining, timerStarted, intervalRunning, stopRequests, stopNotices)
    }

    constructor (id: string)
      ensures conversationId == id && Snapshot() == Initial()
    {
      conversationId := id;
      nextSeq := 1;
      lastSaved := 0;
      isPersisting := false;
      ended := false;
      endRequests := 0;
      timeRemaining := SessionDurationLimit;
      timerStarted := false;
      intervalRunning := false;
      stopRequests := 0;
      stopNotices := 0;
    }

    /** `persistPendingMessages`; `sent` is the payload of the save request
        when one is made, and `threw` whether the call rejects. */
    method PersistPendingMessages(messages: seq<ChatMessage>, outcome: SaveOutcome)
      returns (sent: Option<seq<Outgoing>>, threw: bool)
      modifies this
      ensures (Snapshot(), sent) == Persist(old(Snapshot()), conversationId, messages, outcome)
      ensures threw == PersistThrows(old(Snapshot()), conversationId, messages, outcome)
    {
      sent := None;
      threw := false;
      if conversationId == "" || isPersisting {
        return;
      }
      isPersisting := true;
      while lastSaved < |messages|
        invariant isPersisting && !threw
        invariant || (Snapshot() == old(Snapshot()).(isPersisting := true) && sent.None?)
                  || ((Snapshot().(isPersisting := false), sent) == Persist(old(Snapshot()), conversationId, messages, outcome)
                      && lastSaved >= |messages|)
        decreases |messages| - lastSaved
      {
        var pending := messages[lastSaved..];
        var payload := Payload(pending, nextSeq);
        if |payload| == 0 {
          lastSaved := |messages|;
          break;
        }
        sent := Some(payload);
        if outcome == SaveThrew {
          threw := true;
          break;
        }
        if outcome == SaveFailed {
          break;
        }
        nextSeq := nextSeq + |payload|;
        lastSaved := lastSaved + |pending|;
      }
      isPersisting := false;
    }

    /** `endConversation`; `threw` is whether it rejects. */
    method EndConversation(messages: seq<ChatMessage>, outcome: SaveOutcome)
      returns (sent: Option<seq<Outgoing>>, threw: bool)
      modifies this
      ensures (Snapshot(), sent) == End(old(Snapshot()), conversationId, messages, outcome)
      ensures threw == EndThrows(old(Snapshot()), conversationId, messages, outcome)
    {
      sent := None;
      threw := false;
      if conversationId == "" || ended {
        return;
      }
      ended := true;
      sent, threw := PersistPendingMessages(messages, outcome);
      if threw {
        return;
      }
      endRequests := endRequests + 1;
    }

    method StopAndFinalizeSession(messages: seq<ChatMessage>, outcome: SaveOutcome) returns (sent: Option<seq<Outgoing>>)
      modifies this
      ensures (Snapshot(), sent) == StopAndFinalize(old(Snapshot()), conversationId, messages, outcome)
    {
      stopRequests := stopRequests + 1;
      var threw;
      sent, threw := EndConversation(messages, outcome);
      if threw {
        return;
      }
      stopNotices := stopNotices + 1;
    }

    /** The cleanup returned by the countdown effect. */
    method ClearCountdown()
      modifies this
      ensures Snapshot() == ClearTimer(old(Snapshot()))
    {
      intervalRunning := false;
    }

    /** The body of the countdown effect. */
    method StartCountdown(isStreamReady: bool)
      modifies this
      ensures Snapshot() == StartTimer(old(Snapshot()), isStreamReady)
    {
      if !isStreamReady || timerStarted {
        return;
      }
      timerStarted := true;
      intervalRunning := true;
    }

    method CountdownTick(messages: seq<ChatMessage>, outcome: SaveOutcome) returns (sent: Option<seq<Outgoing>>)
      modifies this
      ensures (Snapshot(), sent) == Tick(old(Snapshot()), conversationId, messages, outcome)
    {
      sent := None;
      if !intervalRunning {
        return;
      }
      var (next, expired) := CountdownStep(timeRemaining);
      timeRemaining := next;
      if expired {
        intervalRunning := false;
        sent := StopAndFinalizeSession(messages, outcome);
      }
    }
  }

  // ----------------------------------------------------------------------
  // The time display

  /** JavaScript's `%`, whose result takes the sign of the dividend. */
  function JsRemainder(a: int, b: int): int
    requires b > 0
  {
    if a >= 0 then a % b else -((-a) % b)
  }

  /** `String.prototype.padStart(2, "0")`. */
  function PadStart2(s: string): string
  {
    if |s| >= 2 then s else if |s| == 1 then "0" + s else "00"
  }

  /** `formatTime`: `Math.floor(seconds / 60)`, a colon, and `seconds % 60`
      padded to two digits. Dafny's `/` by a positive divisor rounds down,
      as `Math.floor` does. */
  function FormatTime(seconds: int): string
  {
    IntToString(seconds / 60) + ":" + PadStart2(IntToString(JsRemainder(seconds, 60)))
  }

  // ----------------------------------------------------------------------
  // Properties of the batching

  predicate Increasing(xs: seq<Outgoing>) {
    forall i, j | 0 <= i < j < |xs| :: xs[i].seqNo < xs[j].seqNo
  }

  /** The filter keeps a part of its input, never more of it. */
  lemma {:induction false} NonBlankOnlyKeeps(xs: seq<Outgoing>)
    ensures |NonBlankOnly(xs)| <= |xs|
    ensures forall o | o in NonBlankOnly(xs) :: o in xs
  {
    if xs != [] {
      NonBlankOnlyKeeps(xs[1..]);
    }
  }

  /** What the filter keeps is not blank. */
  lemma {:induction false} NonBlankOnlyDropsBlank(xs: seq<Outgoing>)
    ensures forall o | o in NonBlankOnly(xs) :: Trim(o.content) != ""
  {
    if xs != [] {
      NonBlankOnlyDropsBlank(xs[1..]);
    }
  }

  lemma IncreasingTail(xs: seq<Outgoing>)
    requires xs != [] && Increasing(xs)
    ensures Increasing(xs[1..])
    ensures forall o | o in xs[1..] :: xs[0].seqNo < o.seqNo
  {
    forall i, j | 0 <= i < j < |xs[1..]| ensures xs[1..][i].seqNo < xs[1..][j].seqNo {
      assert xs[1..][i] == xs[i + 1] && xs[1..][j] == xs[j + 1];
    }
    forall o | o in xs[1..] ensures xs[0].seqNo < o.seqNo {
      var k :| 0 <= k < |xs[1..]| && xs[1..][k] == o;
      assert xs[k + 1] == o;
    }
  }

  /** Filtering keeps the order: an increasing input gives an increasing output. */
  lemma {:induction false} NonBlankOnlyIncreasing(xs: seq<Outgoing>)
    requires Increasing(xs)
    ensures Increasing(NonBlankOnly(xs))
  {
    if xs != [] {
      IncreasingTail(xs);
      NonBlankOnlyIncreasing(xs[1..]);
      NonBlankOnlyKeeps(xs[1..]);
      var rest := NonBlankOnly(xs[1..]);
      if Trim(xs[0].content) != "" {
        var r := [xs[0]] + rest;
        forall i, j | 0 <= i < j < |r| ensures r[i].seqNo < r[j].seqNo {
          if i == 0 {
            assert r[j] == rest[j - 1];
          } else {
            assert r[i] == rest[i - 1] && r[j] == rest[j - 1];
          }
        }
      }
    }
  }

  /** The filter drops nothing exactly when no entry is blank. */
  lemma {:induction false} NonBlankOnlyAll(xs: seq<Outgoing>)
    ensures NonBlankOnly(xs) == xs <==> forall i | 0 <= i < |xs| :: Trim(xs[i].content) != ""
  {
    if xs != [] {
      NonBlankOnlyAll(xs[1..]);
      NonBlankOnlyKeeps(xs[1..]);
      if Trim(xs[0].content) == "" {
        assert |NonBlankOnly(xs)| < |xs|;
      } else {
        assert NonBlankOnly(xs) == [xs[0]] + NonBlankOnly(xs[1..]);
        assert xs == [xs[0]] + xs[1..];
        assert (forall i | 0 <= i < |xs| :: Trim(xs[i].content) != "")
           <==> (forall i | 0 <= i < |xs[1..]| :: Trim(xs[1..][i].content) != "") by {
          assert forall i | 0 <= i < |xs[1..]| :: xs[1..][i] == xs[i + 1];
        }
      }
    }
  }

  /** Seqs are numbered in pending order: the message at pending index
      `idx` is sent with seq `start + idx`, so every sent seq lies in
      `[start, start + |pending|)`, identifies its message, and sent seqs
      increase. */
  lemma PayloadNumbering(pending: seq<ChatMessage>, start: int)
    ensures forall o | o in Payload(pending, start) ::
      start <= o.seqNo < start + |pending|
      && o == Outgoing(o.seqNo, pending[o.seqNo - start].sender, pending[o.seqNo - start].message)
    ensures Increasing(Payload(pending, start))
    ensures |Payload(pending, start)| <= |pending|
  {
    var ns := Numbered(pending, start);
    NonBlankOnlyKeeps(ns);
    NonBlankOnlyIncreasing(ns);
    forall o | o in ns
      ensures start <= o.seqNo < start + |pending|
      ensures o == Outgoing(o.seqNo, pending[o.seqNo - start].sender, pending[o.seqNo - start].message)
    {
      var k :| 0 <= k < |ns| && ns[k] == o;
    }
  }

  /** Every sent message has text, and nothing is dropped exactly when no
      pending message is blank. */
  lemma PayloadDropsOnlyBlank(pending: seq<ChatMessage>, start: int)
    ensures forall o | o in Payload(pending, start) :: !IsBlank(o.content)
    ensures |Payload(pending, start)| == |pending| <==> AllNonBlank(pending)
  {
    var ns := Numbered(pending, start);
    NonBlankOnlyDropsBlank(ns);
    NonBlankOnlyAll(ns);
    forall o | o in Payload(pending, start) ensures !IsBlank(o.content) {
      TrimSpec(o.content);
    }
    forall i | 0 <= i < |pending| ensures (Trim(ns[i].content) != "" <==> !IsBlank(pending[i].message)) {
      TrimSpec(pending[i].message);
    }
    NonBlankOnlyLength(ns);
  }

  /** A filter result as long as its input is the input. */
  lemma {:induction false} NonBlankOnlyLength(xs: seq<Outgoing>)
    ensures |NonBlankOnly(xs)| == |xs| ==> NonBlankOnly(xs) == xs
  {
    if xs != [] {
      NonBlankOnlyLength(xs[1..]);
      NonBlankOnlyKeeps(xs[1..]);
      if |NonBlankOnly(xs)| == |xs| {
        assert [xs[0]] + xs[1..] == xs;
      }
    }
  }

  /** With no conversation id, or while a save runs, nothing happens. */
  lemma PersistGuard(s: State, conversationId: string, messages: seq<ChatMessage>, outcome: SaveOutcome)
    requires conversationId == "" || s.isPersisting
    ensures Persist(s, conversationId, messages, outcome) == (s, None)
  {
  }

  /** What one call does to the two counters: a successful save advances
      `nextSeq` by the number of messages sent and `lastSaved` to the end of
      the list; a failed save changes neither; a batch of only blank
      messages moves `lastSaved` to the end and leaves `nextSeq`. */
  lemma PersistCounters(s: State, conversationId: string, messages: seq<ChatMessage>, outcome: SaveOutcome)
    requires conversationId != "" && !s.isPersisting && s.lastSaved < |messages|
    ensures var (after, sent) := Persist(s, conversationId, messages, outcome);
      var pending := messages[s.lastSaved..];
      && after.isPersisting == s.isPersisting && after.ended == s.ended
      && (sent.None? <==> Payload(pending, s.nextSeq) == [])
      && (sent.None? ==> after == s.(lastSaved := |messages|))
      && (sent.Some? && outcome.SaveOk? ==>
            after == s.(nextSeq := s.nextSeq + |sent.value|, lastSaved := |messages|)
            && 0 < |sent.value| <= |pending|)
      && (sent.Some? && !outcome.SaveOk? ==> after == s)
  {
    PayloadNumbering(messages[s.lastSaved..], s.nextSeq);
  }

  /** When the messages of a successful batch are all non-blank, the next
      batch only uses seqs above every seq of this one, so the table's key
      (conversation_id, seq) never repeats. */
  lemma ConsecutiveBatchesDisjoint(s: State, id: string, m1: seq<ChatMessage>, m2: seq<ChatMessage>, outcome2: SaveOutcome)
    requires Persist(s, id, m1, SaveOk).1.Some?
    requires AllNonBlank(m1[s.lastSaved..])
    requires Persist(Persist(s, id, m1, SaveOk).0, id, m2, outcome2).1.Some?
    ensures var first := Persist(s, id, m1, SaveOk).1.value;
      var second := Persist(Persist(s, id, m1, SaveOk).0, id, m2, outcome2).1.value;
      forall a, b | a in first && b in second :: a.seqNo < b.seqNo
  {
    var s1 := Persist(s, id, m1, SaveOk).0;
    var pending1 := m1[s.lastSaved..];
    PayloadNumbering(pending1, s.nextSeq);
    PayloadDropsOnlyBlank(pending1, s.nextSeq);
    PayloadNumbering(m2[s1.lastSaved..], s1.nextSeq);
  }

  /** A blank message shifts the numbering: it consumes a seq that the
      counter does not count, so the next batch starts on a seq already
      used. With `m1 = [blank, a]` the first batch sends `a` as seq
      `start + 1`, and a later `b` is sent with that same seq. */
  lemma BlankMessageReusesSeq(s: State, id: string, blank: ChatMessage, a: ChatMessage, b: ChatMessage, outcome2: SaveOutcome)
    requires id != "" && !s.isPersisting && s.lastSaved == 0
    requires IsBlank(blank.message) && !IsBlank(a.message) && !IsBlank(b.message)
    ensures var s1 := Persist(s, id, [blank, a], SaveOk).0;
      && Persist(s, id, [blank, a], SaveOk).1 == Some([Outgoing(s.nextSeq + 1, a.sender, a.message)])
      && Persist(s1, id, [blank, a, b], outcome2).1 == Some([Outgoing(s.nextSeq + 1, b.sender, b.message)])
  {
    TrimSpec(blank.message);
    TrimSpec(a.message);
    TrimSpec(b.message);
    var n := s.nextSeq;
    var oa := Outgoing(n + 1, a.sender, a.message);
    var ob := Outgoing(n + 1, b.sender, b.message);
    assert [blank, a][s.lastSaved..] == [blank, a];
    var ns1 := Numbered([blank, a], n);
    assert ns1 == [Outgoing(n, blank.sender, blank.message), oa];
    assert ns1[1..] == [oa];
    assert Trim(ns1[0].content) == "";
    assert NonBlankOnly(ns1) == NonBlankOnly([oa]);
    assert [oa][1..] == [];
    assert NonBlankOnly([oa]) == [oa] + NonBlankOnly([]);
    assert Payload([blank, a], n) == [oa];
    var s1 := Persist(s, id, [blank, a], SaveOk).0;
    assert s1.lastSaved == 2 && s1.nextSeq == n + 1;
    assert [blank, a, b][s1.lastSaved..] == [b];
    assert Numbered([b], n + 1) == [ob];
    assert [ob][1..] == [];
    assert NonBlankOnly([ob]) == [ob] + NonBlankOnly([]);
    assert Payload([b], n + 1) == [ob];
  }

  // ----------------------------------------------------------------------
  // From the client to the route

  /** The `sender` value on the wire. */
  function SenderName(s: Sender): string {
    match s
    case User => "user"
    case Avatar => "avatar"
  }

  function EncodeMessage(o: Outgoing): Json {
    JObj(map["seq" := JNum(o.seqNo), "sender" := JStr(SenderName(o.sender)), "content" := JStr(o.content)])
  }

  function Encoded(payload: seq<Outgoing>): seq<Json> {
    if payload == [] then [] else [EncodeMessage(payload[0])] + Encoded(payload[1..])
  }

  /** `JSON.stringify({ conversationId, messages: payload })` as the route parses it. */
  function RequestBody(conversationId: string, payload: seq<Outgoing>): Json {
    JObj(map["conversationId" := JStr(conversationId), "messages" := JArr(Encoded(payload))])
  }

  /** The row the route stores for a sent message. */
  function RowFor(conversationId: string, o: Outgoing): MessagesRoute.Row {
    MessagesRoute.Row(conversationId, o.seqNo, Some(JStr(SenderName(o.sender))), Trim(o.content))
  }

  function RowsFor(conversationId: string, payload: seq<Outgoing>): seq<MessagesRoute.Row> {
    if payload == [] then [] else [RowFor(conversationId, payload[0])] + RowsFor(conversationId, payload[1..])
  }

  /** The route keeps a message the client sends, as the row the client meant. */
  lemma EncodedMessageKept(id: string, o: Outgoing)
    requires o.seqNo > 0 && Trim(o.content) != ""
    ensures MessagesRoute.KeepMessage(EncodeMessage(o)) == Ok(true)
    ensures MessagesRoute.RowOf(id, EncodeMessage(o)) == RowFor(id, o)
  {
  }

  /** The route accepts every message of a batch the client builds: one row
      per message, in order, with the content trimmed. */
  lemma {:induction false} EncodedBatchIsValid(id: string, payload: seq<Outgoing>)
    requires forall o | o in payload :: o.seqNo > 0 && Trim(o.content) != ""
    ensures MessagesRoute.ValidRows(id, Encoded(payload)) == Ok(RowsFor(id, payload))
  {
    if payload != [] {
      EncodedBatchIsValid(id, payload[1..]);
      EncodedMessageKept(id, payload[0]);
      assert Encoded(payload)[1..] == Encoded(payload[1..]);
    }
  }

  /** How the route reads a request body the client builds. */
  lemma RequestBodyRead(id: string, payload: seq<Outgoing>)
    ensures MessagesRoute.ConversationIdOf(RequestBody(id, payload)) == Trim(id)
    ensures MessagesRoute.MessagesOf(RequestBody(id, payload)) == Encoded(payload)
  {
  }

  /** A batch the client sends is stored as one row per message, every
      message counted in the answer, unless the database fails. */
  lemma SentBatchIsSaved(s: State, id: string, messages: seq<ChatMessage>, outcome: SaveOutcome,
                         table: map<MessagesRoute.MessageKey, MessagesRoute.StoredMessage>)
    requires s.nextSeq >= 1 && Trim(id) == id
    requires Persist(s, id, messages, outcome).1.Some?
    ensures var payload := Persist(s, id, messages, outcome).1.value;
      MessagesRoute.Handle(table, Some(RequestBody(id, payload)), false)
        == (MessagesRoute.Saved(|payload|), MessagesRoute.InsertIgnoring(table, RowsFor(id, payload)))
  {
    var pending := messages[s.lastSaved..];
    var payload := Payload(pending, s.nextSeq);
    assert Persist(s, id, messages, outcome).1.value == payload;
    PayloadNumbering(pending, s.nextSeq);
    NonBlankOnlyDropsBlank(Numbered(pending, s.nextSeq));
    SentBatchIsSavedGlue(id, payload, table);
  }

  lemma SentBatchIsSavedGlue(id: string, payload: seq<Outgoing>,
                             table: map<MessagesRoute.MessageKey, MessagesRoute.StoredMessage>)
    requires Trim(id) == id && id != "" && payload != []
    requires forall o | o in payload :: o.seqNo > 0 && Trim(o.content) != ""
    ensures MessagesRoute.Handle(table, Some(RequestBody(id, payload)), false)
         == (MessagesRoute.Saved(|payload|), MessagesRoute.InsertIgnoring(table, RowsFor(id, payload)))
  {
    EncodedBatchIsValid(id, payload);
    RowsForLength(id, payload);
    RequestBodyRead(id, payload);
    MessagesRoute.ValidBatchIsUpserted(table, RequestBody(id, payload), RowsFor(id, payload));
  }

  lemma {:induction false} RowsForLength(id: string, payload: seq<Outgoing>)
    ensures |RowsFor(id, payload)| == |payload| && |Encoded(payload)| == |payload|
  {
    if payload != [] {
      RowsForLength(id, payload[1..]);
    }
  }

  /** The reused seq of BlankMessageReusesSeq loses a message: the route
      answers `{inserted: 1}` for `b`, but the table keeps `a` under that
      key and does not change. */
  lemma ReusedSeqDropsMessage(id: string, n: int, a: ChatMessage, b: ChatMessage,
                              table: map<MessagesRoute.MessageKey, MessagesRoute.StoredMessage>)
    requires Trim(id) == id && id != "" && n >= 1
    requires !IsBlank(a.message) && !IsBlank(b.message)
    ensures var t1 := MessagesRoute.Handle(table, Some(RequestBody(id, [Outgoing(n, a.sender, a.message)])), false).1;
      var (answer, t2) := MessagesRoute.Handle(t1, Some(RequestBody(id, [Outgoing(n, b.sender, b.message)])), false);
      && answer == MessagesRoute.Saved(1)
      && t2 == t1
      && MessagesRoute.MessageKey(id, n) in t1
  {
    TrimSpec(a.message);
    TrimSpec(b.message);
    var pa := [Outgoing(n, a.sender, a.message)];
    var pb := [Outgoing(n, b.sender, b.message)];
    SentBatchIsSavedGlue(id, pa, table);
    var rowsA := RowsFor(id, pa);
    assert rowsA == [RowFor(id, pa[0])] by { assert pa[1..] == []; }
    var t1 := MessagesRoute.InsertIgnoring(table, rowsA);
    SentBatchIsSavedGlue(id, pb, t1);
    var rowsB := RowsFor(id, pb);
    assert rowsB == [RowFor(id, pb[0])] by { assert pb[1..] == []; }
    MessagesRoute.InsertIgnoringKeys(table, rowsA);
    assert MessagesRoute.KeyOf(rowsA[0]) in MessagesRoute.BatchKeys(rowsA);
    MessagesRoute.InsertIgnoringKeys(t1, rowsB);
    MessagesRoute.InsertIgnoringKeepsExisting(t1, rowsB);
    assert MessagesRoute.BatchKeys(rowsB) == {MessagesRoute.MessageKey(id, n)};
  }

  // ----------------------------------------------------------------------
  // Properties of the component

  /** What holds of the component between events: sequence numbers start
      at 1, no save is left running, the end route is called at most once
      and only once the conversation is ended, the remaining time is never
      negative, an installed interval has time left, a countdown that ran
      out is no longer installed, and every stop request is followed by
      `onSessionStopped` except at most one, whose `endConversation`
      rejected before calling the end route. */
  predicate Valid(s: State) {
    && s.nextSeq >= 1
    && !s.isPersisting
    && s.endRequests <= (if s.ended then 1 else 0)
    && s.timeRemaining >= 0
    && (s.intervalRunning ==> s.timerStarted && s.timeRemaining >= 1)
    && (s.timeRemaining == 0 ==> s.timerStarted && !s.intervalRunning)
    && s.stopNotices <= s.stopRequests <= s.stopNotices + 1
    && (s.stopRequests > s.stopNotices ==> s.ended && s.endRequests == 0)
  }

  /** The events of the component. A new `messages` array recreates
      `persistPendingMessages`, `endConversation` and
      `stopAndFinalizeSession`, so React runs the countdown effect's cleanup,
      then the save effect, then the countdown effect again; a change of
      `isStreamReady` (or the first render) runs the cleanup and the
      countdown effect. The stop button and the interval call
      `stopAndFinalizeSession`. */
  datatype Event =
    | MessagesChanged(messages: seq<ChatMessage>, outcome: SaveOutcome, ready: bool)
    | StreamReadyChanged(ready: bool)
    | StopClicked(messages: seq<ChatMessage>, outcome: SaveOutcome)
    | IntervalTick(messages: seq<ChatMessage>, outcome: SaveOutcome)

  function Step(s: State, id: string, e: Event): State
  {
    match e
    case MessagesChanged(messages, outcome, ready) =>
      StartTimer(Persist(ClearTimer(s), id, messages, outcome).0, ready)
    case StreamReadyChanged(ready) => StartTimer(ClearTimer(s), ready)
    case StopClicked(messages, outcome) => StopAndFinalize(s, id, messages, outcome).0
    case IntervalTick(messages, outcome) => Tick(s, id, messages, outcome).0
  }

  function Run(s: State, id: string, es: seq<Event>): State
  {
    if es == [] then s else Step(Run(s, id, es[..|es| - 1]), id, es[|es| - 1])
  }

  lemma InitialIsValid()
    ensures Valid(Initial())
  {
  }

  /** A persist call keeps the invariant, never lowers the counters and
      touches neither the end, the stop nor the countdown state. */
  lemma PersistKeepsValid(s: State, id: string, messages: seq<ChatMessage>, outcome: SaveOutcome)
    requires Valid(s)
    ensures var after := Persist(s, id, messages, outcome).0;
      && Valid(after) && after.nextSeq >= s.nextSeq && after.lastSaved >= s.lastSaved
      && after == s.(nextSeq := after.nextSeq, lastSaved := after.lastSaved)
  {
  }

  /** An end call keeps the invariant. It calls the end route exactly when
      it is the first call with a conversation id and its save does not
      reject; a rejected save leaves the conversation ended without the end
      route. */
  lemma EndKeepsValid(s: State, id: string, messages: seq<ChatMessage>, outcome: SaveOutcome)
    requires Valid(s)
    ensures var after := End(s, id, messages, outcome).0;
      && Valid(after)
      && after.ended == (s.ended || id != "")
      && after.endRequests == (if id != "" && !s.ended && !EndThrows(s, id, messages, outcome) then 1 else s.endRequests)
      && after.stopRequests == s.stopRequests && after.stopNotices == s.stopNotices
  {
    if id != "" && !s.ended {
      PersistKeepsValid(s.(ended := true), id, messages, outcome);
    }
  }

  /** A stop keeps the invariant and is acknowledged by `onSessionStopped`
      exactly when `endConversation` does not reject. */
  lemma StopKeepsValid(s: State, id: string, messages: seq<ChatMessage>, outcome: SaveOutcome)
    requires Valid(s)
    ensures var after := StopAndFinalize(s, id, messages, outcome).0;
      && Valid(after)
      && after.stopRequests == s.stopRequests + 1
      && after.stopNotices == s.stopNotices + (if EndThrows(s, id, messages, outcome) then 0 else 1)
  {
    var t := s.(stopRequests := s.stopRequests + 1);
    if id != "" && !s.ended {
      assert s.stopRequests == s.stopNotices;
      PersistKeepsValid(t.(ended := true, stopRequests := s.stopRequests), id, messages, outcome);
    }
  }

  lemma StepKeepsValid(s: State, id: string, e: Event)
    requires Valid(s)
    ensures Valid(Step(s, id, e))
  {
    match e {
      case MessagesChanged(messages, outcome, ready) =>
        PersistKeepsValid(ClearTimer(s), id, messages, outcome);
      case StreamReadyChanged(ready) =>
      case StopClicked(messages, outcome) => StopKeepsValid(s, id, messages, outcome);
      case IntervalTick(messages, outcome) =>
        if s.intervalRunning && s.timeRemaining <= 1 {
          StopKeepsValid(s.(timeRemaining := 0, intervalRunning := false), id, messages, outcome);
        }
    }
  }

  /** Whatever happens, a component calls the end route at most once, and
      at most one of its stop requests goes without `onSessionStopped`. */
  lemma {:induction false} EndedAtMostOnce(id: string, es: seq<Event>)
    ensures Valid(Run(Initial(), id, es))
    ensures Run(Initial(), id, es).endRequests <= 1
    ensures Run(Initial(), id, es).stopRequests - Run(Initial(), id, es).stopNotices <= 1
  {
    if es != [] {
      EndedAtMostOnce(id, es[..|es| - 1]);
      StepKeepsValid(Run(Initial(), id, es[..|es| - 1]), id, es[|es| - 1]);
    }
  }

  /** Once the conversation is ended, no event calls the end route again or
      reopens the conversation. */
  lemma {:induction false} EndedStaysEnded(s: State, id: string, es: seq<Event>)
    requires s.ended
    ensures Run(s, id, es).ended && Run(s, id, es).endRequests == s.endRequests
  {
    if es != [] {
      EndedStaysEnded(s, id, es[..|es| - 1]);
    }
  }

  /** A stop whose save request rejects ends the conversation without ever
      calling the end route, and `onSessionStopped` is not called: from the
      start of a session with one message to save, a click on the stop
      button with a failing network leaves the conversation ended, the end
      route uncalled for good, and the session stopped unannounced. */
  lemma RejectedSaveNeverEnds(id: string, m: ChatMessage, es: seq<Event>)
    requires id != "" && !IsBlank(m.message)
    ensures var s := Step(Initial(), id, StopClicked([m], SaveThrew));
      && s.ended && s.endRequests == 0
      && s.stopRequests == 1 && s.stopNotices == 0
      && Run(s, id, es).endRequests == 0
  {
    TrimSpec(m.message);
    var ns := Numbered([m], 1);
    assert ns == [Outgoing(1, m.sender, m.message)];
    assert NonBlankOnly(ns) == [ns[0]] + NonBlankOnly(ns[1..]);
    assert [m][0..] == [m];
    assert Payload([m], 1) != [];
    var s := Step(Initial(), id, StopClicked([m], SaveThrew));
    EndedStaysEnded(s, id, es);
  }

  /** Once the interval is cleared after the timer started, no event but
      the stop button changes the countdown or stops the session: the
      effect's guard never installs the interval again. */
  lemma {:induction false} CountdownFrozen(s: State, id: string, es: seq<Event>)
    requires s.timerStarted && !s.intervalRunning
    requires forall i | 0 <= i < |es| :: !es[i].StopClicked?
    ensures var r := Run(s, id, es);
      && r.timerStarted && !r.intervalRunning
      && r.timeRemaining == s.timeRemaining && r.stopRequests == s.stopRequests
  {
    if es != [] {
      CountdownFrozen(s, id, es[..|es| - 1]);
    }
  }

  /** The first change of the messages after the stream is ready freezes
      the countdown: the cleanup clears the interval and the re-run effect
      returns at its guard. A session whose first message arrives before
      the first tick keeps showing the full two minutes, and without the
      stop button it is never stopped. */
  lemma FirstMessageFreezesCountdown(id: string, m: seq<ChatMessage>, outcome: SaveOutcome, ready: bool, es: seq<Event>)
    requires forall i | 0 <= i < |es| :: !es[i].StopClicked?
    ensures var s := Run(Initial(), id, [StreamReadyChanged(true), MessagesChanged(m, outcome, ready)]);
      && s.timerStarted && !s.intervalRunning
      && Run(s, id, es).timeRemaining == SessionDurationLimit
      && Run(s, id, es).stopRequests == 0
  {
    var es2 := [StreamReadyChanged(true), MessagesChanged(m, outcome, ready)];
    assert es2[..1] == [StreamReadyChanged(true)];
    assert es2[..1][..0] == [];
    var s1 := Run(Initial(), id, es2[..1]);
    assert Run(Initial(), id, es2[..1][..0]) == Initial();
    assert s1 == Step(Initial(), id, StreamReadyChanged(true));
    assert s1 == Initial().(timerStarted := true, intervalRunning := true);
    var s := Run(Initial(), id, es2);
    assert s == StartTimer(Persist(ClearTimer(s1), id, m, outcome).0, ready);
    CountdownFrozen(s, id, es);
  }

  /** The countdown from `t` after `k` ticks. */
  function CountdownAfter(t: int, k: nat): int
  {
    if k == 0 then t else CountdownStep(CountdownAfter(t, k - 1)).0
  }

  /** The countdown never goes below zero and drops by one per tick while
      above one. */
  lemma CountdownStepBounds(prev: int)
    requires prev >= 0
    ensures CountdownStep(prev).0 >= 0
    ensures CountdownStep(prev).1 <==> prev <= 1
    ensures prev > 1 ==> CountdownStep(prev).0 == prev - 1
  {
  }

  /** Started from `t` seconds, the countdown shows `t - k` after `k < t`
      ticks without running out, and runs out exactly on tick `t`. */
  lemma {:induction false} CountdownRunsOutOnTime(t: int, k: nat)
    requires 1 <= t && k < t
    ensures CountdownAfter(t, k) == t - k
    ensures CountdownStep(CountdownAfter(t, k)).1 <==> k == t - 1
  {
    if k > 0 {
      CountdownRunsOutOnTime(t, k - 1);
    }
  }

  /** The seconds part: always two digits, reading back as the seconds. */
  lemma PaddedSeconds(secs: nat)
    requires secs < 60
    ensures |PadStart2(NatToString(secs))| == 2
    ensures IsDigits(PadStart2(NatToString(secs)))
    ensures DecimalValue(PadStart2(NatToString(secs))) == secs
  {
    var d := NatToString(secs);
    DecimalValueOfNatToString(secs);
    if secs < 10 {
      var p := PadStart2(d);
      assert p == ['0'] + d && p[..1] == ['0'];
    } else {
      assert d == NatToString(secs / 10) + [Digit(secs % 10)];
    }
  }

  /** `formatTime` can be read back: for a non-negative time the text is
      minutes, a colon and exactly two digits, and they give the seconds. */
  lemma FormatTimeReadsBack(seconds: int)
    requires seconds >= 0
    ensures var parts := Split(FormatTime(seconds), ':');
      && |parts| == 2 && |parts[1]| == 2
      && IsDigits(parts[0]) && IsDigits(parts[1])
      && DecimalValue(parts[0]) * 60 + DecimalValue(parts[1]) == seconds
  {
    var m := NatToString(seconds / 60);
    var p := PadStart2(NatToString(seconds % 60));
    PaddedSeconds(seconds % 60);
    DecimalValueOfNatToString(seconds / 60);
    assert FormatTime(seconds) == m + ":" + p;
    assert ':' !in m && ':' !in p;
    assert Join([m, p], [':']) == m + ":" + p by {
      assert [m, p][..1] == [m];
    }
    SplitJoin([m, p], ':');
  }
}

/** The chat history kept by the avatar context provider: an append-only
    list of messages, the set of recently typed texts (so that the speech
    transcription of a typed message is not shown twice) and the set of
    recently seen sender-prefixed texts (so that a transcription event that
    fires twice is shown once). The timers that empty both sets are
    explicit expiry events. */
module ChatHistory {
  import opened Wrappers
  import opened Text

  datatype Sender = User | Avatar

  /** A chat message; `timestamp` is the `Date.now()` of its arrival. */
  datatype ChatMessage = ChatMessage(sender: Sender, message: string, timestamp: int)

  /** The provider's state: the `messages` state and the two `Set` refs. */
  datatype History = History(messages: seq<ChatMessage>, recentTyped: set<string>, recentKeys: set<string>)

  /** The payload of a transcription event, `{ text?, transcript? }`. */
  datatype Transcription = Transcription(text: Option<string>, transcript: Option<string>)

  /** `data.text || data.transcript || ""`. */
  function TextOf(data: Transcription): string
  {
    Or(if data.text.Some? then data.text.value else "",
       Or(if data.transcript.Some? then data.transcript.value else "", ""))
  }

  /** The dedupe key `${sender}:${text.trim()}`. */
  function KeyFor(sender: Sender, trimmed: string): string
  {
    (if sender == User then "user:" else "avatar:") + trimmed
  }

  // ----------------------------------------------------------------------
  // The transitions

  function AddMessage(h: History, m: ChatMessage): History
  {
    h.(messages := h.messages + [m])
  }

  function AddTypedMessage(h: History, text: string, now: int): History
  {
    AddMessage(h.(recentTyped := h.recentTyped + {text}), ChatMessage(User, text, now))
  }

  /** The two-second timer of `addTypedMessage` firing. */
  function ExpireTyped(h: History, text: string): History
  {
    h.(recentTyped := h.recentTyped - {text})
  }

  /** The three-second timer of a transcription handler firing. */
  function ExpireKey(h: History, key: string): History
  {
    h.(recentKeys := h.recentKeys - {key})
  }

  /** The part both transcription handlers share once the text is known
      not to be blank: skip a key seen recently, otherwise record the key
      and append the untrimmed text. */
  function RecordTranscription(h: History, sender: Sender, text: string, now: int): History
  {
    var key := KeyFor(sender, Trim(text));
    if key in h.recentKeys then h
    else AddMessage(h.(recentKeys := h.recentKeys + {key}), ChatMessage(sender, text, now))
  }

  function UserTranscription(h: History, data: Transcription, now: int): History
  {
    var text := TextOf(data);
    if Trim(text) == "" then h
    else if Trim(text) in h.recentTyped then h.(recentTyped := h.recentTyped - {Trim(text)})
    else RecordTranscription(h, User, text, now)
  }

  function AvatarTranscription(h: History, data: Transcription, now: int): History
  {
    var text := TextOf(data);
    if Trim(text) == "" then h
    else RecordTranscription(h, Avatar, text, now)
  }

  // ----------------------------------------------------------------------
  // The provider as an object

  class ChatHistoryState {
    var messages: seq<ChatMessage>
    var recentTyped: set<string>
    var recentKeys: set<string>

    function Snapshot(): History
      reads this
    {
      History(messages, recentTyped, recentKeys)
    }

    constructor ()
      ensures Snapshot() == History([], {}, {})
    {
      messages := [];
      recentTyped := {};
      recentKeys := {};
    }

    /** `addMessage`: `setMessages(prev => [...prev, message])`. */
    method AddMessageTo(m: ChatMessage)
      modifies this
      ensures Snapshot() == AddMessage(old(Snapshot()), m)
    {
      messages := messages + [m];
    }

    /** `addTypedMessage`. */
    method AddTypedMessageTo(text: string, now: int)
      modifies this
      ensures Snapshot() == AddTypedMessage(old(Snapshot()), text, now)
    {
      recentTyped := recentTyped + {text};
      AddMessageTo(ChatMessage(User, text, now));
    }

    method ExpireTypedText(text: string)
      modifies this
      ensures Snapshot() == ExpireTyped(old(Snapshot()), text)
    {
      recentTyped := recentTyped - {text};
    }

    method ExpireRecentKey(key: string)
      modifies this
      ensures Snapshot() == ExpireKey(old(Snapshot()), key)
    {
      recentKeys := recentKeys - {key};
    }

    /** `handleUserTranscription`. */
    method HandleUserTranscription(data: Transcription, now: int)
      modifies this
      ensures Snapshot() == UserTranscription(old(Snapshot()), data, now)
    {
      var text := TextOf(data);
      var trimmed := Trim(text);
      if trimmed != "" {
        if trimmed in recentTyped {
          recentTyped := recentTyped - {trimmed};
          return;
        }
        var key := "user:" + trimmed;
        if key in recentKeys {
          return;
        }
        recentKeys := recentKeys + {key};
        AddMessageTo(ChatMessage(User, text, now));
      }
    }

    /** `handleAvatarTranscription`. */
    method HandleAvatarTranscription(data: Transcription, now: int)
      modifies this
      ensures Snapshot() == AvatarTranscription(old(Snapshot()), data, now)
    {
      var text := TextOf(data);
      var trimmed := Trim(text);
      if trimmed != "" {
        var key := "avatar:" + trimmed;
        if key in recentKeys {
          return;
        }
        recentKeys := recentKeys + {key};
        AddMessageTo(ChatMessage(Avatar, text, now));
      }
    }
  }

  // ----------------------------------------------------------------------
  // Properties

  /** Every event of the provider. */
  datatype Event =
    | Added(m: ChatMessage)
    | Typed(text: string, now: int)
    | TypedExpired(text: string)
    | KeyExpired(key: string)
    | UserSaid(data: Transcription, now: int)
    | AvatarSaid(data: Transcription, now: int)

  function Step(h: History, e: Event): History
  {
    match e
    case Added(m) => AddMessage(h, m)
    case Typed(text, now) => AddTypedMessage(h, text, now)
    case TypedExpired(text) => ExpireTyped(h, text)
    case KeyExpired(key) => ExpireKey(h, key)
    case UserSaid(data, now) => UserTranscription(h, data, now)
    case AvatarSaid(data, now) => AvatarTranscription(h, data, now)
  }

  function Run(h: History, es: seq<Event>): History
  {
    if es == [] then h else Step(Run(h, es[..|es| - 1]), es[|es| - 1])
  }

  /** The list is append-only: each event keeps the earlier messages and
      adds at most one at the end. */
  lemma StepAppendsAtMostOne(h: History, e: Event)
    ensures var after := Step(h, e).messages;
      (after == h.messages || (|after| == |h.messages| + 1 && after[..|h.messages|] == h.messages))
  {
    var after := Step(h, e).messages;
    if after != h.messages {
      assert after[..|h.messages|] == h.messages;
    }
  }

  /** Over any sequence of events the earlier history is a prefix of the
      later one, and it grows by at most one message per event. */
  lemma {:induction false} RunIsAppendOnly(h: History, es: seq<Event>)
    ensures |h.messages| <= |Run(h, es).messages| <= |h.messages| + |es|
    ensures Run(h, es).messages[..|h.messages|] == h.messages
  {
    if es != [] {
      var mid := Run(h, es[..|es| - 1]);
      RunIsAppendOnly(h, es[..|es| - 1]);
      StepAppendsAtMostOne(mid, es[|es| - 1]);
      var after := Run(h, es).messages;
      assert after[..|mid.messages|] == mid.messages;
      assert after[..|h.messages|] == mid.messages[..|h.messages|];
    }
  }

  /** `addMessage` appends exactly the message and touches nothing else. */
  lemma AddMessageAppends(h: History, m: ChatMessage)
    ensures var after := AddMessage(h, m);
      && |after.messages| == |h.messages| + 1
      && after.messages[|h.messages|] == m
      && after.messages[..|h.messages|] == h.messages
      && after.recentTyped == h.recentTyped && after.recentKeys == h.recentKeys
  {
    assert AddMessage(h, m).messages[..|h.messages|] == h.messages;
  }

  /** A typed message is recorded as a user message and remembered until
      its timer fires. */
  lemma TypedThenExpired(h: History, text: string, now: int)
    ensures text in AddTypedMessage(h, text, now).recentTyped
    ensures AddTypedMessage(h, text, now).messages == h.messages + [ChatMessage(User, text, now)]
    ensures text !in ExpireTyped(AddTypedMessage(h, text, now), text).recentTyped
  {
  }

  /** A transcription whose text is blank changes nothing. */
  lemma BlankTranscriptionIgnored(h: History, data: Transcription, now: int)
    requires IsBlank(TextOf(data))
    ensures UserTranscription(h, data, now) == h
    ensures AvatarTranscription(h, data, now) == h
  {
    TrimSpec(TextOf(data));
  }

  /** The speech transcription of a text the user just typed is swallowed
      once: the remembered text is forgotten and no message is added. */
  lemma TypedEchoSuppressed(h: History, text: string, now: int, later: int)
    requires Trim(text) == text && text != ""
    ensures var typed := AddTypedMessage(h, text, now);
      UserTranscription(typed, Transcription(Some(text), None), later)
        == typed.(recentTyped := typed.recentTyped - {text})
  {
  }

  /** A transcription whose key was seen recently adds nothing; a new one
      records its key and appends the text as received, untrimmed. */
  lemma TranscriptionDedupe(h: History, sender: Sender, data: Transcription, now: int)
    requires Trim(TextOf(data)) != ""
    requires sender == User ==> Trim(TextOf(data)) !in h.recentTyped
    ensures var after := if sender == User then UserTranscription(h, data, now)
                         else AvatarTranscription(h, data, now);
      var key := KeyFor(sender, Trim(TextOf(data)));
      && (key in h.recentKeys ==> after == h)
      && (key !in h.recentKeys ==>
            after.recentKeys == h.recentKeys + {key}
            && after.messages == h.messages + [ChatMessage(sender, TextOf(data), now)])
  {
  }

  /** Keys carry the sender, so the two senders never share one. */
  lemma KeysAreNamespaced(a: string, b: string)
    ensures KeyFor(User, a) != KeyFor(Avatar, b)
  {
    var ku, ka := KeyFor(User, a), KeyFor(Avatar, b);
    assert ku[1] == 's' && ka[1] == 'v';
  }

  /** The same text said by the user and then by the avatar is shown twice. */
  lemma SameTextFromBothSenders(h: History, data: Transcription, now: int, later: int)
    requires Trim(TextOf(data)) != ""
    requires Trim(TextOf(data)) !in h.recentTyped
    requires KeyFor(User, Trim(TextOf(data))) !in h.recentKeys
    requires KeyFor(Avatar, Trim(TextOf(data))) !in h.recentKeys
    ensures AvatarTranscription(UserTranscription(h, data, now), data, later).messages
         == h.messages + [ChatMessage(User, TextOf(data), now), ChatMessage(Avatar, TextOf(data), later)]
  {
    KeysAreNamespaced(Trim(TextOf(data)), Trim(TextOf(data)));
  }

  /** No message of the list is blank. */
  predicate AllNonBlank(ms: seq<ChatMessage>) {
    forall i | 0 <= i < |ms| :: !IsBlank(ms[i].message)
  }

  /** The events the application produces: transcriptions, expiries and
      texts typed into the input, which are sent only when they trim to a
      non-empty string. */
  predicate FromApplication(e: Event) {
    match e
    case Added(_) => false
    case Typed(text, _) => !IsBlank(text)
    case _ => true
  }

  /** The application never puts a blank message into the history. */
  lemma {:induction false} ApplicationKeepsMessagesNonBlank(h: History, es: seq<Event>)
    requires AllNonBlank(h.messages)
    requires forall k | 0 <= k < |es| :: FromApplication(es[k])
    ensures AllNonBlank(Run(h, es).messages)
  {
    if es != [] {
      var mid := Run(h, es[..|es| - 1]);
      ApplicationKeepsMessagesNonBlank(h, es[..|es| - 1]);
      var e := es[|es| - 1];
      match e {
        case UserSaid(data, now) => TrimSpec(TextOf(data));
        case AvatarSaid(data, now) => TrimSpec(TextOf(data));
        case _ =>
      }
    }
  }
}

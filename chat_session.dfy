/**
 * The chat assistant's per-session state: whether the chat panel is open and
 * the list of (role, text) messages exchanged so far, kept across the page's
 * reruns. The assistant's reply comes from an external language-model service
 * and is taken here as an opaque string.
 */
module ChatSession {
  import opened Wrappers

  /** One `(role, text)` entry of the chat history. */
  datatype Message = Message(role: string, text: string)

  const USER := "user"
  const ASSISTANT := "assistant"

  /** One history entry as it appears in the transcript: `role: text` and a newline. */
  function Line(m: Message): string
  {
    m.role + ": " + m.text + "\n"
  }

  /** The lines of the history, oldest first, run together. */
  function Transcript(history: seq<Message>): string
  {
    if history == [] then ""
    else Transcript(history[..|history| - 1]) + Line(history[|history| - 1])
  }

  /** The transcript of two histories run together is the two transcripts run together. */
  lemma {:induction false} TranscriptAppend(a: seq<Message>, b: seq<Message>)
    ensures Transcript(a + b) == Transcript(a) + Transcript(b)
  {
    if b == [] {
      assert a + b == a;
    } else {
      var ab, init, line := a + b, b[..|b| - 1], Line(b[|b| - 1]);
      assert ab[..|ab| - 1] == a + init;
      assert ab[|ab| - 1] == b[|b| - 1];
      assert Transcript(ab) == Transcript(a + init) + line;
      assert Transcript(b) == Transcript(init) + line;
      TranscriptAppend(a, init);
      var x, y := Transcript(a), Transcript(init);
      assert (x + y) + line == x + (y + line);
    }
  }

  /** Read from the front: the first entry's line, then the transcript of the rest. */
  lemma TranscriptCons(m: Message, rest: seq<Message>)
    ensures Transcript([m] + rest) == Line(m) + Transcript(rest)
  {
    TranscriptAppend([m], rest);
    assert [m][..0] == [];
  }

  /** The number of occurrences of `c` in `s`. */
  function Occurrences(s: string, c: char): nat
  {
    if s == [] then 0 else (if s[0] == c then 1 else 0) + Occurrences(s[1..], c)
  }

  lemma {:induction false} OccurrencesAppend(a: string, b: string, c: char)
    ensures Occurrences(a + b, c) == Occurrences(a, c) + Occurrences(b, c)
  {
    if a == [] {
      assert a + b == b;
    } else {
      assert (a + b)[1..] == a[1..] + b;
      OccurrencesAppend(a[1..], b, c);
    }
  }

  /**
   * When no role or text contains a newline, the transcript has exactly one
   * line per history entry.
   */
  lemma {:induction false} TranscriptLineCount(history: seq<Message>)
    requires forall i :: 0 <= i < |history| ==> '\n' !in history[i].role && '\n' !in history[i].text
    ensures Occurrences(Transcript(history), '\n') == |history|
  {
    if history != [] {
      var init, m := history[..|history| - 1], history[|history| - 1];
      TranscriptLineCount(init);
      OccurrencesAppend(Transcript(init), Line(m), '\n');
      NoOccurrences(m.role, '\n');
      NoOccurrences(m.text, '\n');
      OccurrencesAppend(m.role, ": ", '\n');
      OccurrencesAppend(m.role + ": ", m.text, '\n');
      OccurrencesAppend(m.role + ": " + m.text, "\n", '\n');
    }
  }

  lemma {:induction false} NoOccurrences(s: string, c: char)
    requires c !in s
    ensures Occurrences(s, c) == 0
  {
    if s != [] {
      NoOccurrences(s[1..], c);
    }
  }

  /** Builds the transcript of `history` one entry at a time, as the chat loop does. */
  method BuildTranscript(history: seq<Message>) returns (chatText: string)
    ensures chatText == Transcript(history)
  {
    chatText := "";
    for i := 0 to |history|
      invariant chatText == Transcript(history[..i])
    {
      var m := history[i];
      assert history[..i + 1][..i] == history[..i];
      chatText := chatText + m.role + ": " + m.text + "\n";
    }
    assert history[..|history|] == history;
  }

  /**
   * A history as the chat builds it: a user message followed by the
   * assistant's reply, pair after pair.
   */
  ghost predicate Alternating(history: seq<Message>)
    decreases |history|
  {
    history == []
    || (|history| >= 2 && history[0].role == USER && history[1].role == ASSISTANT
        && Alternating(history[2..]))
  }

  /** Alternating histories are exactly those of even length with user at even and assistant at odd positions. */
  lemma {:induction false} AlternatingRoles(history: seq<Message>)
    ensures Alternating(history) <==>
              |history| % 2 == 0
              && forall i :: 0 <= i < |history| ==> history[i].role == (if i % 2 == 0 then USER else ASSISTANT)
  {
    if |history| >= 2 {
      var rest := history[2..];
      AlternatingRoles(rest);
      assert forall i :: 2 <= i < |history| ==> history[i] == rest[i - 2];
    } else if |history| == 1 {
      assert !Alternating(history);
    }
  }

  /** One exchange keeps the history alternating. */
  lemma {:induction false} AlternatingExtend(history: seq<Message>, userText: string, reply: string)
    requires Alternating(history)
    ensures Alternating(history + [Message(USER, userText), Message(ASSISTANT, reply)])
  {
    var turn := [Message(USER, userText), Message(ASSISTANT, reply)];
    if history == [] {
      assert history + turn == turn;
      assert turn[2..] == [];
    } else {
      assert (history + turn)[2..] == history[2..] + turn;
      AlternatingExtend(history[2..], userText, reply);
    }
  }

  /**
   * A history in which every assistant entry answers the user entry just
   * before it. A send whose reply never arrives leaves a user entry with no
   * answer, so user entries may follow each other.
   */
  ghost predicate Answered(history: seq<Message>)
  {
    forall i {:trigger history[i]} :: 0 <= i < |history| ==>
      history[i].role == USER
      || (history[i].role == ASSISTANT && 0 < i && history[i - 1].role == USER)
  }

  /** A history of whole exchanges is answered. */
  lemma AlternatingAnswered(history: seq<Message>)
    requires Alternating(history)
    ensures Answered(history)
  {
    AlternatingRoles(history);
    forall i | 0 <= i < |history| && history[i].role != USER
      ensures history[i].role == ASSISTANT && 0 < i && history[i - 1].role == USER
    {
      assert i % 2 == 1;
      assert (i - 1) % 2 == 0;
    }
  }

  /** Appending a user entry, and then possibly its reply, keeps a history answered. */
  lemma AnsweredExtend(history: seq<Message>, userText: string, reply: Option<string>)
    requires Answered(history)
    ensures Answered(history + [Message(USER, userText)])
    ensures reply.Some? ==> Answered(history + [Message(USER, userText), Message(ASSISTANT, reply.value)])
  {
    AnsweredAppend(history, [Message(USER, userText)]);
    if reply.Some? {
      AnsweredAppend(history, [Message(USER, userText), Message(ASSISTANT, reply.value)]);
    }
  }

  /** Appending an answered history to an answered history keeps it answered. */
  lemma AnsweredAppend(a: seq<Message>, b: seq<Message>)
    requires Answered(a) && Answered(b)
    requires b != [] ==> b[0].role == USER
    ensures Answered(a + b)
  {
    var e := a + b;
    forall i | 0 <= i < |e| && e[i].role != USER
      ensures e[i].role == ASSISTANT && 0 < i && e[i - 1].role == USER
    {
      if i < |a| {
        assert e[i] == a[i];
        AnsweredAt(a, i);
        assert e[i - 1] == a[i - 1];
      } else {
        var j := i - |a|;
        assert e[i] == b[j];
        AnsweredAt(b, j);
        assert e[i - 1] == b[j - 1];
      }
    }
  }

  /** In an answered history every entry that is not a user entry is a reply to the entry before it. */
  lemma AnsweredAt(history: seq<Message>, i: nat)
    requires Answered(history) && i < |history| && history[i].role != USER
    ensures history[i].role == ASSISTANT && 0 < i && history[i - 1].role == USER
  {
  }

  /** Sets a session-state key to `default` only when it is absent. */
  function SetDefault<T>(key: Option<T>, default: T): Option<T>
  {
    if key.None? then Some(default) else key
  }

  /** Initialising a key a second time changes nothing. */
  lemma SetDefaultIdempotent<T>(key: Option<T>, default: T)
    ensures SetDefault(SetDefault(key, default), default) == SetDefault(key, default)
  {
  }

  /**
   * The session state of one browser session. A field is None while its key
   * has not been set in the session; reruns of the page keep the object.
   */
  class Session {
    var chatOpen: Option<bool>
    var chatMessages: Option<seq<Message>>

    /** Both keys are present. */
    predicate Initialized()
      reads this
    {
      chatOpen.Some? && chatMessages.Some?
    }

    /** Whenever the history exists, every assistant entry answers the user entry before it. */
    ghost predicate Valid()
      reads this
    {
      chatMessages.Some? ==> Answered(chatMessages.value)
    }

    /** A new session: no key is set yet. */
    constructor ()
      ensures chatOpen == None && chatMessages == None
      ensures Valid()
    {
      chatOpen := None;
      chatMessages := None;
    }

    /** The start of every rerun: each key that is absent gets its default, a present key keeps its value. */
    method Initialize()
      requires Valid()
      modifies this
      ensures Valid() && Initialized()
      ensures old(chatOpen).None? ==> chatOpen == Some(false)
      ensures old(chatOpen).Some? ==> chatOpen == old(chatOpen)
      ensures old(chatMessages).None? ==> chatMessages == Some([])
      ensures old(chatMessages).Some? ==> chatMessages == old(chatMessages)
    {
      if chatOpen.None? {
        chatOpen := Some(false);
      }
      if chatMessages.None? {
        chatMessages := Some([]);
      }
    }

    /** The chat button: opens a closed panel, closes an open one. */
    method Toggle()
      requires Initialized()
      modifies this
      ensures Initialized()
      ensures chatOpen == Some(!old(chatOpen.value))
      ensures chatMessages == old(chatMessages)
    {
      chatOpen := Some(!chatOpen.value);
    }

    /**
     * A submission in the chat input. Only when the panel is open and the
     * input is non-empty: the user's message is appended, the transcript of
     * the history including it (but not the reply) is built for the prompt
     * and returned, and the reply is appended. `reply` is None when the call
     * to the language-model service raises: the run stops with the user's
     * message recorded and no reply. Otherwise nothing changes and the
     * transcript is empty.
     */
    method SendMessage(userInput: string, reply: Option<string>) returns (chatText: string)
      requires Valid() && Initialized()
      modifies this
      ensures Valid() && Initialized()
      ensures chatOpen == old(chatOpen)
      ensures old(chatOpen.value) && userInput != "" ==>
                chatText == Transcript(old(chatMessages.value) + [Message(USER, userInput)])
                && chatMessages == Some(old(chatMessages.value) + [Message(USER, userInput)]
                                        + (if reply.Some? then [Message(ASSISTANT, reply.value)] else []))
      ensures old(chatOpen.value) && userInput != "" && reply.Some? && Alternating(old(chatMessages.value)) ==>
                Alternating(chatMessages.value)
      ensures !(old(chatOpen.value) && userInput != "") ==>
                chatMessages == old(chatMessages) && chatText == ""
    {
      chatText := "";
      if chatOpen.value && userInput != "" {
        ghost var before := chatMessages.value;
        AnsweredExtend(before, userInput, reply);
        var history := chatMessages.value + [Message(USER, userInput)];
        chatMessages := Some(history);
        chatText := BuildTranscript(history);
        if reply.Some? {
          chatMessages := Some(history + [Message(ASSISTANT, reply.value)]);
          assert history + [Message(ASSISTANT, reply.value)]
              == before + [Message(USER, userInput), Message(ASSISTANT, reply.value)];
          if Alternating(before) {
            AlternatingExtend(before, userInput, reply.value);
          }
        } else {
          assert history + [] == history;
        }
      }
    }
  }

  /** Pressing the chat button twice leaves the panel as it was. */
  method ToggleTwice(s: Session)
    requires s.Initialized()
    modifies s
    ensures s.chatOpen == old(s.chatOpen) && s.chatMessages == old(s.chatMessages)
  {
    s.Toggle();
    s.Toggle();
  }

  /** Running initialisation on every rerun does what running it once does. */
  method InitializeTwice(s: Session)
    requires s.Valid()
    modifies s
    ensures s.chatOpen == SetDefault(old(s.chatOpen), false)
    ensures s.chatMessages == SetDefault(old(s.chatMessages), [])
  {
    s.Initialize();
    s.Initialize();
  }

  /**
   * A first visit: the page initialises the session, the user opens the
   * panel and sends two messages, both answered, with a rerun in between.
   * The history then holds both exchanges, and the second prompt's
   * transcript is the first exchange followed by the second question.
   */
  method FirstVisit(question1: string, reply1: string, question2: string, reply2: string)
    returns (history: seq<Message>, secondTranscript: string)
    requires question1 != "" && question2 != ""
    ensures history == [Message(USER, question1), Message(ASSISTANT, reply1),
                        Message(USER, question2), Message(ASSISTANT, reply2)]
    ensures secondTranscript
         == Line(Message(USER, question1)) + Line(Message(ASSISTANT, reply1)) + Line(Message(USER, question2))
  {
    var s := new Session();
    s.Initialize();
    s.Toggle();
    var t1 := s.SendMessage(question1, Some(reply1));
    var first := [Message(USER, question1), Message(ASSISTANT, reply1)];
    assert [] + [Message(USER, question1)] + [Message(ASSISTANT, reply1)] == first;
    s.Initialize();
    secondTranscript := s.SendMessage(question2, Some(reply2));
    assert first + [Message(USER, question2)] + [Message(ASSISTANT, reply2)]
        == first + [Message(USER, question2), Message(ASSISTANT, reply2)];
    history := s.chatMessages.value;
    TranscriptAppend(first, [Message(USER, question2)]);
    TranscriptCons(Message(USER, question1), [Message(ASSISTANT, reply1)]);
    TranscriptCons(Message(ASSISTANT, reply1), []);
    TranscriptCons(Message(USER, question2), []);
    assert [Message(USER, question1)] + [Message(ASSISTANT, reply1)] == first;
    assert [Message(ASSISTANT, reply1)] + [] == [Message(ASSISTANT, reply1)];
    assert [Message(USER, question2)] + [] == [Message(USER, question2)];
  }

  /**
   * A send whose reply never arrives: the question stays in the history
   * unanswered, and the next send puts two user entries in a row, both of
   * which appear in its transcript.
   */
  method LostReply(question1: string, question2: string, reply2: string)
    returns (history: seq<Message>, secondTranscript: string)
    requires question1 != "" && question2 != ""
    ensures history == [Message(USER, question1), Message(USER, question2), Message(ASSISTANT, reply2)]
    ensures !Alternating(history) && Answered(history)
    ensures secondTranscript == Line(Message(USER, question1)) + Line(Message(USER, question2))
  {
    var s := new Session();
    s.Initialize();
    s.Toggle();
    var t1 := s.SendMessage(question1, None);
    assert [] + [Message(USER, question1)] + [] == [Message(USER, question1)];
    secondTranscript := s.SendMessage(question2, Some(reply2));
    history := s.chatMessages.value;
    assert [Message(USER, question1)] + [Message(USER, question2)] + [Message(ASSISTANT, reply2)] == history;
    TranscriptCons(Message(USER, question1), [Message(USER, question2)]);
    TranscriptCons(Message(USER, question2), []);
    assert [Message(USER, question2)] + [] == [Message(USER, question2)];
    assert history[1].role != ASSISTANT;
  }
}

/** The chat panel's state: the transcript, the text field, and the bot
    replies whose timers have not fired yet.  Sending appends the user's
    message, clears the field and schedules the reply; a timer firing
    appends the reply. */
module ChatPanel {
  import opened Text
  import opened Classifier

  datatype Sender = User | Bot

  /** A transcript entry.  The source's `id` and `timestamp` come from the
      wall clock and are not modelled. */
  datatype Message = Message(text: string, sender: Sender)

  const WelcomeText: string :=
    "Welcome to EOS Insights! I can help you analyze your data and answer questions about your analytics. What would you like to know?"

  /** The message the transcript starts with. */
  const Welcome: Message := Message(WelcomeText, Bot)

  /** A key press in the text field. */
  datatype KeyEvent = KeyEvent(key: string, shiftKey: bool)

  /** Enter without Shift submits the field; every other key does not. */
  predicate Submits(e: KeyEvent) {
    e.key == "Enter" && !e.shiftKey
  }

  // ------------------------------------------------- views of a transcript

  /** The texts of the messages from `who`, in transcript order. */
  function TextsFrom(ms: seq<Message>, who: Sender): seq<string> {
    if ms == [] then []
    else TextsFrom(ms[..|ms| - 1], who)
         + (if ms[|ms| - 1].sender == who then [ms[|ms| - 1].text] else [])
  }

  /** The replies the selector gives to each of `questions`, in order. */
  function RepliesTo(questions: seq<string>): seq<string> {
    seq(|questions|, i requires 0 <= i < |questions| => GenerateBotResponse(questions[i]))
  }

  /** No reply comes before its question: in every prefix of the
      transcript the bot messages after the welcome are at most as many as
      the user messages. */
  ghost predicate RepliesNeverLead(ms: seq<Message>) {
    forall n :: 0 <= n <= |ms| ==> |TextsFrom(ms[..n], Bot)| <= |TextsFrom(ms[..n], User)| + 1
  }

  /** Appending one message extends the texts of its sender by its text. */
  lemma TextsFromAppend(ms: seq<Message>, m: Message, who: Sender)
    ensures TextsFrom(ms + [m], who)
            == TextsFrom(ms, who) + (if m.sender == who then [m.text] else [])
  {
  }

  /** Appending one message keeps "no reply comes first" whenever the
      whole new transcript satisfies it. */
  lemma RepliesNeverLeadAppend(ms: seq<Message>, m: Message)
    requires RepliesNeverLead(ms)
    requires |TextsFrom(ms + [m], Bot)| <= |TextsFrom(ms + [m], User)| + 1
    ensures RepliesNeverLead(ms + [m])
  {
    var ext := ms + [m];
    forall n | 0 <= n <= |ext|
      ensures |TextsFrom(ext[..n], Bot)| <= |TextsFrom(ext[..n], User)| + 1
    {
      if n <= |ms| {
        assert ext[..n] == ms[..n];
      } else {
        assert ext[..n] == ext;
      }
    }
  }

  /** The replies to one more question are the old replies and one more. */
  lemma RepliesToAppend(questions: seq<string>, q: string)
    ensures RepliesTo(questions + [q]) == RepliesTo(questions) + [GenerateBotResponse(q)]
  {
  }

  /** The panel's invariant over a transcript `ms` and the texts still
      waiting for a reply: the transcript starts with the welcome; the
      pending texts are the latest user texts; every earlier user text has
      been answered, in order, by its reply; every user text is non-blank;
      and no reply comes before its question. */
  ghost predicate Consistent(ms: seq<Message>, pending: seq<string>) {
    var asked := TextsFrom(ms, User);
    && |ms| >= 1 && ms[0] == Welcome
    && |pending| <= |asked|
    && pending == asked[|asked| - |pending|..]
    && TextsFrom(ms, Bot) == [WelcomeText] + RepliesTo(asked[..|asked| - |pending|])
    && (forall i :: 0 <= i < |asked| ==> !IsBlank(asked[i]))
    && RepliesNeverLead(ms)
  }

  /** The initial transcript, with nothing pending, is consistent. */
  lemma InitialConsistent(ms: seq<Message>, pending: seq<string>)
    requires ms == [Welcome] && pending == []
    ensures Consistent(ms, pending)
  {
  }

  /** Sending a non-blank text keeps the invariant: the text becomes the
      newest user message and the newest pending text. */
  lemma SendKeepsConsistent(ms: seq<Message>, pending: seq<string>, text: string)
    requires Consistent(ms, pending) && !IsBlank(text)
    ensures Consistent(ms + [Message(text, User)], pending + [text])
  {
    var m := Message(text, User);
    var asked := TextsFrom(ms, User);
    var answered := |asked| - |pending|;
    TextsFromAppend(ms, m, User);
    TextsFromAppend(ms, m, Bot);
    RepliesNeverLeadAppend(ms, m);
    assert (asked + [text])[..answered] == asked[..answered];
    assert (ms + [m])[0] == ms[0];
  }

  /** Delivering the oldest pending reply keeps the invariant: the reply
      to the oldest unanswered text becomes the newest bot message. */
  lemma DeliverKeepsConsistent(ms: seq<Message>, pending: seq<string>)
    requires Consistent(ms, pending) && pending != []
    ensures Consistent(ms + [Message(GenerateBotResponse(pending[0]), Bot)], pending[1..])
  {
    var m := Message(GenerateBotResponse(pending[0]), Bot);
    var asked := TextsFrom(ms, User);
    var answered := |asked| - |pending|;
    TextsFromAppend(ms, m, User);
    TextsFromAppend(ms, m, Bot);
    RepliesNeverLeadAppend(ms, m);
    assert asked[answered] == pending[0];
    assert asked[..answered + 1] == asked[..answered] + [pending[0]];
    RepliesToAppend(asked[..answered], pending[0]);
    assert (ms + [m])[0] == ms[0];
  }

  // ------------------------------------------------------------- the panel

  class Chat {
    /** The transcript (`messages`). */
    var messages: seq<Message>
    /** The text field (`inputMessage`). */
    var input: string
    /** The texts sent whose reply timer has not fired yet, oldest first;
        all timers wait the same delay, so they fire in this order. */
    var pending: seq<string>

    ghost predicate Valid()
      reads this
    {
      Consistent(messages, pending)
    }

    /** The initial state: the welcome message, an empty field, no reply
        waiting. */
    constructor ()
      ensures Valid()
      ensures messages == [Welcome] && input == [] && pending == []
    {
      messages := [Welcome];
      input := [];
      pending := [];
      new;
      InitialConsistent(messages, pending);
    }

    /** Typing: the field's `onChange` overwrites the input. */
    method SetInput(text: string)
      requires Valid()
      modifies this
      ensures Valid()
      ensures input == text && messages == old(messages) && pending == old(pending)
    {
      input := text;
    }

    /** The send button is enabled exactly when the field is not blank. */
    function CanSend(): (enabled: bool)
      reads this
      ensures enabled <==> !IsBlank(input)
    {
      TrimEmptyIffBlank(input);
      Trim(input) != []
    }

    /** `handleSendMessage`: a blank field changes nothing; otherwise the
        untrimmed text is appended as a user message, its reply is
        scheduled, and the field is cleared. */
    method Send()
      requires Valid()
      modifies this
      ensures Valid()
      ensures IsBlank(old(input)) ==>
        messages == old(messages) && input == old(input) && pending == old(pending)
      ensures !IsBlank(old(input)) ==>
        && messages == old(messages) + [Message(old(input), User)]
        && input == []
        && pending == old(pending) + [old(input)]
    {
      var text := input;
      TrimEmptyIffBlank(text);
      if Trim(text) != [] {
        SendKeepsConsistent(messages, pending, text);
        messages := messages + [Message(text, User)];
        pending := pending + [text];
        input := [];
      }
    }

    /** The oldest pending timer fires: the reply to its text is appended
        as a bot message. */
    method Deliver()
      requires Valid() && pending != []
      modifies this
      ensures Valid()
      ensures messages == old(messages) + [Message(GenerateBotResponse(old(pending)[0]), Bot)]
      ensures pending == old(pending)[1..] && input == old(input)
    {
      var reply := GenerateBotResponse(pending[0]);
      DeliverKeepsConsistent(messages, pending);
      messages := messages + [Message(reply, Bot)];
      pending := pending[1..];
    }

    /** `handleKeyPress`: Enter without Shift sends, any other key changes
        nothing. */
    method KeyPress(e: KeyEvent)
      requires Valid()
      modifies this
      ensures Valid()
      ensures !Submits(e) || IsBlank(old(input)) ==>
        messages == old(messages) && input == old(input) && pending == old(pending)
      ensures Submits(e) && !IsBlank(old(input)) ==>
        && messages == old(messages) + [Message(old(input), User)]
        && input == []
        && pending == old(pending) + [old(input)]
    {
      if e.key == "Enter" && !e.shiftKey {
        Send();
      }
    }
  }

  /** One exchange with no reply outstanding: type `text`, send it, and
      let the timer fire.  The transcript gains the user's message and,
      right after it, the selector's reply to that same text. */
  method Exchange(chat: Chat, text: string)
    requires chat.Valid() && chat.pending == [] && !IsBlank(text)
    modifies chat
    ensures chat.Valid()
    ensures chat.messages
            == old(chat.messages) + [Message(text, User), Message(GenerateBotResponse(text), Bot)]
    ensures chat.input == [] && chat.pending == []
  {
    chat.SetInput(text);
    chat.Send();
    chat.Deliver();
  }

  /** A blank submission leaves the panel as it was and schedules nothing. */
  method BlankSubmission(chat: Chat, text: string)
    requires chat.Valid() && IsBlank(text)
    modifies chat
    ensures chat.Valid()
    ensures chat.messages == old(chat.messages) && chat.pending == old(chat.pending)
    ensures chat.input == text
  {
    chat.SetInput(text);
    chat.KeyPress(KeyEvent("Enter", false));
  }
}

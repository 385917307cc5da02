/**
 * The chat screen: a message being typed and the list of chat lines. The
 * bot is a placeholder that answers each message with a fixed echo.
 */
module Chat {

  const UserPrefix: string := "You: "
  const BotPrefix: string := "Bot: Response to "

  /** The chat lines after sending `sent`, oldest first: each message followed by the bot's echo. */
  function Transcript(sent: seq<string>): (lines: seq<string>)
    ensures |lines| == 2 * |sent|
    ensures forall k :: 0 <= k < |sent| ==> lines[2 * k] == UserPrefix + sent[k]
    ensures forall k :: 0 <= k < |sent| ==> lines[2 * k + 1] == BotPrefix + sent[k]
    decreases |sent|
  {
    if sent == [] then []
    else
      var last := sent[|sent| - 1];
      Transcript(sent[..|sent| - 1]) + [UserPrefix + last, BotPrefix + last]
  }

  /** The chat list colours a line as the user's exactly when it starts with "You:"; that is every even line. */
  lemma UserLinesAreEven(sent: seq<string>, k: nat)
    requires k < |Transcript(sent)|
    ensures "You:" <= Transcript(sent)[k] <==> k % 2 == 0
  {
    var lines := Transcript(sent);
    if k % 2 == 0 {
      assert lines[2 * (k / 2)] == UserPrefix + sent[k / 2];
    } else {
      assert lines[2 * (k / 2) + 1] == BotPrefix + sent[k / 2];
      assert lines[k][0] == 'B';
    }
  }

  class ChatView {
    var message: string
    var chatMessages: seq<string>
    /** The messages sent so far, oldest first. */
    ghost var sent: seq<string>

    ghost predicate Valid()
      reads this
    {
      chatMessages == Transcript(sent)
    }

    constructor ()
      ensures Valid()
      ensures message == "" && chatMessages == [] && sent == []
    {
      message := "";
      chatMessages := [];
      sent := [];
    }

    /** Typing in the text field, or the speech recogniser delivering a transcription. */
    method SetMessage(text: string)
      requires Valid()
      modifies this`message
      ensures Valid()
      ensures message == text
    {
      message := text;
    }

    /** The Send button: appends the message and the bot's echo, then clears the field. */
    method Send()
      requires Valid()
      modifies this
      ensures Valid()
      ensures chatMessages == old(chatMessages) + [UserPrefix + old(message), BotPrefix + old(message)]
      ensures sent == old(sent) + [old(message)]
      ensures message == ""
    {
      chatMessages := chatMessages + [UserPrefix + message];
      chatMessages := chatMessages + [BotPrefix + message];
      sent := sent + [message];
      assert sent[..|sent| - 1] == old(sent);
      message := "";
    }
  }
}

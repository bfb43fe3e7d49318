/** The chat panel of a live class (`sendMessage`, `addChatMessage`,
  * `addSystemMessage` in static/js/live_class.js): an input field, the
  * scrollback of rendered entries, and the channel the page sends on. */
module Chat {
  import opened Wrappers
  import opened Text
  import opened Channel

  /** One rendered element of the scrollback. */
  datatype Entry =
    | ChatEntry(sender: string, text: string, isSelf: bool)
    | SystemEntry(text: string)

  /** The sender name the page shows on its own messages. */
  const SelfSender: string := "You"

  /** The chat input's value, the scrollback, and `window.classSocket` with
    * `window.courseId` (the socket is unset until the live class finished
    * setting up). */
  class ChatPanel {
    var input: string
    var messages: seq<Entry>
    var socket: Socket?
    var courseId: Option<string>

    constructor (socket: Socket?, courseId: Option<string>)
      ensures this.socket == socket && this.courseId == courseId
      ensures input == "" && messages == []
    {
      this.socket := socket;
      this.courseId := courseId;
      input := "";
      messages := [];
    }

    /** `sendMessage()`. With a non-blank input and a socket: emit the trimmed
      * text once, append it once as the page's own entry, and empty the
      * input. Otherwise nothing is emitted, appended or cleared. */
    method SendMessage()
      modifies this`input, this`messages, socket
      ensures var text := Trim(old(input));
        if text != [] && socket != null then
          && socket.sent == old(socket.sent) + [Channel.SendMessage(courseId, text)]
          && messages == old(messages) + [ChatEntry(SelfSender, text, true)]
          && input == ""
        else
          && (socket != null ==> socket.sent == old(socket.sent))
          && messages == old(messages)
          && input == old(input)
    {
      var text := Trim(input);
      if text != [] && socket != null {
        socket.Emit(Channel.SendMessage(courseId, text));
        AddChatMessage(SelfSender, text, true);
        input := "";
      }
    }

    /** The input's keypress listener: Enter sends, any other key does nothing. */
    method KeyPress(key: string)
      modifies this`input, this`messages, socket
      ensures key != "Enter" ==> input == old(input) && messages == old(messages)
      ensures key != "Enter" && socket != null ==> socket.sent == old(socket.sent)
      ensures key == "Enter" ==> var text := Trim(old(input));
        if text != [] && socket != null then
          && socket.sent == old(socket.sent) + [Channel.SendMessage(courseId, text)]
          && messages == old(messages) + [ChatEntry(SelfSender, text, true)]
          && input == ""
        else
          && (socket != null ==> socket.sent == old(socket.sent))
          && messages == old(messages)
          && input == old(input)
    {
      if key == "Enter" {
        SendMessage();
      }
    }

    /** `addChatMessage(user, message, isSelf)`: one entry at the end. */
    method AddChatMessage(user: string, message: string, isSelf: bool)
      modifies this`messages
      ensures messages == old(messages) + [ChatEntry(user, message, isSelf)]
    {
      messages := messages + [ChatEntry(user, message, isSelf)];
    }

    /** `addSystemMessage(message)`: one system entry at the end. */
    method AddSystemMessage(message: string)
      modifies this`messages
      ensures messages == old(messages) + [SystemEntry(message)]
    {
      messages := messages + [SystemEntry(message)];
    }
  }
}

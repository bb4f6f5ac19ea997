/** The entries of the chat history and how each is rendered, as plain text
    (for the tray pop-up) and as HTML (for the conversation view). A chat
    entry is attributed to the id of the peer it came from; its name and
    colour are looked up in the participant table when it is rendered. */
module Messages {
  import opened Base
  import opened Presence

  /** Font colour of the automatic notifications in the conversation view. */
  const NotificationColor: string := "#aaaaaa"

  /** The three localised labels the notifications use, in the active
      language: "text_rename", "text_leftchat" and "text_newparticipant". */
  datatype Labels = Labels(rename: string, leftChat: string, newParticipant: string)

  /** One history entry. `time` is the receive time in its printed form. */
  datatype Entry =
    | ChatMessage(authorId: string, message: string, time: string)
    | NameChangeMessage(oldName: string, newName: string)
    | ChatLeftMessage(name: string)
    | NewParticipantMessage(name: string)

  /** Rendering a chat entry looks its author up in the table; an author that
      is not there makes the lookup fail. The notifications carry their names
      themselves. */
  predicate Renderable(e: Entry, t: Table)
  {
    e.ChatMessage? ==> e.authorId in t
  }

  /** The number of line feeds in `s`. */
  function NewlineCount(s: string): nat
  {
    if s == [] then 0 else (if s[0] == '\n' then 1 else 0) + NewlineCount(s[1..])
  }

  /** Every line feed of `s` replaced by an HTML line break. */
  function ReplaceNewlines(s: string): (r: string)
    ensures '\n' !in r
    ensures '\n' !in s ==> r == s
    ensures |r| == |s| + 3 * NewlineCount(s)
  {
    if s == [] then []
    else (if s[0] == '\n' then "<br>" else [s[0]]) + ReplaceNewlines(s[1..])
  }

  /** Replacing line feeds works piecewise: the pieces of a concatenation are
      replaced independently. */
  lemma {:induction false} ReplaceNewlinesConcat(a: string, b: string)
    ensures ReplaceNewlines(a + b) == ReplaceNewlines(a) + ReplaceNewlines(b)
    decreases |a|
  {
    if a != [] {
      assert (a + b)[0] == a[0];
      assert (a + b)[1..] == a[1..] + b;
      var h := if a[0] == '\n' then "<br>" else [a[0]];
      calc {
        ReplaceNewlines(a + b);
        h + ReplaceNewlines(a[1..] + b);
        { ReplaceNewlinesConcat(a[1..], b); }
        h + (ReplaceNewlines(a[1..]) + ReplaceNewlines(b));
        (h + ReplaceNewlines(a[1..])) + ReplaceNewlines(b);
      }
    } else {
      assert a + b == b;
    }
  }

  /** A text wrapped in a font element of the given colour. */
  function Font(color: string, body: string): string
  {
    "<font color=" + color + ">" + body + "</font>"
  }

  /** The header line of a chat entry: the author's name and the time. */
  function ChatHeader(name: string, time: string): string
  {
    name + " (" + time + "):"
  }

  /** The plain-text form of an entry. */
  function Text(e: Entry, t: Table, labels: Labels): (s: string)
    requires Renderable(e, t)
    ensures e.ChatMessage? ==> t[e.authorId].name <= s
    ensures e.ChatMessage? ==>
      && ChatHeader(t[e.authorId].name, e.time) + "\n" <= s
      && |s| == |ChatHeader(t[e.authorId].name, e.time)| + 1 + |e.message|
      && s[|s| - |e.message|..] == e.message
    ensures e.NameChangeMessage? ==> e.oldName <= s && |e.newName| <= |s| && s[|s| - |e.newName|..] == e.newName
    ensures (e.ChatLeftMessage? || e.NewParticipantMessage?) ==> e.name <= s
  {
    match e
    case ChatMessage(a, m, time) => ChatHeader(GetNameOfParticipant(t, a), time) + "\n" + m
    case NameChangeMessage(o, n) => o + " " + labels.rename + " " + n
    case ChatLeftMessage(n) => n + " " + labels.leftChat
    case NewParticipantMessage(n) => n + " " + labels.newParticipant
  }

  /** The HTML form of an entry. A notification is its plain text in the
      notification colour; a chat entry is in its author's colour, with the
      header's line feed and those of the message turned into line breaks. */
  function Html(e: Entry, t: Table, labels: Labels): (s: string)
    requires Renderable(e, t)
    ensures !e.ChatMessage? ==> s == Font(NotificationColor, Text(e, t, labels))
    ensures e.ChatMessage? ==> '\n' !in e.message[..] ==>
      s == Font(t[e.authorId].textColor, ChatHeader(t[e.authorId].name, e.time) + "<br>" + e.message)
  {
    match e
    case ChatMessage(a, m, time) =>
      Font(GetTextColorOfParticipant(t, a), ChatHeader(GetNameOfParticipant(t, a), time) + "<br>" + ReplaceNewlines(m))
    case NameChangeMessage(o, n) => Font(NotificationColor, o + " " + labels.rename + " " + n)
    case ChatLeftMessage(n) => Font(NotificationColor, n + " " + labels.leftChat)
    case NewParticipantMessage(n) => Font(NotificationColor, n + " " + labels.newParticipant)
  }

  /** A notification carries its names itself, so its renderings do not
      depend on the table: they stay the same however the table changes. */
  lemma NoticeIndependentOfTable(e: Entry, t1: Table, t2: Table, labels: Labels)
    requires !e.ChatMessage?
    ensures Renderable(e, t1) && Renderable(e, t2)
    ensures Text(e, t1, labels) == Text(e, t2, labels)
    ensures Html(e, t1, labels) == Html(e, t2, labels)
  {
  }

  /** Line feeds replaced in the plain text of a chat entry: the header's
      own line feed becomes the one line break after the time. */
  lemma ChatTextWithBreaks(e: Entry, t: Table, labels: Labels)
    requires e.ChatMessage? && Renderable(e, t)
    requires '\n' !in t[e.authorId].name && '\n' !in e.time
    ensures ReplaceNewlines(Text(e, t, labels))
         == ChatHeader(t[e.authorId].name, e.time) + "<br>" + ReplaceNewlines(e.message)
  {
    var head := ChatHeader(t[e.authorId].name, e.time);
    var msg := e.message;
    assert Text(e, t, labels) == (head + "\n") + msg;
    ReplaceNewlinesConcat(head + "\n", msg);
    HeaderLineBreak(t[e.authorId].name, e.time);
  }

  /** The header's closing line feed is the only one it brings, and it
      becomes a line break. */
  lemma HeaderLineBreak(name: string, time: string)
    requires '\n' !in name && '\n' !in time
    ensures ReplaceNewlines(ChatHeader(name, time) + "\n") == ChatHeader(name, time) + "<br>"
  {
    var head := ChatHeader(name, time);
    assert '\n' !in head;
    ReplaceNewlinesConcat(head, "\n");
    assert "\n"[1..] == [];
  }

  /** The HTML of a chat entry is its plain text with every line feed made a
      line break, in the author's colour, as long as the author's name and the
      time carry no line feed of their own. */
  lemma ChatHtmlIsTextWithBreaks(e: Entry, t: Table, labels: Labels)
    requires e.ChatMessage? && Renderable(e, t)
    requires '\n' !in t[e.authorId].name && '\n' !in e.time
    ensures Html(e, t, labels) == Font(t[e.authorId].textColor, ReplaceNewlines(Text(e, t, labels)))
  {
    ChatTextWithBreaks(e, t, labels);
  }
}

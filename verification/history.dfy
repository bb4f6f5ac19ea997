/** The chat history: every chat line and notification in arrival order, the
    conversation text built from it, and the latest entry shown in the tray
    pop-up. */
module History {
  import opened Base
  import opened Presence
  import opened Messages

  /** The history, oldest entry first. */
  type Log = seq<Entry>

  /** A history after a change, with the notifications the change sent. */
  datatype Logged = Logged(log: Log, events: seq<Notification>)

  /** Appends one entry and tells the observers a message arrived. */
  function AddMessage(h: Log, e: Entry): (u: Logged)
    ensures |u.log| == |h| + 1 && u.log[..|h|] == h && u.log[|h|] == e
    ensures u.events == [MessageReceived]
  {
    Logged(h + [e], [MessageReceived])
  }

  /** Every entry of the history can be rendered against the table. */
  ghost predicate AllRenderable(h: Log, t: Table)
  {
    forall i :: 0 <= i < |h| ==> Renderable(h[i], t)
  }

  /** One entry of the conversation text: its HTML and an empty line. */
  function Block(e: Entry, t: Table, labels: Labels): string
    requires Renderable(e, t)
  {
    Html(e, t, labels) + "<br><br>"
  }

  /** The pieces of a sequence of strings, one after another. */
  function Concat(ss: seq<string>): string
  {
    if ss == [] then "" else Concat(ss[..|ss| - 1]) + ss[|ss| - 1]
  }

  /** Concatenation of pieces respects splitting the pieces. */
  lemma {:induction false} ConcatAppend(a: seq<string>, b: seq<string>)
    ensures Concat(a + b) == Concat(a) + Concat(b)
    decreases |b|
  {
    if b == [] {
      assert a + b == a;
    } else {
      var init := b[..|b| - 1];
      assert (a + b)[..|a + b| - 1] == a + init;
      assert (a + b)[|a + b| - 1] == b[|b| - 1];
      ConcatAppend(a, init);
    }
  }

  /** The block of every entry, in history order. */
  function Blocks(h: Log, t: Table, labels: Labels): (bs: seq<string>)
    requires AllRenderable(h, t)
    ensures |bs| == |h|
    ensures forall i :: 0 <= i < |h| ==> bs[i] == Block(h[i], t, labels)
  {
    seq(|h|, i requires 0 <= i < |h| && Renderable(h[i], t) => Block(h[i], t, labels))
  }

  /** Reference definition of the conversation text: the blocks of the
      entries in order. */
  function ChatText(h: Log, t: Table, labels: Labels): string
    requires AllRenderable(h, t)
  {
    Concat(Blocks(h, t, labels))
  }

  /** The conversation text, built by walking the history front to back. */
  method GetChatText(h: Log, t: Table, labels: Labels) returns (chatText: string)
    requires AllRenderable(h, t)
    ensures chatText == ChatText(h, t, labels)
    ensures h == [] ==> chatText == ""
  {
    chatText := "";
    var k := 0;
    while k < |h|
      invariant 0 <= k <= |h|
      invariant chatText == Concat(Blocks(h, t, labels)[..k])
    {
      var latestMessage := Html(h[k], t, labels);
      BlocksPrefixStep(h, t, labels, k);
      chatText := chatText + (latestMessage + "<br><br>");
      k := k + 1;
    }
    assert Blocks(h, t, labels)[..|h|] == Blocks(h, t, labels);
  }

  /** The text of the first k + 1 blocks is that of the first k followed by
      block k. */
  lemma BlocksPrefixStep(h: Log, t: Table, labels: Labels, k: nat)
    requires AllRenderable(h, t) && k < |h|
    ensures Concat(Blocks(h, t, labels)[..k + 1])
         == Concat(Blocks(h, t, labels)[..k]) + (Html(h[k], t, labels) + "<br><br>")
  {
    var bs := Blocks(h, t, labels);
    assert bs[..k + 1][..k] == bs[..k];
  }

  /** A concatenation can be rendered exactly when both parts can. */
  lemma AllRenderableConcat(h1: Log, h2: Log, t: Table)
    ensures AllRenderable(h1 + h2, t) <==> AllRenderable(h1, t) && AllRenderable(h2, t)
  {
    var h := h1 + h2;
    if AllRenderable(h1, t) && AllRenderable(h2, t) {
      forall i | 0 <= i < |h| ensures Renderable(h[i], t) {
        if i < |h1| { assert h[i] == h1[i]; } else { assert h[i] == h2[i - |h1|]; }
      }
    }
    if AllRenderable(h, t) {
      forall i | 0 <= i < |h1| ensures Renderable(h1[i], t) { assert h[i] == h1[i]; }
      forall i | 0 <= i < |h2| ensures Renderable(h2[i], t) { assert h[|h1| + i] == h2[i]; }
    }
  }

  /** The conversation text of two stretches of history is the text of the
      first followed by the text of the second. */
  lemma ChatTextAppend(h1: Log, h2: Log, t: Table, labels: Labels)
    requires AllRenderable(h1, t) && AllRenderable(h2, t)
    ensures AllRenderable(h1 + h2, t)
    ensures ChatText(h1 + h2, t, labels) == ChatText(h1, t, labels) + ChatText(h2, t, labels)
  {
    AllRenderableConcat(h1, h2, t);
    var b1, b2 := Blocks(h1, t, labels), Blocks(h2, t, labels);
    var b := Blocks(h1 + h2, t, labels);
    forall i | 0 <= i < |b| ensures b[i] == (b1 + b2)[i] {
      if i < |h1| { assert (h1 + h2)[i] == h1[i]; } else { assert (h1 + h2)[i] == h2[i - |h1|]; }
    }
    assert b == b1 + b2;
    ConcatAppend(b1, b2);
  }

  /** Adding an entry extends the conversation text by exactly that entry's
      HTML and an empty line; nothing earlier is re-rendered differently. */
  lemma ChatTextAfterAdd(h: Log, e: Entry, t: Table, labels: Labels)
    requires AllRenderable(h, t) && Renderable(e, t)
    ensures AllRenderable(AddMessage(h, e).log, t)
    ensures ChatText(AddMessage(h, e).log, t, labels) == ChatText(h, t, labels) + Html(e, t, labels) + "<br><br>"
  {
    assert AllRenderable([e], t);
    assert AddMessage(h, e).log == h + [e];
    ChatTextAppend(h, [e], t, labels);
    var b := Blocks([e], t, labels);
    assert b[..0] == [];
    assert ChatText([e], t, labels) == Block(e, t, labels) by {
      assert Concat(b) == Concat(b[..0]) + b[0];
    }
  }

  /** The plain text of the newest entry, or nothing for an empty history. */
  function GetLatestMessage(h: Log, t: Table, labels: Labels): (r: Option<string>)
    requires h != [] ==> Renderable(h[|h| - 1], t)
    ensures r.None? <==> h == []
  {
    if |h| > 0 then Some(Text(h[|h| - 1], t, labels)) else None
  }

  /** The latest message is the plain text of the entry added last. */
  lemma LatestIsLastAdded(h: Log, e: Entry, t: Table, labels: Labels)
    requires Renderable(e, t)
    ensures GetLatestMessage(AddMessage(h, e).log, t, labels) == Some(Text(e, t, labels))
  {
    assert AddMessage(h, e).log[|h|] == e;
  }

  /** The table never loses an entry, so a history that could be rendered
      against a table still can after any further table operations. */
  lemma RenderableStays(h: Log, t: Table, steps: seq<Step>)
    requires WellFormed(t) && AllRenderable(h, t)
    ensures AllRenderable(h, ApplyAll(t, steps))
  {
    ApplyAllKeepsEntries(t, steps);
  }
}

/** The context a call starts with (recent.ts): earlier calls with the number and the owner's
    latest messages, cut to fit by dropping the oldest messages. The entries are already printed
    lines: how long ago a call was, and the cleaning of messages, are not part of this model. */
module Context {
  import opened Wrappers
  import opened Text

  const MAX_CONTEXT_CHARS := 3000
  const INTRO :=
    "Recent context with this caller, for continuity. "
    + "Use it when it helps; don't read it out, and it may be out of date."
  const CALLS := "Earlier calls with this number, newest first:\n"

  function ConsultText(owner: string, chat: seq<string>): string
  {
    "Your latest messages with " + owner + ", oldest first, for context:\n" + Join(chat)
  }

  function RecentText(owner: string, calls: seq<string>, chat: seq<string>): string
  {
    INTRO
    + (if calls == [] then "" else "\n\n" + CALLS + Join(calls))
    + if chat == [] then "" else "\n\n" + "Your latest messages with " + owner + ", oldest first:\n" + Join(chat)
  }

  /** The earlier calls under their heading, and the messages under theirs; a section with
      nothing in it isn't there at all. */
  lemma EmptySections(owner: string, calls: seq<string>, chat: seq<string>)
    ensures RecentText(owner, [], []) == INTRO
    ensures calls != [] ==> RecentText(owner, calls, []) == INTRO + ("\n\n" + CALLS + Join(calls))
    ensures chat != [] ==>
              var messages := "\n\n" + "Your latest messages with " + owner + ", oldest first:\n" + Join(chat);
              && RecentText(owner, [], chat) == INTRO + messages
              && (calls != [] ==> RecentText(owner, calls, chat) == INTRO + ("\n\n" + CALLS + Join(calls)) + messages)
  {
    hide Join;
    var messages := "\n\n" + "Your latest messages with " + owner + ", oldest first:\n" + Join(chat);
    NothingAdded(INTRO, messages);
    NothingAdded(INTRO + ("\n\n" + CALLS + Join(calls)), "");
  }

  lemma NothingAdded(a: string, b: string)
    ensures a + "" == a && a + "" + b == a + b
  {
  }

  function Consult(owner: string): seq<string> -> string { chat => ConsultText(owner, chat) }

  function Recent(owner: string, calls: seq<string>): seq<string> -> string { chat => RecentText(owner, calls, chat) }

  function Cut(text: string): (r: string)
    ensures |r| <= 3000 && r <= text && (|text| > 3000 ==> |r| == 3000)
    ensures |text| <= 3000 ==> r == text
  {
    if |text| <= MAX_CONTEXT_CHARS then text else text[..MAX_CONTEXT_CHARS]
  }

  /** `chat` without its k oldest messages is the most that fits, if `least` may not be dropped. */
  ghost predicate MostThatFits(build: seq<string> -> string, chat: seq<string>, k: nat, least: nat)
  {
    && k <= |chat|
    && (|build(chat[k..])| <= 3000 || |chat| - k <= least)
    && forall j :: 0 <= j < k ==> |build(chat[j..])| > 3000 && |chat| - j > least
  }

  /** There is only one such k. */
  lemma OneCut(build: seq<string> -> string, chat: seq<string>, k: nat, l: nat, least: nat)
    requires MostThatFits(build, chat, k, least) && MostThatFits(build, chat, l, least)
    ensures k == l
  {
    assert |build(chat[k..])| >= 0 && |build(chat[l..])| >= 0;
  }

  /** One more message dropped. */
  lemma DropOne(build: seq<string> -> string, messages: seq<string>, k: nat, least: nat)
    requires k < |messages| && |build(messages[k..])| > MAX_CONTEXT_CHARS && |messages| - k > least
    requires forall j :: 0 <= j < k ==> |build(messages[j..])| > MAX_CONTEXT_CHARS && |messages| - j > least
    ensures messages[k..][1..] == messages[k + 1..]
    ensures forall j :: 0 <= j < k + 1 ==> |build(messages[j..])| > MAX_CONTEXT_CHARS && |messages| - j > least
  {
  }

  /** The owner's newest messages, as many as fit, but always the last one, cut if it must be. */
  method FormatConsultContext(owner: string, messages: seq<string>)
    returns (context: Option<string>, ghost dropped: nat)
    ensures messages == [] <==> context.None?
    ensures context.Some? ==>
              && MostThatFits(Consult(owner), messages, dropped, 1)
              && context.value == Cut(Consult(owner)(messages[dropped..]))
  {
    hide ConsultText, Cut;
    dropped := 0;
    if messages == [] { return None, 0; }
    var chat := messages;
    var text := ConsultText(owner, chat);
    while |text| > MAX_CONTEXT_CHARS && |chat| > 1
      invariant dropped <= |messages| && chat == messages[dropped..] && |chat| >= 1
      invariant text == Consult(owner)(chat)
      invariant forall j :: 0 <= j < dropped ==> |Consult(owner)(messages[j..])| > MAX_CONTEXT_CHARS && |messages| - j > 1
      decreases |chat|
    {
      DropOne(Consult(owner), messages, dropped, 1);
      chat := chat[1..];
      dropped := dropped + 1;
      text := ConsultText(owner, chat);
    }
    context := Some(Cut(text));
  }

  /** Earlier calls come first: messages give way to them, oldest first, down to none. */
  method FormatRecentContext(owner: string, calls: seq<string>, messages: seq<string>)
    returns (context: Option<string>, ghost dropped: nat)
    ensures calls == [] && messages == [] <==> context.None?
    ensures context.Some? ==>
              && MostThatFits(Recent(owner, calls), messages, dropped, 0)
              && context.value == Cut(Recent(owner, calls)(messages[dropped..]))
  {
    hide RecentText, Cut;
    dropped := 0;
    if calls == [] && messages == [] { return None, 0; }
    var chat := messages;
    var text := RecentText(owner, calls, chat);
    while |text| > MAX_CONTEXT_CHARS && |chat| > 0
      invariant dropped <= |messages| && chat == messages[dropped..]
      invariant text == Recent(owner, calls)(chat)
      invariant forall j :: 0 <= j < dropped ==> |Recent(owner, calls)(messages[j..])| > MAX_CONTEXT_CHARS && |messages| - j > 0
      decreases |chat|
    {
      DropOne(Recent(owner, calls), messages, dropped, 0);
      chat := chat[1..];
      dropped := dropped + 1;
      text := RecentText(owner, calls, chat);
    }
    context := Some(Cut(text));
  }
}

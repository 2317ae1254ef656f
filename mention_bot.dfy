/** discordbot.py: the single-persona bot that only answers mentions, keeping every
    exchange of a channel as uncapped `ユーザー: …` / `AI: …` lines. */
module MentionBot {
  import opened Common
  import opened Text
  import opened Generation
  import opened Engine

  /** The persona text every prompt starts with. */
  const PersonaText: string := "\nあなたは優秀なソフトウェアエンジニアAIです。\n過去のやり取りを参照し、文脈を理解した上で回答します。\n"

  /** The fixed answer to a mention with nothing else in it. */
  const Greeting: string := "はい、呼びましたか？"

  /** The mention token of the bot whose user id is `botId`. */
  function Token(botId: nat): (r: string)
    ensures |r| >= 4 && r[..2] == "<@" && r[|r| - 1] == '>'
    ensures r[2..|r| - 1] == Decimal(botId) && DigitsValue(r[2..|r| - 1]) == botId
  {
    "<@" + Decimal(botId) + ">"
  }

  /** The message with every mention token of the bot removed, then stripped: no longer than
      the message, and neither starting nor ending with white space. */
  function UserText(content: string, botId: nat): (r: string)
    ensures |r| <= |content|
    ensures r == [] || (!IsSpace(r[0]) && !IsSpace(r[|r| - 1]))
  {
    Strip(RemoveAll(content, Token(botId)))
  }

  /** The history line of a user's text, and of the bot's reply. */
  function UserLine(text: string): string {
    "ユーザー: " + text
  }

  function BotLine(text: string): string {
    "AI: " + text
  }

  /** A history line is its label, `ユーザー: ` or `AI: `, followed by the text unchanged, so
      a user's line never reads as the bot's. */
  lemma LinesLabelled(text: string)
    ensures var u := UserLine(text);
            |u| == |text| + 6 && u[..6] == "ユーザー: " && u[6..] == text
    ensures var b := BotLine(text);
            |b| == |text| + 4 && b[..4] == "AI: " && b[4..] == text
    ensures UserLine(text) != BotLine(text)
  {
    assert UserLine(text)[0] != BotLine(text)[0];
  }

  /** The prompt: the persona text, a blank line, then every history line joined by
      newlines; nothing is cut off, so the newest line closes the prompt. */
  function FullPrompt(lines: seq<string>): (r: string)
    ensures var head := PersonaText + "\n\n";
            |head| <= |r| && r[..|head|] == head
    ensures lines != [] ==> var last := lines[|lines| - 1];
                            |last| <= |r| && r[|r| - |last|..] == last
  {
    var head := PersonaText + "\n\n";
    var body := Join(lines, "\n");
    if lines == [] then head + body
    else
      EndsWith(head, body, lines[|lines| - 1]);
      head + body
  }

  /** `conversation_history`: channel id to its lines, oldest first. */
  type History = map<ChannelId, seq<string>>

  /** `conversation_history.get(c, [])`. */
  function Lines(h: History, c: ChannelId): seq<string> {
    if c in h then h[c] else []
  }

  /** The new history and the effects of one run of the handler. */
  datatype Outcome = Outcome(history: History, effects: seq<Effect>)

  /** `on_message`. A bot's message or one without a mention is ignored; an empty user text
      is greeted; otherwise the user line is appended, the prompt over the whole history is
      requested, and only a generated reply is sent and appended as an `AI:` line. A failed
      generation escapes the handler, leaving the user line in place. */
  function React(h: History, botId: nat, m: Message, gen: GenOutcome): (r: Outcome)
    ensures forall d :: d != m.channel ==> Lines(r.history, d) == Lines(h, d)
    ensures m.authorIsBot || !m.mentioned ==> r == Outcome(h, [])
  {
    if m.authorIsBot || !m.mentioned then Outcome(h, [])
    else Exchange(h, m.channel, UserText(m.content, botId), gen)
  }

  /** The mention branch for user text `u` on channel `c`. */
  function Exchange(h: History, c: ChannelId, u: string, gen: GenOutcome): (r: Outcome)
    ensures forall d :: d != c ==> Lines(r.history, d) == Lines(h, d)
  {
    if u == "" then Outcome(h, [Send(c, Greeting)])
    else
      var lines := Lines(h, c) + [UserLine(u)];
      var request := Request(FullPrompt(lines));
      match gen
      case Response(t) => Outcome(h[c := lines + [BotLine(t)]], [request, Send(c, t)])
      case _ => Outcome(h[c := lines], [request])
  }

  /** A mention whose text is empty once the token is removed and the rest stripped is
      greeted, and the history is left as it was. */
  lemma EmptyMentionGreets(h: History, botId: nat, m: Message, gen: GenOutcome)
    requires !m.authorIsBot && m.mentioned && UserText(m.content, botId) == ""
    ensures React(h, botId, m, gen) == Outcome(h, [Send(m.channel, Greeting)])
  {
  }

  /** The bare mention token is such a message. */
  lemma BareMentionIsEmpty(botId: nat)
    ensures UserText(Token(botId), botId) == ""
  {
    var t := Token(botId);
    assert t[..|t|] == t;
    assert t[|t|..] == [];
    assert RemoveAll(t, t) == RemoveAll([], t);
  }

  /** A message without the token is only stripped. */
  lemma NoTokenOnlyStrips(content: string, botId: nat)
    requires !Contains(content, Token(botId))
    ensures UserText(content, botId) == Strip(content)
  {
    RemoveAllAbsent(content, Token(botId));
  }

  /** An answered mention adds exactly two lines to its channel, the user line and then the
      reply line with the reply as generated (not stripped), and the reply is sent. */
  lemma ReplyAddsTwoLines(h: History, c: ChannelId, u: string, gen: GenOutcome)
    requires u != "" && gen.Response?
    ensures var r := Exchange(h, c, u, gen);
            && Lines(r.history, c) == Lines(h, c) + [UserLine(u), BotLine(gen.text)]
            && |Lines(r.history, c)| == |Lines(h, c)| + 2
            && r.effects[|r.effects| - 1] == Send(c, gen.text)
  {
    var lines := Lines(h, c) + [UserLine(u)];
    assert Exchange(h, c, u, gen).history == h[c := lines + [BotLine(gen.text)]];
  }

  /** A failed generation leaves the user line in the history and sends nothing. */
  lemma FailureKeepsUserLine(h: History, c: ChannelId, u: string, gen: GenOutcome)
    requires u != "" && !gen.Response?
    ensures var r := Exchange(h, c, u, gen);
            && Lines(r.history, c) == Lines(h, c) + [UserLine(u)]
            && forall i :: 0 <= i < |r.effects| ==> !r.effects[i].Send?
  {
    var lines := Lines(h, c) + [UserLine(u)];
    assert Exchange(h, c, u, gen) == Outcome(h[c := lines], [Request(FullPrompt(lines))]);
  }

  /** The prompt shows the channel's whole history: on a channel with earlier lines it is
      the prompt over those lines followed by a newline and the new user line. */
  lemma PromptExtendsHistory(h: History, c: ChannelId, u: string, gen: GenOutcome)
    requires u != "" && |Lines(h, c)| > 0
    ensures Exchange(h, c, u, gen).effects[0] == Request(FullPrompt(Lines(h, c)) + "\n" + UserLine(u))
  {
    ExchangeRequest(h, c, u, gen);
    FullPromptSnoc(Lines(h, c), UserLine(u));
  }

  /** On a channel's first message the list is created and the prompt is the persona text,
      a blank line and the user line alone. */
  lemma PromptOnFreshChannel(h: History, c: ChannelId, u: string, gen: GenOutcome)
    requires u != "" && c !in h
    ensures Exchange(h, c, u, gen).effects[0] == Request(PersonaText + "\n\n" + UserLine(u))
  {
    ExchangeRequest(h, c, u, gen);
    assert Lines(h, c) + [UserLine(u)] == [UserLine(u)];
  }

  /** A non-empty user text makes the mention branch request the prompt over the channel's
      lines followed by the new user line. */
  lemma ExchangeRequest(h: History, c: ChannelId, u: string, gen: GenOutcome)
    requires u != ""
    ensures Exchange(h, c, u, gen).effects[0] == Request(FullPrompt(Lines(h, c) + [UserLine(u)]))
  {
  }

  /** One more line extends the prompt by a newline and that line. */
  lemma FullPromptSnoc(lines: seq<string>, x: string)
    requires lines != []
    ensures FullPrompt(lines + [x]) == FullPrompt(lines) + "\n" + x
  {
    var head := PersonaText + "\n\n";
    var body := Join(lines, "\n");
    JoinSnoc(lines, x, "\n");
    assert head + (body + "\n" + x) == head + body + "\n" + x;
  }

  /** The bot as an object: its user id and the history dictionary it updates in place. */
  class Bot {
    const botId: nat
    var history: History

    constructor(id: nat)
      ensures botId == id && history == map[]
    {
      botId := id;
      history := map[];
    }

    /** `on_message`: ignore bots and messages without a mention, greet an empty mention,
        answer the rest. */
    method OnMessage(m: Message, gen: GenOutcome) returns (effects: seq<Effect>)
      modifies this
      ensures Outcome(history, effects) == React(old(history), botId, m, gen)
    {
      effects := [];
      if m.authorIsBot || !m.mentioned {
        return;
      }
      var u := UserText(m.content, botId);
      if u == "" {
        effects := [Send(m.channel, Greeting)];
        return;
      }
      effects := Answer(m.channel, u, gen);
    }

    /** The answering part of `on_message`, step by step: create the channel's list on first
        use, append the user line, build the prompt, and append the reply line once it was
        sent. */
    method Answer(c: ChannelId, u: string, gen: GenOutcome) returns (effects: seq<Effect>)
      requires u != ""
      modifies this
      ensures Outcome(history, effects) == Exchange(old(history), c, u, gen)
    {
      ghost var h0 := history;
      if c !in history {
        history := history[c := []];
      }
      var lines := history[c] + [UserLine(u)];
      assert lines == Lines(h0, c) + [UserLine(u)];
      history := history[c := lines];
      var prompt := FullPrompt(lines);
      ghost var r := Exchange(h0, c, u, gen);
      match gen
      case Response(t) =>
        effects := [Request(prompt), Send(c, t)];
        history := history[c := lines + [BotLine(t)]];
        assert r == Outcome(h0[c := lines + [BotLine(t)]], effects);
      case _ =>
        effects := [Request(prompt)];
        assert r == Outcome(h0[c := lines], effects);
    }
  }
}

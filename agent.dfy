/** A persona bot's module-level dictionaries as one object whose handlers update them in
    place; every handler is proved to perform exactly the transition the Engine module
    defines, so the properties proved there hold of the object. */
module Agents {
  import opened Common
  import opened History
  import opened Config
  import opened PromptBuilder
  import opened Generation
  import opened Engine

  class Agent {
    /** The constants of the persona file this bot runs. */
    const persona: Persona
    /** `conversation_log`: channel id to its entries, oldest first. */
    var log: map<ChannelId, seq<Entry>>
    /** `last_autoreply`: channel id to the time of its last autonomous send. */
    var lastAuto: map<ChannelId, int>
    /** `autoreply_counts`: channel id to the times of all its autonomous sends. */
    var autoCounts: map<ChannelId, seq<int>>

    /** The three dictionaries as a value. */
    function Snapshot(): State
      reads this
    {
      State(log, lastAuto, autoCounts)
    }

    /** Every channel's log respects the persona's cap. */
    ghost predicate Valid()
      reads this
    {
      Bounded(persona, Snapshot())
    }

    constructor(p: Persona)
      ensures persona == p && Snapshot() == Initial && Valid()
    {
      persona := p;
      log := map[];
      lastAuto := map[];
      autoCounts := map[];
    }

    /** `add_log`: fetch (or create) the channel's list, append, cut back to the cap. */
    method AddLog(c: ChannelId, role: string, content: string, now: int)
      requires Valid()
      modifies this
      ensures Valid()
      ensures Snapshot() == Engine.AddLog(persona, old(Snapshot()), c, role, content, now)
    {
      ghost var before := Snapshot();
      var h := if c in log then log[c] else [];
      h := h + [Entry(role, content, now)];
      if |h| > persona.cap {
        h := h[|h| - persona.cap..];
      }
      assert h == Appended(Log(before, c), Entry(role, content, now), persona.cap);
      log := log[c := h];
      assert Snapshot() == before.(log := before.log[c := h]);
    }

    /** `record_autoreply`: stamp the last send and append the time to the channel's list. */
    method RecordAutoreply(c: ChannelId, now: int)
      requires Valid()
      modifies this
      ensures Valid()
      ensures Snapshot() == Engine.RecordAutoreply(persona, old(Snapshot()), c, now)
    {
      lastAuto := lastAuto[c := now];
      var stamps := if c in autoCounts then autoCounts[c] else [];
      autoCounts := autoCounts[c := stamps + [now]];
    }

    /** `build_prompt`: the persona text and header, one `role: content` line per entry of
        the newest `promptLookback` entries, oldest first, then the utterance and the tail.
        It reads the log and changes nothing. */
    method BuildPrompt(c: ChannelId, userText: string) returns (prompt: string)
      ensures prompt == Prompt(persona, Log(Snapshot(), c), userText)
    {
      var hist := Last(Log(Snapshot(), c), persona.promptLookback);
      var head := persona.prompt + persona.historyHeader;
      prompt := head;
      var i := 0;
      assert prompt == head + Transcript(hist[..0]) by {
        assert hist[..0] == [];
      }
      while i < |hist|
        invariant 0 <= i <= |hist|
        invariant prompt == head + Transcript(hist[..i])
      {
        var h := hist[i];
        ghost var before := prompt;
        prompt := prompt + h.role + ": " + h.content + "\n";
        assert prompt == head + Transcript(hist[..i + 1]) by {
          assert prompt == before + Line(h);
          assert hist[..i + 1][..i] == hist[..i];
        }
        i := i + 1;
      }
      assert hist[..i] == hist;
      prompt := prompt + persona.utteranceLabel + (userText + "\n\n" + persona.name + persona.instruction);
    }

    /** `on_message`, step by step: ignore bots, log the human message, then either answer
        the mention or weigh an autonomous reply. */
    method OnMessage(m: Message, env: Env) returns (effects: seq<Effect>)
      requires Valid()
      modifies this
      ensures Valid()
      ensures Reaction(Snapshot(), effects) == Engine.OnMessage(persona, old(Snapshot()), m, env)
    {
      effects := [];
      if m.authorIsBot {
        return;
      }
      ghost var s0 := Snapshot();
      var c := m.channel;
      AddLog(c, UserRole, m.content, env.now);
      ghost var s1 := Snapshot();
      assert s1 == Logged(persona, s0, m, env);
      if m.mentioned {
        effects := AnswerMention(c, m.content, env.gen, env.done);
        assert Engine.OnMessage(persona, s0, m, env) == Answer(persona, s1, c, m.content, Reply(persona, env), env.done);
        return;
      }
      var prob := persona.baseProb;
      if OtherSpoke(Last(Log(Snapshot(), c), persona.decisionLookback)) {
        prob := prob + persona.boostProb;
      }
      assert prob == ReplyProbability(persona, Log(s1, c));
      if env.draw < prob && CanAutoreply(persona, Snapshot(), c, env.now) {
        effects := TryAutoreply(c, m.content, env.gen, env.done);
        assert Engine.OnMessage(persona, s0, m, env) == Attempt(persona, s1, c, m.content, Reply(persona, env), env.done);
      } else {
        assert Engine.OnMessage(persona, s0, m, env) == Reaction(s1, []);
      }
    }

    /** The `try` block of the mention branch: generate, log the reply, send it; on failure
        send the category's apology when the persona classifies failures. */
    method AnswerMention(c: ChannelId, userText: string, gen: GenOutcome, done: int) returns (effects: seq<Effect>)
      requires Valid()
      modifies this
      ensures Valid()
      ensures Reaction(Snapshot(), effects)
              == Answer(persona, old(Snapshot()), c, userText, Generate(persona.strictGenerate, gen), done)
    {
      ghost var s0 := Snapshot();
      var prompt := BuildPrompt(c, userText);
      var reply := Generate(persona.strictGenerate, gen);
      ghost var r := Answer(persona, s0, c, userText, reply, done);
      match reply
      case Ok(text) =>
        AddLog(c, persona.name, text, done);
        effects := [Request(prompt), Send(c, Format(persona, text))];
        assert r == Reaction(Engine.AddLog(persona, s0, c, persona.name, text, done), effects);
      case Err(e) =>
        if persona.strictGenerate {
          effects := [Request(prompt), Send(c, Apology(e))];
        } else {
          effects := [Request(prompt)];
        }
        assert r == Reaction(s0, effects);
    }

    /** The `try` block of an autonomous reply, in the message handler and in the idle scan
        alike: generate, log the reply, record the send, send; a failure is swallowed. */
    method TryAutoreply(c: ChannelId, userText: string, gen: GenOutcome, done: int) returns (effects: seq<Effect>)
      requires Valid()
      modifies this
      ensures Valid()
      ensures Reaction(Snapshot(), effects)
              == Attempt(persona, old(Snapshot()), c, userText, Generate(persona.strictGenerate, gen), done)
    {
      var prompt := BuildPrompt(c, userText);
      match Generate(persona.strictGenerate, gen)
      case Ok(reply) =>
        AddLog(c, persona.name, reply, done);
        RecordAutoreply(c, done);
        effects := [Request(prompt), Send(c, Format(persona, reply))];
      case Err(_) =>
        effects := [Request(prompt)];
    }

    /** The body of the idle scan for one channel: skip it without send permission, else
        roll the idle draw, check the throttle and try a reply to the seed utterance. */
    method ScanChannel(slot: Slot) returns (effects: seq<Effect>)
      requires Valid()
      modifies this
      ensures Valid()
      ensures Reaction(Snapshot(), effects) == ScanStep(persona, old(Snapshot()), slot)
    {
      effects := [];
      if !slot.canSend {
        return;
      }
      if slot.draw < persona.idleProb && CanAutoreply(persona, Snapshot(), slot.channel, slot.now) {
        effects := TryAutoreply(slot.channel, persona.seed, slot.gen, slot.done);
      }
    }

    /** One pass of `periodic_initiator` over the channels, in order. */
    method IdleScan(slots: seq<Slot>) returns (effects: seq<Effect>)
      requires Valid()
      modifies this
      ensures Valid()
      ensures Reaction(Snapshot(), effects) == Scan(persona, old(Snapshot()), slots)
    {
      effects := [];
      var i := 0;
      while i < |slots|
        invariant 0 <= i <= |slots|
        invariant Valid()
        invariant Reaction(Snapshot(), effects) == Scan(persona, old(Snapshot()), slots[..i])
      {
        var more := ScanChannel(slots[i]);
        effects := effects + more;
        assert slots[..i + 1][..i] == slots[..i];
        i := i + 1;
      }
      assert slots[..i] == slots;
    }
  }
}

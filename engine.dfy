/** The per-channel conversation engine every persona bot shares, as pure transitions over
    its three dictionaries: `conversation_log`, `last_autoreply` and `autoreply_counts`. */
module Engine {
  import opened Common
  import opened History
  import opened RateLimit
  import opened Config
  import opened PromptBuilder
  import opened Generation

  /** The bot's mutable state, one entry per channel in each dictionary. */
  datatype State = State(
    log: map<ChannelId, seq<Entry>>,
    lastAuto: map<ChannelId, int>,
    autoCounts: map<ChannelId, seq<int>>)

  /** The state at start-up: no channel seen. */
  const Initial: State := State(map[], map[], map[])

  /** `conversation_log.get(c, [])`. */
  function Log(s: State, c: ChannelId): (r: seq<Entry>)
    ensures c !in s.log ==> r == []
    ensures c in s.log ==> r == s.log[c]
  {
    if c in s.log then s.log[c] else []
  }

  /** `last_autoreply.get(c, 0)`. */
  function LastSend(s: State, c: ChannelId): (r: int)
    ensures c !in s.lastAuto ==> r == 0
    ensures c in s.lastAuto ==> r == s.lastAuto[c]
  {
    if c in s.lastAuto then s.lastAuto[c] else 0
  }

  /** `autoreply_counts.get(c, [])`. */
  function Sends(s: State, c: ChannelId): (r: seq<int>)
    ensures c !in s.autoCounts ==> r == []
    ensures c in s.autoCounts ==> r == s.autoCounts[c]
  {
    if c in s.autoCounts then s.autoCounts[c] else []
  }

  /** Every channel's log respects the persona's cap. */
  ghost predicate Bounded(p: Persona, s: State) {
    forall c :: c in s.log ==> |s.log[c]| <= p.cap
  }

  /** `add_log(c, role, content)` at time `now`. Only channel `c`'s log changes; it gains
      the entry and is cut back to the newest `cap` entries. */
  function AddLog(p: Persona, s: State, c: ChannelId, role: string, content: string, now: int): (r: State)
    ensures r.lastAuto == s.lastAuto && r.autoCounts == s.autoCounts
    ensures c in r.log && Log(r, c) == Appended(Log(s, c), Entry(role, content, now), p.cap)
    ensures forall d :: d != c ==> Log(r, d) == Log(s, d) && (d in r.log <==> d in s.log)
    ensures Bounded(p, s) ==> Bounded(p, r)
  {
    s.(log := s.log[c := Appended(Log(s, c), Entry(role, content, now), p.cap)])
  }

  /** `can_autoreply(c)` at time `now`; it only reads the state. The channel is open when
      the cooldown has passed since its last send and fewer than `maxInWindow` of its send
      times lie inside the window; a channel never sent on counts from time 0 with no sends. */
  function CanAutoreply(p: Persona, s: State, c: ChannelId, now: int): (r: bool)
    ensures r <==> LastSend(s, c) + p.cooldown <= now
                   && |WindowIndices(Sends(s, c), now, p.window)| < p.maxInWindow
    ensures c !in s.lastAuto && c !in s.autoCounts ==> (r <==> p.cooldown <= now && 0 < p.maxInWindow)
  {
    assert WindowIndices([], now, p.window) == {};
    CanFire(LastSend(s, c), Sends(s, c), now, p.cooldown, p.window, p.maxInWindow)
  }

  /** `record_autoreply(c)` at time `now`: stamps the last send and appends `now` to the
      (never pruned) send list; afterwards the channel is closed for the whole cooldown. */
  function RecordAutoreply(p: Persona, s: State, c: ChannelId, now: int): (r: State)
    ensures r.log == s.log
    ensures LastSend(r, c) == now && Sends(r, c) == Sends(s, c) + [now]
    ensures forall d :: d != c ==> LastSend(r, d) == LastSend(s, d) && Sends(r, d) == Sends(s, d)
    ensures forall t :: t < now + p.cooldown ==> !CanAutoreply(p, r, c, t)
  {
    s.(lastAuto := s.lastAuto[c := now], autoCounts := s.autoCounts[c := Sends(s, c) + [now]])
  }

  /** `any(h["role"] != "ユーザー" for h in recent)`. */
  function OtherSpoke(recent: seq<Entry>): (r: bool)
    ensures r <==> exists i :: 0 <= i < |recent| && recent[i].role != UserRole
  {
    if recent == [] then false
    else if recent[0].role != UserRole then true
    else
      var r := OtherSpoke(recent[1..]);
      assert forall i :: 1 <= i < |recent| ==> recent[i] == recent[1..][i - 1];
      r
  }

  /** Some entry among the last `n` of `h` is not a user's. */
  predicate RecentOther(h: seq<Entry>, n: int) {
    exists i :: 0 <= i < |h| && |h| - n <= i && h[i].role != UserRole
  }

  /** Looking at the `k` newest entries is looking at the positions from `|h| - k` on. */
  lemma OtherSpokeRecent(h: seq<Entry>, k: Pos)
    ensures OtherSpoke(Last(h, k)) <==> RecentOther(h, k)
  {
    var l := Last(h, k);
    var off := |h| - |l|;
    if OtherSpoke(l) {
      var j :| 0 <= j < |l| && l[j].role != UserRole;
      assert h[off + j] == l[j];
    }
    if RecentOther(h, k) {
      var i :| 0 <= i < |h| && |h| - k <= i && h[i].role != UserRole;
      assert l[i - off] == h[i];
    }
  }

  /** The probability of an autonomous reply given the channel's log: the base value, plus
      the boost exactly when one of the last `decisionLookback` entries is not a user's. */
  function ReplyProbability(p: Persona, h: seq<Entry>): (r: real)
    ensures RecentOther(h, p.decisionLookback) ==> r == p.baseProb + p.boostProb
    ensures !RecentOther(h, p.decisionLookback) ==> r == p.baseProb
  {
    OtherSpokeRecent(h, p.decisionLookback);
    if OtherSpoke(Last(h, p.decisionLookback)) then p.baseProb + p.boostProb else p.baseProb
  }

  /** The autonomous-reply decision: the draw falls below the probability and the throttle
      is open. */
  function AutonomousFires(p: Persona, s: State, c: ChannelId, draw: real, now: int): (r: bool)
    ensures RecentOther(Log(s, c), p.decisionLookback) ==>
              (r <==> draw < p.baseProb + p.boostProb && CanAutoreply(p, s, c, now))
    ensures !RecentOther(Log(s, c), p.decisionLookback) ==>
              (r <==> draw < p.baseProb && CanAutoreply(p, s, c, now))
  {
    draw < ReplyProbability(p, Log(s, c)) && CanAutoreply(p, s, c, now)
  }

  /** The text sent for a reply: the persona's name in bold brackets, then the whole reply. */
  function Format(p: Persona, reply: string): (r: string)
    ensures |r| == |p.name| + |reply| + 7
    ensures r[..3] == "**[" && r[3 + |p.name|..7 + |p.name|] == "]** "
    ensures r[3..3 + |p.name|] == p.name && r[|r| - |reply|..] == reply
  {
    "**[" + p.name + "]** " + reply
  }

  /** An incoming message: its channel, whether a bot wrote it, whether it mentions this
      bot, and its text. */
  datatype Message = Message(channel: ChannelId, authorIsBot: bool, mentioned: bool, content: string)

  /** What the outside world supplies to one handler run: the random draw, the backend's
      outcome, the clock when the message arrives and the clock after generation. */
  datatype Env = Env(draw: real, gen: GenOutcome, now: int, done: int)

  /** The new state and the effects of one handler run. */
  datatype Reaction = Reaction(state: State, effects: seq<Effect>)

  /** The state right after a human message is logged. */
  function Logged(p: Persona, s: State, m: Message, env: Env): State {
    AddLog(p, s, m.channel, UserRole, m.content, env.now)
  }

  /** The reply text or the failure this persona's `generate` makes of the outcome. */
  function Reply(p: Persona, env: Env): Result<string> {
    Generate(p.strictGenerate, env.gen)
  }

  /** The message takes the autonomous path and passes the decision. */
  predicate FiresOn(p: Persona, s: State, m: Message, env: Env) {
    !m.authorIsBot && !m.mentioned && AutonomousFires(p, Logged(p, s, m, env), m.channel, env.draw, env.now)
  }

  /** `on_message`. A bot's message changes nothing. A human message is logged first; a
      mention always asks for a reply and never touches the throttle; otherwise the reply is
      attempted only when the decision fires, and the send is recorded only after the
      reply was generated and logged. */
  function OnMessage(p: Persona, s: State, m: Message, env: Env): (r: Reaction)
    ensures m.authorIsBot ==> r == Reaction(s, [])
    ensures forall d :: d != m.channel ==> Log(r.state, d) == Log(s, d)
    ensures r.state.lastAuto == s.lastAuto || r.state.lastAuto == s.lastAuto[m.channel := env.done]
    ensures r.state.autoCounts == s.autoCounts
            || r.state.autoCounts == s.autoCounts[m.channel := Sends(s, m.channel) + [env.done]]
    ensures |r.effects| <= 2
    ensures |r.effects| == 2 ==> r.effects[1].Send? && r.effects[1].channel == m.channel
    ensures m.mentioned ==> r.state.lastAuto == s.lastAuto && r.state.autoCounts == s.autoCounts
    ensures !m.authorIsBot && m.mentioned ==>
              |r.effects| > 0 && r.effects[0] == Request(Prompt(p, Log(Logged(p, s, m, env), m.channel), m.content))
    ensures Bounded(p, s) ==> Bounded(p, r.state)
  {
    if m.authorIsBot then Reaction(s, [])
    else
      var s1 := Logged(p, s, m, env);
      if m.mentioned then Answer(p, s1, m.channel, m.content, Reply(p, env), env.done)
      else if AutonomousFires(p, s1, m.channel, env.draw, env.now) then
        Attempt(p, s1, m.channel, m.content, Reply(p, env), env.done)
      else Reaction(s1, [])
  }

  /** The state the mention branch leaves once the message is logged: a generated reply is
      logged on channel `c` alone, a failure changes nothing, and the throttle is never
      touched. */
  function Answered(p: Persona, s: State, c: ChannelId, reply: Result<string>, done: int): (r: State)
    ensures reply.Err? ==> r == s
    ensures reply.Ok? ==> Log(r, c) == Appended(Log(s, c), Entry(p.name, reply.value, done), p.cap)
    ensures r.lastAuto == s.lastAuto && r.autoCounts == s.autoCounts
    ensures forall d :: d != c ==> Log(r, d) == Log(s, d)
    ensures Bounded(p, s) ==> Bounded(p, r)
  {
    match reply
    case Ok(text) => AddLog(p, s, c, p.name, text, done)
    case Err(_) => s
  }

  /** The mention branch once the message is logged: the prompt is requested; a reply is
      logged and sent, a failure is answered with an apology only by a persona whose
      `generate` classifies failures. */
  function Answer(p: Persona, s: State, c: ChannelId, userText: string, reply: Result<string>, done: int): (r: Reaction)
    ensures r.state == Answered(p, s, c, reply, done)
    ensures |r.effects| > 0 && r.effects[0] == Request(Prompt(p, Log(s, c), userText))
    ensures |r.effects| == 2 <==> reply.Ok? || p.strictGenerate
    ensures |r.effects| <= 2
    ensures reply.Ok? ==> r.effects[1] == Send(c, Format(p, reply.value))
    ensures reply.Err? && p.strictGenerate ==> r.effects[1] == Send(c, Apology(reply.error))
  {
    var request := Request(Prompt(p, Log(s, c), userText));
    match reply
    case Ok(text) => Reaction(Answered(p, s, c, reply, done), [request, Send(c, Format(p, text))])
    case Err(e) => Reaction(s, if p.strictGenerate then [request, Send(c, Apology(e))] else [request])
  }

  /** The state an autonomous reply attempt on channel `c` leaves: a generated reply is
      logged and then the send is recorded at `done`, on that channel alone; a failure
      changes nothing. */
  function Attempted(p: Persona, s: State, c: ChannelId, reply: Result<string>, done: int): (r: State)
    ensures reply.Err? ==> r == s
    ensures reply.Ok? ==> Log(r, c) == Appended(Log(s, c), Entry(p.name, reply.value, done), p.cap)
    ensures reply.Ok? ==> r.lastAuto == s.lastAuto[c := done]
                          && r.autoCounts == s.autoCounts[c := Sends(s, c) + [done]]
    ensures forall d :: d != c ==> Log(r, d) == Log(s, d)
    ensures Bounded(p, s) ==> Bounded(p, r)
  {
    match reply
    case Ok(text) => RecordAutoreply(p, AddLog(p, s, c, p.name, text, done), c, done)
    case Err(_) => s
  }

  /** An autonomous reply attempt on channel `c`, shared by the message handler and the idle
      scan: the prompt is requested; a reply is logged, then the send is recorded at `done`,
      then the reply is sent; a failure changes nothing and sends nothing. */
  function Attempt(p: Persona, s: State, c: ChannelId, userText: string, reply: Result<string>, done: int): (r: Reaction)
    ensures r.state == Attempted(p, s, c, reply, done)
    ensures |r.effects| > 0 && r.effects[0] == Request(Prompt(p, Log(s, c), userText))
    ensures reply.Ok? <==> |r.effects| == 2
    ensures |r.effects| <= 2
    ensures reply.Ok? ==> r.effects[1] == Send(c, Format(p, reply.value))
  {
    var request := Request(Prompt(p, Log(s, c), userText));
    match reply
    case Ok(text) => Reaction(Attempted(p, s, c, reply, done), [request, Send(c, Format(p, text))])
    case Err(_) => Reaction(s, [request])
  }

  /** On a human message the channel's log gains the user entry first; it gains the reply
      entry after it exactly when a reply was attempted and generated, and nothing else. */
  lemma OnMessageLog(p: Persona, s: State, m: Message, env: Env)
    requires !m.authorIsBot
    ensures var r := OnMessage(p, s, m, env);
            var s1 := Logged(p, s, m, env);
            var replied := (m.mentioned || FiresOn(p, s, m, env)) && Reply(p, env).Ok?;
            && (Reply(p, env).Err? ==> r.state == s1)
            && (replied ==> Log(r.state, m.channel)
                            == Appended(Log(s1, m.channel), Entry(p.name, Reply(p, env).value, env.done), p.cap))
            && (!replied ==> Log(r.state, m.channel) == Log(s1, m.channel))
            && (!m.mentioned && !FiresOn(p, s, m, env) ==> r == Reaction(s1, []))
  {
  }

  /** A mention whose reply fails leaves the log with only the user's entry and the
      throttle untouched; the failure is answered with the apology for its text when the
      persona classifies failures, and not answered at all otherwise. */
  lemma MentionFailure(p: Persona, s: State, m: Message, env: Env)
    requires !m.authorIsBot && m.mentioned && Reply(p, env).Err?
    ensures var r := OnMessage(p, s, m, env);
            var request := Request(Prompt(p, Log(Logged(p, s, m, env), m.channel), m.content));
            && r.state == Logged(p, s, m, env)
            && r.effects == if p.strictGenerate then [request, Send(m.channel, Apology(Reply(p, env).error))]
                            else [request]
  {
  }

  /** The throttle is written only on the autonomous path, and only once the reply was
      generated and logged: then the send time is `done` and one stamp is appended. */
  lemma OnMessageRecordsAfterReply(p: Persona, s: State, m: Message, env: Env)
    ensures var r := OnMessage(p, s, m, env);
            && (FiresOn(p, s, m, env) && Reply(p, env).Ok? ==>
                  LastSend(r.state, m.channel) == env.done
                  && Sends(r.state, m.channel) == Sends(s, m.channel) + [env.done])
            && (!(FiresOn(p, s, m, env) && Reply(p, env).Ok?) ==>
                  r.state.lastAuto == s.lastAuto && r.state.autoCounts == s.autoCounts)
  {
  }

  /** One channel as the idle scan sees it: whether the bot may send there, the draw, the
      backend's outcome, and the clock before and after generation. */
  datatype Slot = Slot(channel: ChannelId, canSend: bool, draw: real, gen: GenOutcome, now: int, done: int)

  /** The body of the idle scan for one channel. */
  function ScanStep(p: Persona, s: State, slot: Slot): (r: Reaction)
    ensures !slot.canSend ==> r == Reaction(s, [])
    ensures Generate(p.strictGenerate, slot.gen).Err? ==> r.state == s
    ensures r.state != s ==>
              slot.canSend && slot.draw < p.idleProb && CanAutoreply(p, s, slot.channel, slot.now)
              && Generate(p.strictGenerate, slot.gen).Ok?
    ensures forall d :: d != slot.channel ==> Log(r.state, d) == Log(s, d)
    ensures r.state.lastAuto == s.lastAuto || r.state.lastAuto == s.lastAuto[slot.channel := slot.done]
    ensures r.state.autoCounts == s.autoCounts
            || r.state.autoCounts == s.autoCounts[slot.channel := Sends(s, slot.channel) + [slot.done]]
    ensures |r.effects| <= 2
    ensures r.effects != [] ==> r.effects[0] == Request(Prompt(p, Log(s, slot.channel), p.seed))
    ensures |r.effects| == 2 <==> r.state != s
    ensures |r.effects| == 2 ==>
              r.effects[1] == Send(slot.channel, Format(p, Generate(p.strictGenerate, slot.gen).value))
    ensures Bounded(p, s) ==> Bounded(p, r.state)
  {
    if slot.canSend && slot.draw < p.idleProb && CanAutoreply(p, s, slot.channel, slot.now) then
      Attempt(p, s, slot.channel, p.seed, Generate(p.strictGenerate, slot.gen), slot.done)
    else Reaction(s, [])
  }

  /** When the bot may send on the channel, the draw falls below the idle probability, the
      throttle is open and the reply was generated, the reply (never the seed) is logged
      at `done` and the send recorded at `done`. */
  lemma ScanStepFires(p: Persona, s: State, slot: Slot)
    requires slot.canSend && slot.draw < p.idleProb && CanAutoreply(p, s, slot.channel, slot.now)
    requires Generate(p.strictGenerate, slot.gen).Ok?
    ensures var r := ScanStep(p, s, slot);
            var c := slot.channel;
            && Log(r.state, c) == Appended(Log(s, c), Entry(p.name, Generate(p.strictGenerate, slot.gen).value, slot.done), p.cap)
            && LastSend(r.state, c) == slot.done
            && Sends(r.state, c) == Sends(s, c) + [slot.done]
  {
    var s1 := AddLog(p, s, slot.channel, p.name, Generate(p.strictGenerate, slot.gen).value, slot.done);
    assert ScanStep(p, s, slot).state == RecordAutoreply(p, s1, slot.channel, slot.done);
  }

  /** The idle scan changes a channel's state exactly when the bot may send there, the draw
      falls below the idle probability, the throttle is open and the reply was generated. */
  lemma ScanStepChanges(p: Persona, s: State, slot: Slot)
    ensures ScanStep(p, s, slot).state != s
            <==> slot.canSend && slot.draw < p.idleProb && CanAutoreply(p, s, slot.channel, slot.now)
                 && Generate(p.strictGenerate, slot.gen).Ok?
  {
    if slot.canSend && slot.draw < p.idleProb && CanAutoreply(p, s, slot.channel, slot.now)
       && Generate(p.strictGenerate, slot.gen).Ok? {
      ScanStepFires(p, s, slot);
      assert |Sends(ScanStep(p, s, slot).state, slot.channel)| == |Sends(s, slot.channel)| + 1;
    }
  }

  /** One pass of `periodic_initiator` over the channels, in order; every channel is
      visited whatever happened on the ones before it. */
  function Scan(p: Persona, s: State, slots: seq<Slot>): (r: Reaction)
    ensures Bounded(p, s) ==> Bounded(p, r.state)
    decreases |slots|
  {
    if slots == [] then Reaction(s, [])
    else
      var prev := Scan(p, s, slots[..|slots| - 1]);
      var step := ScanStep(p, prev.state, slots[|slots| - 1]);
      Reaction(step.state, prev.effects + step.effects)
  }

  /** Failure isolation: a channel whose generation fails leaves the scan's final state
      exactly as if the bot could not send there, so the channels after it are treated
      as if it had never been tried. */
  lemma {:induction false} ScanFailureIsSkip(p: Persona, s: State, slots: seq<Slot>, i: nat)
    requires i < |slots| && Generate(p.strictGenerate, slots[i].gen).Err?
    ensures Scan(p, s, slots).state == Scan(p, s, slots[i := slots[i].(canSend := false)]).state
    decreases |slots|
  {
    var skipped := slots[i := slots[i].(canSend := false)];
    var n := |slots|;
    if i == n - 1 {
      assert skipped[..n - 1] == slots[..n - 1];
      LastStepSkipped(p, s, slots, skipped);
    } else {
      assert skipped[..n - 1] == slots[..n - 1][i := slots[i].(canSend := false)];
      ScanFailureIsSkip(p, s, slots[..n - 1], i);
      SameLastStep(p, s, slots, skipped);
    }
  }

  /** Two runs whose last slots fail alike, over the same earlier slots, end in the same
      state: the state before that last step. */
  lemma LastStepSkipped(p: Persona, s: State, a: seq<Slot>, b: seq<Slot>)
    requires |a| == |b| > 0 && a[..|a| - 1] == b[..|b| - 1]
    requires Generate(p.strictGenerate, a[|a| - 1].gen).Err?
    requires b[|b| - 1] == a[|a| - 1].(canSend := false)
    ensures Scan(p, s, a).state == Scan(p, s, b).state
  {
    FailedStepIsSkip(p, Scan(p, s, a[..|a| - 1]).state, a[|a| - 1]);
  }

  /** Two runs with the same last slot over earlier slots ending in the same state end in
      the same state. */
  lemma SameLastStep(p: Persona, s: State, a: seq<Slot>, b: seq<Slot>)
    requires |a| == |b| > 0 && a[|a| - 1] == b[|b| - 1]
    requires Scan(p, s, a[..|a| - 1]).state == Scan(p, s, b[..|b| - 1]).state
    ensures Scan(p, s, a).state == Scan(p, s, b).state
  {
  }

  /** A scan step whose generation fails leaves the state as it was, like a skipped one. */
  lemma FailedStepIsSkip(p: Persona, s: State, slot: Slot)
    requires Generate(p.strictGenerate, slot.gen).Err?
    ensures ScanStep(p, s, slot).state == s
    ensures ScanStep(p, s, slot.(canSend := false)).state == s
  {
  }

  /** `record_autoreply` at each of the times `ts`, in order: the log is untouched, the last
      send is the last of the times and exactly those times are appended to the channel's
      list; no other channel changes. */
  function RecordAll(p: Persona, s: State, c: ChannelId, ts: seq<int>): (r: State)
    ensures r.log == s.log
    ensures ts != [] ==> r.lastAuto == s.lastAuto[c := ts[|ts| - 1]]
    ensures ts != [] ==> r.autoCounts == s.autoCounts[c := Sends(s, c) + ts]
    decreases |ts|
  {
    if ts == [] then s
    else
      var s1 := RecordAutoreply(p, s, c, ts[0]);
      assert s1 == s.(lastAuto := s.lastAuto[c := ts[0]], autoCounts := s.autoCounts[c := Sends(s, c) + [ts[0]]]);
      if |ts| == 1 then
        assert ts == [ts[0]];
        s1
      else
        assert Sends(s1, c) + ts[1..] == Sends(s, c) + ts;
        RecordAll(p, s1, c, ts[1..])
  }

  /** After a run of sends on a fresh channel the throttle sees exactly those send times,
      the last of them as the last send. */
  lemma GateAfterSends(p: Persona, c: ChannelId, ts: seq<int>, now: int)
    requires |ts| > 0
    ensures CanAutoreply(p, RecordAll(p, Initial, c, ts), c, now)
            <==> CanFire(ts[|ts| - 1], ts, now, p.cooldown, p.window, p.maxInWindow)
  {
    assert Sends(Initial, c) + ts == ts;
  }

  /** A channel that never had an autonomous send counts its last send as time 0, so it is
      closed until the clock reaches the cooldown, and open from then on. */
  lemma FreshChannelGate(p: Persona, c: ChannelId, now: int)
    requires p.maxInWindow > 0
    ensures CanAutoreply(p, Initial, c, now) <==> now >= p.cooldown
  {
  }

  /** After `maxInWindow` sends inside the window the channel is closed, however long ago
      the last one was. */
  lemma WindowFullBlocks(p: Persona, s: State, c: ChannelId, ts: seq<int>, now: int)
    requires |ts| >= p.maxInWindow
    requires forall i :: 0 <= i < |ts| ==> now - ts[i] <= p.window
    ensures !CanAutoreply(p, RecordAll(p, s, c, ts), c, now)
  {
    var r := RecordAll(p, s, c, ts);
    assert Sends(r, c) == Sends(s, c) + ts;
    RecentSendsBlock(LastSend(r, c), Sends(s, c), ts, now, p.cooldown, p.window, p.maxInWindow);
  }

  /** The prompt built for a human message already shows that message as the newest
      history line, before repeating it as the new utterance. */
  lemma NewMessageIsNewestLine(p: Persona, s: State, m: Message, env: Env)
    ensures var shown := Last(Log(Logged(p, s, m, env), m.channel), p.promptLookback);
            var line := Line(Entry(UserRole, m.content, env.now));
            |line| <= |Transcript(shown)| && Transcript(shown)[|Transcript(shown)| - |line|..] == line
  {
    var h := Log(Logged(p, s, m, env), m.channel);
    var shown := Last(h, p.promptLookback);
    assert shown[|shown| - 1] == h[|h| - 1];
  }
}

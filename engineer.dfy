/** engineer.py: the engineer persona. The only persona whose `generate` rejects a missing
    or empty response and sorts failures into categories, and the only one that apologises
    when a mention cannot be answered. */
module Engineer {
  import opened Common
  import opened History
  import opened RateLimit
  import opened Config
  import opened Generation
  import opened Engine

  const Name: string := "エンジニアさん"

  const Profile: Persona := Persona(
    name := Name,
    prompt := "あなたは「エンジニアさん」です。@EngineerBotというメンションは，あなた宛てのものです。若年層のCS専攻卒で、敬語で話します。\n常に冷静かつ論理的で、技術的な根拠に基づいて説明します。\nとにかく新しい技術が好きなアーリーアダプターであり、時々ブリティッシュジョークを軽く混ぜます。\n他メンバーを尊重しつつ、技術的に誤りがあれば訂正してください。",
    historyHeader := "\n\n会話履歴（古い順）:\n",
    utteranceLabel := "\n新しいユーザー発言: ",
    instruction := "として敬語で、論理的に返答してください。" + "\n※必要なら短く箇条書きで結論を示してください。ユーモアは本筋に関係ある範囲で軽く。",
    cap := 50,
    promptLookback := 12,
    decisionLookback := 6,
    cooldown := 20,
    window := 60,
    maxInWindow := 3,
    baseProb := 0.30,
    boostProb := 0.25,
    idleProb := 0.05,
    seed := "少し技術的な観点から議論を始めてよいですか？",
    strictGenerate := true)

  /** The autonomous decision: a draw below 0.30, or below 0.55 when one of the last six
      entries is not a user's, together with an open throttle. */
  lemma DecisionThresholds(s: State, c: ChannelId, draw: real, now: int)
    ensures AutonomousFires(Profile, s, c, draw, now)
            <==> CanAutoreply(Profile, s, c, now)
                 && (draw < 0.30 || (OtherSpoke(Last(Log(s, c), 6)) && draw < 0.55))
  {
  }

  /** The idle scan changes a channel's state exactly when the bot may send there, the
      draw falls below 0.05, the throttle is open and the reply was generated. */
  lemma IdleThreshold(s: State, slot: Slot)
    ensures ScanStep(Profile, s, slot).state != s
            <==> slot.canSend && slot.draw < 0.05 && CanAutoreply(Profile, s, slot.channel, slot.now)
                 && Generate(true, slot.gen).Ok?
  {
    ScanStepChanges(Profile, s, slot);
  }

  /** Sends at `t`, `t + 20` and `t + 40` are each allowed (the cooldown of 20 is met
      exactly), and then fill the window: at `t + 60` the first send is still inside it
      (the window test is inclusive), at `t + 61` it has left and the channel opens. */
  lemma ThreeSendsFillWindow(c: ChannelId, t: int)
    requires t >= 20
    ensures CanAutoreply(Profile, Initial, c, t)
    ensures CanAutoreply(Profile, RecordAll(Profile, Initial, c, [t]), c, t + 20)
    ensures CanAutoreply(Profile, RecordAll(Profile, Initial, c, [t, t + 20]), c, t + 40)
    ensures !CanAutoreply(Profile, RecordAll(Profile, Initial, c, [t, t + 20, t + 40]), c, t + 60)
    ensures CanAutoreply(Profile, RecordAll(Profile, Initial, c, [t, t + 20, t + 40]), c, t + 61)
  {
    ThreeSendsUnder(Profile, c, t);
  }

  /** The same run for any persona with this throttle. */
  lemma ThreeSendsUnder(p: Persona, c: ChannelId, t: int)
    requires p.cooldown == 20 && p.window == 60 && p.maxInWindow == 3 && t >= 20
    ensures CanAutoreply(p, Initial, c, t)
    ensures CanAutoreply(p, RecordAll(p, Initial, c, [t]), c, t + 20)
    ensures CanAutoreply(p, RecordAll(p, Initial, c, [t, t + 20]), c, t + 40)
    ensures !CanAutoreply(p, RecordAll(p, Initial, c, [t, t + 20, t + 40]), c, t + 60)
    ensures CanAutoreply(p, RecordAll(p, Initial, c, [t, t + 20, t + 40]), c, t + 61)
  {
    FreshChannelGate(p, c, t);
    GateAfterSends(p, c, [t], t + 20);
    assert CanFire(t, [t], t + 20, 20, 60, 3);
    GateAfterSends(p, c, [t, t + 20], t + 40);
    assert CanFire(t + 20, [t, t + 20], t + 40, 20, 60, 3);
    FullThenReleased(p, c, t);
  }

  /** Three sends 20 apart keep the window full 20 after the third and free it one later. */
  lemma FullThenReleased(p: Persona, c: ChannelId, t: int)
    requires p.cooldown == 20 && p.window == 60 && p.maxInWindow == 3
    ensures !CanAutoreply(p, RecordAll(p, Initial, c, [t, t + 20, t + 40]), c, t + 60)
    ensures CanAutoreply(p, RecordAll(p, Initial, c, [t, t + 20, t + 40]), c, t + 61)
  {
    var three := [t, t + 20, t + 40];
    GateAfterSends(p, c, three, t + 60);
    InWindowKeepsRecent(three, t + 60, 60);
    GateAfterSends(p, c, three, t + 61);
    assert three == [t] + three[1..];
    AgedOutDropped(t, three[1..], t + 61, 60);
  }

  /** A mention whose generation raises a quota error is answered with the quota apology,
      and the log keeps only the user's entry. */
  lemma QuotaFailureApologises(s: State, m: Message, env: Env)
    requires !m.authorIsBot && m.mentioned && env.gen.Raised?
    requires Classify(env.gen.message) == QuotaError
    ensures var r := OnMessage(Profile, s, m, env);
            && r.state == Logged(Profile, s, m, env)
            && |r.effects| == 2
            && r.effects[1] == Send(m.channel, "申し訳ありません。現在API使用量制限に達しています。しばらくお待ちください。")
  {
    ApologyFollowsCategory(env.gen.message);
  }
}

/** marketer.py: the marketer persona. Its `generate` only strips the reply, and a failed
    mention reply is dropped silently. */
module Marketer {
  import opened Common
  import opened History
  import opened Config
  import opened Generation
  import opened Engine

  const Name: string := "マーケッタさん"

  const Profile: Persona := Persona(
    name := Name,
    prompt := "あなたは「マーケッタさん」です。中年層の文系卒で、敬語で話します。\n市場調査・トレンド分析に長けており、現実的な施策提案を行います。社会情勢・媒体トレンドに敏感で、\nビジネス視点での優先順位を示してください。ユーモアは本筋に関係ある範囲で軽く。",
    historyHeader := "\n\n会話履歴:\n",
    utteranceLabel := "\nユーザー発言: ",
    instruction := "として、敬語で、現実的な市場視点から提案してください。",
    cap := 50,
    promptLookback := 12,
    decisionLookback := 6,
    cooldown := 20,
    window := 60,
    maxInWindow := 3,
    baseProb := 0.28,
    boostProb := 0.30,
    idleProb := 0.045,
    seed := "市場視点で短い提案をしてもよいですか？",
    strictGenerate := false)

  /** The autonomous decision: a draw below 0.28, or below 0.58 when one of the last
      six entries is not a user's, together with an open throttle. */
  lemma DecisionThresholds(s: State, c: ChannelId, draw: real, now: int)
    ensures AutonomousFires(Profile, s, c, draw, now)
            <==> CanAutoreply(Profile, s, c, now)
                 && (draw < 0.28 || (OtherSpoke(Last(Log(s, c), 6)) && draw < 0.58))
  {
  }

  /** The idle scan changes a channel's state exactly when the bot may send there, the
      draw falls below 0.045, the throttle is open and the reply was generated. */
  lemma IdleThreshold(s: State, slot: Slot)
    ensures ScanStep(Profile, s, slot).state != s
            <==> slot.canSend && slot.draw < 0.045 && CanAutoreply(Profile, s, slot.channel, slot.now)
                 && Generate(false, slot.gen).Ok?
  {
    ScanStepChanges(Profile, s, slot);
  }
}

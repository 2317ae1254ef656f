/** designer.py: the designer persona. Its `generate` only strips the reply, and a failed
    mention reply is dropped silently. */
module Designer {
  import opened Common
  import opened History
  import opened Config
  import opened Generation
  import opened Engine

  const Name: string := "デザイナーさん"

  const Profile: Persona := Persona(
    name := Name,
    prompt := "\nあなたは「デザイナーさん」です。@DesignerBotというメンションは，あなた宛てのものです。若年層の芸大卒で、敬語で話します。\nユーザー体験と見た目の印象を重視します。アートの最先端に詳しく、見た目・UIの観点で提案してください。\n他メンバーを尊重しつつ、実用性と美しさのバランスを意識して発言します。ユーモアは本筋に関係ある範囲で。\n",
    historyHeader := "\n\n会話履歴:\n",
    utteranceLabel := "\nユーザー発言: ",
    instruction := "として、敬語で、ユーザ目線・見た目重視で提案してください。",
    cap := 50,
    promptLookback := 12,
    decisionLookback := 6,
    cooldown := 20,
    window := 60,
    maxInWindow := 3,
    baseProb := 0.25,
    boostProb := 0.30,
    idleProb := 0.04,
    seed := "見た目の観点から少し提案してもよいですか？",
    strictGenerate := false)

  /** The autonomous decision: a draw below 0.25, or below 0.55 when one of the last
      six entries is not a user's, together with an open throttle. */
  lemma DecisionThresholds(s: State, c: ChannelId, draw: real, now: int)
    ensures AutonomousFires(Profile, s, c, draw, now)
            <==> CanAutoreply(Profile, s, c, now)
                 && (draw < 0.25 || (OtherSpoke(Last(Log(s, c), 6)) && draw < 0.55))
  {
  }

  /** The idle scan changes a channel's state exactly when the bot may send there, the
      draw falls below 0.04, the throttle is open and the reply was generated. */
  lemma IdleThreshold(s: State, slot: Slot)
    ensures ScanStep(Profile, s, slot).state != s
            <==> slot.canSend && slot.draw < 0.04 && CanAutoreply(Profile, s, slot.channel, slot.now)
                 && Generate(false, slot.gen).Ok?
  {
    ScanStepChanges(Profile, s, slot);
  }
}

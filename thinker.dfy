/** thinker.py: the thinker persona. Its `generate` only strips the reply, and a failed
    mention reply is dropped silently. */
module Thinker {
  import opened Common
  import opened History
  import opened RateLimit
  import opened Config
  import opened Generation
  import opened Engine

  const Name: string := "老人さん"

  const Profile: Persona := Persona(
    name := Name,
    prompt := "あなたは「老人さん」です。哲学と数学（論理学）を専門とする高齢者で、敬語で話します。\n抽象的かつ普遍的な観点から議論し、根本的な問いを投げかけてください。ユーモアは本筋に関係ある範囲で。",
    historyHeader := "\n\n会話履歴:\n",
    utteranceLabel := "\nユーザー発言: ",
    instruction := "として、敬語で抽象的・本質的な観点から問いや洞察を述べてください。",
    cap := 60,
    promptLookback := 20,
    decisionLookback := 8,
    cooldown := 30,
    window := 120,
    maxInWindow := 4,
    baseProb := 0.18,
    boostProb := 0.35,
    idleProb := 0.03,
    seed := "少し本質的な問いを投げかけてもよろしいでしょうか？",
    strictGenerate := false)

  /** The autonomous decision: a draw below 0.18, or below 0.53 when one of the last
      eight entries is not a user's, together with an open throttle. */
  lemma DecisionThresholds(s: State, c: ChannelId, draw: real, now: int)
    ensures AutonomousFires(Profile, s, c, draw, now)
            <==> CanAutoreply(Profile, s, c, now)
                 && (draw < 0.18 || (OtherSpoke(Last(Log(s, c), 8)) && draw < 0.53))
  {
  }

  /** The idle scan changes a channel's state exactly when the bot may send there, the
      draw falls below 0.03, the throttle is open and the reply was generated. */
  lemma IdleThreshold(s: State, slot: Slot)
    ensures ScanStep(Profile, s, slot).state != s
            <==> slot.canSend && slot.draw < 0.03 && CanAutoreply(Profile, s, slot.channel, slot.now)
                 && Generate(false, slot.gen).Ok?
  {
    ScanStepChanges(Profile, s, slot);
  }

  /** A full log of sixty entries loses its oldest entry and keeps the other fifty-nine in
      order when one more is added. */
  lemma SixtyFirstEntryEvictsOldest(s: State, c: ChannelId, role: string, content: string, now: int)
    requires |Log(s, c)| == 60
    ensures Log(AddLog(Profile, s, c, role, content, now), c) == Log(s, c)[1..] + [Entry(role, content, now)]
  {
  }

  /** With cooldown 30, window 120 and at most four sends, sends at 0, 30, 60 and 90 close
      the channel at 120, where all four still count, and it reopens at 121, once the send
      at 0 has left the window. */
  lemma FourSendsThenRelease(c: ChannelId)
    ensures !CanAutoreply(Profile, RecordAll(Profile, Initial, c, [0, 30, 60, 90]), c, 120)
    ensures CanAutoreply(Profile, RecordAll(Profile, Initial, c, [0, 30, 60, 90]), c, 121)
  {
    FourSendsUnder(Profile, c);
  }

  /** The same run for any persona with this throttle. */
  lemma FourSendsUnder(p: Persona, c: ChannelId)
    requires p.cooldown == 30 && p.window == 120 && p.maxInWindow == 4
    ensures !CanAutoreply(p, RecordAll(p, Initial, c, [0, 30, 60, 90]), c, 120)
    ensures CanAutoreply(p, RecordAll(p, Initial, c, [0, 30, 60, 90]), c, 121)
  {
    var sends := [0, 30, 60, 90];
    GateAfterSends(p, c, sends, 120);
    GateAfterSends(p, c, sends, 121);
    InWindowKeepsRecent(sends, 120, 120);
    assert sends == [0] + sends[1..];
    AgedOutDropped(0, sends[1..], 121, 120);
  }
}

/** `build_prompt`: persona text, the recent history oldest-first, the new utterance and a
    fixed instruction tail. */
module PromptBuilder {
  import opened Common
  import opened History
  import opened Config

  /** One history entry rendered as `role: content` and a newline. */
  function Line(e: Entry): (r: string)
    ensures |r| == |e.role| + |e.content| + 3
    ensures r[|r| - 1] == '\n'
  {
    e.role + ": " + e.content + "\n"
  }

  /** The lines of `h`, oldest first, concatenated: nothing for an empty history, and a
      text ending in a newline otherwise. */
  function Transcript(h: seq<Entry>): (r: string)
    ensures r == [] <==> h == []
    ensures h != [] ==> r[|r| - 1] == '\n'
    decreases |h|
  {
    if h == [] then "" else Transcript(h[..|h| - 1]) + Line(h[|h| - 1])
  }

  /** Where the parts of a four-part concatenation lie. */
  lemma Framed(a: string, b: string, c: string, d: string)
    ensures |a| + |b| + |d| <= |a + b + c + d|
    ensures (a + b + c + d)[..|a|] == a
    ensures (a + b + c + d)[|a|..|a| + |b|] == b
    ensures (a + b + c + d)[|a| + |b|..|a| + |b| + |c|] == c
    ensures (a + b + c + d)[|a + b + c + d| - |d|..] == d
  {
  }

  /** The prompt handed to the generation backend for `userText` given the channel log `h`:
      it opens with the persona text and the history header, follows them with the rendered
      newest `promptLookback` entries, and closes with the user's text, a blank line, the
      speaker's name and the persona's fixed instruction. */
  function Prompt(p: Persona, h: seq<Entry>, userText: string): (r: string)
    ensures var head := p.prompt + p.historyHeader;
            var block := Transcript(Last(h, p.promptLookback));
            |head| + |block| <= |r| && r[..|head|] == head && r[|head|..|head| + |block|] == block
    ensures var tail := userText + "\n\n" + p.name + p.instruction;
            |tail| <= |r| && r[|r| - |tail|..] == tail
    ensures var head := p.prompt + p.historyHeader;
            var block := Transcript(Last(h, p.promptLookback));
            var tail := userText + "\n\n" + p.name + p.instruction;
            && |r| == |head| + |block| + |p.utteranceLabel| + |tail|
            && r[|head| + |block|..|head| + |block| + |p.utteranceLabel|] == p.utteranceLabel
  {
    var head := p.prompt + p.historyHeader;
    var block := Transcript(Last(h, p.promptLookback));
    var tail := userText + "\n\n" + p.name + p.instruction;
    Framed(head, block, p.utteranceLabel, tail);
    head + block + p.utteranceLabel + tail
  }

  /** Rendering two runs of entries one after the other renders their concatenation. */
  lemma {:induction false} TranscriptConcat(a: seq<Entry>, b: seq<Entry>)
    ensures Transcript(a + b) == Transcript(a) + Transcript(b)
    decreases |b|
  {
    if b == [] {
      assert a + b == a;
    } else {
      var init := b[..|b| - 1];
      var last := Line(b[|b| - 1]);
      assert (a + b)[..|a + b| - 1] == a + init;
      TranscriptConcat(a, init);
      calc {
        Transcript(a + b);
        Transcript(a + init) + last;
        Transcript(a) + Transcript(init) + last;
        Transcript(a) + (Transcript(init) + last);
        Transcript(a) + Transcript(b);
      }
    }
  }

  /** The history block of a prompt is exactly the chronological tail of the channel's full
      transcript: at most `promptLookback` entries, none reordered, none skipped. */
  lemma RenderedIsNewestTail(p: Persona, h: seq<Entry>)
    ensures var shown := Last(h, p.promptLookback);
            |shown| <= p.promptLookback
            && Transcript(h) == Transcript(h[..|h| - |shown|]) + Transcript(shown)
  {
    var shown := Last(h, p.promptLookback);
    assert h == h[..|h| - |shown|] + shown;
    TranscriptConcat(h[..|h| - |shown|], shown);
  }
}

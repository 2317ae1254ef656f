/** The constants that distinguish one persona bot from another. */
module Config {
  import opened Common

  /** Everything a persona file fixes: its speaker name (also the role its replies are
      logged under), the persona prompt and the fixed pieces of its prompt, the history cap,
      the two lookbacks, the throttle constants, the reply probabilities, the idle seed,
      and whether its `generate` validates and classifies failures (only engineer.py does). */
  datatype Persona = Persona(
    name: string,
    prompt: string,
    historyHeader: string,
    utteranceLabel: string,
    instruction: string,
    cap: Pos,
    promptLookback: Pos,
    decisionLookback: Pos,
    cooldown: int,
    window: int,
    maxInWindow: int,
    baseProb: real,
    boostProb: real,
    idleProb: real,
    seed: string,
    strictGenerate: bool)
}

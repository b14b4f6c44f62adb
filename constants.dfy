/** The experiment's configuration: the canonical phase list and the values of its constants module. */
module Constants {

  /** The canonical list of phases, shuffled once per participant. */
  const PHASES: seq<int> := [1, 2, 3]

  /** The configured constants. Their values are not part of this model, only the relations below. */
  datatype Config = Config(
    roundsPerPhase: int,
    safeProbInit: real,
    uncertainProbMin: real,
    uncertainProbMax: real,
    probAdjust: real,
    probLimitMin: real,
    probLimitMax: real,
    rewardRed: real,
    rewardBlack: real,
    ambiguityReward: real,
    ambiguityLoss: real,
    rewardGold: real,
    rewardSilver: real,
    rumsfeldSpecialProb: real)
  {
    /** The clamp interval and the phase 1 interval are ordered, and the step is not negative. */
    predicate Valid()
    {
      && probLimitMin <= probLimitMax
      && probAdjust >= 0.0
      && uncertainProbMin <= uncertainProbMax
    }
  }
}

/**
 * The trial engine of experiment.py: phase ordering, phase initialisation,
 * clamped probability adjustment and round resolution, with the seed log
 * that makes every draw replayable.
 */
module Experiments {
  import opened Common
  import opened Constants
  import opened Generators

  /** Keys of the seed log: 'phase_order', 'phase_<p>' and 'phase_<p>_round_<r>'. */
  datatype SeedKey = PhaseOrderKey | PhaseKey(phase: int) | RoundKey(phase: int, round: int)

  /** Winning probabilities of Box A (`p_safe`) and Box B (`p_uncertain`). */
  datatype Probs = Probs(pSafe: real, pUncertain: real)

  datatype Ball = Red | Black | Gold | Silver

  /** What one round yields: the ball, its payout, and the ball again when it is a special one. */
  datatype Draw = Draw(result: Ball, reward: real, special: Option<Ball>)

  function BallName(b: Ball): string
  {
    match b
    case Red => "red"
    case Black => "black"
    case Gold => "gold"
    case Silver => "silver"
  }

  predicate IsSpecial(b: Ball)
  {
    b == Gold || b == Silver
  }

  function Max(a: real, b: real): real { if a >= b then a else b }
  function Min(a: real, b: real): real { if a <= b then a else b }

  // ---------------------------------------------------------------------
  // Seeds

  function PhaseSeed(participantId: int, phase: int): int
  {
    participantId + phase
  }

  function RoundSeed(participantId: int, phase: int, round: int): int
  {
    participantId + phase * 1000 + round
  }

  /** Within one participant, rounds 1..999 of all phases get pairwise distinct seeds. */
  lemma RoundSeedsDistinct(participantId: int, p1: int, r1: int, p2: int, r2: int)
    requires 1 <= r1 < 1000 && 1 <= r2 < 1000
    requires RoundSeed(participantId, p1, r1) == RoundSeed(participantId, p2, r2)
    ensures p1 == p2 && r1 == r2
  {
  }

  /** The additive seed formulas are not injective across participants. */
  lemma SeedsCollideAcrossParticipants(participantId: int, phase: int, round: int)
    ensures RoundSeed(participantId + 1000, phase, round) == RoundSeed(participantId, phase + 1, round)
    ensures PhaseSeed(participantId + 1, phase) == PhaseSeed(participantId, phase + 1)
  {
  }

  // ---------------------------------------------------------------------
  // Phase initialisation

  /**
   * The starting probabilities of `phase`, drawn from the numpy stream seeded
   * with `seed`; None for a phase outside 1..3, which sets neither of them.
   */
  function StartProbs(cfg: Config, gen: Generators, seed: int, phase: int): Option<Probs>
  {
    if phase == 1 then
      Some(Probs(cfg.safeProbInit, Uniform(gen, seed, 0, cfg.uncertainProbMin, cfg.uncertainProbMax)))
    else if phase == 2 then
      Some(Probs(cfg.safeProbInit, Uniform(gen, seed, 0, 0.3, 0.7)))
    else if phase == 3 then
      Some(Probs(Uniform(gen, seed, 0, 0.2, 0.8), Uniform(gen, seed, 1, 0.3, 0.7)))
    else
      None
  }

  lemma StartProbsInRange(cfg: Config, gen: Generators, seed: int, phase: int)
    requires cfg.Valid() && gen.Valid()
    ensures StartProbs(cfg, gen, seed, phase).Some? <==> phase in PHASES
    ensures phase == 1 ==>
      var p := StartProbs(cfg, gen, seed, phase).value;
      p.pSafe == cfg.safeProbInit && cfg.uncertainProbMin <= p.pUncertain <= cfg.uncertainProbMax
    ensures phase == 2 ==>
      var p := StartProbs(cfg, gen, seed, phase).value;
      p.pSafe == cfg.safeProbInit && 0.3 <= p.pUncertain <= 0.7
    ensures phase == 3 ==>
      var p := StartProbs(cfg, gen, seed, phase).value;
      0.2 <= p.pSafe <= 0.8 && 0.3 <= p.pUncertain <= 0.7
  {
    if phase == 1 {
      UniformInRange(gen, seed, 0, cfg.uncertainProbMin, cfg.uncertainProbMax);
    } else if phase == 2 {
      UniformInRange(gen, seed, 0, 0.3, 0.7);
    } else if phase == 3 {
      UniformInRange(gen, seed, 0, 0.2, 0.8);
      UniformInRange(gen, seed, 1, 0.3, 0.7);
    }
  }

  // ---------------------------------------------------------------------
  // Probability adjustment

  /** Choosing A moves probability from Box A to Box B; any other choice moves it back; both clamped. */
  function Adjusted(cfg: Config, box: string, p: Probs): Probs
  {
    if box == "A" then
      Probs(Max(cfg.probLimitMin, p.pSafe - cfg.probAdjust), Min(cfg.probLimitMax, p.pUncertain + cfg.probAdjust))
    else
      Probs(Min(cfg.probLimitMax, p.pSafe + cfg.probAdjust), Max(cfg.probLimitMin, p.pUncertain - cfg.probAdjust))
  }

  predicate InLimits(cfg: Config, p: Probs)
  {
    && cfg.probLimitMin <= p.pSafe <= cfg.probLimitMax
    && cfg.probLimitMin <= p.pUncertain <= cfg.probLimitMax
  }

  /** One adjustment keeps both probabilities in the clamp interval and moves each by at most one step, in the chosen direction. */
  lemma AdjustedStaysInLimits(cfg: Config, box: string, p: Probs)
    requires cfg.Valid() && InLimits(cfg, p)
    ensures InLimits(cfg, Adjusted(cfg, box, p))
    ensures box == "A" ==>
      && p.pSafe - cfg.probAdjust <= Adjusted(cfg, box, p).pSafe <= p.pSafe
      && p.pUncertain <= Adjusted(cfg, box, p).pUncertain <= p.pUncertain + cfg.probAdjust
    ensures box != "A" ==>
      && p.pSafe <= Adjusted(cfg, box, p).pSafe <= p.pSafe + cfg.probAdjust
      && p.pUncertain - cfg.probAdjust <= Adjusted(cfg, box, p).pUncertain <= p.pUncertain
  {
  }

  /** The probabilities after the same box has been chosen `n` rounds in a row. */
  function AdjustedTimes(cfg: Config, box: string, p: Probs, n: nat): Probs
  {
    if n == 0 then p else Adjusted(cfg, box, AdjustedTimes(cfg, box, p, n - 1))
  }

  /** `n` steps of size `step`, added up one round at a time. */
  function Drift(n: nat, step: real): real
  {
    if n == 0 then 0.0 else Drift(n - 1, step) + step
  }

  lemma {:induction false} DriftIsProduct(n: nat, step: real)
    ensures Drift(n, step) == n as real * step
  {
    if n > 0 {
      DriftIsProduct(n - 1, step);
    }
  }

  /**
   * Choosing A `n` times in a row takes Box A's probability to the closed form
   * max(MIN, p_safe - n * step) and Box B's to min(MAX, p_uncertain + n * step),
   * where the drift `Drift(n, step)` is `n * step`. After at least one choice
   * this holds from any start; with no choice it needs a start inside the clamp
   * interval, and from such a start both probabilities stay inside it throughout.
   */
  lemma {:induction false} RepeatedChoiceOfA(cfg: Config, p: Probs, n: nat)
    requires cfg.Valid() && (InLimits(cfg, p) || n >= 1)
    ensures Drift(n, cfg.probAdjust) == n as real * cfg.probAdjust
    ensures InLimits(cfg, p) ==> InLimits(cfg, AdjustedTimes(cfg, "A", p, n))
    ensures AdjustedTimes(cfg, "A", p, n).pSafe == Max(cfg.probLimitMin, p.pSafe - Drift(n, cfg.probAdjust))
    ensures AdjustedTimes(cfg, "A", p, n).pUncertain == Min(cfg.probLimitMax, p.pUncertain + Drift(n, cfg.probAdjust))
  {
    DriftIsProduct(n, cfg.probAdjust);
    if n == 1 {
      if InLimits(cfg, p) {
        AdjustedStaysInLimits(cfg, "A", p);
      }
    } else if n > 1 {
      RepeatedChoiceOfA(cfg, p, n - 1);
      if InLimits(cfg, p) {
        AdjustedStaysInLimits(cfg, "A", AdjustedTimes(cfg, "A", p, n - 1));
      }
    }
  }

  /**
   * The mirror image for any other box: min(MAX, p_safe + n * step) and
   * max(MIN, p_uncertain - n * step), under the same conditions.
   */
  lemma {:induction false} RepeatedChoiceOfB(cfg: Config, box: string, p: Probs, n: nat)
    requires box != "A"
    requires cfg.Valid() && (InLimits(cfg, p) || n >= 1)
    ensures Drift(n, cfg.probAdjust) == n as real * cfg.probAdjust
    ensures InLimits(cfg, p) ==> InLimits(cfg, AdjustedTimes(cfg, box, p, n))
    ensures AdjustedTimes(cfg, box, p, n).pSafe == Min(cfg.probLimitMax, p.pSafe + Drift(n, cfg.probAdjust))
    ensures AdjustedTimes(cfg, box, p, n).pUncertain == Max(cfg.probLimitMin, p.pUncertain - Drift(n, cfg.probAdjust))
  {
    DriftIsProduct(n, cfg.probAdjust);
    if n == 1 {
      if InLimits(cfg, p) {
        AdjustedStaysInLimits(cfg, box, p);
      }
    } else if n > 1 {
      RepeatedChoiceOfB(cfg, box, p, n - 1);
      if InLimits(cfg, p) {
        AdjustedStaysInLimits(cfg, box, AdjustedTimes(cfg, box, p, n - 1));
      }
    }
  }

  // ---------------------------------------------------------------------
  // Round resolution

  /** One red/black draw with probability `prob` for red, paying `win` on red and `loss` on black. */
  function RedOrBlack(gen: Generators, seed: int, prob: real, win: real, loss: real): Draw
  {
    if gen.npRedBlack(seed, prob) then Draw(Red, win, None) else Draw(Black, loss, None)
  }

  /**
   * Box B in phases 2 and 3: one Python draw decides whether the special
   * branch fires; then exactly one numpy draw, gold/silver or red/black.
   */
  function Rumsfeld(cfg: Config, gen: Generators, seed: int, prob: real): Draw
  {
    if gen.pyRandom(seed) < cfg.rumsfeldSpecialProb then
      var special := if gen.npGold(seed) then Gold else Silver;
      Draw(special, if special == Gold then cfg.rewardGold else cfg.rewardSilver, Some(special))
    else
      RedOrBlack(gen, seed, prob, cfg.rewardRed, cfg.rewardBlack)
  }

  /** The outcome of a round resolved with `seed`; None when `phase` is none of 1..3 and no result is ever bound. */
  function DrawOutcome(cfg: Config, gen: Generators, seed: int, phase: int, box: string, p: Probs): (r: Option<Draw>)
    ensures r.Some? <==> phase in PHASES
  {
    if phase == 1 then
      var prob := if box == "A" then p.pSafe else p.pUncertain;
      if box == "A" then Some(RedOrBlack(gen, seed, prob, cfg.rewardRed, cfg.rewardBlack))
      else Some(RedOrBlack(gen, seed, prob, cfg.ambiguityReward, cfg.ambiguityLoss))
    else if phase == 2 then
      if box == "A" then Some(RedOrBlack(gen, seed, p.pSafe, cfg.rewardRed, cfg.rewardBlack))
      else Some(Rumsfeld(cfg, gen, seed, p.pUncertain))
    else if phase == 3 then
      if box == "A" then Some(RedOrBlack(gen, seed, p.pSafe, cfg.ambiguityReward, cfg.ambiguityLoss))
      else Some(Rumsfeld(cfg, gen, seed, p.pUncertain))
    else
      None
  }

  /** The boxes whose red/black payouts are the ambiguity reward and loss: phase 1 Box B and phase 3 Box A. */
  predicate PaysAmbiguity(phase: int, box: string)
  {
    (phase == 1 && box != "A") || (phase == 3 && box == "A")
  }

  /** The boxes that can yield a gold or silver ball: Box B in phases 2 and 3. */
  predicate MayBeSpecial(phase: int, box: string)
  {
    (phase == 2 || phase == 3) && box != "A"
  }

  /** The payout table of the experiment, stated per (phase, box) instead of branch by branch. */
  lemma PayoutTable(cfg: Config, gen: Generators, seed: int, phase: int, box: string, p: Probs)
    requires phase in PHASES
    ensures var d := DrawOutcome(cfg, gen, seed, phase, box, p).value;
      && (IsSpecial(d.result) <==> MayBeSpecial(phase, box) && gen.pyRandom(seed) < cfg.rumsfeldSpecialProb)
      && d.special == (if IsSpecial(d.result) then Some(d.result) else None)
      && (IsSpecial(d.result) ==> (d.result == Gold <==> gen.npGold(seed)))
      && (d.result == Gold ==> d.reward == cfg.rewardGold)
      && (d.result == Silver ==> d.reward == cfg.rewardSilver)
      && (!IsSpecial(d.result) ==>
            (d.result == Red <==> gen.npRedBlack(seed, if box == "A" then p.pSafe else p.pUncertain)))
      && (d.result == Red ==> d.reward == if PaysAmbiguity(phase, box) then cfg.ambiguityReward else cfg.rewardRed)
      && (d.result == Black ==> d.reward == if PaysAmbiguity(phase, box) then cfg.ambiguityLoss else cfg.rewardBlack)
  {
  }

  // ---------------------------------------------------------------------
  // The engine

  class Experiment {
    const cfg: Config
    const gen: Generators
    const participantId: int
    var phaseOrder: seq<int>
    var seeds: map<SeedKey, int>
    var initialProbs: map<int, Probs>
    var phase: int
    var round: int
    var cumulativeEarnings: real
    var pSafe: real
    var pUncertain: real
    var data: seq<seq<Value>>

    function Probabilities(): Probs
      reads this`pSafe, this`pUncertain
    {
      Probs(pSafe, pUncertain)
    }

    /** An empty `phaseOrder` stands for both None and an empty list: either way the order is shuffled. */
    constructor (cfg: Config, gen: Generators, participantId: int, phaseOrder: seq<int>)
      requires gen.Valid()
      requires |phaseOrder| > 0 ==> phaseOrder[0] in PHASES
      ensures this.cfg == cfg && this.gen == gen && this.participantId == participantId
      ensures this.phaseOrder == if |phaseOrder| > 0 then phaseOrder else gen.shuffle(participantId)
      ensures phase == this.phaseOrder[0] && phase in PHASES
      ensures round == 1 && cumulativeEarnings == 0.0 && data == []
      ensures seeds == (if |phaseOrder| > 0 then map[] else map[PhaseOrderKey := participantId])
                         [PhaseKey(phase) := PhaseSeed(participantId, phase)]
      ensures StartProbs(cfg, gen, PhaseSeed(participantId, phase), phase) == Some(Probabilities())
      ensures initialProbs == map[phase := Probabilities()]
    {
      this.cfg := cfg;
      this.gen := gen;
      this.participantId := participantId;
      seeds := map[];
      initialProbs := map[];
      new;
      if |phaseOrder| > 0 {
        this.phaseOrder := phaseOrder;
      } else {
        var shuffled := RandomizePhases();
        ShuffleIsPermutation(gen, participantId);
        this.phaseOrder := shuffled;
      }
      ResetForPhase(this.phaseOrder[0]);
      cumulativeEarnings := 0.0;
      round := 1;
      data := [];
    }

    /** Shuffles the canonical phase list with the Python generator seeded by the participant id. */
    method RandomizePhases() returns (phases: seq<int>)
      requires gen.Valid()
      modifies this`seeds
      ensures phases == gen.shuffle(participantId)
      ensures multiset(phases) == multiset(PHASES)
      ensures seeds == old(seeds)[PhaseOrderKey := participantId]
    {
      phases := gen.shuffle(participantId);
      seeds := seeds[PhaseOrderKey := participantId];
    }

    /** Starts `p`: logs its seed, resets the counters, draws the starting probabilities and snapshots them. */
    method ResetForPhase(p: int)
      modifies this`seeds, this`phase, this`round, this`cumulativeEarnings, this`pSafe, this`pUncertain, this`initialProbs
      ensures seeds == old(seeds)[PhaseKey(p) := PhaseSeed(participantId, p)]
      ensures phase == p && round == 1 && cumulativeEarnings == 0.0
      ensures Probabilities() == match StartProbs(cfg, gen, PhaseSeed(participantId, p), p)
                                 case Some(start) => start
                                 case None => old(Probabilities())
      ensures initialProbs == old(initialProbs)[p := Probabilities()]
    {
      var phaseSeed := PhaseSeed(participantId, p);
      seeds := seeds[PhaseKey(p) := phaseSeed];
      phase := p;
      round := 1;
      cumulativeEarnings := 0.0;
      if p == 1 {
        pSafe := cfg.safeProbInit;
        pUncertain := Uniform(gen, phaseSeed, 0, cfg.uncertainProbMin, cfg.uncertainProbMax);
      } else if p == 2 {
        pSafe := cfg.safeProbInit;
        pUncertain := Uniform(gen, phaseSeed, 0, 0.3, 0.7);
      } else if p == 3 {
        pSafe := Uniform(gen, phaseSeed, 0, 0.2, 0.8);
        pUncertain := Uniform(gen, phaseSeed, 1, 0.3, 0.7);
      }
      initialProbs := initialProbs[p := Probs(pSafe, pUncertain)];
    }

    method AdjustProbabilities(box: string)
      modifies this`pSafe, this`pUncertain
      ensures Probabilities() == Adjusted(cfg, box, old(Probabilities()))
    {
      if box == "A" {
        pSafe := Max(cfg.probLimitMin, pSafe - cfg.probAdjust);
        pUncertain := Min(cfg.probLimitMax, pUncertain + cfg.probAdjust);
      } else {
        pSafe := Min(cfg.probLimitMax, pSafe + cfg.probAdjust);
        pUncertain := Max(cfg.probLimitMin, pUncertain - cfg.probAdjust);
      }
    }

    /**
     * Resolves the current round: logs the round seed, then draws the ball.
     * Nothing but the seed log changes; None models the error raised when the
     * phase is none of 1..3, after the seed has been logged.
     */
    method DrawBall(box: string) returns (d: Option<Draw>)
      modifies this`seeds
      ensures seeds == old(seeds)[RoundKey(phase, round) := RoundSeed(participantId, phase, round)]
      ensures d == DrawOutcome(cfg, gen, RoundSeed(participantId, phase, round), phase, box, Probabilities())
    {
      var roundSeed := RoundSeed(participantId, phase, round);
      seeds := seeds[RoundKey(phase, round) := roundSeed];
      if phase == 1 {
        var prob := if box == "A" then pSafe else pUncertain;
        if box == "A" {
          d := Some(RedOrBlack(gen, roundSeed, prob, cfg.rewardRed, cfg.rewardBlack));
        } else {
          d := Some(RedOrBlack(gen, roundSeed, prob, cfg.ambiguityReward, cfg.ambiguityLoss));
        }
      } else if phase == 2 {
        if box == "A" {
          d := Some(RedOrBlack(gen, roundSeed, pSafe, cfg.rewardRed, cfg.rewardBlack));
        } else {
          d := Some(Rumsfeld(cfg, gen, roundSeed, pUncertain));
        }
      } else if phase == 3 {
        if box == "A" {
          d := Some(RedOrBlack(gen, roundSeed, pSafe, cfg.ambiguityReward, cfg.ambiguityLoss));
        } else {
          d := Some(Rumsfeld(cfg, gen, roundSeed, pUncertain));
        }
      } else {
        d := None;
      }
    }

    method GetInitialProbs() returns (m: map<int, Probs>)
      ensures m == initialProbs
    {
      m := initialProbs;
    }

    method GetSeeds() returns (m: map<SeedKey, int>)
      ensures m == seeds
    {
      m := seeds;
    }
  }
}

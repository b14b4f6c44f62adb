/**
 * The session state of main.py and the callbacks that move it: participant
 * registration, the start of each phase, the handling of one box choice,
 * the post-phase questionnaire and the final debrief that hands every record
 * to persistence.
 */
module Session {
  import opened Common
  import opened Constants
  import opened Generators
  import opened Experiments
  import Data

  /** The screen the session is on. */
  datatype Step = Welcome | EnterId | Instructions | Rounds | Questionnaire | Debrief | ThankYou

  const AREA_PLACEHOLDER: string := "Select your professional area"

  /** `str.isdigit()` over ASCII: non-empty and only decimal digits. */
  predicate IsDigits(s: string)
  {
    |s| > 0 && forall i :: 0 <= i < |s| ==> '0' <= s[i] <= '9'
  }

  /** `int(s)` of a string of decimal digits. */
  function ParseDigits(s: string): nat
    requires forall i :: 0 <= i < |s| ==> '0' <= s[i] <= '9'
  {
    if |s| == 0 then 0 else ParseDigits(s[..|s| - 1]) * 10 + (s[|s| - 1] as int - '0' as int)
  }

  /** The twelve cells recorded for one resolved round. */
  function RoundRow(sessionId: string, participantId: Value, area: string, phase: int, round: int, box: string,
                    decisionTime: real, d: Draw, earnings: real, pSafe: real, pUncertain: real): seq<Value>
  {
    [Text(sessionId), participantId, Text(area), Int(phase), Int(round), Text(box), Num(decisionTime),
     Text(BallName(d.result)), Num(d.reward), Num(earnings), Num(pSafe), Num(pUncertain)]
  }

  /**
   * The shape of every row the rounds record: twelve cells, the professional
   * area as text in column 2 and the phase as an integer in column 3.
   */
  predicate RecordedRow(row: seq<Value>)
  {
    |row| == 12 && row[2].Text? && row[3].Int?
  }

  /** The fields every questionnaire entry starts with, before the responses are merged over them. */
  function EntryHeader(sessionId: string, participantId: Value, area: string, phase: Value): map<string, Value>
  {
    map["session_id" := Text(sessionId), "participant_id" := participantId,
        "professional_area" := Text(area), "phase" := phase]
  }

  /** What the final submission hands to persistence: the questionnaire frame, and the round frame when there are rounds. */
  datatype Submission = Submission(questionnaire: Data.Frame, results: Option<Data.Frame>)

  /**
   * As written, merging the initial probabilities into a round row looks up the
   * professional area, never a phase, so both appended cells are None.
   */
  lemma AsWrittenMergeLosesInitProbs(initMap: map<int, Probs>, sessionId: string, participantId: Value, area: string,
                                     phase: int, round: int, box: string, decisionTime: real, d: Draw,
                                     earnings: real, pSafe: real, pUncertain: real)
    ensures var row := RoundRow(sessionId, participantId, area, phase, round, box, decisionTime, d, earnings, pSafe, pUncertain);
      |row| == 12 && Data.InitCells(initMap, row, Data.AS_WRITTEN_PHASE_COLUMN) == [Missing, Missing]
  {
  }

  /** Looked up in the phase column, a round row receives the initial probabilities of its own phase. */
  lemma ByPhaseMergeFindsInitProbs(initMap: map<int, Probs>, sessionId: string, participantId: Value, area: string,
                                   phase: int, round: int, box: string, decisionTime: real, d: Draw,
                                   earnings: real, pSafe: real, pUncertain: real)
    requires phase in initMap
    ensures var row := RoundRow(sessionId, participantId, area, phase, round, box, decisionTime, d, earnings, pSafe, pUncertain);
      Data.InitCells(initMap, row, Data.PHASE_COLUMN) == [Num(initMap[phase].pSafe), Num(initMap[phase].pUncertain)]
  {
  }

  class Session {
    const cfg: Config
    const gen: Generators
    var sessionId: string
    var step: Step
    var participantId: Value
    var professionalArea: string
    var phaseIdx: int
    var experiment: Experiment?
    var phaseOrder: seq<int>
    var phaseComplete: bool
    var allDone: bool
    var boxChosen: Option<string>
    var earningsHistory: seq<real>
    var roundHistory: seq<int>
    var allQuestionnaireData: seq<map<string, Value>>
    var finalSubmissionComplete: bool

    /**
     * At most three phases are started; a registered session's engine uses a
     * permutation of the phases, its current phase has a snapshot, and every
     * recorded row has the round-row shape with a snapshotted phase.
     */
    ghost predicate Valid()
      reads this, experiment
    {
      && gen.Valid()
      && 0 <= phaseIdx <= 2
      && (experiment != null ==>
            && experiment.cfg == cfg
            && experiment.gen == gen
            && experiment.phaseOrder == phaseOrder
            && multiset(phaseOrder) == multiset(PHASES)
            && experiment.phase in PHASES
            && experiment.phase in experiment.initialProbs
            && forall i :: 0 <= i < |experiment.data| ==>
                 RecordedRow(experiment.data[i]) && experiment.data[i][3].i in experiment.initialProbs)
    }

    /** `init_session`; the session id, a wall-clock reading in the program, is a parameter. */
    constructor (cfg: Config, gen: Generators, sessionId: string)
      requires gen.Valid()
      ensures Valid()
      ensures this.cfg == cfg && this.gen == gen && this.sessionId == sessionId
      ensures step == Welcome && participantId == Text("") && professionalArea == ""
      ensures phaseIdx == 0 && experiment == null && phaseOrder == []
      ensures !phaseComplete && !allDone && !finalSubmissionComplete && boxChosen == None
      ensures earningsHistory == [] && roundHistory == [] && allQuestionnaireData == []
    {
      this.cfg := cfg;
      this.gen := gen;
      this.sessionId := sessionId;
      step := Welcome;
      participantId := Text("");
      professionalArea := "";
      phaseIdx := 0;
      experiment := null;
      phaseOrder := [];
      phaseComplete := false;
      allDone := false;
      boxChosen := None;
      earningsHistory := [];
      roundHistory := [];
      allQuestionnaireData := [];
      finalSubmissionComplete := false;
    }

    method StartExperiment()
      modifies this`step
      ensures step == EnterId
    {
      step := EnterId;
    }

    /**
     * Registers the participant: an id that is not all digits, or an area that
     * is empty or the placeholder, changes nothing; otherwise the id is parsed,
     * an engine is created with a shuffled phase order and the instructions follow.
     */
    method SetParticipantId(idInput: string, areaInput: string) returns (accepted: bool)
      requires Valid()
      modifies this`participantId, this`professionalArea, this`experiment, this`phaseOrder, this`step
      ensures Valid()
      ensures accepted <==> IsDigits(idInput) && areaInput != "" && areaInput != AREA_PLACEHOLDER
      ensures !accepted ==> unchanged(this)
      ensures accepted ==>
        && participantId == Int(ParseDigits(idInput))
        && professionalArea == areaInput
        && experiment != null && fresh(experiment)
        && experiment.participantId == ParseDigits(idInput)
        && phaseOrder == experiment.phaseOrder == gen.shuffle(ParseDigits(idInput))
        && experiment.phase == phaseOrder[0]
        && experiment.round == 1 && experiment.cumulativeEarnings == 0.0 && experiment.data == []
        && experiment.seeds == map[PhaseOrderKey := ParseDigits(idInput),
                                   PhaseKey(experiment.phase) := PhaseSeed(ParseDigits(idInput), experiment.phase)]
        && StartProbs(cfg, gen, PhaseSeed(ParseDigits(idInput), experiment.phase), experiment.phase)
             == Some(experiment.Probabilities())
        && experiment.initialProbs == map[experiment.phase := experiment.Probabilities()]
        && step == Instructions
        && phaseIdx == old(phaseIdx) && allQuestionnaireData == old(allQuestionnaireData)
    {
      if !IsDigits(idInput) {
        return false;
      }
      if areaInput == AREA_PLACEHOLDER || areaInput == "" {
        return false;
      }
      var id := ParseDigits(idInput);
      participantId := Int(id);
      professionalArea := areaInput;
      var exp := new Experiment(cfg, gen, id, []);
      phaseOrder := exp.phaseOrder;
      experiment := exp;
      step := Instructions;
      accepted := true;
    }

    /** The Box A and Box B buttons. */
    method ChooseBox(box: string)
      modifies this`boxChosen
      ensures boxChosen == Some(box)
    {
      boxChosen := Some(box);
    }

    /** Starts the phase at `phaseIdx` of the order and clears the per-phase earnings timeline. */
    method BeginRounds()
      requires Valid() && experiment != null
      modifies this`step, this`phaseComplete, this`earningsHistory, this`roundHistory
      modifies experiment`seeds, experiment`phase, experiment`round, experiment`cumulativeEarnings,
               experiment`pSafe, experiment`pUncertain, experiment`initialProbs
      ensures Valid() && experiment == old(experiment)
      ensures step == Rounds && !phaseComplete
      ensures earningsHistory == [] && roundHistory == []
      ensures phaseIdx == old(phaseIdx) && phaseOrder == old(phaseOrder)
      ensures allQuestionnaireData == old(allQuestionnaireData)
      ensures var e := experiment;
        && e.phase == phaseOrder[phaseIdx]
        && e.round == 1 && e.cumulativeEarnings == 0.0
        && e.seeds == old(e.seeds)[PhaseKey(e.phase) := PhaseSeed(e.participantId, e.phase)]
        && StartProbs(cfg, gen, PhaseSeed(e.participantId, e.phase), e.phase) == Some(e.Probabilities())
        && e.initialProbs == old(e.initialProbs)[e.phase := e.Probabilities()]
        && e.data == old(e.data)
    {
      step := Rounds;
      phaseComplete := false;
      PhasePermutation(phaseOrder);
      var actualPhase := phaseOrder[phaseIdx];
      experiment.ResetForPhase(actualPhase);
      earningsHistory := [];
      roundHistory := [];
    }

    /**
     * What resolving one round does to the engine: the round is drawn with its
     * own seed, its payout is added, a row is recorded with the probabilities
     * the ball was drawn under, and the probabilities are adjusted. The round
     * counter is left to the session.
     */
    twostate predicate RoundPlayed(e: Experiment, box: string, decisionTime: real, roundTo3: real -> real)
      reads this, e`seeds, e`cumulativeEarnings, e`data, e`pSafe, e`pUncertain, e`phase, e`initialProbs
    {
      var seed := RoundSeed(e.participantId, old(e.phase), old(e.round));
      var d := DrawOutcome(cfg, gen, seed, old(e.phase), box, old(e.Probabilities()));
      && d.Some?
      && e.seeds == old(e.seeds)[RoundKey(old(e.phase), old(e.round)) := seed]
      && e.cumulativeEarnings == old(e.cumulativeEarnings) + d.value.reward
      && e.data == old(e.data) + [RoundRow(sessionId, participantId, professionalArea, old(e.phase), old(e.round), box,
                                           roundTo3(decisionTime), d.value, e.cumulativeEarnings,
                                           roundTo3(old(e.pSafe)), roundTo3(old(e.pUncertain)))]
      && e.Probabilities() == Adjusted(cfg, box, old(e.Probabilities()))
      && e.phase == old(e.phase) && e.initialProbs == old(e.initialProbs)
    }

    /**
     * What resolving one round does to the session: the running earnings and
     * the round number are appended to the histories, the choice is cleared,
     * and the session moves to the next round or, after the last, to the
     * questionnaire.
     */
    twostate predicate RoundAdvanced(e: Experiment)
      reads this, e
    {
      && earningsHistory == old(earningsHistory) + [e.cumulativeEarnings]
      && roundHistory == old(roundHistory) + [old(e.round)]
      && boxChosen == None
      && sessionId == old(sessionId) && participantId == old(participantId) && professionalArea == old(professionalArea)
      && phaseIdx == old(phaseIdx) && allQuestionnaireData == old(allQuestionnaireData)
      && (old(e.round) < cfg.roundsPerPhase ==>
            e.round == old(e.round) + 1 && step == old(step) && phaseComplete == old(phaseComplete))
      && (old(e.round) >= cfg.roundsPerPhase ==>
            e.round == old(e.round) && phaseComplete && step == Questionnaire)
    }

    /** The handling of a chosen box; without one (None or an empty string) nothing happens. */
    method HandleChoice(decisionTime: real, roundTo3: real -> real)
      requires Valid() && experiment != null
      modifies this`earningsHistory, this`roundHistory, this`boxChosen, this`phaseComplete, this`step
      modifies experiment`seeds, experiment`cumulativeEarnings, experiment`data,
               experiment`pSafe, experiment`pUncertain, experiment`round
      ensures Valid() && experiment == old(experiment)
      ensures old(boxChosen) == None || old(boxChosen) == Some("") ==> unchanged(this) && unchanged(experiment)
      ensures old(boxChosen) != None && old(boxChosen) != Some("") ==>
        RoundPlayed(experiment, old(boxChosen).value, decisionTime, roundTo3) && RoundAdvanced(experiment)
    {
      if boxChosen == None || boxChosen == Some("") {
        return;
      }
      ResolveRound(boxChosen.value, decisionTime, roundTo3);
    }

    /** A round with a chosen box: the engine plays it, then the session advances. */
    method ResolveRound(box: string, decisionTime: real, roundTo3: real -> real)
      requires Valid() && experiment != null
      modifies this`earningsHistory, this`roundHistory, this`boxChosen, this`phaseComplete, this`step
      modifies experiment`seeds, experiment`cumulativeEarnings, experiment`data,
               experiment`pSafe, experiment`pUncertain, experiment`round
      ensures Valid() && experiment == old(experiment)
      ensures RoundPlayed(experiment, box, decisionTime, roundTo3) && RoundAdvanced(experiment)
    {
      var e := experiment;
      label before:
      PlayRound(box, decisionTime, roundTo3);
      earningsHistory := earningsHistory + [e.cumulativeEarnings];
      roundHistory := roundHistory + [e.round];
      boxChosen := None;
      if e.round < cfg.roundsPerPhase {
        e.round := e.round + 1;
      } else {
        phaseComplete := true;
        step := Questionnaire;
      }
      assert RoundPlayed@before(e, box, decisionTime, roundTo3);
    }

    /** The engine's part of a resolved round. */
    method PlayRound(box: string, decisionTime: real, roundTo3: real -> real)
      requires Valid() && experiment != null
      modifies experiment`seeds, experiment`cumulativeEarnings, experiment`data, experiment`pSafe, experiment`pUncertain
      ensures Valid()
      ensures experiment.round == old(experiment.round)
      ensures RoundPlayed(experiment, box, decisionTime, roundTo3)
    {
      var e := experiment;
      ghost var phase0, round0, probs0 := e.phase, e.round, e.Probabilities();
      var d := e.DrawBall(box);
      assert d.Some? by { assert phase0 in PHASES; }
      var draw := d.value;
      e.cumulativeEarnings := e.cumulativeEarnings + draw.reward;
      e.data := e.data + [RoundRow(sessionId, participantId, professionalArea, e.phase, e.round, box,
                                   roundTo3(decisionTime), draw, e.cumulativeEarnings,
                                   roundTo3(e.pSafe), roundTo3(e.pUncertain))];
      e.AdjustProbabilities(box);
    }

    /**
     * Stores the post-phase answers tagged with the engine's phase, then moves
     * to the next phase's instructions, or after the third phase to the debrief.
     */
    method SubmitQuestionnaire(responses: map<string, Value>)
      requires Valid() && experiment != null
      modifies this`allQuestionnaireData, this`phaseComplete, this`phaseIdx, this`step, this`allDone
      ensures experiment == old(experiment) && participantId == old(participantId)
      ensures Valid()
      ensures allQuestionnaireData == old(allQuestionnaireData)
        + [EntryHeader(sessionId, participantId, professionalArea, Int(experiment.phase)) + responses]
      ensures !phaseComplete
      ensures old(phaseIdx) < 2 ==> phaseIdx == old(phaseIdx) + 1 && step == Instructions && allDone == old(allDone)
      ensures old(phaseIdx) >= 2 ==> phaseIdx == old(phaseIdx) && allDone && step == Debrief
      ensures earningsHistory == old(earningsHistory) && roundHistory == old(roundHistory)
    {
      var entry := EntryHeader(sessionId, participantId, professionalArea, Int(experiment.phase)) + responses;
      allQuestionnaireData := allQuestionnaireData + [entry];
      phaseComplete := false;
      if phaseIdx < 2 {
        phaseIdx := phaseIdx + 1;
        step := Instructions;
      } else {
        allDone := true;
        step := Debrief;
      }
    }

    /** The questionnaire frame holds one batch row per stored entry, under the questionnaire header. */
    predicate QuestionnaireSaved(q: Data.Frame)
      reads this
    {
      && q.columns == Data.QUESTIONNAIRE_HEADER
      && q.Rectangular()
      && |q.rows| == |allQuestionnaireData|
      && forall i, j :: 0 <= i < |allQuestionnaireData| && 0 <= j < |Data.QUESTIONNAIRE_HEADER| ==>
           q.rows[i][j] == Data.BatchCell(allQuestionnaireData[i], participantId, Data.QUESTIONNAIRE_HEADER[j])
    }

    /**
     * The first half of the debrief: marks the submission complete, stores the
     * debrief answers and saves every entry in batch mode. A falsy participant
     * id makes the save raise.
     */
    method SaveAnswers(feedback: map<string, Value>) returns (saved: Result<Data.Frame>)
      requires Valid()
      modifies this`finalSubmissionComplete, this`allQuestionnaireData
      ensures Valid()
      ensures finalSubmissionComplete
      ensures allQuestionnaireData == old(allQuestionnaireData)
        + [EntryHeader(sessionId, participantId, professionalArea, Text("debrief")) + feedback]
      ensures saved.Err? <==> Falsy(participantId)
      ensures saved.Err? ==> saved.error == ValueError
      ensures saved.Ok? ==> QuestionnaireSaved(saved.value)
    {
      finalSubmissionComplete := true;
      var entry := EntryHeader(sessionId, participantId, professionalArea, Text("debrief")) + feedback;
      allQuestionnaireData := allQuestionnaireData + [entry];
      saved := Data.SaveQuestionnaire(participantId, Text("batch"), Data.Entries(allQuestionnaireData));
    }

    /**
     * `submit_debrief_callback` as written: after the questionnaire save, the
     * rounds, if any, are saved with the lookup through column 2, so every
     * round row ends in two None cells. A falsy participant id makes the
     * questionnaire save raise, which leaves the session on the debrief screen.
     */
    method SubmitDebrief(feedback: map<string, Value>) returns (r: Result<Submission>)
      requires Valid()
      modifies this`finalSubmissionComplete, this`allQuestionnaireData, this`step
      ensures Valid()
      ensures finalSubmissionComplete
      ensures allQuestionnaireData == old(allQuestionnaireData)
        + [EntryHeader(sessionId, participantId, professionalArea, Text("debrief")) + feedback]
      ensures r.Err? <==> Falsy(participantId)
      ensures r.Err? ==> r.error == ValueError && step == old(step)
      ensures r.Ok? ==>
        && step == ThankYou
        && QuestionnaireSaved(r.value.questionnaire)
        && (r.value.results.Some? <==> experiment != null && |experiment.data| > 0)
      ensures r.Ok? && r.value.results.Some? ==>
        var data := experiment.data;
        && r.value.results.value.columns == Data.RESULTS_COLUMNS
        && |r.value.results.value.rows| == |data|
        && forall i :: 0 <= i < |data| ==> r.value.results.value.rows[i] == data[i] + [Missing, Missing]
    {
      var saved := SaveAnswers(feedback);
      if saved.Err? {
        return Err(saved.error);
      }
      var results: Option<Data.Frame> := None;
      if experiment != null && |experiment.data| > 0 {
        var initial := experiment.GetInitialProbs();
        var rounds := Data.SaveRoundData(experiment.data, participantId, Some(initial));
        forall i | 0 <= i < |experiment.data|
          ensures Data.InitCells(initial, experiment.data[i], Data.AS_WRITTEN_PHASE_COLUMN) == [Missing, Missing]
        {
          assert RecordedRow(experiment.data[i]);
        }
        results := Some(rounds.value);
      }
      step := ThankYou;
      r := Ok(Submission(saved.value, results));
    }

    /**
     * The debrief with the round rows merged by their own phase: every round
     * row ends in the starting probabilities of the phase it was played in.
     */
    method SubmitDebriefByPhase(feedback: map<string, Value>) returns (r: Result<Submission>)
      requires Valid()
      modifies this`finalSubmissionComplete, this`allQuestionnaireData, this`step
      ensures Valid()
      ensures finalSubmissionComplete
      ensures allQuestionnaireData == old(allQuestionnaireData)
        + [EntryHeader(sessionId, participantId, professionalArea, Text("debrief")) + feedback]
      ensures r.Err? <==> Falsy(participantId)
      ensures r.Err? ==> r.error == ValueError && step == old(step)
      ensures r.Ok? ==>
        && step == ThankYou
        && QuestionnaireSaved(r.value.questionnaire)
        && (r.value.results.Some? <==> experiment != null && |experiment.data| > 0)
      ensures r.Ok? && r.value.results.Some? ==>
        var data := experiment.data;
        var snapshot := experiment.initialProbs;
        && r.value.results.value.columns == Data.RESULTS_COLUMNS
        && |r.value.results.value.rows| == |data|
        && forall i :: 0 <= i < |data| ==>
             && data[i][3].i in snapshot
             && r.value.results.value.rows[i]
                  == data[i] + [Num(snapshot[data[i][3].i].pSafe), Num(snapshot[data[i][3].i].pUncertain)]
    {
      var saved := SaveAnswers(feedback);
      if saved.Err? {
        return Err(saved.error);
      }
      var results: Option<Data.Frame> := None;
      if experiment != null && |experiment.data| > 0 {
        var initial := experiment.GetInitialProbs();
        var rounds := Data.SaveRoundDataByPhase(experiment.data, participantId, Some(initial));
        forall i | 0 <= i < |experiment.data|
          ensures Data.InitCells(initial, experiment.data[i], Data.PHASE_COLUMN)
                    == [Num(initial[experiment.data[i][3].i].pSafe), Num(initial[experiment.data[i][3].i].pUncertain)]
        {
          assert RecordedRow(experiment.data[i]);
        }
        results := Some(rounds.value);
      }
      step := ThankYou;
      r := Ok(Submission(saved.value, results));
    }
  }
}

# Ambiguity-and-risk box experiment, modelled in Dafny

The modelled program runs a decision experiment in the browser. A participant
enters a numeric id and a professional area. The program builds an
experiment engine. The engine shuffles the three phases with a seed derived
from the id. In each phase the participant chooses, round after round,
between Box A (the "safe" box) and Box B (the "uncertain" box). A ball is
drawn from the chosen box: red or black, or in phases 2 and 3 a rare gold or
silver "Rumsfeld" ball from Box B. The ball pays a reward. Each choice then
moves both box probabilities by a fixed step, inside fixed limits. After each
phase the participant answers a questionnaire, and after the last phase a
debrief. The debrief callback hands every questionnaire entry and every round
row to persistence. Persistence appends two starting-probability cells to each
round row, and appends to a sheet whose columns are the union of the old and
the new ones. As written, those two cells are always None (see Findings).

The Dafny project has six modules:

- `Common` (`common.dfy`) holds `Option`, `Result`, the exceptions the code
  raises, the cell values stored in rows (`Value`), and Python truthiness of
  a cell (`Falsy`).
- `Constants` (`constants.dfy`) holds `PHASES = [1, 2, 3]` and a `Config`
  record. `constants.py` is not part of this model, so the rewards, limits
  and step sizes are fields of that record. `Config.Valid()` asks only for
  ordered probability limits, an ordered range for the first uncertain
  probability, and a non-negative step. `PHASES = [1, 2, 3]` is likewise an
  assumption about `constants.py`. It matches the three phase branches of
  the engine and the three phase indices of the session.
- `Generators` (`generators.dfy`) models Python's `random` and numpy's
  generator as functions of the seed in force. Each generator call reads a
  fixed oracle at that seed: `shuffle`, `random()`, the k-th uniform sample,
  the red/black choice and the gold/silver choice. `Valid()` says that a
  shuffle is a permutation of `PHASES` and that samples lie in [0, 1).
- `Experiments` (`experiment.dfy`) is the `Experiment` class, with one
  method per method of the engine. The pure functions it is specified by
  are `StartProbs`, `Adjusted` and `DrawOutcome`, and lemmas about them
  cover the probability limits, repeated choices and the payout table.
- `Data` (`data.dfy`) models `save_round_data`, `save_questionnaire` and
  the column union of `append_dataframe_to_sheet`. Each returns the frame
  it would write, or the error it raises.
- `Session` (`session.dfy`) is the `Session` class. It holds the session
  state of `main.py` and its callbacks: registration, the start of a phase,
  the handling of one box choice, the questionnaire and the debrief.

Three behaviours of the code are worth knowing:

- After the last round of a phase, the code moves to the questionnaire and
  stops offering boxes. Nothing in the engine rejects a further round, so
  `HandleChoice` has no error for it.
- `reset_for_phase` leaves the probabilities unchanged for a phase outside
  1..3. It does not fail.
- The comment at data.py:82 says the starting probabilities are matched to
  each round row "based on the row's phase", but the lookup reads the wrong
  column (see Findings). `SubmitDebrief` keeps the behaviour as written.
  `SubmitDebriefByPhase` is the same callback with the intended lookup.

## Model

| member | source | states |
|---|---|---|
| Generators.UniformInRange | experiment.py:33-39 | a `uniform(lo, hi)` draw lies in `[lo, hi]` whenever `lo <= hi` |
| Generators.PhasePermutation | experiment.py:17-19 | a permutation of the phase list has three elements, each of them a phase |
| Generators.ShuffleIsPermutation | experiment.py:16-21 | the seeded shuffle yields three phases, each one of 1, 2, 3 |
| Experiments.RoundSeedsDistinct | experiment.py:56 | for one participant, with rounds below 1000, distinct (phase, round) pairs get distinct round seeds |
| Experiments.SeedsCollideAcrossParticipants | experiment.py:56 | the additive seeds collide across participants: id+1000 in phase p reuses the round seeds of id in phase p+1, and id+1 reuses the phase seed of the next phase |
| Experiments.StartProbsInRange | experiment.py:31-39 | phases 1, 2, 3 and no other get starting probabilities; phase 1 keeps the safe constant and draws the uncertain one in its configured range; phase 2 draws it in [0.3, 0.7]; phase 3 draws the safe one in [0.2, 0.8] and the uncertain one in [0.3, 0.7] |
| Experiments.AdjustedStaysInLimits | experiment.py:45-51 | one adjustment keeps both probabilities inside the limits; choosing A moves the safe one down and the uncertain one up by at most one step, choosing B the reverse |
| Experiments.RepeatedChoiceOfA | experiment.py:46-48 | after n >= 1 choices of A, from any start, the safe probability is `max(MIN, p - n*step)` and the uncertain one `min(MAX, q + n*step)`; with no choice this needs a start inside the limits; from a start inside the limits both stay inside |
| Experiments.RepeatedChoiceOfB | experiment.py:49-51 | after n >= 1 choices of any other box, from any start, the safe probability is `min(MAX, p + n*step)` and the uncertain one `max(MIN, q - n*step)`; with no choice this needs a start inside the limits; from a start inside the limits both stay inside |
| Experiments.DrawOutcome | experiment.py:60-95 | a round has an outcome exactly when its phase is 1, 2 or 3 |
| Experiments.PayoutTable | experiment.py:60-95 | a gold or silver ball comes only from Box B in phases 2 and 3, when `random()` falls below the special probability; specials are reported as `special` and pay the gold/silver rewards; red or black follows the chosen box's probability; red/black pay the ambiguity reward/loss for B in phase 1 and A in phase 3, otherwise the plain red/black rewards |
| Experiments.Experiment.constructor | experiment.py:6-14 | an empty order is replaced by the seeded shuffle, with the order seed logged; the engine starts the first phase of the order at round 1 with zero earnings, no rows, its phase seed logged and that phase's starting probabilities drawn and snapshotted |
| Experiments.Experiment.RandomizePhases | experiment.py:16-21 | returns the shuffle seeded by the participant id, a permutation of the phases, and logs that seed under the phase-order key |
| Experiments.Experiment.ResetForPhase | experiment.py:23-43 | logs the phase seed `id + phase`, sets the phase, round 1 and zero earnings, draws the phase's starting probabilities (unchanged for an unknown phase) and snapshots them for that phase |
| Experiments.Experiment.AdjustProbabilities | experiment.py:45-51 | the probabilities become `Adjusted` of the old ones, for whose limits and drift the lemmas above hold |
| Experiments.Experiment.DrawBall | experiment.py:53-95 | logs the round seed `id + 1000*phase + round` under (phase, round) and returns the outcome `DrawOutcome` gives for that seed, phase, box and the current probabilities |
| Experiments.Experiment.GetInitialProbs | experiment.py:97-98 | returns the snapshot of starting probabilities per phase |
| Experiments.Experiment.GetSeeds | experiment.py:100-101 | returns the seed log |
| Data.MergeInitProbs | data.py:83-92 | each row, in order, gets its two starting-probability cells appended |
| Data.SaveRoundData | data.py:76-97 | raises ValueError exactly when there are no rows or the id is falsy; otherwise the frame has the fourteen result columns and, row by row, the row followed by the cells looked up through column 2 |
| Data.SaveRoundDataByPhase | data.py:76-97 | the same as `SaveRoundData`, with the phase read from column 3, where the rows hold it |
| Data.CopyHeaderFields | data.py:124-126 | only header columns are kept; each takes the entry's value when the entry has it, else keeps the row's |
| Data.BatchRows | data.py:117-127 | one row per entry, in order; each cell is the entry's value, else the caller's id for `participant_id`, else blank |
| Data.SingleRow | data.py:136-141 | the single row holds the responses' header fields, with the caller's id and phase where the responses do not override them |
| Data.SaveQuestionnaire | data.py:108-143 | a falsy id or empty responses raise ValueError; a list under a phase other than `batch` raises AttributeError; otherwise the frame has the header's columns and the batch or single rows above |
| Data.UnseenMembers | data.py:42 | the new columns are exactly the incoming ones not already present |
| Data.UnseenDistinct | data.py:42 | the new columns have no duplicates when the incoming ones have none |
| Data.UnifiedColumnsSpec | data.py:41-43 | an empty sheet takes the incoming columns; otherwise the old columns come first, in order, followed by the unseen incoming ones; a column is kept exactly when it is in either frame; no duplicates arise |
| Data.AppendSpec | data.py:41-49 | the written frame is rectangular, keeps the old rows (none for an empty sheet) and then the new rows, and every cell is that row's value under the column, or blank where its frame lacked it |
| Session.AsWrittenMergeLosesInitProbs | data.py:86 | for every round row `main.py` records, the as-written lookup yields None for both starting probabilities |
| Session.ByPhaseMergeFindsInitProbs | data.py:86-91 | for every round row of a snapshotted phase, the lookup through the phase column yields that phase's starting probabilities |
| Session.Session.constructor | main.py:10-43 | a new session is on the welcome step with an empty id and area, no engine, phase index 0, no choice, and empty histories and questionnaire list |
| Session.Session.StartExperiment | main.py:49-51 | moves to the id-entry step |
| Session.Session.SetParticipantId | main.py:53-74 | accepts exactly an all-digit id with an area that is neither empty nor the placeholder; a rejected input changes nothing; on acceptance it stores the parsed id and the area and builds a fresh engine: the order is the shuffle of that id, copied to the session; the engine is at the first phase of the order, at round 1 with zero earnings and no rows; the order seed and that phase's seed are logged, and the phase's starting probabilities are drawn and snapshotted; the step becomes Instructions; only those five session fields may change |
| Session.Session.ChooseBox | main.py:96-100 | records the chosen box |
| Session.Session.BeginRounds | main.py:77-94 | starts the phase at the current index of the order: round 1, zero earnings, its seed logged, its starting probabilities drawn and snapshotted, rows kept; the histories are cleared and the step becomes Rounds; only the step, the completion flag, the histories and the engine's phase state may change |
| Session.Session.HandleChoice | main.py:284-325 | with no box or an empty box nothing changes; otherwise the round is played and the session advances as `ResolveRound` states; only the histories, the choice, the completion flag, the step and the engine's round state may change |
| Session.Session.ResolveRound | main.py:285-325 | the engine draws with the round seed under the current probabilities and adds the reward; it records a twelve-cell row with the rounded decision time and the rounded pre-adjustment probabilities, then adjusts; the histories grow by the new earnings and the round; the choice is cleared; below the limit the round advances, and at the limit the phase completes and the questionnaire follows; no other field may change |
| Session.Session.PlayRound | main.py:287-295 | the engine's part of a round: seed log, outcome, earnings, recorded row and adjusted probabilities; only those five engine fields may change |
| Session.Session.SubmitQuestionnaire | main.py:104-123 | appends the entry tagged with the engine's phase, with the responses overriding the header fields; moves to the next phase's instructions, or after the third to the debrief; the session id, participant and area are outside its frame, so the entry is built from their unchanged values |
| Session.Session.SaveAnswers | main.py:126-145 | marks the submission complete, appends the debrief entry built from the unchanged session id, participant and area, and saves every entry in batch mode: ValueError exactly for a falsy id, otherwise one header row per entry |
| Session.Session.SubmitDebrief | main.py:126-155 | as written: marks the submission complete and appends the debrief entry; a falsy id yields ValueError and keeps the step; otherwise it moves to the thank-you step with one batch questionnaire row per entry and, exactly when rounds were played, the round frame in which every row ends in two None cells |
| Session.Session.SubmitDebriefByPhase | main.py:126-155 | the same callback with the lookup by the row's own phase: every round row ends in the starting probabilities snapshotted for the phase it was played in |

## Left out

- Streamlit rendering and widgets are not modelled: screens, messages, charts and button flags. Only the transitions the callbacks make are modelled.
- Wall-clock readings are parameters: the session id, `decision_time` and `start_time`. `get_unique_filename` is not part of this model.
- `round(x, 3)` on floats is the parameter `roundTo3`. All probabilities and rewards are exact reals, not binary floats.
- The CSV writes and the Google Sheets read and update are left out. `Data.Append` returns the frame that would be written.
- Exceptions that `append_dataframe_to_sheet` swallows and prints are not modelled.
- `save_rows_to_gsheet_worksheet` and `test_gsheet` do nothing or are test-only, so they are left out.
- The internals of Python's and numpy's generators are left out. Each draw is an oracle of the seed in force, so the model does not fix which values a seed gives. It keeps only that shuffles permute the phases and samples lie in [0, 1).
- numpy's check that a probability lies in [0, 1] is left out. The red/black choice is an oracle over any probability.
- pandas' errors for a row whose length differs from the column list are left out, and so are duplicate column labels.
- `np.random.seed` rejects seeds outside [0, 2^32) with ValueError, and the model does not. The id widget allows at most five digits, so no such seed arises from the interface.
- Non-ASCII digits that `str.isdigit` accepts are left out. `IsDigits` accepts ASCII digits only.
- The `seeds` argument of `save_round_data` is unused by the source, so the model drops it.
- Display-only session keys are left out: the last result, reward, box and special; the message text and type; `awaiting_choice`; the exit fields; and the questionnaire scratch dict.
- Experiments.Experiment.constructor: requires a supplied phase order to start with 1, 2 or 3. Otherwise the source fails later with AttributeError on the unset probabilities, and the model does not cover that failure.
- Experiments.AdjustedStaysInLimits: requires the probabilities to start inside the limits. The source draws the starting probabilities from configured ranges that the model does not tie to the limits.

## Findings

| source | as written | input that shows it | evidently intended | confidence | as-written member | corrected member |
|---|---|---|---|---|---|---|
| data.py:86 | the phase of a round row is read from `row[2]` | any row recorded by `main.py`, for example `[sid, 42, "Finance", 1, 1, "A", ...]`: `row[2]` is the area `"Finance"`, so `init_p_safe` and `init_p_uncertain` are None on every row | read the phase from `row[3]`, where the row holds it, as the comment at data.py:82 ("based on the row's phase") and the column list show | not executed | Data.SaveRoundData, Session.AsWrittenMergeLosesInitProbs, Session.Session.SubmitDebrief | Data.SaveRoundDataByPhase, Session.ByPhaseMergeFindsInitProbs, Session.Session.SubmitDebriefByPhase |

# Mental-rotation experiment: a Dafny model of its core

The repository runs a Shepard–Metzler style mental-rotation experiment. Each stimulus is a pair
of 3D block figures, and the right-hand figure is either the same object or its mirror image.
The repository has four parts, and this project models the logic of each:

- **Labelling tool** (`draw_first_stimulus.py`). The experimenter browses the stimulus file
  with the arrow keys, wrapping around at both ends. S marks the current stimulus "same", D
  marks it "different". Each label is written straight back to the file, one compact JSON
  object per line.
- **3D rotation experiment** (`experiments/experience_pygame_3d.py`).
  - It builds a trial plan from the labelled stimuli. A prefix of all stimuli is used when too
    few are labelled.
  - It runs an event loop. S/D record a `TrialResult`, Escape or closing the window abort, and
    a left-button drag rotates the right-hand figure while rotation is enabled.
  - It serialises the results and prints a summary.
  - It splits the results by condition and by correctness, and fits a regression line to
    response time against angle.
- **Stand-alone analysis** of a saved results file (`experiments/analyze_ade.py`).
- **Mental vs. physical comparison** (`experiments/experience3.py`). It compares the two
  conditions, then breaks the data down into six 30° disparity bins.

Foreign numeric routines become function parameters:

- `math.sqrt`, constrained by `IsSqrt` to be the exact nonnegative root;
- `scipy.stats.linregress`, `pearsonr` and `ttest_ind`;
- `json.dumps`, `json.loads` and `json.load`.

The clock's readings are parameters (`now`). Each frame's `pygame.event.get()` is a sequence of
events.

Modules, one per file:

| file | module | flavour |
|---|---|---|
| `common.dfy` | `Common` | order-preserving filter, sums, `Option`/`Result`, regression record |
| `stimuli.dfy` | `Stimuli` | the stimulus record; `is_mirror` is absent, `null` or a boolean |
| `trial_planning.dfy` | `TrialPlanning` | `generate_trial_set` as a method with a loop |
| `trial_session.dfy` | `TrialSession` | `Next`/`AfterBatch` state machine; class `TrialController` proved against it |
| `result_log.dfy` | `ResultLog` | result records as JSON objects, and reading them back |
| `session_summary.dfy` | `SessionSummary` | `show_results`, `analyze_ade_automatically` |
| `ade_analysis.dfy` | `AdeAnalysis` | `analyze_ade`, `calculate_correlation` |
| `stimulus_file.dfy` | `StimulusFile` | the one-object-per-line file format and its round trip |
| `labelling_tool.dfy` | `LabellingTool` | `ToolStep`/`ToolBatch` state machine; class `Labeller`, the tool's module-level state and event loop, proved against it |
| `condition_comparison.dfy` | `ConditionComparison` | `comparer_conditions`, `analyser_par_disparite` |

## Model

| member | source | states |
|---|---|---|
| Stimuli.MirrorOrFalse | experiments/experience_pygame_3d.py:147 | `stimulus.get('is_mirror', False)` is `None` exactly for a JSON `null` label. It is the boolean label itself for a labelled stimulus, and `False` for a missing key. |
| TrialPlanning.ValidStimuli | experiments/experience_pygame_3d.py:132 | The kept stimuli are all labelled, and every labelled stimulus of the input is kept. |
| TrialPlanning.Candidates | experiments/experience_pygame_3d.py:132-136 | In the fallback case (fewer labelled stimuli than trials requested) the list is a prefix of the stimuli of length `min(total, len)`. Otherwise it is exactly the labelled stimuli, at least `total` of them. |
| TrialPlanning.AssignConditions | experiments/experience_pygame_3d.py:141-148 | The loop builds one trial per chosen stimulus, in order. Rotation is enabled exactly on positions `< n_with_rotation`, and each trial's `is_mirror` is the stimulus's `get('is_mirror', False)`. |
| TrialPlanning.GenerateTrialSet | experiments/experience_pygame_3d.py:129-150 | The plan has `min(total, len(candidates))` trials and its rotation flags are set by position. Its stimuli are a sub-multiset of the candidates. With the fallback they are a permutation of the prefix. Otherwise there are exactly `total` trials, all with a boolean label. |
| TrialPlanning.DrawnFromLabelled | experiments/experience_pygame_3d.py:139-142 | Anything the shuffle and truncation draw from a pool of labelled stimuli is labelled. |
| TrialSession.Correctness | experiments/experience_pygame_3d.py:308-342 | "Same" is correct iff not mirror, "different" iff mirror. A `None` label makes "same" correct (`not None`) and "different" record `None`. |
| TrialSession.CalculateAngularDisparity | experiments/experience_pygame_3d.py:108-126 | The disparity is nonnegative, and its square is `rot_x² + rot_y²`. The initial angle plays no part. |
| TrialSession.DisparityIsTheNorm | experiments/experience_pygame_3d.py:119-126 | The disparity is the unique nonnegative root of `rot_x² + rot_y²`, whatever the initial angle and whichever exact square root is used. |
| TrialSession.DisparityOfNoRotation | experiments/experience_pygame_3d.py:122-126 | Zero accumulated rotation gives disparity 0, whatever the initial angle. |
| TrialSession.InitialInv | experiments/experience_pygame_3d.py:277-293 | The loop starts on trial 0, with no results, and satisfies the session invariant. |
| TrialSession.Record | experiments/experience_pygame_3d.py:306-320 | The record of an S/D press has number `current_trial + 1` and the trial's id, label and condition. It also holds the correctness rule, `response_time = now - start_time`, and the disparity of the accumulated drag. |
| TrialSession.AfterResponse | experiments/experience_pygame_3d.py:321-334 | Appending the record and advancing (or finishing) preserves the session invariant: one result per completed trial, each the record of the trial at its position. In a trial without rotation the accumulators stay 0, so its result records disparity 0. |
| TrialSession.Next | experiments/experience_pygame_3d.py:298-387 | One event preserves the invariant and never rewrites a recorded result. It advances the trial counter by one exactly on S/D. |
| TrialSession.ResponseStep | experiments/experience_pygame_3d.py:304-370 | S/D append exactly one record: its number, response, correctness and time are as stated. Then either `running` is cleared (last trial) or the accumulators are reset, the clock restarts and the next trial's rotation flag is loaded. |
| TrialSession.AccumulatorStep | experiments/experience_pygame_3d.py:299-387 | Only motion while dragging in a rotation-enabled trial moves the accumulators, by half the pointer delta (`dx` to y, `dy` to x). A drag starts only with button 1 in a rotation trial. Quit and Escape change only `running`. |
| TrialSession.AfterBatch | experiments/experience_pygame_3d.py:298-328 | A polled batch preserves the invariant and only appends results. Processing stops at the `break` after the last trial. |
| TrialSession.BatchRecordsResponses | experiments/experience_pygame_3d.py:298-370 | A batch records one result per S/D press, capped at the number of trials left. |
| TrialSession.AbortKeepsResults | experiments/experience_pygame_3d.py:299-303 | A batch without S/D presses leaves the results unchanged. |
| TrialSession.TrialController.constructor | experiments/experience_pygame_3d.py:277-293 | The fields start as the `Initial` session state. |
| TrialSession.TrialController.Respond | experiments/experience_pygame_3d.py:304-370 | The S/D branch updates the fields to `AfterResponse` of the old state and keeps the invariant. |
| TrialSession.TrialController.Step | experiments/experience_pygame_3d.py:298-387 | Handling one event updates the fields to `Next` of the old state. |
| TrialSession.TrialController.HandleBatch | experiments/experience_pygame_3d.py:298-387 | The event-loop body updates the fields to `AfterBatch` of the old state. |
| TrialSession.AfterBatches | experiments/experience_pygame_3d.py:293-298 | Frame after frame while `running`: the invariant holds, the trial counter never goes back and recorded results are never rewritten. |
| TrialSession.TrialController.Run | experiments/experience_pygame_3d.py:293-298 | `while running`: the fields end as `AfterBatches` of the old state. The invariant holds and recorded results are never rewritten. The loop stops early only once `running` is false. |
| ResultLog.ToRecord | experiments/experience_pygame_3d.py:431-441 | Each result becomes an object holding all nine keys. |
| ResultLog.RecordRoundTrip | experiments/experience_pygame_3d.py:431-441 | Nothing is lost: reading a record back gives the same result. |
| ResultLog.SerializeResults | experiments/experience_pygame_3d.py:429-441 | The loop makes one record per result, in order, each reading back to its result. |
| ResultLog.Angles | experiments/analyze_ade.py:50-53 | The angle column is element-wise `initial_angle`. |
| ResultLog.Times | experiments/analyze_ade.py:51-54 | The time column is element-wise `response_time`. |
| ResultLog.CorrectnessPartition | experiments/analyze_ade.py:46-47 | The correct and incorrect parts partition the results: sizes and multisets add up, and membership follows the truthiness of `is_correct`. |
| SessionSummary.CountCorrect | experiments/experience_pygame_3d.py:227 | The number of truthy `is_correct` is at most the total. |
| SessionSummary.Score | experiments/experience_pygame_3d.py:238-244 | A condition prints a score iff it has trials, and then `correct <= size`. |
| SessionSummary.ConditionPartition | experiments/experience_pygame_3d.py:235-236 | The two conditions partition the results, and their correct counts add up to the total correct count. Each side is nonempty iff some result has that flag. |
| SessionSummary.ShowResults | experiments/experience_pygame_3d.py:216-252 | The summary is absent iff there are no results. Otherwise it has the total and correct count, an accuracy between 0 and 100 percent, per-condition scores that add up to them, and a score only for conditions present. |
| SessionSummary.MeanNonnegative | experiments/experience_pygame_3d.py:247-251 | The average of nonnegative values is nonnegative. |
| SessionSummary.MeanDisparityNonnegative | experiments/experience_pygame_3d.py:251 | With session-produced disparities, the printed mean disparity is nonnegative. |
| SessionSummary.Disparities | experiments/experience_pygame_3d.py:251 | The disparity column, element-wise. |
| SessionSummary.FitOrNone | experiments/experience_pygame_3d.py:173-181 | With two points or more the fit is `linregress`'s. Below two it is `(0, 0, 0, 1)`. |
| SessionSummary.MakePlot | experiments/experience_pygame_3d.py:163-181 | The correct and incorrect columns are aligned and hold every input result once, and each fit follows the two-point rule. |
| SessionSummary.AnalyzeAdeAutomatically | experiments/experience_pygame_3d.py:153-213 | Nothing happens for no results. Otherwise there is one plot per condition that has results, built from exactly that condition's results. |
| SessionSummary.FourWayPartition | experiments/experience_pygame_3d.py:158-166 | The four groups (condition by correctness) partition the results as a multiset. |
| SessionSummary.EveryResultPlottedOnce | experiments/experience_pygame_3d.py:158-213 | Every result appears in exactly one plot as exactly one point: the four point groups partition the results as a multiset, each plot shows the angles of exactly its group, and a condition without a plot has no results. |
| AdeAnalysis.CalculateCorrelation | experiments/analyze_ade.py:31-36 | Below two points the result is `(0.0, 1.0)`. Otherwise it is `pearsonr`'s. |
| AdeAnalysis.FitPart | experiments/analyze_ade.py:50-71 | The columns are aligned and element-wise. With ≥ 2 points it uses `pearsonr`/`linregress`. Below that it uses `(0, 1)` and `(0, 0, 0, 1, 0)`, and the explicit fallback agrees with `calculate_correlation`'s. |
| AdeAnalysis.AnalyzeAde | experiments/analyze_ade.py:39-71 | Nothing is computed for an empty list. Otherwise the two parts hold every record exactly once, correct ones on one side and the rest on the other. |
| AdeAnalysis.PartsKeepOrder | experiments/analyze_ade.py:46-47 | The split keeps input order: it distributes over concatenation. |
| StimulusFile.Dumped | draw_first_stimulus.py:71-72 | One `json.dumps` per record, in order. |
| StimulusFile.WriteRecords | draw_first_stimulus.py:69-77 | The writing loop produces exactly the layout: `[`, a newline, one object per line with a comma after all but the last, then `]`. |
| StimulusFile.SplitEntries | draw_first_stimulus.py:70-77 | Splitting the object lines at newlines gives back each object with its separator. |
| StimulusFile.WriteReadRoundTrip | draw_first_stimulus.py:69-77 | Reading the written file back gives exactly the records written, in number and order. This holds when `dumps` emits no newline on the records written and `loads` inverts it on them. |
| LabellingTool.LoadAllStimuli | draw_first_stimulus.py:9-17 | An unreadable or empty file raises. Anything else is returned as read. |
| LabellingTool.NextIndex | draw_first_stimulus.py:110 | The right arrow steps forward and wraps from the last stimulus to the first. |
| LabellingTool.PreviousIndex | draw_first_stimulus.py:117 | The left arrow, with Python's `%`, steps back and wraps from the first stimulus to the last. |
| LabellingTool.NavigationRoundTrip | draw_first_stimulus.py:108-121 | Left undoes right and right undoes left. |
| LabellingTool.ForwardCompose | draw_first_stimulus.py:110 | Pressing right `a + b` times is pressing it `a` times, then `b` times. |
| LabellingTool.ForwardCounts | draw_first_stimulus.py:110 | Before the end of the list, right just counts up. |
| LabellingTool.FullCircle | draw_first_stimulus.py:110 | `n` presses of right visit the whole list and come back to the start. |
| LabellingTool.Patched | draw_first_stimulus.py:63-66 | Saving re-reads the file and replaces only the current record. An unreadable file or a too-short one raises. |
| LabellingTool.Navigate | draw_first_stimulus.py:108-121 | An arrow shows the given stimulus with no rotation. Printing it raises exactly when it has no `angle` key (every stimulus has an `id`). |
| LabellingTool.Annotate | draw_first_stimulus.py:122-131 | S/D change only labels, and the state stays valid. |
| LabellingTool.ToolStep | draw_first_stimulus.py:103-148 | One event keeps the state valid and changes only labels of the stimuli. |
| LabellingTool.ToolBatch | draw_first_stimulus.py:103-148 | A batch keeps the state valid, changes only labels, and handles at most all its events. |
| LabellingTool.ExitOnlyOnClose | draw_first_stimulus.py:104-106 | An event exits the tool iff it closes the window. |
| LabellingTool.NavigationStep | draw_first_stimulus.py:108-121 | The arrows move to `NextIndex`/`PreviousIndex` and reset the rotation. The stimuli, the file, the drag flag and the last mouse position are kept. They raise exactly when the new stimulus has no `angle` (every stimulus has an `id`). |
| LabellingTool.LabelStep | draw_first_stimulus.py:122-131 | S/D set the current label in memory and write the patched records back. On a save error the file is kept and the tool ends. Index, rotation, drag flag and last mouse position are kept. |
| LabellingTool.PointerStep | draw_first_stimulus.py:132-148 | Mouse events keep stimuli, index and file. Button 1 down starts a drag at the event's position, button 1 up ends it and keeps the last position, and motion while dragging turns by half the delta. |
| LabellingTool.SyncStep | draw_first_stimulus.py:61-131 | When `json.load` reads back the written layout of every relabelling of the starting list, memory and file agree after every event, the stimuli stay a relabelling of it, and S/D never raise. |
| LabellingTool.SyncBatch | draw_first_stimulus.py:61-148 | Under the same hypothesis, memory and file agree after a whole batch, and the stimuli stay a relabelling of the starting list. |
| LabellingTool.BatchOutcome | draw_first_stimulus.py:103-148 | A batch ends early only on an exit or a crash, which is the last event handled. It is an exit iff that event closes the window, and never an exit without a close. |
| LabellingTool.Labeller.constructor | draw_first_stimulus.py:50-59 | The stimuli are `load_all_stimuli` of the file, on the first stimulus, with no rotation and no drag. Memory and file agree. |
| LabellingTool.Open | draw_first_stimulus.py:9-59 | Start-up fails iff `load_all_stimuli` raises, with its message. Otherwise the tool starts in the constructor's state. |
| LabellingTool.Labeller.ShowNext | draw_first_stimulus.py:108-114 | Right moves to `NextIndex` and resets the rotation; nothing else changes. |
| LabellingTool.Labeller.ShowPrevious | draw_first_stimulus.py:115-121 | Left moves to `PreviousIndex` and resets the rotation; nothing else changes. |
| LabellingTool.Labeller.Save | draw_first_stimulus.py:61-79 | The file becomes the layout of the patched on-disk records. On error the file is unchanged. |
| LabellingTool.Labeller.SetLabel | draw_first_stimulus.py:122-131 | S/D set only the current stimulus's label in memory, then save. |
| LabellingTool.Labeller.PressKey | draw_first_stimulus.py:107-131 | A key press updates the fields to `ToolStep` of the old state. |
| LabellingTool.Labeller.Pointer | draw_first_stimulus.py:132-148 | A mouse event updates the fields to `ToolStep` of the old state. |
| LabellingTool.Labeller.Step | draw_first_stimulus.py:103-148 | One event updates the fields to `ToolStep` of the old state, so every per-event lemma above holds of it. Memory and file stay in agreement when `json.load` reads back every relabelling of the stimuli. |
| LabellingTool.Labeller.HandleBatch | draw_first_stimulus.py:103-148 | The fields, the outcome and the number handled are `ToolBatch` of the old state and the batch. Memory and file stay in agreement when `json.load` reads back every relabelling of the stimuli. |
| ConditionComparison.MeanOf | experiments/experience3.py:32-33 | `np.mean` is `nan` exactly for an empty array. |
| ConditionComparison.CompareConditions | experiments/experience3.py:18-61 | It returns the mean times and the t-test on them. The error rates are `nan` exactly for empty inputs, and precision is `100 -` the error rate, with `nan` alike. The trade-off flag is always true. |
| ConditionComparison.OneBinAtMost | experiments/experience3.py:78-84 | The bins are pairwise disjoint, and a disparity falls in some bin iff it is in `[0, 180)`. |
| ConditionComparison.CountIn | experiments/experience3.py:84-91 | A bin's count is at most the number of samples. |
| ConditionComparison.Select | experiments/experience3.py:84-90 | The masked array has as many entries as the mask counts. |
| ConditionComparison.CountSplit | experiments/experience3.py:78-84 | Counts over adjacent intervals add up. |
| ConditionComparison.BinEntry | experiments/experience3.py:86-92 | An empty bin is all zeros. Otherwise it holds the masked means (errors in percent) and the count. |
| ConditionComparison.LabelsDistinct | experiments/experience3.py:79 | The six labels are pairwise different, so no bin overwrites another. |
| ConditionComparison.FillStep | experiments/experience3.py:86-92 | Adding a bin's entry keeps the entries of the bins before it. |
| ConditionComparison.AnalyseByDisparity | experiments/experience3.py:63-94 | The result has exactly the six labels as keys, each mapped to its bin's entry. |
| ConditionComparison.BinCountsAddUp | experiments/experience3.py:78-91 | The six counts add up to the number of disparities in `[0, 180)`, never more than the samples. |

## Left out

- Rendering, windowing, fonts, matplotlib plots, console output and the stats text box of `analyze_ade` are left out: none of them affects the data the core computes.
- Floating point is modelled as exact reals, so rounding and `inf` are not modelled. The one `nan` source in `experience3.py` (`np.mean` of an empty array) is modelled.
- `math.sqrt`, `linregress`, `pearsonr`, `ttest_ind`, `json.dumps`, `json.loads` and `json.load` are foreign routines, passed in as parameters. `sqrt` is assumed exact (`IsSqrt`).
- File I/O is left out:
  - The labelling tool's file is a string field, and the whole-file `json.load` is a parameter.
  - The results file (`json.dump(results_dict, indent=2)`) is modelled as the list of records, not as text.
  - `load_results` is not modelled.
- `time.time()` readings are parameters. `clock.tick(60)` pacing is modelled only as one event batch per frame.
- `random.shuffle` is modelled as an arbitrary permutation of the candidates. The caller's stimulus list is a value, so the in-place reordering of the fallback prefix copy is not observable.
- TrialSession.Record: `disparity` uses the trial's own `rotation.y` for `initial_angle_y`. The source reads a `rotation` variable that is only set by the rendering code. It is the previous frame's stimulus rotation, and does not exist yet if S/D is pressed before the first frame is drawn (a `NameError`). The argument is ignored by `calculate_angular_disparity` either way, and the `NameError` is not modelled.
- TrialSession.TrialController.constructor: requires a nonempty trial plan. With no trials the source raises at `trials[0]`, before the loop starts.
- TrialSession.DisparityOfNoRotation: only the direction "no drag ⇒ disparity 0" is stated. The converse (disparity 0 ⇒ both accumulators 0) is not something the program relies on.
- SessionSummary.ShowResults: the per-condition percentages are left out with the printing.
- ResultLog.ToRecord: a record is a map from the nine keys, so the key order of the printed JSON object is only documented by `Keys`, not carried by the value.
- ResultLog.FromRecord reads analyses' records as typed `TrialResult` values. A `KeyError` on a record missing a key is modelled only as `None` in `FromRecord`; the analyses take well-formed results.
- Stimuli.AngleOrZero: a stimulus `angle` holding JSON `null` is not modelled; an angle is a number or absent.
- `experiments/experience1.py` and `experiments/experience2.py`, the `__main__` simulations of `experience3.py`, its `visualiser_comparaison` and the `main` of `analyze_ade.py` are left out. They are data generation and plotting around the modelled functions.
- TrialSession.AfterResponse: one clock reading `now` serves both the response time and the next trial's start. The source reads `time.time()` twice in each branch (experiments/experience_pygame_3d.py:306 and 334 for S, 340 and 368 for D), so the next trial's clock starts slightly later than modelled.
- ConditionComparison.AnalyseByDisparity: requires the disparity, time and correctness arrays to have equal length, as do ConditionComparison.BinEntry and ConditionComparison.Select. With a mismatched nonempty mask numpy raises `IndexError` (experiments/experience3.py:87-90), and that error path is not modelled.
- LabellingTool.SyncStep: memory and file agree only under the stated hypothesis `ReadsLayoutFrom`. It says that `json.load` reads back the written layout of every relabelling of the starting stimulus list, a finite set of lists. That property of the foreign parser and serialiser is assumed, not modelled.
- LabellingTool.Navigate, LabellingTool.NavigationStep and TrialSession.Record: a stimulus always has an `id`. The `KeyError` for a record without one is not modelled. The source reads `stimulus['id']` when printing after an arrow (draw_first_stimulus.py:114 and 121) and when recording an S/D response (experiments/experience_pygame_3d.py:312 and 346).
- ConditionComparison.CompareConditions: `n_total` and the error totals are computed by the source but never used or returned, so they are left out.

# Diabetes risk rules, data cleaning rules and a particle page, in Dafny

This project models the decision logic of three parts of a mixed
Python / mini-program repository and proves properties of it.

- **Risk prediction system** (`diabetes_risk.dfy`, module `DiabetesRisk`).
  - Weighted-average and majority-vote fusion of the base models' probabilities, with the 0.5 decision threshold.
  - The three risk buckets.
  - The rule-based medical advice.
  - The three derived interaction features, both on a frame and on a single patient record.
  - The fusion weight dictionary that the system object fills.
  - The base models' probabilities and F1 scores come in as parameters.
- **Data preprocessing** (`preprocessing.dfy`, module `Preprocessing`).
  - Counting zeros in the five columns where a zero means "missing", and their percentages.
  - Replacing each such zero by the median of the column's non-zero values, on a copy of the frame.
  - The pre-cleaning completeness figure.
  - IQR outlier fences and outlier counting. The quartiles come in as parameters.
  - The median is specified over an insertion-sorted copy of the values.
- **Particle page** (`particles.dfy`, module `Particles`).
  - The mini-program page's particle list as a `class` with sequence fields.
  - Particles drift, bounce with damping, grow, keep a 20-point trail, lose life and are filtered out.
  - The list is refilled to 30 particles.
  - A touch bursts 8 particles.
  - A swipe nudges nearby particles.
  - Text particles are spawned (at most 8) and fade in.
  - Every `Math.random()` value is a parameter, and so are the burst directions (cos and sin of 2πi/8).

A pandas DataFrame is a `map<string, seq<real>>` (`table.dfy`, module `Table`).
`wrappers.dfy` holds `Option` and `Result`. All arithmetic uses Dafny's exact `real`.

## Model

| member | source | states |
|---|---|---|
| `DiabetesRisk.AssessRiskLevel` | diabetes_risk_prediction_system.py:422-431 | each score lands in exactly one bucket: low iff score < 0.3, medium iff 0.3 ≤ score < 0.6, high iff score ≥ 0.6 (labels and colours via `Label`/`Colour`) |
| `DiabetesRisk.AssessRiskLevelMonotone` | diabetes_risk_prediction_system.py:426-431 | a higher score never gets a less severe bucket |
| `DiabetesRisk.InsulinGlucoseRatio` | diabetes_risk_prediction_system.py:76 | the ratio column has the input length and entry i is Insulin[i] / (Glucose[i] + 1e-6) |
| `DiabetesRisk.FeatureEngineering` | diabetes_risk_prediction_system.py:59-79 | raises KeyError for the first missing column among BMI, Age, Glucose, in reading order; otherwise returns the input columns unchanged, with the same row count, plus BMI_Age = BMI·Age and Glucose_BMI = Glucose·BMI; Insulin_Glucose_Ratio is added exactly when Insulin is present; no other column is added |
| `DiabetesRisk.DeriveFeatures` | diabetes_risk_prediction_system.py:409-412 | on one record all three features are computed; KeyError for the first missing of BMI, Age, Glucose, Insulin; otherwise the record keeps its values and gains exactly the three derived keys |
| `DiabetesRisk.FeaturesAgreeRowwise` | diabetes_risk_prediction_system.py:410-412 | deriving the features of row r equals row r of the engineered frame when the frame has Insulin, and raises KeyError('Insulin') when it has not |
| `DiabetesRisk.WeightedSumBounds` | diabetes_risk_prediction_system.py:183-185 | with non-negative weights and probabilities in [0, 1] the accumulated Σ w_i·p_i[r] lies between 0 and Σ w_i |
| `DiabetesRisk.FusedProbabilityInUnitInterval` | diabetes_risk_prediction_system.py:180-187 | the fused probability is in [0, 1] when weights are ≥ 0, their total is > 0 and every probability is in [0, 1] |
| `DiabetesRisk.UnanimousFusion` | diabetes_risk_prediction_system.py:183-187 | when every model gives row r the probability p, the weighted sum is p times the total weight |
| `DiabetesRisk.MajorityOfThree` | diabetes_risk_prediction_system.py:192-195 | with the three base models, "votes ≥ half the models" is "at least two votes" |
| `DiabetesRisk.WeightedFusion` | diabetes_risk_prediction_system.py:178-188 | n labels and n probabilities; prob[r] = Σ_i w_i·p_i[r] / Σ_i w_i; label 1 iff prob[r] ≥ 0.5 and 0 iff prob[r] < 0.5 |
| `DiabetesRisk.VotingFusion` | diabetes_risk_prediction_system.py:190-196 | n outputs; label 1 iff 2·(models with p ≥ 0.5) ≥ number of models, 0 otherwise; the probability returned is the label |
| `DiabetesRisk.Lookup` | diabetes_risk_prediction_system.py:451-460 | `get(key, 0)`: the recorded value when the key is present, 0 otherwise; a non-zero result implies the key is present |
| `DiabetesRisk.Fires` | diabetes_risk_prediction_system.py:451-460 | with the indicator present, the rule fires iff the value is strictly above the limit; without it, iff the limit is negative (so never, for the four rules) |
| `DiabetesRisk.RuleRecommendations` | diabetes_risk_prediction_system.py:450-461 | the four checks append, in rule order, the text of each rule whose indicator exceeds its limit (missing indicator read as 0) |
| `DiabetesRisk.GenerateMedicalAdvice` | diabetes_risk_prediction_system.py:433-467 | risk level is the bucket label of the score, the score is kept, the diagnosis is the further-examination text iff score ≥ 0.5, and the recommendations are the fired rules, or the two defaults when none fires |
| `DiabetesRisk.FiredAdviceLength` | diabetes_risk_prediction_system.py:450-461 | at most one recommendation per rule |
| `DiabetesRisk.RecommendationsNeverEmpty` | diabetes_risk_prediction_system.py:450-465 | the recommendation list has between one and four entries |
| `DiabetesRisk.FiredAdviceStep` | diabetes_risk_prediction_system.py:450-461 | checking one more rule appends its text exactly when it fires |
| `DiabetesRisk.FiredAdviceSound` | diabetes_risk_prediction_system.py:451-461 | every advised text is the text of a rule that fires |
| `DiabetesRisk.FiredAdviceComplete` | diabetes_risk_prediction_system.py:451-461 | the text of every rule that fires is advised |
| `DiabetesRisk.RecommendationsFollowRules` | diabetes_risk_prediction_system.py:451-465 | each rule's text is recommended iff the rule fires, and the list is exactly the two defaults iff no rule fires |
| `DiabetesRisk.RiskPredictionSystem.constructor` | diabetes_risk_prediction_system.py:38-47 | a new system has no models and an empty weight dictionary |
| `DiabetesRisk.RiskPredictionSystem.BuildBaseModels` | diabetes_risk_prediction_system.py:112-142 | the three model keys are assigned in order with dict key-order semantics; all three are then present, and on a system without models they stand in BaseModels order |
| `DiabetesRisk.KeyInserted` | diabetes_risk_prediction_system.py:120-137 | assigning a dict key keeps the earlier keys in place, adds at most the new key at the end, and keeps the keys distinct |
| `DiabetesRisk.BaseModelsInsertedIntoEmpty` | diabetes_risk_prediction_system.py:120-137 | the three assignments into an empty dict leave exactly RandomForest, GradientBoosting, LogisticRegression, in that order |
| `DiabetesRisk.RiskPredictionSystem.CalculateFusionWeights` | diabetes_risk_prediction_system.py:152-159 | every model's weight becomes its F1 score; the keys gain the models; weights of other keys are kept |
| `DiabetesRisk.RiskPredictionSystem.FusionPredict` | diabetes_risk_prediction_system.py:165-198 | weighted mode: the weighted average of the probabilities under the stored weights, thresholded at 0.5; voting mode: the majority rule with the label as probability; one output per row |
| `DiabetesRisk.RiskPredictionSystem.PredictSinglePatient` | diabetes_risk_prediction_system.py:401-420 | a missing indicator gives the KeyError of feature derivation; otherwise the fused probability of the single row and its 0.5-thresholded label |
| `Preprocessing.FirstMissing` | data_preprocessing.py:49-50 | the index of the first listed column the frame lacks: every earlier column is present, and the index is the list length only when all are present |
| `Preprocessing.MissingColumn` | data_preprocessing.py:49-50 | for a frame that lacks one of the five columns, a KeyError naming one of the five that the frame lacks |
| `Preprocessing.CountZeros` | data_preprocessing.py:50 | the zero count is at most the column length, and is 0 iff no entry is zero |
| `Preprocessing.Percentage` | data_preprocessing.py:51 | count/len·100 is ≥ 0, ≤ 100 when count ≤ len, 0 iff count is 0, 100 iff count is len |
| `Preprocessing.AnalyzeDataQuality` | data_preprocessing.py:44-53 | KeyError for the first of the five columns the frame lacks; otherwise statistics keyed by exactly the five columns, each with its zero count and a percentage in [0, 100] |
| `Preprocessing.Insert` | data_preprocessing.py:88 | inserting into a sorted sequence gives a sorted sequence with one more occurrence of x (multiset) |
| `Preprocessing.SortAscending` | data_preprocessing.py:88 | the sorted copy is sorted and a permutation of the input |
| `Preprocessing.Median` | data_preprocessing.py:88 | the median is absent (pandas NaN) exactly for no values |
| `Preprocessing.MedianWithinBounds` | data_preprocessing.py:88 | the median lies between any lower and upper bound of the values |
| `Preprocessing.MedianOfPositivesIsPositive` | data_preprocessing.py:88 | the median of positive values is positive |
| `Preprocessing.NonZero` | data_preprocessing.py:87 | the selected values are non-zero values of the column, and there are len − zero count of them |
| `Preprocessing.NonZeroIsColumnWithoutZeros` | data_preprocessing.py:87 | as a multiset, the selected values are the column with every zero taken out |
| `Preprocessing.Imputed` | data_preprocessing.py:87-93 | same length; non-zero entries unchanged; every zero replaced by the median of the non-zero values |
| `Preprocessing.ImputedHasNoZeros` | data_preprocessing.py:87-93 | for a non-negative column with some non-zero value, no zero is left after imputation |
| `Preprocessing.NegativeValuesCanLeaveAZero` | data_preprocessing.py:87-93 | without non-negativity a zero can stay: for [-1, 1, 0] the median of the non-zero values is 0 |
| `Preprocessing.ZerosReplaced` | data_preprocessing.py:92-93 | same length; each zero replaced by the value, every other entry unchanged |
| `Preprocessing.ReplaceZeros` | data_preprocessing.py:92-95 | the written column is the column with its zeros replaced by the median, and the count is the number of zeros before replacement |
| `Preprocessing.CleanColumn` | data_preprocessing.py:86-95 | one round cleans the next column on the copy and adds its median and zero count to the reports |
| `Preprocessing.CleanColumns` | data_preprocessing.py:84-95 | after the loop over distinct columns the copy has exactly those columns cleaned and the reports hold their medians and zero counts |
| `Preprocessing.CleanedAll` | data_preprocessing.py:84-95 | after all rounds the copy is the frame with those columns imputed and every other column as it was; the reports are keyed by exactly those columns |
| `Preprocessing.HandleZeroValues` | data_preprocessing.py:73-102 | KeyError for the first of the five columns the frame lacks; otherwise the input with the five columns imputed and every other column unchanged, with the same row count, plus the median report and the replaced counts keyed by the five columns, each holding the column's median of non-zero values and its zero count |
| `Preprocessing.CleanZeroColumns` | data_preprocessing.py:84-95 | on a frame with all five columns: the cleaned frame, its row count, and both reports keyed by the five columns with each column's median and zero count |
| `Preprocessing.CleanedFrame` | data_preprocessing.py:79-93 | the cleaned frame has the same columns as the input |
| `Preprocessing.CleanedFrameRectangular` | data_preprocessing.py:79-93 | cleaning keeps the row count of every column |
| `Preprocessing.RowsWithZero` | data_preprocessing.py:182 | the number of rows with a zero in one of the five columns is at most the number of rows |
| `Preprocessing.Completeness` | data_preprocessing.py:182 | KeyError for a frame lacking one of the five columns; NaN (None) exactly for an empty frame; otherwise a value in [0, 100] that is 100 iff no row has a zero and 0 iff every row has one |
| `Preprocessing.NoZeroRows` | data_preprocessing.py:182 | when none of the five columns holds a zero, no row is counted |
| `Preprocessing.CleanedFrameIsComplete` | data_preprocessing.py:182-183 | for non-negative data with a non-zero value in each of the five columns, the cleaned frame has no zero there and is 100% complete |
| `Preprocessing.IqrBounds` | data_preprocessing.py:119-122 | lower = Q1 − 1.5·IQR and upper = Q3 + 1.5·IQR; when Q1 ≤ Q3, lower ≤ Q1 and Q3 ≤ upper; the fences are 4·IQR apart |
| `Preprocessing.InterquartileValueIsNotOutlier` | data_preprocessing.py:121-124 | a value in [Q1, Q3] is never outside the fences |
| `Preprocessing.OutlierCount` | data_preprocessing.py:124-125 | the outlier count is at most the row count, and 0 iff every value is within the fences |
| `Preprocessing.NoOutliersInsideQuartiles` | data_preprocessing.py:117-125 | a column lying within its quartiles has no outliers |
| `Preprocessing.ColumnReport` | data_preprocessing.py:117-133 | a column's report has the IQR fences, the count of values strictly outside them, and a percentage in [0, 100] |
| `Preprocessing.DetectOutliers` | data_preprocessing.py:104-150 | ValueError iff there is no Outcome column; ZeroDivisionError iff the frame is empty and has another column; never KeyError; otherwise one report for each column except Outcome |
| `Particles.Pick` | interst/pages/index/index.js:89 | Math.floor(r·n) for a unit draw r is a valid index below n |
| `Particles.OrElse` | interst/pages/index/index.js:92-93 | JavaScript `a \|\| b` on numbers: the given value unless it is absent or 0 |
| `Particles.OrElseText` | interst/pages/index/index.js:89 | JavaScript `a \|\| b` on strings: the given colour unless it is absent or empty |
| `Table.Times` | diabetes_risk_prediction_system.py:69-72 | the column product has the length of its factors and is their product row by row |
| `Particles.CreateParticle` | interst/pages/index/index.js:86-108 | position and size from the options or the draws (0 counts as absent); size = target size, current size 0; colour from the palette unless given; velocity components in [−1.5, 1.5); rotation in [0, 2π); life 1, decay in [0.0005, 0.0025), alpha in [0.3, 0.8); empty trail |
| `Particles.RandomParticle` | interst/pages/index/index.js:116 | a createParticle() without arguments: position drawn over the current width and height, a palette colour and a size in [5, 25) |
| `Particles.TouchOnLeftEdgeIsRandomised` | interst/pages/index/index.js:92 | an x of exactly 0 is falsy, so the particle gets a random x |
| `Particles.PushTrail` | interst/pages/index/index.js:142-143 | push then shift past 20: appends under 20 entries, otherwise drops the oldest; the last entry is the new point; length stays ≤ 20 |
| `Particles.Step` | interst/pages/index/index.js:126-146 | moves by the velocity; a component whose coordinate left the canvas is multiplied by −0.8; rotation advances; the current size grows by exactly 0.5 while below target and stays otherwise; the trail records the new position; life drops by the decay; other fields unchanged |
| `Particles.StepKeepsShape` | interst/pages/index/index.js:137-143 | a step keeps the trail ≤ 20 with its last point at the particle, and the current size at most 0.5 above the target |
| `Particles.Survivors` | interst/pages/index/index.js:124-149 | the filter never lengthens the list |
| `Particles.SurvivorsSound` | interst/pages/index/index.js:124-149 | every survivor is a stepped particle of the list and has life > 0 |
| `Particles.SurvivorsComplete` | interst/pages/index/index.js:146-148 | every particle whose stepped life is > 0 survives |
| `Particles.SurvivorsAppend` | interst/pages/index/index.js:124-149 | the filter works piecewise on concatenations, so relative order is kept |
| `Particles.SurvivorsWellFormed` | interst/pages/index/index.js:124-149 | the filter keeps the particle invariant (trail ≤ 20 ending at the position, size ≤ target + 0.5, life > 0) |
| `Particles.RandomParticles` | interst/pages/index/index.js:113-118 | one random particle per draw, in order, each satisfying the particle invariant |
| `Particles.FilterParticles` | interst/pages/index/index.js:124-149 | the filter loop yields exactly the survivors |
| `Particles.Refilled` | interst/pages/index/index.js:152-154 | the survivors are kept as a prefix; the list is unchanged at ≥ 30, otherwise topped up with random particles to exactly 30 |
| `Particles.Refill` | interst/pages/index/index.js:152-154 | the while loop produces the refilled list |
| `Particles.RefilledWellFormed` | interst/pages/index/index.js:152-154 | refilling keeps the particle invariant |
| `Particles.SpawnCoordinate` | interst/pages/index/index.js:273-274 | 50 + r·(extent − 100) lies at least 50 inside both edges when the extent is at least 100 |
| `Particles.NewTextParticle` | interst/pages/index/index.js:267-281 | the spawned text particle has the given id, a text from the source list and a palette colour; 50 ≤ x ≤ width − 50 on a canvas at least 100 wide and 50 ≤ y ≤ height − 50 on one at least 100 high; velocity in [−0.5, 0.5); size in [14, 34); opacity 0 and target in [0.4, 1) |
| `Particles.TextStep` | interst/pages/index/index.js:290-309 | moves by the velocity; a component whose new coordinate left the canvas is reversed; opacity never decreases, grows by at most 0.02, strictly grows while below target and does not pass it; other fields unchanged |
| `Particles.Min` | interst/pages/index/index.js:301 | `Math.min`: at most both arguments and equal to one of them |
| `Particles.FadeInReachesTarget` | interst/pages/index/index.js:299-302 | starting from 0, the opacity after k updates is min(0.02·k, target) |
| `Particles.Near` | interst/pages/index/index.js:347-348 | a particle within reach (distance below 150) lies inside the 300-wide square around the touch, and one less than 100 away on both axes is within reach |
| `Particles.Nudge` | interst/pages/index/index.js:346-352 | a particle closer than 150 to the touch gains 0.02 of the swipe in its velocity; others are unchanged; only the velocity changes |
| `Particles.NudgeKeepsWellFormed` | interst/pages/index/index.js:349-350 | a nudge keeps the particle invariant |
| `Particles.BurstSpeed` | interst/pages/index/index.js:222 | the burst speed lies in [2, 6) |
| `Particles.Burst` | interst/pages/index/index.js:221-230 | a burst particle starts at the touch (0 read as falsy), with size in [5, 20), a palette colour, decay 0.01 and velocity = direction · speed; it satisfies the particle invariant |
| `Particles.ParticlePage.constructor` | interst/pages/index/index.js:13-38 | a new page has a 0 × 0 canvas, no drawing context, no palette, no particles, no text particles and id counter 0 |
| `Particles.ParticlePage.OnCanvasQuery` | interst/pages/index/index.js:57-73 | when the query finds the canvas, the page gets a drawing context and takes the canvas size; when it does not, nothing changes |
| `Particles.ParticlePage.InitColors` | interst/pages/index/index.js:77-80 | the palette becomes the one picked by the draw, which is never empty |
| `Particles.ParticlePage.InitParticles` | interst/pages/index/index.js:113-118 | appends exactly 50 random particles and keeps the page invariant |
| `Particles.ParticlePage.UpdateParticles` | interst/pages/index/index.js:123-155 | the list becomes the refilled survivors of one step, holds at least 30 particles and keeps the page invariant |
| `Particles.ParticlePage.SplitParticles` | interst/pages/index/index.js:218-235 | appends exactly 8 burst particles, the i-th along direction i; existing particles are unchanged; the invariant is kept |
| `Particles.ParticlePage.OnTouchStart` | interst/pages/index/index.js:323-335 | remembers the touch and bursts 8 particles there |
| `Particles.ParticlePage.OnTouchMove` | interst/pages/index/index.js:340-355 | each particle is nudged by the movement since the last touch; the count is kept; the touch becomes the last position |
| `Particles.ParticlePage.SpawnTick` | interst/pages/index/index.js:265-286 | below 8 text particles, appends one with the next id and advances the counter; at 8 nothing changes; the cap, increasing ids and opacity bounds are kept |
| `Particles.ParticlePage.UpdateTextParticles` | interst/pages/index/index.js:289-313 | every text particle takes one text step; the count, ids and the invariant are kept |
| `Particles.ParticlePage.Animate` | interst/pages/index/index.js:242-250 | without a drawing context nothing changes and no frame is scheduled; with one, the particles become the refilled survivors of a step, every text particle takes a text step, and the next frame is scheduled |
| `Particles.ParticlePage.AdvanceFrame` | interst/pages/index/index.js:245-247 | one frame: particles become the refilled survivors of a step, then every text particle takes a text step |
| `Particles.ParticlePage.OnLoad` | interst/pages/index/index.js:40-46 | picks the palette, appends 50 random particles drawn over the canvas size of that moment, and runs the first animate; the animation goes on iff the drawing context already exists, and then the particles are the refilled survivors of a step and every text particle has taken a text step; without the context the text particles are unchanged |
| `Particles.ParticlePage.OnCanvasReady` | interst/pages/index/index.js:57-73 | the intended start-up from the query callback: the canvas is sized, the context exists, the 50 particles are drawn over the sized canvas and the animation runs |
| `Particles.LoadPage` | interst/pages/index/index.js:40-46 | on a new page whose canvas query has not answered, onLoad leaves the animation stopped and all 50 initial particles at (0, 0) |
| `Particles.UnsizedCanvasPlacesAtOrigin` | interst/pages/index/index.js:92-93 | over a 0 × 0 canvas every random particle starts at (0, 0) |
| `Particles.RandomParticlesOnCanvas` | interst/pages/index/index.js:92-93 | over a canvas of positive size every random particle starts inside it |

## Findings

| source | as written | input that shows it | evidently intended | confidence | as-written member | corrected member |
|---|---|---|---|---|---|---|
| interst/pages/index/index.js:40-46 | onLoad calls initParticles and startAnimation right after initCanvas, whose selector query answers asynchronously; animate returns at line 243 while `ctx` is null, so no frame is ever scheduled (startAnimation has no other caller), and the 50 initial particles are drawn over a 0 × 0 canvas | any page load where the query callback runs after onLoad returns | initialise the particles and start the animation once the callback has set the context and the canvas size | medium, not executed; rests on the query callback running after onLoad | `Particles.LoadPage` | `Particles.ParticlePage.OnCanvasReady` |

## Left out

- Model training, `predict`/`predict_proba`, `f1_score`, `StandardScaler` and `train_test_split` are foreign library calls. Their results, the per-model probabilities and F1 scores, are parameters.
- Evaluation, all plotting, CSV and report-file I/O, console output, and the `main` pipelines are not modelled; `load_data` and `load_raw_data` are I/O.
- pandas `quantile` is not modelled: Q1 and Q3 are parameters. pandas `median` is replaced by a sort-based specification.
- `df.isnull().sum()` in `analyze_data_quality` is not modelled: the model has no missing cells (NaN).
- Column order is not modelled: a frame is a map, and `detect_outliers` iterates its columns in an arbitrary order. `select_dtypes` is taken to keep every column, since all columns of the data are numeric.
- Floating-point rounding is not modelled: everything is exact `real`, and 1e-6 is an exact constant.
- `DiabetesRisk.RiskPredictionSystem.FusionPredict`: weighted mode requires the weights to be keyed by exactly the models and to have a non-zero total. The source's `fusion_weights.get(name, 1.0)` default never applies then. The source's unguarded division by a zero total (inf/NaN) is excluded.
- `DiabetesRisk.FeatureEngineering`: requires Glucose + 1e-6 ≠ 0 when Insulin is present, where IEEE division would give inf; `DiabetesRisk.DeriveFeatures` likewise.
- `DiabetesRisk.RiskPredictionSystem.FusionPredict`: a method argument other than 'weighted' or 'voting' makes the source raise UnboundLocalError at its return; the model's `FusionMethod` has only the two values.
- `DiabetesRisk.RiskPredictionSystem.PredictSinglePatient`: the scaling step is foreign, so the fused probabilities of the scaled record come in as parameters. The ValueError that `scaler.transform` raises when the record's fields are not the training columns is therefore not modelled.
- `Preprocessing.AnalyzeDataQuality`: requires a non-empty frame. numpy gives NaN for an empty one.
- `Preprocessing.HandleZeroValues`: when the frame has all five columns, requires that each of them with a zero also has a non-zero value. A column of only zeros makes pandas write NaN over its zeros. The replaced counts are returned here; the source only prints them.
- `Preprocessing.Completeness`: the KeyError carries the first missing column, where pandas lists every missing one.
- `Preprocessing.DetectOutliers`: the text report file is not modelled.
- `Particles.ParticlePage.SplitParticles`: the burst directions come in as vectors without proving that they are (cos 2πi/8, sin 2πi/8), since trigonometry is not modelled. `wx.vibrateShort` is dropped.
- `Particles.Near` compares squared distances (dx² + dy² < 150²), which is exact over reals in place of `Math.hypot`.
- Particles are values in a sequence field; the source updates the same objects in place. Nothing else holds a reference to them, so no aliasing is lost.
- The asynchronous `initCanvas` query is its callback, `OnCanvasQuery`, called whenever the caller chooses. The device pixel ratio scaling is drawing only.
- `drawParticles`, `stopAnimation`, requestAnimationFrame itself (`Animate` returns whether a frame is scheduled), the `setInterval` timer itself, `onTouchEnd`, `onLongPress`, `toggleMusic`, `sharePoster`, `resetCanvas` and `onShareAppMessage` are rendering, timers or wx calls. `touchStartTime` and the long-press timer of `onTouchStart` are dropped with them. `resetCanvas` also calls initColors and initParticles, which are modelled.
- `Math.PI` is the decimal 3.141592653589793.

# Respondent rating engine — a Dafny model

This project models the rating engine of the health questionnaire. The engine takes one
respondent's answers and profile and produces a flat scorecard:

- **Routing.** Each answer's question tag is either intercepted by a special handler or
  looked up in the category table. Special handlers exist for waist, hip, cholesterol,
  glucose, existing diseases, blood pressure and the per-topic side lists. A tag found in
  the table extends that category's bucket; any other tag is ignored.
- **Handlers.** The handlers store measurements, mark readings unknown and append scores.
  The two smoking answers overwrite their slots instead of being pooled.
- **Post-processing.** This step appends further scores to the record:
  - a capped smoking index to the lifestyle bucket;
  - the BMI, waist/hip-ratio, blood-pressure and glucose scores to the medico-biological
    bucket.

  It also derives the issue flags from the per-topic lists.
- **Averaging and rating.** Each category's average is the mean of its positive values,
  with lifestyle values capped at 1.0. The total score is the same kind of mean over the
  category averages, and a four-tier rating is picked from the total.

Modules, in dependency order:

- `options.dfy`: `Option`.
- `taxonomy.dfy`: categories, the category table and its first-match lookup, and the tags
  that special handlers intercept.
- `pytext.dfy`: Python's `str.split` and `int()`, as the blood-pressure handler uses them.
- `medical.dfy`: the profile, the BMI table scan, and the waist, ratio, blood-pressure,
  glucose, cholesterol and smoking classifiers with their scores.
- `averaging.dfy`: `safe_average`, the per-category averages, the total score and the rating.
- `flags.dfy`: issue flags computed from the per-topic lists.
- `aggregator.dfy`: the collected record, in two forms:
  - pure functions `Step`, `Collect` and `PostProcess`, which say what each operation does
    to the record;
  - the class `ResponseData`, whose handler methods update the record in place and are each
    proved against those functions.

  The file also holds an independent, per-answer account of the buckets (`Contributions`)
  and the invariant every reachable record keeps (`WellFormed`).
- `rating.dfy`: the scorecard (`initialize_base_result`, `update_result`,
  `calculate_user_rating`) and its properties.

Choices the code makes and the model follows:

- **Rating labels.** They are "Оптимальный", "Допустимый", "Удовлетворительный" and
  "Неудовлетворительный". The project's tests expect other spellings.
- **Category lookup arity.** The lookup takes only the question tag. The tests call it with
  two arguments.
- **Per-topic tags.** Tags such as "СОН" or "ЗАВТРАК" feed only their side lists and never a
  category bucket.
- **Scores from handlers.** The waist and cholesterol handlers append their scores straight
  into the medico-biological bucket.
- **Other gender values.** A gender other than 'M' and 'F' gets the women's waist and ratio
  score thresholds. Its ratio status compares against neither threshold and is always "Норма",
  so from a ratio of 0.85 on its score (0.0) and its status disagree.
- **Gaps in the BMI table.** A BMI that falls between two rows (e.g. 24.9 < x < 25.0) keeps the
  "Не рассчитан" category, yet its value is still reported.

## Model

| member | source | states |
|---|---|---|
| Taxonomy.FindCategory | src/questionnaire/utils.py:402-407 | First-match lookup: no category exactly when no row lists the tag; otherwise the category of a row that lists it, with no earlier row listing it |
| Taxonomy.SmokingTagsNotIntercepted | src/questionnaire/utils.py:410-590 | Neither smoking tag is intercepted by a special handler |
| Taxonomy.FirstListingRow | src/questionnaire/utils.py:402-407 | When row k is the first row listing the tag, the lookup answers with row k's category |
| Taxonomy.GetResponseCategory | src/questionnaire/utils.py:402-407 | No category iff no row of the table lists the tag; otherwise the answer is the category of a row that lists the tag, and no earlier row lists it |
| Taxonomy.SmokingTagsAreLifestyle | src/questionnaire/utils.py:8-57 | Both smoking tags are looked up in the lifestyle category |
| PyText.Split | src/questionnaire/utils.py:675 | `str.split`: one part more than separators, no part holds the separator, and joining the parts with it gives back the text |
| PyText.ParseIntOfIntToString | src/questionnaire/utils.py:675 | `int(str(n)) == n` for every integer |
| PyText.ParseInt | src/questionnaire/utils.py:675 | A text is read as an integer only if it holds a digit, so empty or letter-only text is rejected |
| PyText.ParseIntAcceptsBlanksAndPlus | src/questionnaire/utils.py:675 | `int` accepts surrounding blanks and a plus sign: " +" followed by the digits of n and a blank reads as n |
| PyText.DigitsExample | src/questionnaire/utils.py:675 | A single underscore between digits is accepted: "1_2" reads as 12 |
| PyText.ParseBloodPressure | src/questionnaire/utils.py:673-682 | A reading is parsed only from a text with exactly one '/' |
| PyText.ParseBloodPressureRoundTrip | src/questionnaire/utils.py:673-682 | "systolic/diastolic" written from two integers parses back to those two integers |
| PyText.ParseBloodPressureNeedsOneSlash | src/questionnaire/utils.py:673-682 | Any text whose '/' count is not 1 gives no reading (the unknown path) |
| Medical.FirstMatch | src/questionnaire/utils.py:232-239 | The row found is the first row at or after the start whose inclusive range holds the value; None means no such row |
| Medical.CalculateBmiData | src/questionnaire/utils.py:212-244 | The scanning loop returns exactly the first-match BMI record of the profile |
| Medical.BmiRowsDisjoint | src/questionnaire/utils.py:64-138 | No value lies in two rows of the BMI table |
| Medical.BmiComputedIff | src/questionnaire/utils.py:212-244 | A value is computed iff height and weight are present and positive, and it is weight/(height/100)²; otherwise the category is "Не рассчитан" |
| Medical.BmiNormalIff | src/questionnaire/utils.py:64-138 | The category is "Нормальный ИМТ" iff the unrounded BMI lies in [18.5, 24.9] |
| Medical.BmiGapKeepsDefault | src/questionnaire/utils.py:214-239 | A BMI strictly between 24.9 and 25.0 keeps the default category but has a value |
| Medical.BmiExample | src/questionnaire/utils.py:212-244 | 170 cm and 70 kg give the normal category |
| Medical.BmiScore | src/questionnaire/utils.py:145-151 | The score is 1.0 iff the category is "Нормальный ИМТ", otherwise 0.0 (unlisted categories default to 0.0) |
| Medical.WaistStatus | src/questionnaire/utils.py:1060-1105 | A status is given iff a non-zero waist and a gender are present; it is "high" iff the waist reaches 102 cm (men) or 88 cm (others), "normal" iff it is below 94 cm or 80 cm, and "normal" goes with the reduced-risk text |
| Medical.WaistStatusMonotone | src/questionnaire/utils.py:1072-1102 | A larger waist never gets a milder status |
| Medical.WaistScoreAgreesWithStatus | src/questionnaire/utils.py:599-604 | The waist score is 1.0 iff the status is "Норма", except at exactly 94 cm (men) or 80 cm (others), which scores 1.0 but shows as raised |
| Medical.WaistHipRatio | src/questionnaire/utils.py:934 | The ratio is reported iff both measurements are present, the waist is non-zero and the hip is positive |
| Medical.RatioStatus | src/questionnaire/utils.py:1108-1132 | A status is given iff both measurements are non-zero and a gender is set; it is raised iff the ratio reaches 0.9 for a man or 0.85 for a woman, otherwise normal (never "high"); raised goes with the metabolic-risk text and normal with the reduced-risk text |
| Medical.RatioScores | src/questionnaire/utils.py:719-728 | Exactly one ratio score is appended when both measurements exist and the hip is positive, none otherwise |
| Medical.RatioScoreAgreesWithStatus | src/questionnaire/utils.py:719-728 | For a man or a woman the ratio scores 1.0 iff its status is "Норма" |
| Medical.OtherGenderRatioDisagrees | src/questionnaire/utils.py:1108-1132 | For a gender other than 'M' or 'F' and a ratio of at least 0.85, the score is 0.0 (0.85 threshold) while the status is "Норма" with the reduced-risk text |
| Medical.RatioExamples | src/questionnaire/utils.py:1108-1132 | The worked ratios: 75/95 (F) normal, 85/95 (F) and 95/100 (M) raised |
| Medical.BpStatusMonotone | src/questionnaire/utils.py:864-877 | Raising either reading never lowers the blood-pressure status |
| Medical.GetBpStatus | src/questionnaire/utils.py:864-877 | "Unknown" iff a reading is missing or flagged unknown; otherwise "high" iff systolic ≥ 140 or diastolic ≥ 90, "elevated" iff below that but systolic ≥ 130 or diastolic ≥ 85, "normal" iff systolic < 130 and diastolic < 85 |
| Medical.BpScore | src/questionnaire/utils.py:730-733 | The score is 1.0 iff the reading is usable and below 130/85, otherwise 0.0 |
| Medical.BpExamples | src/questionnaire/utils.py:864-877 | 120/80 normal, 135/85 elevated, 150/95 high, and an unknown reading is unknown |
| Medical.GetGlucoseStatus | src/questionnaire/utils.py:1141-1152 | The status is "unknown" iff the value is missing or 0 |
| Medical.GlucoseStatusCases | src/questionnaire/utils.py:1141-1152 | The capillary text appears iff the value exceeds 5.6 and the venous one iff it exceeds 6.1, joined with ", "; otherwise "норма" |
| Medical.GlucoseScore | src/questionnaire/utils.py:735-745 | The score is 1.0 iff the value is known and at most 5.6, otherwise 0.0 |
| Medical.GlucoseScoreAgreesWithStatus | src/questionnaire/utils.py:735-745 | For a stored known reading the score is 1.0 iff the status is "норма" |
| Medical.CholesterolStatus | src/questionnaire/utils.py:959 | The status is "high" iff a value above 5.5 is present |
| Medical.CholesterolScoreAgreesWithStatus | src/questionnaire/utils.py:634 | For a positive value the score is 1.0 iff the status is "normal" |
| Medical.SmokingIndex | src/questionnaire/utils.py:975-980 | An index is reported iff both cigarettes and years are positive, and it is then positive |
| Medical.SmokingScores | src/questionnaire/utils.py:707-713 | One lifestyle score iff both smoking answers are positive; it is the index when at most 1.0 and exactly 1.0 above that, so it lies in (0, 1] |
| Medical.SmokingExample | src/questionnaire/utils.py:707-713 | 10 cigarettes for 5 years give index 2.5, capped to 1.0 |
| Averaging.Positives | src/questionnaire/utils.py:896 | Every kept value is positive, and a value is kept iff it is a positive member of the input |
| Averaging.PositivesAppend | src/questionnaire/utils.py:896 | Filtering a concatenation is the concatenation of the filtered parts, so the kept values stay in input order |
| Averaging.PositivesCount | src/questionnaire/utils.py:896 | Each positive value is kept as many times as it occurs, and no other value is kept |
| Averaging.PositivesIdempotent | src/questionnaire/utils.py:900-903 | Filtering the positive values twice changes nothing |
| Averaging.SafeAverage | src/questionnaire/utils.py:894-897 | The average is never negative, and it is 0.0 iff no value is positive |
| Averaging.SafeAverageIgnoresNonPositive | src/questionnaire/utils.py:894-897 | Dropping the values at or below zero first does not change the average |
| Averaging.SafeAverageExample | src/questionnaire/utils.py:894-897 | The zero in [0.0, 1.0, 0.5] is skipped, so the average is 0.75 |
| Averaging.SafeAverageBounds | src/questionnaire/utils.py:894-897 | With a positive value present, the average lies within any bounds of the positive values |
| Averaging.BinaryScoresAverage | src/questionnaire/utils.py:894-897 | 0/1 scores average to 0.0 or 1.0, because zeros are skipped |
| Averaging.Capped | src/questionnaire/utils.py:884-885 | Capping keeps the length, turns every value above 1.0 into exactly 1.0 and leaves values at most 1.0 unchanged |
| Averaging.LifestyleAverageAtMostOne | src/questionnaire/utils.py:880-891 | The lifestyle average lies in [0, 1] whatever its values |
| Averaging.CalculateCategoryAverages | src/questionnaire/utils.py:880-891 | The loop yields one average per category, each the non-zero mean of the (capped, for lifestyle) values |
| Averaging.AverageValues | src/questionnaire/utils.py:902 | Every collected value is the average of a listed category, every listed category with an average contributes it, and when all listed categories have one the result holds them in list order |
| Averaging.TotalScore | src/questionnaire/utils.py:900-903 | The total is the non-zero mean of the averages of all six categories in table order (the pre-filter is redundant) |
| Averaging.TotalScoreBounds | src/questionnaire/utils.py:900-903 | With averages in [0, 1] the total is in [0, 1], and it is 0.0 iff no average is positive |
| Averaging.DetermineRating | src/questionnaire/utils.py:906-914 | "Неудовлетворительный" iff the total is at most 0.47, "Удовлетворительный" iff in (0.47, 0.67], "Допустимый" iff in (0.67, 0.89], "Оптимальный" iff above 0.89; never "Нет данных" |
| Averaging.RatingMonotone | src/questionnaire/utils.py:906-914 | A higher total never gets a lower tier |
| Flags.ExtendTopic | src/questionnaire/utils.py:438-588 | The topic's list grows by the answer's values, and every other list is unchanged |
| Flags.EmotionalOf | src/questionnaire/utils.py:810-821 | The 0 flag is raised iff a value is 0; the 0.5 flag iff a value is 0.5 and none is 0; the 0.79 flag iff a value is 0.79 and none is 0 or 0.5; "all healthy" iff every value is 1.0; so at most one flag is raised |
| Flags.ComputeFlags | src/questionnaire/utils.py:747-861 | Only single-flag topics are reported as issues |
| Flags.NoAnswersNoIssues | src/questionnaire/utils.py:747-861 | With no answers no issue is raised, and emotional eating counts as healthy |
| Flags.IssuesPersist | src/questionnaire/utils.py:747-861 | Appending answers never clears a raised issue |
| Flags.TrioPersists | src/questionnaire/utils.py:765-770 | Appending answers never clears a raised 0/0.5/0.79 flag |
| Flags.SingleAnswerIssues | src/questionnaire/utils.py:747-861 | A lone 1.0 raises nothing; a lone 0.79 is an issue iff the topic uses the wide set |
| Flags.AnyInAppend | src/questionnaire/utils.py:747-861 | A concatenation holds a value of a set iff one of its parts does, which is why appending answers can only add issues |
| Aggregator.Weights | src/questionnaire/utils.py:388-389 | A value is produced iff some selected option carries it as its weight, and never more values than options |
| Aggregator.WeightsAppend | src/questionnaire/utils.py:388-389 | The weights of concatenated selections are the concatenated weights, so they keep selection order |
| Aggregator.ExtendBucket | src/questionnaire/utils.py:398-399 | Only the named bucket grows, by the given values |
| Aggregator.MedicoScores | src/questionnaire/utils.py:715-745 | Post-processing appends 3 medico-biological scores, or 4 with a ratio, each 0.0 or 1.0 |
| Aggregator.SpecialStepBucket | src/questionnaire/utils.py:410-590 | An intercepted answer adds exactly its routed contribution to each bucket |
| Aggregator.CategoryStepBucket | src/questionnaire/utils.py:391-399 | A non-intercepted answer adds exactly its routed contribution to each bucket |
| Aggregator.StepBucket | src/questionnaire/utils.py:381-399 | One answer adds exactly its own contribution to every bucket |
| Aggregator.CollectBuckets | src/questionnaire/utils.py:372-373 | After any answers, each bucket is the in-order concatenation of the answers' contributions |
| Aggregator.CollectTopics | src/questionnaire/utils.py:438-588 | After any answers, each topic list is the in-order concatenation of the values of the answers routed to that topic |
| Aggregator.IssueRaisedIff | src/questionnaire/utils.py:747-861 | A topic is reported as an issue iff it is a single-flag topic and some answer routed to it carries a value of its issue set |
| Aggregator.InterceptedLeaveBuckets | src/questionnaire/utils.py:410-590 | Intercepted tags other than waist and cholesterol contribute to no bucket |
| Aggregator.UnknownTagChangesNothing | src/questionnaire/utils.py:381-399 | A tag neither intercepted nor listed leaves the record unchanged |
| Aggregator.CategorisedTagExtendsOwnBucket | src/questionnaire/utils.py:391-399 | A listed, non-intercepted, non-smoking tag extends exactly its own bucket and changes nothing else |
| Aggregator.SmokingAnswerOverwrites | src/questionnaire/utils.py:687-701 | A smoking answer overwrites its slot with its first value (0 without one) and raises the alert; nothing else changes |
| Aggregator.SmokingScoreIsCapped | src/questionnaire/utils.py:707-713 | The smoking score is the index capped by the same min(v, 1.0) that lifestyle averaging applies |
| Aggregator.CholesterolZeroIsUnknown | src/questionnaire/utils.py:623-639 | A cholesterol answer of 0 is stored as unknown without a value, yet a 0.0 score is appended |
| Aggregator.DiseasesStepAppends | src/questionnaire/utils.py:660-664 | The disease list grows by the texts of the selected options in order, then by the free text when it is non-empty; nothing else in the record changes |
| Aggregator.BloodPressureStepReading | src/questionnaire/utils.py:667-684 | The reading becomes unknown iff the text does not parse; a failed parse keeps the old readings, a parsed one stores both numbers; nothing else changes |
| Aggregator.StepWellFormed | src/questionnaire/utils.py:381-399 | Each answer keeps the record well formed: all six buckets, circumferences in [50, 200], no stored lab value of 0 |
| Aggregator.CollectWellFormed | src/questionnaire/utils.py:247-373 | The record after any answers is well formed |
| Aggregator.PostScoresInUnit | src/questionnaire/utils.py:704-745 | Each post-processing score lies in [0, 1], and at most four go to one bucket |
| Aggregator.PostProcessWellFormed | src/questionnaire/utils.py:704-745 | Post-processing keeps the record well formed |
| Aggregator.PostProcessScores | src/questionnaire/utils.py:704-745 | Post-processing appends the smoking score to lifestyle and the medical scores to medico-biological, leaving other buckets unchanged |
| Aggregator.ResponseData.constructor | src/questionnaire/utils.py:249-368 | The fresh record holds empty buckets for all categories and nothing else |
| Aggregator.ResponseData.HandleWaistMeasurement | src/questionnaire/utils.py:593-607 | The new state is the waist step applied to the old one |
| Aggregator.ResponseData.HandleHipMeasurement | src/questionnaire/utils.py:610-620 | The new state is the hip step applied to the old one |
| Aggregator.ResponseData.HandleCholesterol | src/questionnaire/utils.py:623-639 | The new state is the cholesterol step applied to the old one |
| Aggregator.ResponseData.HandleGlucose | src/questionnaire/utils.py:642-657 | The new state is the glucose step applied to the old one |
| Aggregator.ResponseData.HandleDiseases | src/questionnaire/utils.py:660-664 | The new state is the diseases step applied to the old one |
| Aggregator.ResponseData.HandleBloodPressure | src/questionnaire/utils.py:667-684 | The new state is the blood-pressure step applied to the old one |
| Aggregator.ResponseData.HandleLifestyleResponse | src/questionnaire/utils.py:687-701 | The new state is the lifestyle step applied to the old one |
| Aggregator.ResponseData.HandleSpecialQuestions | src/questionnaire/utils.py:410-590 | Reports true iff the tag is intercepted; then it applies that handler's step, otherwise it changes nothing |
| Aggregator.ResponseData.ProcessSingleResponse | src/questionnaire/utils.py:381-399 | The new state is one answer's step applied to the old one |
| Aggregator.ResponseData.AddSmokingScore | src/questionnaire/utils.py:707-713 | Only the lifestyle bucket changes, growing by the capped smoking score |
| Aggregator.ResponseData.AddMedicoScores | src/questionnaire/utils.py:715-745 | Only the medico-biological bucket changes, growing by the BMI, ratio, blood-pressure and glucose scores |
| Aggregator.ResponseData.PostProcessData | src/questionnaire/utils.py:704-861 | The new state is the post-processing of the old one |
| Aggregator.ProcessResponses | src/questionnaire/utils.py:247-378 | A fresh record is returned, holding the post-processed fold of all answers in order |
| Rating.CalculateUserRating | src/questionnaire/utils.py:166-181 | The result is the scorecard of the profile and answers, and it is "Нет данных" iff there are no answers |
| Rating.BaseResultEmpty | src/questionnaire/utils.py:184-199 | The base scorecard has an average of 0.0 for each of the six categories, a total of 0.0, the rating and BMI "Нет данных", the BMI category "Не рассчитан", the risk level "Не определен" with the no-data description, and no details |
| Rating.UpdateResultFills | src/questionnaire/utils.py:917-1057 | The new averages are merged over the old ones (a new value wins, an old one without a new value stays), the rating is that of the total, the BMI fields are copied and the details are those of the record |
| Rating.RatingNoDataIff | src/questionnaire/utils.py:166-199 | "Нет данных" iff there are no answers, exactly then there are no details, and otherwise the rating is that of the total |
| Rating.ProcessedWellFormed | src/questionnaire/utils.py:247-378 | The post-processed record of any answers is well formed |
| Rating.ScorecardAverages | src/questionnaire/utils.py:920 | The reported averages are exactly the per-category averages of the record |
| Rating.AveragesComplete | src/questionnaire/utils.py:880-891 | Every category has an average, and the lifestyle average lies in [0, 1] |
| Rating.ContributionsInUnit | src/questionnaire/utils.py:381-399 | When every answer filed raw into a category (not intercepted, listed, not a smoking tag) has values in [0, 1], all contributions lie in [0, 1]; measurements and cigarette counts are unconstrained |
| Rating.ContributionsBinary | src/questionnaire/utils.py:593-639 | When no answer is filed directly under medico-biological, the answers put only 0.0 and 1.0 there |
| Rating.PostProcessedInUnit | src/questionnaire/utils.py:704-745 | Post-processing keeps a bucket's values within [0, 1] |
| Rating.ProcessedInUnit | src/questionnaire/utils.py:247-378 | Under the same condition on raw-filed answers only, every post-processed bucket holds values in [0, 1] |
| Rating.ScorecardInUnit | src/questionnaire/utils.py:917-1050 | From buckets in [0, 1], every average and the total lie in [0, 1], and the total is 0.0 iff no average is positive |
| Rating.TotalScoreInUnit | src/questionnaire/utils.py:166-181 | When the answers filed raw into categories have values in [0, 1] (whatever the measurements, lab values and cigarette counts), every reported average and the total lie in [0, 1], and the total is 0.0 iff no average is positive |
| Rating.ProcessedMedicoBinary | src/questionnaire/utils.py:247-378 | The post-processed medico-biological bucket holds only 0.0 and 1.0 when no answer is filed there directly |
| Rating.MedicoAverageIsBinary | src/questionnaire/utils.py:880-897 | The medico-biological average is then 0.0 or 1.0 |
| Rating.DetailsOfAgree | src/questionnaire/utils.py:917-981 | From a well-formed record, the reported details agree: circumferences in [50, 200], ratio in [0.25, 4], "unknown" glucose flagged unknown, "high" cholesterol with a value, disease list only when non-empty |
| Rating.DetailsConsistent | src/questionnaire/utils.py:917-981 | A non-empty questionnaire reports details, and they agree with one another |
| Rating.RatioWithinBounds | src/questionnaire/utils.py:934 | Two circumferences in [50, 200] have a ratio in [0.25, 4] |

## Left out

- Database access is not modelled. `get_user_responses` and `save_survey_results` are ORM
  queries and a transaction, so the answers are passed in as a sequence.
- Rounding is not modelled. `round(…, 4)` in `safe_average`, `round(bmi, 1)`, the final
  `round(…, 2)` and the rounding loop of `update_result` are dropped; all quantities are exact
  reals. Exact reals also mean binary-float effects, such as a stored 0.79 compared against the
  literal 0.79, are not modelled.
- Python exceptions are not modelled. A failing `float()` cast and the
  `ZeroDivisionError`/`TypeError` guards have no counterpart: numbers arrive as `Option<real>`,
  and an absent number takes the "unknown" path.
- The long advisory texts (the BMI risk descriptions, the waist and ratio descriptions, and the
  blood-pressure descriptions) are modelled as enumeration tags, not prose. Status names, labels
  and the glucose texts are kept as exact strings.
- Gender is 'M', 'F', not set (None or blank), or any other non-blank value taken as one
  case. The form offers only 'M' and 'F', but the database also stores other one-letter values.
  Which letter it is does not matter to the engine, so the letter itself is not kept.
- Free text is a plain string. The empty string is the absent or falsy case.
- `int()` accepts ASCII digits and ASCII whitespace only. Python also accepts other Unicode
  decimal digits and whitespace.
- The scorecard is a value, not a dictionary updated key by key. The per-category average
  keys (`stress_avg`, …) are the map from categories. Flags that the Python implementation stores as separate
  keys are grouped into records, and the vacation, alcohol, fruit and oil answers are the
  `marks` set.
- Per-topic lists begin as an empty map, and a missing topic reads as the empty list. The
  Python implementation pre-creates every list.
- Rating.MedicoAverageIsBinary: it assumes that no answer is filed directly under
  medico-biological, so it is weaker than a property of all inputs. A tag in that category's
  row that no handler intercepts would add its raw values there.
- PyText.ParseInt: its own contract says only that a parsed text contains a digit. What it
  accepts is stated by the round-trip and example lemmas in the table, not as a full
  characterisation of Python's integer syntax.

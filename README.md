# GPT-Driver prompt building and in-context evaluation, in Dafny

GPT-Driver casts motion planning as a language task: each nuScenes sample is described to a chat model as text, and the model answers with its reasoning and a six-waypoint trajectory. This project models three parts of that pipeline and proves properties about them:

- **The prompt builder** (`prompt_message.py`). It writes the user message of a sample: the relevant objects, the ego states, the history and the mission goal. It writes the assistant message: the chain of thoughts built by the rule-based collision scan, the meta action and the ground-truth trajectory. It also writes the worked example that combines the two.
- **The in-context evaluation driver** (`incontext_learning.py`). For every test sample it picks five worked training examples and prepends them to the system prompt. When the token budget of 4096 would overflow, it falls back to shorter prompts. It asks the model, then records the answer and the trajectory read back from the answer's last line, or marks the sample invalid.
- **The packing script** (`pack_incontext_dict.py`). It keeps every logged answer whose last line reads as a 6 x 2 array.

Modules, in dependency order:

| module | file |
|---|---|
| `Wrappers` | `wrappers.dfy` |
| `Strings` | `strings.dfy` |
| `Format` | `format.dfy` |
| `Scene` | `scene.dfy` |
| `Collision` | `collision.dfy` |
| `EgoEstimate` | `ego_estimate.dfy` |
| `Relevance` | `relevance.dfy` |
| `CollisionFlags` | `collision_flags.dfy` |
| `Thoughts` | `thoughts.dfy` |
| `MetaAction` | `meta_action.dfy` |
| `UserMessage` | `user_message.dfy` |
| `Assistant` | `assistant.dfy` |
| `Decode` | `decode.dfy` |
| `Pack` | `pack.dfy` |
| `Incontext` | `incontext.dfy` |

The model cannot see inside some collaborators, so each one is a function-valued parameter that the contracts quantify over:

- `fmt: real -> string` is the `:.2f` formatting. Where a proof needs it, the precondition `FmtOneLine(fmt)` states that it never produces a newline.
- `norm: Point -> real` is `np.linalg.norm` of one row.
- `parse: string -> Option<Literal>` is `ast.literal_eval`. It returns None where the call raises.
- `count: string -> nat` is the tokenizer's `len(encoding.encode(...))`.
- `complete: (string, string) -> string` is the chat completion for a (system, user) pair.

Python exceptions that abort a run become `Result` failures:

- the `ValueError` of the lateral classifier becomes `UndefinedBehaviors`;
- the failed `assert forward > 0` becomes `MissionCommandInvalid`;
- a missing sample becomes `MissingSample`;
- the modulo by an empty training list becomes `NoTrainingTokens`.

Every loop of the source is a method with loop invariants. Each such method is proved equal to a specification function, and the lemmas state the properties of that function. The loop methods are `ListObjects`, `FutureTrajectoryText`, `FlagCollisions` (over an `array2<bool>`, like `object_collisons`), `RenderThoughts`, `BuildExamples`, `RunBatch` and `PackTranscripts`.

Line 265 of `collision_detection` requires the object to be strictly ahead (`y2 > y1`), so an object level with or behind the ego is never flagged; `Collision.DetectRequiresAhead` states this.

## Model

| member | source | states |
|---|---|---|
| Collision.Detect | gpt-driver/prompt_message.py:264-268 | Holds exactly when the object is within the summed half-sizes plus the lateral margin on x, strictly ahead of the ego, and closer ahead than the summed half-sizes plus the forward margin. |
| Collision.DetectTranslationInvariant | gpt-driver/prompt_message.py:264-268 | Shifting ego and object by the same offset does not change the verdict, so the test depends only on their relative position. |
| Collision.DetectRequiresAhead | gpt-driver/prompt_message.py:265 | An object level with or behind the ego is never a collision. |
| Scene.CumSum | gpt-driver/prompt_message.py:70 | Element k of `np.cumsum` is the sum of the first k+1 steps, and the length is kept. |
| Scene.FuturePositions | gpt-driver/prompt_message.py:213-214 | Predicted position k is the box centre plus the sum of the first k+1 displacements. |
| Scene.PathClosedForm | gpt-driver/prompt_message.py:213-215 | Point k of the seven-point path is the box centre plus the sum of the first k displacements, so the path starts at the box centre. |
| EgoEstimate.EstimatedVelocities | gpt-driver/prompt_message.py:199-207 | Seven velocities: zero first, then v + (k-1) a at step k. |
| EgoEstimate.EgoPath | gpt-driver/prompt_message.py:195-208 | The estimated ego path has one point per horizon step. |
| EgoEstimate.TriangularClosedForm | gpt-driver/prompt_message.py:199-208 | The accumulated acceleration count after k steps is k(k-1)/2. |
| EgoEstimate.VelocitySumClosedForm | gpt-driver/prompt_message.py:199-208 | The sum of the first k+1 estimated velocities is k v plus the triangular number of k times a. |
| EgoEstimate.EstimatedPathClosedForm | gpt-driver/prompt_message.py:199-208 | The ego is at k v + k(k-1)/2 a after k steps: constant-acceleration motion from the origin. |
| Relevance.FiltersAgree | gpt-driver/prompt_message.py:222-225 | The listing filter of lines 75-78, which tests the predicted positions and the box centre separately, and the reasoning filter, which tests the seven-point path, skip exactly the same objects. |
| Relevance.SurvivorIsAheadAndInRange | gpt-driver/prompt_message.py:222-225 | A kept object is ahead at some step and within the perception range on both axes at every step. |
| CollisionFlags.FirstHazardFrom | gpt-driver/prompt_message.py:226-236 | A returned step is at or after the start, inside the horizon, and a hazard. |
| CollisionFlags.FirstHit | gpt-driver/prompt_message.py:221-236 | A marked step belongs to a kept object and is a hazard inside the horizon. |
| CollisionFlags.FirstHazardFromIsFirst | gpt-driver/prompt_message.py:226-236 | The search returns step t exactly when t is a hazard and no step between the start and t is. |
| CollisionFlags.FirstHazardFromNone | gpt-driver/prompt_message.py:226-236 | The search returns nothing exactly when no step from the start on is a hazard. |
| CollisionFlags.FirstHitIsFirstHazard | gpt-driver/prompt_message.py:221-236 | An object is marked at t exactly when it is kept and t is its first step that is examined (mask positive, or t = 0) and collides. |
| CollisionFlags.FirstHitNone | gpt-driver/prompt_message.py:221-236 | An object is unmarked exactly when it is filtered or none of its examined steps collides. |
| CollisionFlags.FirstHitsAreFirstHazards | gpt-driver/prompt_message.py:220-236 | For every object: it is marked exactly when it is kept and some step is a hazard, and the mark is then its first hazardous step. |
| CollisionFlags.FlagCollisions | gpt-driver/prompt_message.py:219-236 | The 0/1 matrix has one row per object and seven columns, and cell (i, t) is set exactly when t is object i's first hazardous step. |
| Thoughts.Flagged | gpt-driver/prompt_message.py:244-246 | Lists only indices of marked objects. |
| Thoughts.FlaggedCompleteSorted | gpt-driver/prompt_message.py:244-246 | Lists every marked object, in strictly increasing order. |
| Thoughts.NotableLinesConcat | gpt-driver/prompt_message.py:244-254 | The notable lines are the concatenation of the objects' contributions, in object order. |
| Thoughts.NotableLinesArePairsOfFlagged | gpt-driver/prompt_message.py:244-254 | The notable lines are exactly the line pairs of the marked objects, in object order, each written at its own marked step. |
| Thoughts.NotableLinesLong | gpt-driver/prompt_message.py:239-254 | With any object marked, the notable lines are longer than the fixed "None" pair, so the two cases never look alike. |
| Thoughts.ThoughtsNoneIffNoFlags | gpt-driver/prompt_message.py:238-254 | The thoughts block is the fixed "None" pair exactly when no object is marked. |
| Thoughts.RenderObject | gpt-driver/prompt_message.py:245-254 | The column loop writes object i's pair at its marked step, or nothing. |
| Thoughts.EmptyMatrixIffNoFlags | gpt-driver/prompt_message.py:239 | `(object_collisons==0).all()` holds exactly when no object is marked. |
| Thoughts.RenderNotable | gpt-driver/prompt_message.py:244-254 | The object loop writes the notable lines of all objects. |
| Thoughts.RenderThoughts | gpt-driver/prompt_message.py:238-254 | The rendering over the matrix writes the specified thoughts block. |
| MetaAction.SpeedClass | gpt-driver/prompt_message.py:279-301 | Each of the seven speed classes is chosen exactly under its stated condition on the current and end speeds. |
| MetaAction.SpeedClassMeaning | gpt-driver/prompt_message.py:285-301 | Deceleration classes imply the end speed is lower, acceleration classes imply it is higher by at least the 0.5 margin, and constant speed means the speeds differ by less than 0.5. |
| MetaAction.Lateral | gpt-driver/prompt_message.py:308-324 | Each behaviour holds exactly under its condition on the future path; the ValueError occurs exactly when the path is not straight and ends at x = 0. |
| MetaAction.LateralMirror | gpt-driver/prompt_message.py:310-324 | Mirroring the path in x swaps left and right and keeps forward and the error. |
| MetaAction.MetaActionText | gpt-driver/prompt_message.py:276-353 | A stop reads "STOP\n". Otherwise the text fails exactly when the lateral classifier does. A success is upper-case and ends in a newline. |
| MetaAction.MetaActionParts | gpt-driver/prompt_message.py:352-353 | A moving meta action is the upper-cased behaviour, " WITH ", the upper-cased speed phrase and a newline. |
| MetaAction.StraightIsDefined | gpt-driver/prompt_message.py:310-311 | A straight path never raises. |
| Strings.LastSegmentIsSuffix | gpt-driver/incontext_learning.py:95 | `split("\n")[-1]` is a suffix without a newline, preceded by a newline when shorter than the text. |
| Strings.LastSegmentAfter | gpt-driver/incontext_learning.py:95 | After a final newline, the last segment is what follows it. |
| Strings.LastSegmentWhole | gpt-driver/incontext_learning.py:95 | A text without a newline is its own last segment. |
| Strings.Upper | gpt-driver/prompt_message.py:306 | `.upper()` keeps the length and leaves no lower-case letter. |
| Strings.UpperAppend | gpt-driver/prompt_message.py:352-353 | Upper-casing distributes over concatenation. |
| Strings.UpperKeepsUppercased | gpt-driver/prompt_message.py:353 | Upper-casing an upper-case text changes nothing. |
| Format.JoinOneLine | gpt-driver/prompt_message.py:183 | Joining newline-free items with a newline-free separator gives one line. |
| Format.PairListOneLine | gpt-driver/prompt_message.py:183 | A waypoint list is a single line when the number format writes no newline. |
| UserMessage.FutureTrajectoryText | gpt-driver/prompt_message.py:83-94 | The step loop writes the six-step future of the verbose listing. |
| UserMessage.StepsTextIsJoin | gpt-driver/prompt_message.py:85-94 | The step loop's output is the six steps joined by ", ", with no trailing separator; unknown steps read "(UN,UN)". |
| UserMessage.Relevant | gpt-driver/prompt_message.py:74-78 | Every listed object comes from the scene and passes the relevance filter, and every scene object that passes it is listed. |
| UserMessage.RelevantIsKeptInOrder | gpt-driver/prompt_message.py:74-78 | The relevant objects are the scene objects at exactly the positions whose object passes the filter, in increasing position order, one per position. |
| UserMessage.ListingIsRelevantObjects | gpt-driver/prompt_message.py:74-104 | The listing is the object lines of exactly the relevant objects, in scene order. |
| UserMessage.DescribeObject | gpt-driver/prompt_message.py:79-104 | One object's listing line, short or verbose. |
| UserMessage.ListObjects | gpt-driver/prompt_message.py:72-104 | The object loop writes the specified listing. |
| UserMessage.MissionGoal | gpt-driver/prompt_message.py:147-155 | RIGHT, LEFT or FORWARD by the first positive component in that order; the assertion fails exactly when none is positive. |
| UserMessage.OneHotGoal | gpt-driver/prompt_message.py:147-155 | A one-hot command always gives a goal, namely the direction of its hot component. |
| UserMessage.UserMessageOf | gpt-driver/prompt_message.py:51-159 | The user message fails exactly when the mission command is invalid. Otherwise it is the perception header, the relevant objects, the ego states, the history and the goal, in that order. |
| UserMessage.GenerateUserMessage | gpt-driver/prompt_message.py:51-159 | The appending code builds the specified user message. |
| Assistant.TrajectoryTextIsList | gpt-driver/prompt_message.py:169-183 | The trajectory line is the list of the six future ego waypoints after the current one. |
| Assistant.TrajectoryOneLine | gpt-driver/prompt_message.py:183 | The trajectory text is a single line. |
| Assistant.EgoMetaAction | gpt-driver/prompt_message.py:255-260 | The meta action of a sample fails exactly when the ego does not stop and the lateral classifier raises. |
| Assistant.SampleHits | gpt-driver/prompt_message.py:191-236 | One marked step per object, each inside the horizon. |
| Assistant.ChainOfThoughtsOf | gpt-driver/prompt_message.py:187-262 | The chain of thoughts fails exactly when the meta action does. |
| Assistant.ThoughtsNoneIffSafe | gpt-driver/prompt_message.py:219-241 | The thoughts say "None" exactly when every object is filtered or has no hazardous step along the estimated ego path. |
| Assistant.GenerateChainOfThoughts | gpt-driver/prompt_message.py:187-262 | The scan and rendering methods together write the specified chain of thoughts. |
| Assistant.AssistantMessageOf | gpt-driver/prompt_message.py:161-185 | With `traj_only` the message is the trajectory line alone. Otherwise it fails exactly when the meta action does. |
| Assistant.GenerateAssistantMessage | gpt-driver/prompt_message.py:161-185 | The method builds the specified assistant message. |
| Assistant.AssistantParts | gpt-driver/prompt_message.py:161-185 | A full assistant message is the chain of thoughts, "Trajectory:\n" and the trajectory line. |
| Assistant.AssistantEndsWithTrajectory | gpt-driver/prompt_message.py:161-185 | The last line of every assistant message is its trajectory line, which is the line the readers decode. |
| Assistant.IncontextMessageOf | gpt-driver/prompt_message.py:403-411 | A worked example fails exactly when its user or assistant part does. Otherwise it is the example headers, the user message, the output header and the assistant message. |
| Assistant.IncontextEndsWithTrajectory | gpt-driver/prompt_message.py:403-411 | A worked example also ends with the trajectory line. |
| Decode.Shape | gpt-driver/incontext_learning.py:98 | An atom has no dimension; a list's first dimension is its length. |
| Decode.LastLine | gpt-driver/incontext_learning.py:95 | The line read back holds no newline. |
| Decode.LooseDecode | gpt-driver/incontext_learning.py:95-99 | The driver accepts exactly the answers whose last line evaluates to a non-ragged literal, and keeps that literal. |
| Decode.StrictDecode | gpt-driver/pack_incontext_dict.py:14-19 | The packer accepts exactly what the driver accepts whose shape starts with 6, 2. |
| Decode.StrictImpliesLoose | gpt-driver/pack_incontext_dict.py:14-19 | Whatever the packer accepts, the driver accepts with the same array. |
| Decode.DecodeReadsLastLineOnly | gpt-driver/incontext_learning.py:95 | Both readers ignore everything before the last newline. |
| Decode.PairListShape | gpt-driver/pack_incontext_dict.py:16-17 | A list of n number pairs has shape (n, 2). |
| Decode.StrictReadsSixPoints | gpt-driver/pack_incontext_dict.py:14-17 | A text whose last line is a six-waypoint list is accepted by the packer, provided the evaluator reads pair lists. |
| Pack.Accepted | gpt-driver/pack_incontext_dict.py:12-20 | A line is kept exactly when it has a GPT text that the strict reader accepts. |
| Pack.Store | gpt-driver/pack_incontext_dict.py:20 | A rejected line leaves the dictionary unchanged. An accepted line adds exactly its token, bound to its array. |
| Pack.PackedHasAccepted | gpt-driver/pack_incontext_dict.py:9-20 | Every token with an accepted line ends up in the dictionary. |
| Pack.PackedLastWins | gpt-driver/pack_incontext_dict.py:9-20 | Every stored token holds the array of its last accepted line; later lines of that token were all rejected. |
| Pack.PackTranscripts | gpt-driver/pack_incontext_dict.py:7-23 | The reading loop builds the specified dictionary. |
| Pack.PackedAreSixByTwo | gpt-driver/pack_incontext_dict.py:17-20 | Every stored array has shape 6 x 2 in its first two dimensions. |
| Pack.GroundTruthPassesStrict | gpt-driver/pack_incontext_dict.py:13-20 | Every ground-truth assistant message passes the strict reader. |
| Incontext.ExampleIndex | gpt-driver/incontext_learning.py:57-59 | The training index is always in range, and it is `token_index*5 + i` itself when that is in range. |
| Incontext.ExampleIndexIsRemainder | gpt-driver/incontext_learning.py:57-59 | The conditional wrap equals `(token_index*5 + i) mod len(train)` in every case. |
| Incontext.ExampleTokensConsecutive | gpt-driver/incontext_learning.py:56-60 | With enough training tokens, test sample j uses training tokens 5j to 5j+4, so no two test samples share examples. |
| Incontext.Example | gpt-driver/incontext_learning.py:60-61 | An example succeeds exactly when its token is stored and its worked example builds, and it is then that worked example. A missing token fails with MissingSample. |
| Incontext.CollectedParts | gpt-driver/incontext_learning.py:55-61 | The `+=` accumulation succeeds exactly when every part does, and then it is their concatenation in order. |
| Incontext.CollectedFirstFailure | gpt-driver/incontext_learning.py:55-61 | The accumulation fails with the error of the first failing part. |
| Incontext.ExamplesAreFive | gpt-driver/incontext_learning.py:55-61 | The examples text is built exactly when all five examples are, and then it is those five in order. |
| Incontext.ExampleIsIncontextMessage | gpt-driver/incontext_learning.py:56-61 | Example i is the worked example of the training token at the chosen index. |
| Incontext.TrainTokenId | gpt-driver/incontext_learning.py:57-59 | The index code computes the specified training index. |
| Incontext.BuildExamples | gpt-driver/incontext_learning.py:55-61 | The example loop builds the specified examples text, or stops with the first error. |
| Incontext.SystemPrompt | gpt-driver/incontext_learning.py:62-71 | The prompt is the system message with examples, the system message alone, or empty, and is a prefix of the full one. Any non-empty prompt fits the 4096 budget together with the user message. The richest prompt that fits is kept. |
| Incontext.OversizedUserDropsSystem | gpt-driver/incontext_learning.py:65-71 | A user message that alone exceeds the budget is sent with an empty system prompt, and is never shortened. |
| Incontext.Record | gpt-driver/incontext_learning.py:93-106 | The answer is always stored in `text_dict`. An unreadable last line appends the token to `invalid_tokens` and changes nothing else. A readable one stores the array in `traj_dict` and logs (token, GPT, GT). |
| Incontext.ExchangeGroundTruth | gpt-driver/incontext_learning.py:55-91 | A successful exchange pairs the model's answer to the sample's full user message with the sample's assistant message as ground truth. |
| Incontext.Query | gpt-driver/incontext_learning.py:55-91 | The prompt-building and query code performs the specified exchange, failing where the source raises. |
| Incontext.FailurePersists | gpt-driver/incontext_learning.py:47-106 | An error stops the run: the state after any later token is that same error. |
| Incontext.RecordAnswer | gpt-driver/incontext_learning.py:93-106 | The bookkeeping statements update the four accumulators as specified. |
| Incontext.RunBatch | gpt-driver/incontext_learning.py:38-106 | The driver loop computes the specified accumulators, or the error that stopped it. |
| Incontext.BookkeepConsistent | gpt-driver/incontext_learning.py:47-106 | Every stored trajectory and every invalid token has its answer kept in `text_dict`. Every log line has a stored trajectory and a readable answer, and is the exchange of some processed test token. |
| Incontext.BookkeepCounts | gpt-driver/incontext_learning.py:47-106 | `text_dict` holds exactly the selected test tokens. The number of log lines plus invalid marks equals the number of selected tokens processed. |
| Incontext.OnlyListedTokensProcessed | gpt-driver/incontext_learning.py:47-49 | With a non-empty `untest_tokens`, only the listed tokens are processed. |
| Incontext.LoggedGroundTruth | gpt-driver/incontext_learning.py:87-106 | Every logged line has a stored trajectory, a readable answer, and as GT the assistant message of its sample. |
| Incontext.ExchangesGroundTruth | gpt-driver/incontext_learning.py:73-91 | The GT of a test token's exchange is the assistant message of its stored sample. |
| Incontext.LoggedGroundTruthIsStrict | gpt-driver/incontext_learning.py:87-106 | The GT of every logged line passes the packer's strict reader, so the log's ground truths are all well-formed 6 x 2 trajectories. |

## Left out

- The chat completion call and its retry with exponential back-off (`completion_with_backoff`) are not modelled. The completion is a deterministic parameter `complete`, so a model that answers differently on each call is out of scope.
- Tokenizer counts are the parameter `count`; tiktoken's encoding is not modelled.
- `:.2f` number formatting, `np.linalg.norm` and `ast.literal_eval` are the parameters `fmt`, `norm` and `parse`. Their internals, and floating-point rounding in general, are not modelled: numbers are exact reals.
- File input and output are not modelled. This covers loading the pickle and the split JSON, the appends to the temporary JSON-lines log (modelled as the sequence `log`), and reading the log back in the packer (modelled as a sequence of `Transcript` values).
- The per-sample merge into an existing trajectory pickle (incontext_learning.py:113-117) and the final pickle dumps (incontext_learning.py:123-127) are file output and are not modelled.
- Command-line parsing, the one-second sleep and all printing are not modelled.
- In the packer, a log line that lacks the `token` key raises outside the `try` and aborts the script; the model assumes every line has a token.
- A `GPT` field that is missing or not text is `None` in `Transcript` and is skipped, as the script's `try` does.
- Ragged literals follow NumPy 1.24 and later, where `np.array` raises on them, so both readers reject them.
- Records with missing fields or wrong array sizes are outside the model. `ValidSample` states the shapes the code indexes without checking.
- The system prompt texts (`system_message` and its variants) are opaque strings. The variants `system_message_cot` and `system_message_short` are not used by the modelled driver.
- The heading-based behaviour rules are commented out in the source and are not modelled.
- The `traj_only` variant of the assistant message is modelled, but the driver never uses it.
- RunBatch: a run that stops on an error yields only that error, so the log lines already appended to the transcript file (incontext_learning.py:105-106), which stay on disk in the source, are not kept in the model.
- test.py, create_data.py, finetune.py and search_invalid_tokens.py are not part of this model.

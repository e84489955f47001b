# Teto-Egen personality engines, modelled in Dafny

This project models the two scoring engines of a Teto-Egen personality quiz and
proves what they compute. The framework has five fixed bipolar dimensions:
thinking style, energy direction, decision making, interaction pattern and response mode.

- **Text pipeline** (`egenteto_analyzer.dfy`, module `EgentetoAnalyzer`):
  - counts whole-word keyword matches (`\b<keyword>\b`) of ten keyword lists in the lower-cased text, one list per pole;
  - picks a pole per dimension with `>=`, so the first pole wins ties;
  - builds the four-segment code `T-D-I-R` (for example `AA-L-S-P`) and looks its name up in a sixteen-entry table;
  - computes a rounded percentage per trait;
  - picks career, relationship and growth lists by the substrings the code contains.
- **Questionnaire pipeline** (`inspection_service.dfy`, module `EgentetoInspectionService`):
  - adds the weights of the chosen options of a five-question bank into per-pole accumulators;
  - takes the first pole holding the maximum as dominant;
  - builds the five-letter code `X-X-X-X-X` and looks it up in a six-entry table, with a "Unique Blend" fallback;
  - computes a spread-based confidence;
  - validates which questions have no response.

Shared pieces:
- `dimensions.dfy`: the dimensions, poles and score record.
- `strings.dfy`: ASCII case mapping, the `\w` class, `includes` and `join`.
- `wrappers.dfy`: `Option`, which stands for `null`/`undefined`.

The text pipeline's code has four segments and leaves out energy direction (`egentetoAnalyzer.js:153`); the questionnaire code has all five. So the only `I` a text code can contain is the one in `AI`, and the relationship list follows the thinking style.

Some facts the proofs establish:
- The regular-expression scan counts exactly the positions where a keyword matches as a whole word, because no keyword in the tables can overlap itself across a word boundary.
- Every text code is a key of its table, so "The Balanced Explorer" is never returned.
- No questionnaire code is a key of its table: the keys have `E` or `I` in the decision position, and codes have `L` or `V` there. So `typeDetails` is always "Unique Blend".
- The response loop gives the same scores whatever order the response keys come in.

Weights are integer tenths: 0.7 is 7. `Math.round` is exact round-half-up on rationals. `Math.min(100, difference * 20)` becomes `min(100, 2 * difference in tenths)`.

## Model

| member | source | states |
|---|---|---|
| Dimensions.Leader | src/utils/egentetoAnalyzer.js:146-150 | the chosen pole belongs to the dimension and has the larger score; it is the second pole exactly when the second is strictly larger, so ties go to the first pole |
| Dimensions.RoundDiv | src/utils/egentetoAnalyzer.js:162-163 | `Math.round(n / d)` for non-negative `n` and positive `d`: the integer `r` with `2rd <= 2n + d < 2(r + 1)d` |
| Strings.LowerOfUpper | src/utils/egentetoAnalyzer.js:86 | lower-casing upper-cased text gives the lower-cased text |
| Strings.ToLower | src/utils/egentetoAnalyzer.js:86 | `toLowerCase` over ASCII: same length, no capital letter left, every other character kept |
| Strings.Contains | src/utils/egentetoAnalyzer.js:207 | `includes`: a string is found only in one at least as long |
| Strings.Join | src/services/egentetoInspectionService.js:276 | `join`: the result starts with the first item and ends with the last |
| EgentetoAnalyzer.CategoryOf | src/utils/egentetoAnalyzer.js:113-133 | the category whose count a pole receives; no other category writes to that pole |
| EgentetoAnalyzer.AllKeywordsShaped | src/utils/egentetoAnalyzer.js:35-71 | every keyword of the ten lists starts with a word character and cannot overlap itself across a word boundary |
| EgentetoAnalyzer.NoMatchInside | src/utils/egentetoAnalyzer.js:102-103 | no second whole-word match of such a keyword starts inside a first one |
| EgentetoAnalyzer.MatchCountIsPositionCount | src/utils/egentetoAnalyzer.js:102-106 | the left-to-right global scan for `\b<kw>\b` counts exactly the indices where the keyword occurs with a word boundary on both sides |
| EgentetoAnalyzer.MatchCount | src/utils/egentetoAnalyzer.js:102-106 | `text.match(/\b<kw>\b/g)` counted from a start index; the matches do not overlap, so their count times the keyword's length fits in the rest of the text |
| EgentetoAnalyzer.Hits | src/utils/egentetoAnalyzer.js:98-107 | a keyword list's total is 0 exactly when none of its keywords matches |
| EgentetoAnalyzer.CategoryScore | src/utils/egentetoAnalyzer.js:108-110 | every category's weight is 1, so its weighted count is its list's match total |
| EgentetoAnalyzer.AnalyzeNotInsideAnalyzer | src/utils/egentetoAnalyzer.js:102 | `analyze` inside `analyzer` is not counted |
| EgentetoAnalyzer.HitsIncludeKeyword | src/utils/egentetoAnalyzer.js:100-107 | a list's count includes every match of each of its keywords |
| EgentetoAnalyzer.WeightedCount | src/utils/egentetoAnalyzer.js:98-110 | the per-category loop sums the match counts of all keywords and multiplies by the weight |
| EgentetoAnalyzer.AnalyzeUserInput | src/utils/egentetoAnalyzer.js:81-137 | defaults for missing or empty input; otherwise each category's weighted count is written to its own pole, giving the reference scores of the lower-cased text |
| EgentetoAnalyzer.TextScores | src/utils/egentetoAnalyzer.js:81-137 | missing or empty input scores 5 at every pole; any other input holds, at each category's pole, that category's weighted count over the lower-cased text |
| EgentetoAnalyzer.GetDefaultScores | src/utils/egentetoAnalyzer.js:246-254 | every pole is 5 |
| EgentetoAnalyzer.AssignedAll | src/utils/egentetoAnalyzer.js:96-134 | writing all ten counts in visiting order fills every pole with its own category's count |
| EgentetoAnalyzer.ScoresOfCounts | src/utils/egentetoAnalyzer.js:113-133 | each category's count lands on that category's own pole |
| EgentetoAnalyzer.ScoresOfText | src/utils/egentetoAnalyzer.js:96-134 | the scores of a lower-cased text hold, at each category's pole, that category's weighted count |
| EgentetoAnalyzer.PoleCountsWholeWords | src/utils/egentetoAnalyzer.js:86-133 | for non-empty input, each pole is the number of whole-word match positions of its category's keywords in the lower-cased text |
| EgentetoAnalyzer.KeywordFeedsPole | src/utils/egentetoAnalyzer.js:100-114 | every match of a category's keyword is counted in that category's pole |
| EgentetoAnalyzer.SharedKeywordsListed | src/utils/egentetoAnalyzer.js:39-71 | `creative` and `spontaneous` are listed for both intuitive and flexible; `reflect`, `consider` and `thoughtful` for both internal and reactive |
| EgentetoAnalyzer.SharedKeywordCountsTwice | src/utils/egentetoAnalyzer.js:96-133 | one occurrence of a keyword listed twice counts toward both poles |
| EgentetoAnalyzer.ScoresIgnoreCase | src/utils/egentetoAnalyzer.js:86 | upper-case, lower-case and original forms of a text get identical scores |
| EgentetoAnalyzer.NoWordNoHits | src/utils/egentetoAnalyzer.js:100-107 | text without word characters matches no keyword |
| EgentetoAnalyzer.BlankTextScoresZero | src/utils/egentetoAnalyzer.js:82-137 | a non-empty input with no word characters (whitespace, say) is counted, not defaulted, and every pole is 0 |
| EgentetoAnalyzer.TypeCodeOf | src/utils/egentetoAnalyzer.js:146-153 | the code has 8 characters: `A`, a thinking letter, then `-` before each of the decision, interaction and response letters |
| EgentetoAnalyzer.TypeCodeShape | src/utils/egentetoAnalyzer.js:146-153 | the code is `A`, then `A` or `I`, `-`, `L` or `V`, `-`, `S` or `F`, `-`, `P` or `R`, each chosen by the leading pole |
| EgentetoAnalyzer.TypeCodeLeaders | src/utils/egentetoAnalyzer.js:146-153 | the code has 8 characters, and each letter position names the leading pole of its dimension, in both directions |
| EgentetoAnalyzer.TypeCodeDeterminesLeaders | src/utils/egentetoAnalyzer.js:146-153 | two score records get the same code exactly when they have the same leader in the four coded dimensions; energy direction never changes it |
| EgentetoAnalyzer.TypeCodeKnown | src/utils/egentetoAnalyzer.js:153-156 | every producible code is a table key, whose name differs from "The Balanced Explorer" |
| EgentetoAnalyzer.TraitScore | src/utils/egentetoAnalyzer.js:162-163 | 0 when both poles are 0; otherwise between 50 and 100, 50 on a tie, 100 when one pole is 0 |
| EgentetoAnalyzer.TraitScoreBounds | src/utils/egentetoAnalyzer.js:162-163 | the rounded share of the larger pole lies in [50, 100], with 50 on a tie and 100 when it holds the whole sum |
| EgentetoAnalyzer.TraitOf | src/utils/egentetoAnalyzer.js:159-185 | the trait is named after the leading pole (the first one on a tie) and scored with `TraitScore` of the dimension's pair |
| EgentetoAnalyzer.DeterminePersonalityType | src/utils/egentetoAnalyzer.js:144-192 | the code is a table key and the name is its entry, never the fallback; the code has 8 characters whose letters name the leading poles, both directions |
| EgentetoAnalyzer.AnalyticalStrategistExample | src/utils/egentetoAnalyzer.js:146-156 | scores 10/5, 8/3, 7/4, 9/2, 6/5 give `AA-L-S-P`, "The Analytical Strategist (TETO-EGEN)" |
| EgentetoAnalyzer.AnalyticalStrategistTraits | src/utils/egentetoAnalyzer.js:159-185 | the same scores give the first pole of every dimension, at 67, 73, 64, 82 and 55 percent |
| EgentetoAnalyzer.CompatibilityInsights | src/utils/egentetoAnalyzer.js:199-240 | for any code string: 6 careers, 2 relationships, 5 growth areas |
| EgentetoAnalyzer.GenerateCompatibilityInsights | src/utils/egentetoAnalyzer.js:199-240 | assigning the lists and then pushing two items gives the reference insights, with 6, 2 and 5 items |
| EgentetoAnalyzer.AnalyticalStrategistInsights | src/utils/egentetoAnalyzer.js:207-237 | for `AA-L-S-P` the careers include Data Scientist and Software Engineer; the lists are the analytical, logic, non-`I` and structured ones |
| EgentetoAnalyzer.TextCodeContainsAA | src/utils/egentetoAnalyzer.js:207 | a text code contains `AA` exactly when the analytical pole leads |
| EgentetoAnalyzer.TextCodeLetters | src/utils/egentetoAnalyzer.js:213-233 | a text code contains `L`, `I`, `S` exactly when logic, intuitive, structured lead |
| EgentetoAnalyzer.InsightsFollowThinking | src/utils/egentetoAnalyzer.js:207-231 | for a determined code, the first four careers, the relationships and the first three growth areas are the analytical or intuitive lists exactly as the thinking style leads |
| EgentetoAnalyzer.InsightsFollowDecisionAndInteraction | src/utils/egentetoAnalyzer.js:213-237 | the last two careers are the logic ones exactly when logic leads; the last two growth areas are the structured ones exactly when structured leads |
| EgentetoAnalyzer.AnalyzePersonality | src/utils/egentetoAnalyzer.js:261-272 | scores the input, takes the type's name and traits and the insights of its code; the name is a table entry other than the fallback, with 6, 2 and 5 insight items |
| EgentetoAnalyzer.ProfileOf | src/utils/egentetoAnalyzer.js:261-272 | the profile's type name is a table entry other than the fallback; it carries 6 careers, 2 relationships, 5 growth areas and the timestamp it was given |
| EgentetoAnalyzer.ProfileIgnoresCase | src/utils/egentetoAnalyzer.js:261-268 | upper- and original-case input give the same profile, trait names included |
| EgentetoAnalyzer.StrategistName | src/utils/egentetoAnalyzer.js:14 | the table maps `AA-L-S-P` to "The Analytical Strategist (TETO-EGEN)" |
| EgentetoAnalyzer.DefaultType | src/utils/egentetoAnalyzer.js:146-156 | the all-five default gives `AA-L-S-P` and the Analytical Strategist |
| EgentetoAnalyzer.DefaultTraits | src/utils/egentetoAnalyzer.js:159-185 | the all-five default gives every trait named after its first pole at 50 |
| EgentetoAnalyzer.DefaultProfile | src/utils/egentetoAnalyzer.js:82-84 | missing and empty input give the same profile: the Analytical Strategist with every trait at 50 |
| EgentetoInspectionService.GetQuestions | src/services/egentetoInspectionService.js:257-259 | five questions q1..q5 with distinct ids, one per dimension in declared order, each with options a, b, c weighing only that dimension's two poles, ten tenths in all |
| EgentetoInspectionService.BankFacts | src/services/egentetoInspectionService.js:76-127 | the constant bank has those properties |
| EgentetoInspectionService.FindQuestion | src/services/egentetoInspectionService.js:152 | `find`: none exactly when no id matches; otherwise the first question with that id |
| EgentetoInspectionService.FindOption | src/services/egentetoInspectionService.js:154 | `find`: none exactly when no option has that id; otherwise the first option with that id |
| EgentetoInspectionService.AddWeights | src/services/egentetoInspectionService.js:157-159 | adding an option's weights raises the two poles of its dimension by their weights and leaves every other pole alone |
| EgentetoInspectionService.Choose | src/services/egentetoInspectionService.js:154-160 | an unknown option id adds nothing; an answer never lowers a pole and changes only its question's dimension |
| EgentetoInspectionService.AnswerScores | src/services/egentetoInspectionService.js:151-162 | one response: an unknown question id adds nothing, and no response lowers a pole |
| EgentetoInspectionService.BankScores | src/services/egentetoInspectionService.js:137-162 | the reference accumulation over the bank in bank order; a pole whose dimension no question asks about stays 0 |
| EgentetoInspectionService.AddWeightsCommute | src/services/egentetoInspectionService.js:151-162 | two answers can be added in either order |
| EgentetoInspectionService.AnswerEffect | src/services/egentetoInspectionService.js:152-159 | an unknown question id or option id adds nothing; a matched option changes only its question's dimension |
| EgentetoInspectionService.IrrelevantKey | src/services/egentetoInspectionService.js:152-153 | a response keyed by no question's id changes no score |
| EgentetoInspectionService.InsertAnswer | src/services/egentetoInspectionService.js:151-162 | one more response, for any question, is one more lookup-and-add step on the order-independent reference scores |
| EgentetoInspectionService.NoAnswersNoScores | src/services/egentetoInspectionService.js:137-143 | responses answering no bank question leave every accumulator at 0 |
| EgentetoInspectionService.AccumulateResponses | src/services/egentetoInspectionService.js:151-162 | the loop over the response keys, taken in any order, gives the reference accumulation over the bank |
| EgentetoInspectionService.BankScoresPole | src/services/egentetoInspectionService.js:151-162 | each pole holds exactly the weight of the option answered to its own dimension's question, or 0 |
| EgentetoInspectionService.Dominant | src/services/egentetoInspectionService.js:166-169 | the dominant is a pole of the dimension, and it is the second pole exactly when the second accumulator is strictly larger |
| EgentetoInspectionService.DominantIsLeader | src/services/egentetoInspectionService.js:166-169 | the first key holding the maximum is the leading pole: its value is at least both, and it is the second pole only when the second is strictly larger |
| EgentetoInspectionService.ProfileOf | src/services/egentetoInspectionService.js:165-174 | every dimension is present, with its leading pole as dominant and its own accumulators |
| EgentetoInspectionService.BuildProfile | src/services/egentetoInspectionService.js:165-174 | the loop over the dimensions builds that profile |
| EgentetoInspectionService.LetterOf | src/services/egentetoInspectionService.js:202-223 | every pole's code letter is a capital letter |
| EgentetoInspectionService.CodeLetter | src/services/egentetoInspectionService.js:202-223 | a dimension's table has a letter exactly for that dimension's two poles |
| EgentetoInspectionService.Segment | src/services/egentetoInspectionService.js:225 | a segment is one capital letter when the dominant belongs to the dimension, and the text `undefined` otherwise |
| EgentetoInspectionService.GenerateTypeCode | src/services/egentetoInspectionService.js:200-226 | the code has at least 9 characters, and exactly 9 when every dominant belongs to its dimension |
| EgentetoInspectionService.TypeCodeShape | src/services/egentetoInspectionService.js:225 | a well-formed profile's code is the five dominant letters, in dimension order, joined by `-` |
| EgentetoInspectionService.TypeCodePattern | src/services/egentetoInspectionService.js:200-226 | the code matches `^[A-Z]-[A-Z]-[A-Z]-[A-Z]-[A-Z]$` exactly when every dominant pole belongs to its dimension; otherwise it is longer |
| EgentetoInspectionService.DecodeLetter | src/services/egentetoInspectionService.js:202-223 | defined only in the model as the inverse of the code table, to state the round trip: a letter decodes only to a pole of the given dimension with that letter |
| EgentetoInspectionService.ParseTypeCode | src/services/egentetoInspectionService.js:225 | defined only in the model as the inverse of the code template, to state the round trip: a parsed code gives five poles, one per dimension in order |
| EgentetoInspectionService.ParseGeneratedCode | src/services/egentetoInspectionService.js:200-226 | parsing a well-formed profile's code gives back its five dominant poles |
| EgentetoInspectionService.GenerateParsedCode | src/services/egentetoInspectionService.js:200-226 | a code that parses is the code of every profile with those dominant poles |
| EgentetoInspectionService.TableKeysShape | src/services/egentetoInspectionService.js:35-73 | every table key has 9 characters and `E` or `I` in the decision-making position |
| EgentetoInspectionService.LookupAlwaysMisses | src/services/egentetoInspectionService.js:177-185 | no generated code is a table key, so the lookup always falls back |
| EgentetoInspectionService.DimensionConfidence | src/services/egentetoInspectionService.js:241-244 | at most 100; 0 exactly on a tie; 100 exactly when the poles are 50 tenths or more apart |
| EgentetoInspectionService.TotalConfidence | src/services/egentetoInspectionService.js:237-248 | the sum over the listed dimensions is at most 100 per dimension |
| EgentetoInspectionService.TotalCoversEach | src/services/egentetoInspectionService.js:237-248 | the sum is at least each listed dimension's confidence |
| EgentetoInspectionService.Confidence | src/services/egentetoInspectionService.js:233-251 | the rounded mean is at most 100, 0 when every dimension is tied, and at least 20 when one dimension is fully decided |
| EgentetoInspectionService.SortDescending | src/services/egentetoInspectionService.js:241 | the two values end up in descending order and remain the same two values |
| EgentetoInspectionService.SortedPair | src/services/egentetoInspectionService.js:241-242 | the difference of a descending pair holding `x, y` is `abs(x - y)` |
| EgentetoInspectionService.SpreadConfidence | src/services/egentetoInspectionService.js:238-244 | sorting a fresh two-element copy and capping twice the gap at 100 gives the dimension's confidence |
| EgentetoInspectionService.CalculateConfidence | src/services/egentetoInspectionService.js:233-251 | the loop's rounded mean is the reference confidence; the score record is a value and is not changed |
| EgentetoInspectionService.Inspection | src/services/egentetoInspectionService.js:135-193 | the reference result: every dimension profiled with a pole of its own, a code matching `^[A-Z]-[A-Z]-[A-Z]-[A-Z]-[A-Z]$`, the "Unique Blend" details and a confidence of at most 100 |
| EgentetoInspectionService.ProcessResponses | src/services/egentetoInspectionService.js:135-193 | the reference inspection: every dimension profiled with its leading pole, a code matching the pattern, the "Unique Blend" details, confidence at most 100 |
| EgentetoInspectionService.NoResponses | src/services/egentetoInspectionService.js:146-148 | missing responses are processed as an empty object |
| EgentetoInspectionService.AllFirstInspection | src/services/egentetoInspectionService.js:135-193 | option a everywhere: analytical, internal, logic, structured, proactive, code `A-I-L-S-P`, "Unique Blend", confidence 10 |
| EgentetoInspectionService.MixedInspection | src/services/egentetoInspectionService.js:135-193 | options c, b, b, c, b: intuitive, external, values, flexible, reactive, code `I-E-V-F-R`, "Unique Blend", confidence 8 |
| EgentetoInspectionService.EmptyInspection | src/services/egentetoInspectionService.js:135-193 | responses naming no bank question: all ties go to the first poles, code `A-I-L-S-P`, "Unique Blend", confidence 0 |
| EgentetoInspectionService.ProfileOfLeaders | src/services/egentetoInspectionService.js:165-225 | scores with known leaders have those dominant poles and the code spelled by their letters |
| EgentetoInspectionService.Missing | src/services/egentetoInspectionService.js:270 | `filter`: exactly the required ids not provided, in their original order |
| EgentetoInspectionService.NothingMissing | src/services/egentetoInspectionService.js:270-271 | nothing is missing exactly when every required id is provided |
| EgentetoInspectionService.ValidateResponses | src/services/egentetoInspectionService.js:266-278 | `missing` is the bank ids with no response, in bank order; `valid` exactly when every bank id is answered and exactly when `missing` is empty; the message is "All responses provided" or the prefix followed by the ids joined with `, ` |
| EgentetoInspectionService.MissingOfResponses | src/services/egentetoInspectionService.js:267-270 | the reported ids are those of the bank not among the response keys; extra keys and option ids play no part |
| EgentetoInspectionService.JoinBankIds | src/services/egentetoInspectionService.js:276 | the five ids joined read `q1, q2, q3, q4, q5` |
| EgentetoInspectionService.NothingAnswered | src/services/egentetoInspectionService.js:266-278 | responses naming no bank question are invalid, with all five ids missing and listed in the message |
| EgentetoInspectionService.FirstTwoAnswered | src/services/egentetoInspectionService.js:266-275 | answers to q1 and q2 only leave q3, q4, q5 missing |

## Left out

- Text matching is ASCII only. `\w`, `toLowerCase` and `toUpperCase` act on ASCII letters, digits and `_`. Unicode case mapping and the JavaScript regular-expression engine are not modelled.
- The keywords are matched as literal text. No keyword in the tables contains a regular-expression metacharacter other than `-`, which is literal outside a character class.
- Floating point is not modelled. Weights are integer tenths, and `Math.round` and the confidence mean are exact round-half-up on rationals. IEEE-754 effects at `.5` boundaries are left out.
- Category routing (`category.includes(...)`, `egentetoAnalyzer.js:113-133`) is a `match` on the ten categories. Every key contains its own pole's name and none of the names tested before it.
- Inputs of the wrong type are not modelled apart from absence. A non-string text input and a non-object responses value are `None`. A non-string answer value is not modelled: responses are a map from strings to strings.
- `validateResponses(null)` throws in the source. The model's responses argument is a map and cannot be absent.
- `AddWeights` models the inner loop over an option's weight keys (`egentetoInspectionService.js:157-159`) as one function. It adds only the question dimension's two poles. The bank names no other poles (`GetQuestions`), so a weight key outside the dimension never arises.
- The `values.length >= 2` guard (`egentetoInspectionService.js:240`) is always true, since every dimension has two poles. The model counts every dimension.
- GenerateTypeCode: requires a profile holding every dimension. The source throws a TypeError on a profile that lacks one (`profile.thinkingStyle.dominant`); that throw is not modelled. `ProcessResponses` always builds a complete profile.
- DeterminePersonalityType: scores are natural numbers. The exported source function also accepts negative numbers, for which the `sum || 1` divisor can push a trait score outside [0, 100] (analytical -5 with intuitive 5 gives 500). `AnalyzeUserInput` never produces a negative count.
- TraitScore: takes natural numbers, for the same reason as `DeterminePersonalityType`; the [50, 100] bound holds only for non-negative scores.
- SortDescending: the comparator sort is specialised to the two values of one dimension.
- The service object is a singleton whose fields are set once and never changed. Its tables are module constants, and construction and export are not modelled.
- The `dimensions` display-name table (`egentetoInspectionService.js:11-32`) is never read by the core and is not modelled.
- The `timestamp` of `analyzePersonality` reads the clock. It is a parameter of `AnalyzePersonality`.
- The React pages, components, scripts and tests are not part of this model.

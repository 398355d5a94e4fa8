# Canopy AI Labs request handlers in Dafny

Canopy AI Labs is a Next.js application for fine-tuning and evaluating OpenAI models on a user's
CSV datasets. This project models four parts of its server side and proves properties of them.

- **Completion dispatch** (`Evaluate`, nextjs_app/utils/evaluate.js). `dispatchOpenAIRequests`
  sends a list of prompts to a completion model:
  - it picks per-model rate ceilings;
  - `handleRateLimit` keeps a token counter and a queue of request timestamps and computes how
    long to wait;
  - it cuts the prompts into batches of 32;
  - it tries each prompt up to four times;
  - it concatenates the batch results, dropping `null` ones.

  `RateLimiter` is a class whose fields `handleRateLimit` updates. The dispatch loop is a method
  proved against the `Dispatch` specification function.
- **Prompt templates** (`Placeholders`, nextjs_app/pages/api/models/finetune/openai.js).
  - The greedy regular expression `/{{.*}}/g` finds the placeholders.
  - The stored field names are the matches without their braces.
  - A row is looked up under each match with `{{` and `}}` removed.
  - The prompt is the template with each match's first occurrence replaced.
- **Fine-tune submission** (`Finetune`, the same file).
  - The hyper-parameters are cleaned.
  - `templateTransform` turns each training and validation row into a prompt/completion pair and
    collects class labels (class `DatasetPreparation`).
  - The labels are deduplicated in first-seen order.
  - The fine-tune request is built for a binary, multiclass or generative project.
  - The handler decides what the caller and the model record see when a lookup or a later step
    fails.
- **Model status polling** (`ModelPolling`, pages/api/models/index.js). The loop over a project's
  models mutates the model array in place. For each model it:
  - skips imported models;
  - attaches the dataset name;
  - asks the provider for the fine-tune job;
  - on success, stores the results file and a training evaluation whose metrics are read from the
    tail of the comma-split results file;
  - marks failed jobs;
  - derives an in-progress status from the job's events;
  - records the cost once.
- **Class discovery** (`GetClasses`, nextjs_app/pages/api/data/get-classes.js). The handler picks
  the validation file over the training file and builds the `raw_data/` storage key. It then
  collects the distinct values of one column, in first-occurrence order, with a `Set` loop.

`Common` holds what the handlers share:
- optional and failing values, and the errors built by `createError`;
- JavaScript's text for `undefined`;
- first-occurrence `indexOf` and `replace`;
- `split` on one character, and `Array.from(new Set(xs))`.

The database, the storage bucket, the CSV parser, the tokenizer, the clock and the OpenAI client
are inputs:
- a lookup is a flag or an optional record;
- `readCsv` maps a storage key to rows;
- `tokens` maps a prompt to its token count;
- `clock` gives each rate check's timestamp;
- the client is a function from (prompt index, attempt number) to the attempt's outcome;
- provider jobs and files are maps.

Writes to the database and the bucket are returned as values, in order.

Some consequences of the code as written:
- `handleRateLimit` runs once per prompt, before the attempt loop, so retries are not charged
  again against the limits (evaluate.js:59-65).
- The code waits first for the token delay and then for the queue delay, one after the other
  (evaluate.js:23-44).
- There is no "unknown model" error. Every model other than `gpt-3.5-turbo` gets the default
  ceilings (evaluate.js:6-12).
- The code does not always return one result per prompt:
  - `null` responses are filtered out (evaluate.js:95);
  - on the `gpt-3.5-turbo` path the chat call is not awaited, so a failing call makes the whole
    batch's `Promise.all` reject (evaluate.js:67-75, 94).
- The token counter only goes down when a charge is refused or a queue wait happens. The request
  queue only loses its oldest entry when a queue wait happens, so there is no sliding window
  (evaluate.js:21-45).

## Model

| member | source | states |
|---|---|---|
| Common.IndexFrom | nextjs_app/pages/api/models/finetune/openai.js:156 | the result is the first index at or after `from` where the pattern occurs, and None exactly when it occurs nowhere from there on |
| Common.IndexOf | nextjs_app/pages/api/models/finetune/openai.js:156 | the first occurrence of the pattern, as IndexFrom from index 0 states |
| Common.ReplaceFirst | nextjs_app/pages/api/models/finetune/openai.js:156 | `replace` with a string pattern changes only the first occurrence; RemoveFirstClose and RenderOneMatch state this |
| Common.Cell | nextjs_app/pages/api/data/get-classes.js:74 | a row's cell in a column, or `undefined`; ColumnValues and ClassesAreTheColumnValues build on it |
| Common.JsString | nextjs_app/pages/api/data/get-classes.js:67 | the text JavaScript concatenates for a string or `undefined`; RawDataKey and FillsSinglePlaceholder state its use |
| Common.Truthy | nextjs_app/pages/api/data/get-classes.js:60 | a value is truthy iff it is defined and not empty; FileToRead and PrepareTrainingData depend on it |
| Common.RawDataKey | nextjs_app/pages/api/data/get-classes.js:65-68 | the key is `raw_data/` followed by the file name, or by the text "undefined" when the name is missing |
| Common.RawDataKeyInjective | nextjs_app/pages/api/data/get-classes.js:67 | two different file names never share a storage key |
| Common.Split | pages/api/models/index.js:97 | `split` yields at least one part and no part contains the separator |
| Common.Join | pages/api/models/index.js:97 | `join`, the inverse of `split` as JoinSplit and SplitJoin state |
| Common.JoinSplit | pages/api/models/index.js:97 | joining the parts of a split with the separator gives back the original text |
| Common.SplitJoin | pages/api/models/index.js:97 | splitting the join of separator-free parts gives back exactly those parts |
| Common.SplitAtOnlySeparator | pages/api/models/index.js:178 | text with exactly one separator splits into the text before and the text after it |
| Common.Distinct | nextjs_app/pages/api/data/get-classes.js:72-76 | `Array.from(new Set(s))` has no duplicates, holds exactly the elements of `s`, and is no longer than `s` |
| Common.DistinctStartsWithFirst | nextjs_app/pages/api/models/finetune/openai.js:202 | the first element of the deduplicated list is the first element of the input |
| Common.DistinctKeepsFirstOccurrenceOrder | nextjs_app/pages/api/data/get-classes.js:72-76 | deduplicated elements come in the order of their first occurrence in the input |
| Evaluate.CeilingsFor | nextjs_app/utils/evaluate.js:4-12 | `gpt-3.5-turbo` gets 1750 requests and 45000 tokens per minute; every other model gets 1500 and 125000; the limiter starts with them (RateLimiter.constructor) and AdmitAllKeepsBudget keeps the counter within them |
| Evaluate.RateStep | nextjs_app/utils/evaluate.js:17-46 | a token wait happens iff the new charge passes the token ceiling, lasting (ceiling - earlier usage) / ceiling minutes; a queue wait happens iff the queue is over the request ceiling and its oldest entry is younger than a minute, lasting the rest of that minute and shifting one entry; the charge stays only without a token wait and is taken off again by a queue wait; a counter within its ceiling stays within it |
| Evaluate.TokenDelayBounds | nextjs_app/utils/evaluate.js:21-29 | with the counter within its ceiling, a token delay is not negative, and it is at most a minute iff the counter is not negative |
| Evaluate.QueueDelayAtMostMinute | nextjs_app/utils/evaluate.js:31-45 | with a clock that never runs backwards, a queue wait lasts more than zero and at most 60000 ms |
| Evaluate.AdmitAll | nextjs_app/utils/evaluate.js:17-46 | handling prompts in order gives exactly one admission per prompt |
| Evaluate.AdmitAllKeepsBudget | nextjs_app/utils/evaluate.js:21-29 | however many prompts are rate-checked, the token counter never ends above its ceiling |
| Evaluate.StaleHeadNeverWaits | nextjs_app/utils/evaluate.js:31-45 | once the oldest queue entry is a minute old, no later call waits on the queue, no entry is shifted, and every call only appends its entry |
| Evaluate.RateLimiter.constructor | nextjs_app/utils/evaluate.js:4-15 | the closure state starts with the model's ceilings, a zero token counter and an empty queue |
| Evaluate.RateLimiter.HandleRateLimit | nextjs_app/utils/evaluate.js:17-46 | the new counter and queue and the returned delays are one `RateStep` from the old state, and the counter stays within its ceiling |
| Evaluate.NumBatches | nextjs_app/utils/evaluate.js:50 | the batch count is the ceiling of n / 32: the batches cover n, and one fewer would not |
| Evaluate.Batch | nextjs_app/utils/evaluate.js:55-57 | every batch holds between 1 and 32 prompts |
| Evaluate.FlattenBatchesPrefix | nextjs_app/utils/evaluate.js:54-57 | the first k batches concatenated are the first min(32 k, n) prompts |
| Evaluate.BatchesPartitionPrompts | nextjs_app/utils/evaluate.js:49-57 | there are ceil(n / 32) batches; batch i is the prompts [32 i, min(32 (i + 1), n)), each of 1 to 32 prompts; their concatenation is the prompt list in order |
| Evaluate.DispatchedBatch | nextjs_app/utils/evaluate.js:54-57 | the prompts the dispatch loop hands over in round i are batch i of the partition |
| Evaluate.RetryFrom | nextjs_app/utils/evaluate.js:62-91 | the retry loop makes at most four attempts in all and never ends in a rejection |
| Evaluate.RetryOutcome | nextjs_app/utils/evaluate.js:65-90 | the value stays `undefined` iff every remaining attempt throws, and then four attempts were made; otherwise it is the response of the first attempt that returned, and every earlier attempt threw |
| Evaluate.PromptOutcome | nextjs_app/utils/evaluate.js:59-92 | a prompt makes between 1 and 4 client calls; on the `gpt-3.5-turbo` path it makes exactly one, and its value is a rejection iff that call throws |
| Evaluate.SendWithRetries | nextjs_app/utils/evaluate.js:62-91 | the attempt loop ends with the value and the attempt count of `PromptOutcome` |
| Evaluate.DropNull | nextjs_app/utils/evaluate.js:95 | no `null` response remains after the filter |
| Evaluate.DropNullAppend | nextjs_app/utils/evaluate.js:95 | filtering concatenated batch results is concatenating the filtered batch results |
| Evaluate.DropNullKeepsAll | nextjs_app/utils/evaluate.js:95 | without `null` responses the filter keeps everything |
| Evaluate.FirstRejectedFrom | nextjs_app/utils/evaluate.js:94 | the result is the first rejecting prompt at or after `from`, and None iff no prompt from there on rejects |
| Evaluate.Slots | nextjs_app/utils/evaluate.js:59-92 | there is one settled value per prompt |
| Evaluate.Dispatch | nextjs_app/utils/evaluate.js:49-98 | the whole call as a value; DispatchKeepsOrder, OtherModelsNeverReject, DispatchRejects, DispatchCompletes and DispatchOpenAIRequests state what it is |
| Evaluate.DispatchKeepsOrder | nextjs_app/utils/evaluate.js:94-98 | when no prompt rejects or yields `null`, the output has one entry per prompt, entry i is prompt i's outcome, and each prompt was rate-checked exactly once in order |
| Evaluate.OtherModelsNeverReject | nextjs_app/utils/evaluate.js:76-89 | with any model other than `gpt-3.5-turbo`, failures become `undefined` and the call always returns results |
| Evaluate.HandlePrompt | nextjs_app/utils/evaluate.js:59-92 | handling prompt k after the prompts before it extends the closure state and the recorded delays by exactly that prompt's rate step, and appends its outcome to the outcomes of the batch's earlier prompts |
| Evaluate.RunBatch | nextjs_app/utils/evaluate.js:57-94 | after a batch, the limiter holds the state of rate-checking every prompt up to the batch end, the new delays extend the earlier ones, and the batch results are the outcomes of the batch's prompts in order |
| Evaluate.SlotsSlice | nextjs_app/utils/evaluate.js:94 | the results of a batch are exactly that slice of all prompts' values |
| Evaluate.DispatchBatch | nextjs_app/utils/evaluate.js:54-96 | a batch with a rejection ends the whole call as `Dispatch` says; otherwise the filtered batch results are appended and progress moves to the batch end |
| Evaluate.BatchRejects | nextjs_app/utils/evaluate.js:94 | a batch whose results hold a rejection, reached without an earlier one, makes the whole call reject with the delays of every prompt up to the batch end |
| Evaluate.BatchAppends | nextjs_app/utils/evaluate.js:94-95 | a batch without a rejection moves progress to the batch end, its filtered results appended to the earlier ones |
| Evaluate.DispatchOpenAIRequests | nextjs_app/utils/evaluate.js:3-99 | the outcome and the delays of every rate check are those of `Dispatch`: the filtered results of all prompts, or a rejection after the batch holding the first rejecting prompt |
| Evaluate.ResultsGrowByBatch | nextjs_app/utils/evaluate.js:95 | the filtered results up to a batch end are those up to its start followed by the batch's filtered results |
| Evaluate.DispatchRejects | nextjs_app/utils/evaluate.js:94 | a rejection first seen in a batch rejects the call after rate-checking exactly the prompts up to that batch's end |
| Evaluate.DispatchCompletes | nextjs_app/utils/evaluate.js:98 | having handled every prompt without a rejection, the call returns the accumulated results and delays |
| Evaluate.RejectionInBatch | nextjs_app/utils/evaluate.js:54-57 | the first rejecting prompt lies in the batch where a rejection is first seen, and that batch's end is where handling stops |
| Placeholders.LineEnd | nextjs_app/pages/api/models/finetune/openai.js:145 | the result is the length of the first line, i.e. the index of the first line terminator |
| Placeholders.LastClose | nextjs_app/pages/api/models/finetune/openai.js:145 | the result is the last `}}` within the bounds, and None iff there is none |
| Placeholders.MatchLen | nextjs_app/pages/api/models/finetune/openai.js:145 | a match at the start begins with `{{` and ends with the LAST `}}` of the first line (the greedy `.*`), at least four characters long; there is none at the start iff the text does not begin with `{{` or its first line holds no `}}` after the braces |
| Placeholders.Matches | nextjs_app/pages/api/models/finetune/openai.js:145-146 | the matches in order, each at least four characters long. What they are is stated by OneLineMatch (on one line, the single match runs from the first `{{` to the last `}}`), MatchesSplitAtLineBreak (lines are matched separately), MatchesAreWellFormed and NoMatchesIffNoPlaceholder |
| Placeholders.MatchLenIsMatch | nextjs_app/pages/api/models/finetune/openai.js:145 | the match at the start begins with `{{`, ends with `}}` and holds no line terminator |
| Placeholders.MatchesAreWellFormed | nextjs_app/pages/api/models/finetune/openai.js:145-146 | every match begins with `{{`, ends with `}}` and lies on one line |
| Placeholders.SkipWithoutOpen | nextjs_app/pages/api/models/finetune/openai.js:145-146 | text without `{` in front of a template adds no match and changes none |
| Placeholders.NoMatchWithoutClose | nextjs_app/pages/api/models/finetune/openai.js:145-146 | a template without `}` has no match |
| Placeholders.PlaceholderGivesMatch | nextjs_app/pages/api/models/finetune/openai.js:145-146 | a `{{` followed by a `}}` on the same line gives at least one match |
| Placeholders.MatchHasPlaceholder | nextjs_app/pages/api/models/finetune/openai.js:145-146 | any match comes from a `{{` followed by a `}}` on the same line |
| Placeholders.NoMatchesIffNoPlaceholder | nextjs_app/pages/api/models/finetune/openai.js:145-146 | `match` finds nothing iff no line of the template holds a `{{` followed by a `}}` |
| Placeholders.OccursShift | nextjs_app/pages/api/models/finetune/openai.js:145 | dropping the first n characters moves every occurrence n places left |
| Placeholders.NoCloseNoMatch | nextjs_app/pages/api/models/finetune/openai.js:145-146 | text with no `}}` anywhere has no match |
| Placeholders.OneLineMatchAtStart | nextjs_app/pages/api/models/finetune/openai.js:145-146 | a line starting with `{{` is a single match up to the last `}}` on it |
| Placeholders.DropFirstOfLine | nextjs_app/pages/api/models/finetune/openai.js:145-146 | dropping a character before the first `{{` keeps the first `{{` and the last `}}`, one place further left |
| Placeholders.OneLineMatch | nextjs_app/pages/api/models/finetune/openai.js:145-146 | on one line, the only match runs from the first `{{` to the last `}}` after it, whatever lies before, between or after |
| Placeholders.GreedyWholeLine | nextjs_app/pages/api/models/finetune/openai.js:145 | a line starting with `{{` and ending with `}}` is one match, whatever lies between |
| Placeholders.WholeMatch | nextjs_app/pages/api/models/finetune/openai.js:145-146 | text matched in full at its start is the one and only match |
| Placeholders.MatchesSplitAtLineBreak | nextjs_app/pages/api/models/finetune/openai.js:145-146 | no match crosses a line terminator: the matches of two joined lines are those of the first followed by those of the second |
| Placeholders.Field | nextjs_app/pages/api/models/finetune/openai.js:147 | a match is its first two characters, the field name, then its last two characters |
| Placeholders.MatchesStrings | nextjs_app/pages/api/models/finetune/openai.js:147 | the stored field names have no duplicates and are exactly the matches without their braces |
| Placeholders.MatchesStringsOfOne | nextjs_app/pages/api/models/finetune/openai.js:147 | a single match stores a single field name |
| Placeholders.KeyOfDropsOpening | nextjs_app/pages/api/models/finetune/openai.js:156 | removing `{{` from a match always removes its leading braces |
| Placeholders.RemoveFirstClose | nextjs_app/pages/api/models/finetune/openai.js:156 | removing `}}` removes its first occurrence only |
| Placeholders.KeyOf | nextjs_app/pages/api/models/finetune/openai.js:156 | the row key of a match; KeyOfDropsOpening, RemoveFirstClose, KeyOfPlainPlaceholder and TwoPlaceholdersOneLine state what it is |
| Placeholders.KeyOfPlainPlaceholder | nextjs_app/pages/api/models/finetune/openai.js:147-156 | for `{{k}}` with no `}` in k, the looked-up key and the stored field name are both k |
| Placeholders.TwoPlaceholdersOneLine | nextjs_app/pages/api/models/finetune/openai.js:145-156 | `{{a}}mid{{b}}` on one line is a single match; its field keeps the inner braces, while its lookup key loses only the first `}}` |
| Placeholders.PlaceholderThenText | nextjs_app/pages/api/models/finetune/openai.js:145-146 | a plain placeholder followed by text without `}` is the only match |
| Placeholders.PlaceholderMatchLen | nextjs_app/pages/api/models/finetune/openai.js:145 | a plain placeholder followed by text without `}` is matched exactly, braces included, and nothing of the text after it |
| Placeholders.NoCloseAfter | nextjs_app/pages/api/models/finetune/openai.js:145 | text without `}` after a prefix holds no `}}` past that prefix |
| Placeholders.MatchLenAt | nextjs_app/pages/api/models/finetune/openai.js:145 | with `{{` at the start, the match ends with the last `}}` of the first line |
| Placeholders.RenderOneMatch | nextjs_app/pages/api/models/finetune/openai.js:155-156 | replacing a match whose copy follows text without `{` puts the row's value in that copy's place |
| Placeholders.Render | nextjs_app/pages/api/models/finetune/openai.js:154-157 | the prompt after replacing each match in turn; RenderOneMatch, FillsSinglePlaceholder and Finetune.RenderTemplate state it |
| Placeholders.FillsSinglePlaceholder | nextjs_app/pages/api/models/finetune/openai.js:145-158 | a template with one plain placeholder has one match and one field; its prompt is the row's value (or "undefined") in the placeholder's place with the text around it unchanged |
| Finetune.CleanHyperParams | nextjs_app/pages/api/models/finetune/openai.js:87-93 | the cleaned hyper-parameters are exactly the non-null entries, each converted with `Number` |
| Finetune.ProjectTypeOf | nextjs_app/pages/api/models/finetune/openai.js:111-115 | only "generative" and "classification" pass, and any other type is the 400 error "Only classification and generation are supported" |
| Finetune.RenderStep | nextjs_app/pages/api/models/finetune/openai.js:155-157 | rendering one more match replaces its first occurrence in the text rendered so far |
| Finetune.RenderTemplate | nextjs_app/pages/api/models/finetune/openai.js:154-157 | the replace loop yields the rendering of all matches in order |
| Finetune.ExampleFor | nextjs_app/pages/api/models/finetune/openai.js:150-158 | one row's prompt and completion; ExamplesFor and TemplateTransform state it row by row |
| Finetune.ExamplesFor | nextjs_app/pages/api/models/finetune/openai.js:191-200 | there is one example per row, example i being row i's prompt and completion; PrepareTrainingData and TransformAll tie them to the transformed rows |
| Finetune.ClassCells | nextjs_app/pages/api/models/finetune/openai.js:151-153 | a classification project pushes every row's output cell in row order; other projects push nothing; ClassesAreOutputCells and ClassesInFirstSeenOrder state what becomes of them |
| Finetune.Classes | nextjs_app/pages/api/models/finetune/openai.js:150-202 | the deduplicated labels of training then validation rows; ClassesAreOutputCells and ClassesInFirstSeenOrder state what they are |
| Finetune.DatasetPreparation.constructor | nextjs_app/pages/api/models/finetune/openai.js:145-148 | the preparation starts with the template's matches and an empty class list |
| Finetune.DatasetPreparation.TemplateTransform | nextjs_app/pages/api/models/finetune/openai.js:150-159 | the row's label is appended for a classification project, and the example is the rendered template with the output cell plus the stop sequence |
| Finetune.DatasetPreparation.TransformAll | nextjs_app/pages/api/models/finetune/openai.js:191-200 | mapping the rows appends every row's label in order and yields one example per row |
| Finetune.PrepareTrainingData | nextjs_app/pages/api/models/finetune/openai.js:164-202 | there are training examples for every training row, validation examples exactly when a validation file is present, and the classes are the deduplicated labels of the training rows and then the validation rows |
| Finetune.ClassesAreOutputCells | nextjs_app/pages/api/models/finetune/openai.js:150-153 | a value is a class iff the project is a classification one and some training or validation row has it as its output cell |
| Finetune.ClassesInFirstSeenOrder | nextjs_app/pages/api/models/finetune/openai.js:202 | each class appears once, in the order its label is first seen |
| Finetune.BaseRequest | nextjs_app/pages/api/models/finetune/openai.js:245-271 | a classification project with at most one class fails with 400 "Dataset classes not specified". Otherwise the request has the training file and the model; a generative request has nothing else. A classification request turns metrics on, has the positive class (first class plus stop sequence) iff there are two classes and the class count iff there are more, and has the validation file iff one is present |
| Finetune.Merge | nextjs_app/pages/api/models/finetune/openai.js:274 | the merged request has the keys of both; a hyper-parameter overrides a request field of the same name, and other fields are kept |
| Finetune.NonNullNumbers | nextjs_app/pages/api/models/finetune/openai.js:87-93 | the non-null hyper-parameters converted; CleanHyperParams is proved to produce it |
| Finetune.PositiveClassIsFirstLabel | nextjs_app/pages/api/models/finetune/openai.js:202-253 | in a binary request the positive class is the first training row's label plus the stop sequence |
| Finetune.AfterModelRecord | nextjs_app/pages/api/models/finetune/openai.js:137-300 | once the model record exists, the model is marked failed iff the template has no placeholder or a classification dataset has at most one class, in the latter case with 400 "Dataset classes not specified"; otherwise the request is submitted |
| Finetune.NoPlaceholderFailure | nextjs_app/pages/api/models/finetune/openai.js:145-148 | the model is marked failed for want of a placeholder iff no line of the template holds a `{{` followed by a `}}` |
| Finetune.Handle | nextjs_app/pages/api/models/finetune/openai.js:87-300 | failures come in the order user, project, project type, dataset (no response is sent), then a duplicate name (400 "Another model with the same name exists in this project"); past them the outcome is `AfterModelRecord` |
| Finetune.Submit | nextjs_app/pages/api/models/finetune/openai.js:139-289 | the steps after the model record is created have the outcome `AfterModelRecord` describes |
| ModelPolling.ResultsKey | pages/api/models/index.js:87 | `openai_results_data/<id>.csv`; ResultsKeyInjective states that models never share one |
| ModelPolling.ResultsKeyInjective | pages/api/models/index.js:87 | different models never share a results key |
| ModelPolling.EvaluationName | pages/api/models/index.js:130 | the evaluation name is the model name followed by " training evaluation"; the evaluation written on success (Refresh) carries it |
| ModelPolling.DeriveStatus | pages/api/models/index.js:157-172 | with no events there is no status (reading the last message throws); with up to three events the status is "queued for training"; a derived status is always an in-progress one and never "succeeded", "failed" or "imported" |
| ModelPolling.EpochMessageShownAsIs | pages/api/models/index.js:165-166 | after three events, an epoch message becomes the status as it is |
| ModelPolling.StatusFollowsLastEvent | pages/api/models/index.js:159-171 | past three events, only the last message decides the status |
| ModelPolling.StripWhitespace | pages/api/models/index.js:104 | stripping whitespace never lengthens the text |
| ModelPolling.StripRemovesOnlyWhitespace | pages/api/models/index.js:104 | a character remains after stripping iff it was in the text and is not whitespace |
| ModelPolling.StripConcat | pages/api/models/index.js:104 | stripping a concatenation is concatenating the stripped pieces |
| ModelPolling.StripKeepsPlainText | pages/api/models/index.js:104 | text without whitespace is left as it is |
| ModelPolling.StripIdempotent | pages/api/models/index.js:104 | stripping twice is stripping once |
| ModelPolling.LastFields | pages/api/models/index.js:104-123 | there is one field per metric name |
| ModelPolling.TailMetrics | pages/api/models/index.js:104-123 | the metrics exist iff there are at least as many fields as names, and then metric i is name i with the matching one of the last fields, stripped |
| ModelPolling.ExtractMetrics | pages/api/models/index.js:97-124 | a dataset without classes gets no metrics. With two classes the metrics exist iff there are at least six fields and are the last six, stripped, named accuracy, precision, recall, auprc, auroc and f1. With any other class list they exist iff there are at least two fields and are the last two as accuracy and weighted f1. A missing field is the `MissingMetric` error |
| ModelPolling.BinaryMetricsAreLastFields | pages/api/models/index.js:97-118 | a binary results file whose last six comma-separated fields are given yields those fields, stripped, as the six metrics in order |
| ModelPolling.CostText | pages/api/models/index.js:178 | the text after the first `$`; CostOfCostMessage states it for a cost message |
| ModelPolling.CostOfCostMessage | pages/api/models/index.js:178 | a cost message with one `$` gives the amount written after it |
| ModelPolling.RecordsCost | pages/api/models/index.js:175-179 | the cost condition; CostUpdate and CostRecordedOnlyWhenAnnounced state its effect |
| ModelPolling.CostUpdate | pages/api/models/index.js:175-185 | the cost is set and written iff the model has none, there are at least two events and the second announces the cost; otherwise nothing changes |
| ModelPolling.Succeeded | pages/api/models/index.js:81-149 | the success branch; SucceededStoresResults states its errors, writes and new status |
| ModelPolling.SucceededStoresResults | pages/api/models/index.js:81-149 | no results file or an unavailable one ends the request with no write; otherwise the results are stored first under the model's key, and when the metrics can be read the training evaluation and the "succeeded" update follow in that order; the model then holds status "succeeded" and the job's fine-tuned model |
| ModelPolling.Refresh | pages/api/models/index.js:65-187 | one iteration of the loop; ImportedModelsSkipped, SucceededModelsNotPolled, FailedJobMarksModelFailed, CostRecordedOnlyWhenAnnounced, SucceededIsSettled and FailedIsPolledAgain state it |
| ModelPolling.ImportedModelsSkipped | pages/api/models/index.js:67-69 | an imported model is left as it is, with no write and no error |
| ModelPolling.SucceededModelsNotPolled | pages/api/models/index.js:70-77 | a model that already succeeded only gets its dataset name, with no provider call and no write |
| ModelPolling.FailedJobMarksModelFailed | pages/api/models/index.js:150-156 | a job the provider reports as failed marks the model "failed", writes only that, and records no cost |
| ModelPolling.CostRecordedOnlyWhenAnnounced | pages/api/models/index.js:175-185 | a polled model's cost changes iff it had none, the job has at least two events and the second announces the cost; the value is the parse of the text after `$`, written last; otherwise no cost is written |
| ModelPolling.SucceededIsSettled | pages/api/models/index.js:67-77 | a model left "succeeded" is settled: refreshing it again changes nothing and writes nothing |
| ModelPolling.FailedIsPolledAgain | pages/api/models/index.js:150-156 | a model marked "failed" is polled again on every listing, and the failed write is repeated |
| ModelPolling.FirstFailing | pages/api/models/index.js:65-187 | the result is the first model whose processing raises, and None iff none raises |
| ModelPolling.Processed | pages/api/models/index.js:65-187 | the loop processes at most every model |
| ModelPolling.Updated | pages/api/models/index.js:65-187 | there is one updated model per model |
| ModelPolling.UpdatedAt | pages/api/models/index.js:65-187 | updated model j is the refresh of model j |
| ModelPolling.RefreshModels | pages/api/models/index.js:65-187 | every model up to and including the first failing one is replaced in place by its refresh, later ones are untouched, the writes are those models' writes in order, and the error is the first failing model's |
| ModelPolling.RefreshStep | pages/api/models/index.js:65-187 | refreshing model i in place extends the updated prefix and the writes by that model alone, leaves later models untouched, and keeps "no failure so far" when it does not fail |
| ModelPolling.StopsAtFirstFailing | pages/api/models/index.js:65-187 | a failing model preceded only by models that do not fail is where the loop stops |
| ModelPolling.ListModels | pages/api/models/index.js:39-193 | a missing user fails and a missing project gives "Project not found", both with no write; otherwise the writes are those of the processed models, and the reply lists every refreshed model iff no model fails, else it carries the first failing model's error |
| GetClasses.FileToRead | nextjs_app/pages/api/data/get-classes.js:59-64 | the validation file is read when its name is set and not empty, otherwise the training file; used by GetClasses |
| GetClasses.ColumnValues | nextjs_app/pages/api/data/get-classes.js:72-75 | there is one value per row: that row's cell in the column, or `undefined`; their meaning as classes is ClassesAreTheColumnValues |
| GetClasses.DistinctColumnValues | nextjs_app/pages/api/data/get-classes.js:72-76 | the `Set` loop yields the deduplicated column values |
| GetClasses.ClassesAreTheColumnValues | nextjs_app/pages/api/data/get-classes.js:72-76 | the classes have no duplicates, a value is a class iff some row has it in the column, and they come in the order of their first row |
| GetClasses.GetClasses | nextjs_app/pages/api/data/get-classes.js:49-77 | a missing user raises 400 "User not found" and a missing dataset 400 "Dataset not found"; otherwise the result is the distinct column values of the file under `raw_data/` plus the chosen file name |

## Left out

- Concurrency and timers are not modelled.
  - The prompts of a batch run one after another.
  - `handleRateLimit` calls do not interleave across their await points.
  - The delays are returned instead of slept with `setTimeout`.
  - `Promise.all` is modelled by its outcome: the results in prompt order, or a rejection.
- Evaluate.RateStep: the token delay is kept as the exact fraction `(remaining * 60000) / ceiling`
  rather than as a floating-point number. The ceilings are whole numbers here, as they are in the
  code.
- The tokenizer (`encode` from gpt-3-encoder) is an input function from prompt to token count.
- The clock (`Date.now`) is an input: one timestamp per rate check.
- The OpenAI client is an input: the outcome of each attempt of each prompt. The request
  parameters (`max_tokens`, `temperature`, `stop`) are not modelled.
- MongoDB, S3, `csvtojson`, and the temporary `fs`/`tmp` files are not modelled. Lookups are flags
  or optional records, CSV contents are rows given by storage key, and writes are returned values.
- Finetune.CleanHyperParams and ModelPolling.CostUpdate do not model the floating-point
  conversions `Number(value)` and `parseFloat`; the converted value is kept by its source text.
- Common.ReplaceFirst does not model the `$` patterns that `String.prototype.replace` expands in
  the replacement text.
- Common.Cell does not model properties inherited by every JavaScript object (a column named
  `constructor`, for example).
- Common.Split models `split` on a one-character separator only, which is every use in these handlers (index.js:97, 178).
- Finetune.AfterModelRecord does not model the dataset's `openaiData` update or the file uploads.
  Its `Submitted` outcome carries the `Template.create` record, but on the failure path with at
  most one class the code creates that record before the 400 is thrown, and the model does not
  record it there. Neither the final model update to "training" nor the second `status(200)` is
  modelled.
- Finetune.Handle does not model errors thrown by the services:
  - a connection failure;
  - `Model.create` errors other than the duplicate key;
  - `createFile` and `createFineTune` failures.

  These lead to no response before the model record exists and to a "failed" model after it, like
  the modelled errors.
- Finetune.Handle does not model a `hyperParams` value that is not an object.
- The HTTP method and session checks are not modelled in any handler. That includes the missing
  `return` after the "Use POST request" answer in pages/api/models/index.js:23-25.
- GetClasses.GetClasses models the `try` block only. The catch block
  (nextjs_app/pages/api/data/get-classes.js:79-89) refers to undeclared variables, so what a caller
  receives after an error is not modelled.
- ModelPolling.Refresh does not model the in-memory `datasetId` reassignment (index.js:74). The
  lookup is by that id, so the value is unchanged.
- ModelPolling.ExtractMetrics models the generative case's empty `metricResults` array as no
  entries.
- The model of the database writes keeps only the fields that depend on the model. It leaves out
  `projectId`, `userId` and the `public-read` ACL.
- ModelPolling.ListModels does not model the body of the 400 answer. The code serializes the raw
  error object.
- The user interface components and the Python data-preparation script are not part of this model.

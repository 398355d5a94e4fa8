/** The model listing handler (pages/api/models/index.js): for every model of a project it looks
    up the dataset, asks the provider for the fine-tune job, and brings the model's status up to
    date, storing the results file, a training evaluation and the cost when the job reports them.

    The database, the storage bucket and the provider are inputs: `Sources` holds the datasets by
    id, the fine-tune jobs by id and the downloadable files by id; the writes the handler makes
    are returned, in order, as `Write` values. */
module ModelPolling {
  import opened Common

  // ----- Records -----------------------------------------------------------------------------

  /** `parseFloat(text)`, with `undefined` as `None`. The floating-point parse is not modelled. */
  datatype Cost = ParsedFloat(text: Option<string>)

  /** A model record as loaded and then updated in memory. `datasetName` is set when the dataset
      is looked up; `modelId` is `providerData.modelId`; `cost` is present once recorded. */
  datatype ModelDoc = ModelDoc(id: string, name: string, status: string, datasetId: string, datasetName: Option<string>,
                               finetuneId: string, modelId: Option<string>, cost: Option<Cost>)

  /** A dataset record: its name and its class list (`None` when it has none). */
  datatype DatasetDoc = DatasetDoc(name: string, classes: Option<seq<string>>)

  /** A fine-tune job as the provider reports it: its status, its event messages in order, the ids
      of its result files and the name of the fine-tuned model (`None` while there is none). */
  datatype FineTuneJob = FineTuneJob(status: string, events: seq<string>, resultFiles: seq<string>,
                                     fineTunedModel: Option<string>)

  datatype Sources = Sources(datasets: map<string, DatasetDoc>, jobs: map<string, FineTuneJob>, files: map<string, string>)

  /** The `metrics` list and the `metricResults` object, kept as its entries in order. */
  datatype Metrics = Metrics(names: seq<string>, results: seq<(string, string)>)

  datatype Evaluation = Evaluation(name: string, modelId: string, metrics: Metrics, trainingEvaluation: bool)

  /** The writes the handler makes, in the order it makes them. */
  datatype Write =
    | PutResults(key: string, body: string)
    | InsertEvaluation(evaluation: Evaluation)
    | SetSucceeded(id: string, modelId: Option<string>, resultsFileName: string, resultsFileId: string)
    | SetFailed(id: string, modelId: Option<string>)
    | SetCost(id: string, cost: Cost)

  /** What ends the whole request with 400 `{error: e}`: reading a property of a missing dataset, a
      missing result file, event or metric field, or a failing provider call. */
  datatype PollError = UserMissing | DatasetMissing | ProviderError | NoResultFile | NoEvents | MissingMetric

  // ----- Names and keys ----------------------------------------------------------------------

  /** The storage key of a model's results file. */
  function ResultsKey(id: string): string
  {
    "openai_results_data/" + id + ".csv"
  }

  /** Different models never share a results key. */
  lemma ResultsKeyInjective(a: string, b: string)
    ensures ResultsKey(a) == ResultsKey(b) ==> a == b
  {
    var p := "openai_results_data/";
    if ResultsKey(a) == ResultsKey(b) {
      assert |a| == |b|;
      assert ResultsKey(a)[|p|..|p| + |a|] == a;
      assert ResultsKey(b)[|p|..|p| + |b|] == b;
    }
  }

  /** The name of the evaluation created from a model's training results. */
  function EvaluationName(modelName: string): (n: string)
    ensures StartsWith(n, modelName) && n[|modelName|..] == " training evaluation"
  {
    modelName + " training evaluation"
  }

  // ----- Status ------------------------------------------------------------------------------

  /** The statuses the decision table can produce. */
  predicate InProgressStatus(s: string)
  {
    s == "queued for training" || s == "training started" || s == "creating model endpoint" || s == ""
    || StartsWith(s, "Completed epoch")
  }

  /** The status shown for a job still running, from its events; `None` when there are no events
      (reading the last message then throws). The first rule that applies wins. */
  function DeriveStatus(events: seq<string>): (r: Option<string>)
    ensures r.None? <==> events == []
    ensures r.Some? ==> InProgressStatus(r.value)
    ensures r.Some? ==> r.value != "succeeded" && r.value != "failed" && r.value != "imported"
    ensures 0 < |events| <= 3 ==> r == Some("queued for training")
  {
    if events == [] then None
    else
      var last := events[|events| - 1];
      if |events| <= 3 || StartsWith(last, "Fine-tune is in the queue") || StartsWith(last, "Fine-tune costs") then
        Some("queued for training")
      else if last == "Fine-tune started" then Some("training started")
      else if StartsWith(last, "Completed epoch") then Some(last)
      else if StartsWith(last, "Uploaded") then Some("creating model endpoint")
      else Some("")
  }

  /** After the first three events an epoch message is shown as it is. */
  lemma EpochMessageShownAsIs(events: seq<string>)
    requires |events| > 3 && StartsWith(events[|events| - 1], "Completed epoch")
    ensures DeriveStatus(events) == Some(events[|events| - 1])
  {
    var last := events[|events| - 1];
    assert last[0] == "Completed epoch"[0] == 'C';
    assert !StartsWith(last, "Fine-tune is in the queue") && !StartsWith(last, "Fine-tune costs") by {
      assert "Fine-tune is in the queue"[0] == "Fine-tune costs"[0] == 'F';
    }
    assert last != "Fine-tune started";
  }

  /** Once there are more than three events only the last message decides the status. */
  lemma StatusFollowsLastEvent(events: seq<string>, events': seq<string>)
    requires |events| > 3 && |events'| > 3 && events[|events| - 1] == events'[|events'| - 1]
    ensures DeriveStatus(events) == DeriveStatus(events')
  {
  }

  // ----- Metrics -----------------------------------------------------------------------------

  /** A character of the `\s` class of JavaScript regular expressions. */
  predicate IsJsWhitespace(c: char)
  {
    c == '\t' || c == '\n' || c == '\U{000B}' || c == '\U{000C}' || c == '\r' || c == ' ' || c == '\U{00A0}'
    || c == '\U{1680}' || ('\U{2000}' <= c <= '\U{200A}') || c == '\U{2028}' || c == '\U{2029}' || c == '\U{202F}'
    || c == '\U{205F}' || c == '\U{3000}' || c == '\U{FEFF}'
  }

  /** `s.replace(/\s+/g, '')`: every whitespace run removed. */
  function StripWhitespace(s: string): (r: string)
    ensures |r| <= |s|
  {
    if s == [] then []
    else if IsJsWhitespace(s[0]) then StripWhitespace(s[1..])
    else [s[0]] + StripWhitespace(s[1..])
  }

  /** Stripping removes the whitespace characters and keeps every other one. */
  lemma {:induction false} StripRemovesOnlyWhitespace(s: string)
    ensures forall c :: c in StripWhitespace(s) <==> c in s && !IsJsWhitespace(c)
  {
    if s != [] {
      StripRemovesOnlyWhitespace(s[1..]);
      assert s == [s[0]] + s[1..];
    }
  }

  /** Stripping works piece by piece. */
  lemma {:induction false} StripConcat(a: string, b: string)
    ensures StripWhitespace(a + b) == StripWhitespace(a) + StripWhitespace(b)
  {
    if a == [] {
      assert a + b == b;
    } else {
      var ab := a + b;
      var rest := a[1..];
      assert ab[0] == a[0] && ab[1..] == rest + b;
      StripConcat(rest, b);
      if IsJsWhitespace(a[0]) {
        calc {
          StripWhitespace(ab);
          StripWhitespace(rest + b);
          StripWhitespace(rest) + StripWhitespace(b);
        }
      } else {
        calc {
          StripWhitespace(ab);
          [a[0]] + StripWhitespace(rest + b);
          [a[0]] + (StripWhitespace(rest) + StripWhitespace(b));
          ([a[0]] + StripWhitespace(rest)) + StripWhitespace(b);
        }
      }
    }
  }

  /** Text without whitespace is left as it is, so stripping twice is stripping once. */
  lemma {:induction false} StripKeepsPlainText(s: string)
    requires forall c :: c in s ==> !IsJsWhitespace(c)
    ensures StripWhitespace(s) == s
  {
    if s != [] {
      assert s[0] in s;
      forall c | c in s[1..] ensures !IsJsWhitespace(c) { assert c in s; }
      StripKeepsPlainText(s[1..]);
      assert StripWhitespace(s) == [s[0]] + StripWhitespace(s[1..]);
      assert [s[0]] + s[1..] == s;
    }
  }

  lemma StripIdempotent(s: string)
    ensures StripWhitespace(StripWhitespace(s)) == StripWhitespace(s)
  {
    StripRemovesOnlyWhitespace(s);
    StripKeepsPlainText(StripWhitespace(s));
  }

  const BinaryMetricNames: seq<string> := ["accuracy", "precision", "recall", "auprc", "auroc", "f1"]
  const MulticlassMetricNames: seq<string> := ["accuracy", "weighted f1"]

  /** Each name paired with its field, the last fields in order, whitespace removed. */
  function LastFields(names: seq<string>, parts: seq<string>): (fields: seq<(string, string)>)
    requires |names| <= |parts|
    ensures |fields| == |names|
  {
    seq(|names|, i requires 0 <= i < |names| => (names[i], StripWhitespace(parts[|parts| - |names| + i])))
  }

  /** The last `|names|` fields as the metrics `names`, or a missing metric when there are fewer
      fields than names. */
  function TailMetrics(names: seq<string>, parts: seq<string>): (r: Result<Metrics, PollError>)
    ensures r.Failure? ==> r.error == MissingMetric
    ensures r.Success? <==> |parts| >= |names|
    ensures r.Success? ==>
      && r.value.names == names && |r.value.results| == |names|
      && forall i :: 0 <= i < |names| ==> r.value.results[i] == (names[i], StripWhitespace(parts[|parts| - |names| + i]))
  {
    if |parts| < |names| then Failure(MissingMetric)
    else Success(Metrics(names, LastFields(names, parts)))
  }

  /** The training metrics read from the tail of the comma-split results file: for two classes the
      last six fields are accuracy, precision, recall, auprc, auroc and f1; for any other class list
      the last two are accuracy and weighted f1; a dataset without classes gets none. A field
      that does not exist makes `.replace` throw. */
  function ExtractMetrics(classes: Option<seq<string>>, data: string): (r: Result<Metrics, PollError>)
    ensures r.Failure? ==> r.error == MissingMetric
    ensures classes.None? ==> r == Success(Metrics([], []))
    ensures classes.Some? && |classes.value| == 2 ==>
      var parts := Split(data, ',');
      && (r.Success? <==> |parts| >= 6)
      && (r.Success? ==>
            && r.value.names == BinaryMetricNames && |r.value.results| == 6
            && forall i :: 0 <= i < 6 ==> r.value.results[i] == (BinaryMetricNames[i], StripWhitespace(parts[|parts| - 6 + i])))
    ensures classes.Some? && |classes.value| != 2 ==>
      var parts := Split(data, ',');
      && (r.Success? <==> |parts| >= 2)
      && (r.Success? ==>
            && r.value.names == MulticlassMetricNames && |r.value.results| == 2
            && forall i :: 0 <= i < 2 ==> r.value.results[i] == (MulticlassMetricNames[i], StripWhitespace(parts[|parts| - 2 + i])))
  {
    match classes
    case None => Success(Metrics([], []))
    case Some(cs) =>
      TailMetrics(if |cs| == 2 then BinaryMetricNames else MulticlassMetricNames, Split(data, ','))
  }

  /** A binary results file whose last six comma-separated fields are `fields` yields those fields,
      stripped, as the six metrics in order. */
  lemma BinaryMetricsAreLastFields(classes: seq<string>, head: seq<string>, fields: seq<string>)
    requires |classes| == 2 && |fields| == 6
    requires forall k :: 0 <= k < |head| ==> ',' !in head[k]
    requires forall k :: 0 <= k < 6 ==> ',' !in fields[k]
    ensures var r := ExtractMetrics(Some(classes), Join(head + fields, ','));
      r.Success? && forall i :: 0 <= i < 6 ==> r.value.results[i] == (BinaryMetricNames[i], StripWhitespace(fields[i]))
  {
    var parts := head + fields;
    assert Split(Join(parts, ','), ',') == parts by {
      forall k | 0 <= k < |parts| ensures ',' !in parts[k] {
        if k < |head| { assert parts[k] == head[k]; } else { assert parts[k] == fields[k - |head|]; }
      }
      SplitJoin(parts, ',');
    }
    assert parts[|parts| - 6..] == fields;
  }

  // ----- Cost --------------------------------------------------------------------------------

  /** `message.split('$')[1]`: the text after the first `$` up to the next one; `undefined`
      when there is no `$`. */
  function CostText(message: string): Option<string>
  {
    var parts := Split(message, '$');
    if |parts| > 1 then Some(parts[1]) else None
  }

  /** A cost message with one `$` gives the amount written after it. */
  lemma CostOfCostMessage(before: string, amount: string)
    requires '$' !in before && '$' !in amount
    ensures CostText(before + "$" + amount) == Some(amount)
  {
    SplitAtOnlySeparator(before, amount, '$');
  }

  /** Whether the cost is recorded: no cost yet, at least two events, and the second event
      announces the cost. */
  predicate RecordsCost(m: ModelDoc, events: seq<string>)
  {
    m.cost.None? && |events| > 1 && StartsWith(events[1], "Fine-tune costs")
  }

  // ----- One model ---------------------------------------------------------------------------

  /** The result of processing one model: the model as updated in memory, the writes made, and the
      error that ends the request, if any. */
  datatype Step = Step(model: ModelDoc, writes: seq<Write>, error: Option<PollError>)

  /** The cost update at the end of a poll. */
  function CostUpdate(m: ModelDoc, events: seq<string>, writes: seq<Write>): (s: Step)
    ensures s.error.None?
    ensures RecordsCost(m, events) ==>
      s.model == m.(cost := Some(ParsedFloat(CostText(events[1])))) && s.writes == writes + [SetCost(m.id, s.model.cost.value)]
    ensures !RecordsCost(m, events) ==> s == Step(m, writes, None)
  {
    if RecordsCost(m, events) then
      var cost := ParsedFloat(CostText(events[1]));
      Step(m.(cost := Some(cost)), writes + [SetCost(m.id, cost)], None)
    else Step(m, writes, None)
  }

  /** A job that succeeded: store its results file, create the training evaluation, mark the model
      "succeeded", then update the cost. */
  function Succeeded(m: ModelDoc, ds: DatasetDoc, job: FineTuneJob, files: map<string, string>): Step
  {
    if job.resultFiles == [] then Step(m, [], Some(NoResultFile))
    else
      var fileId := job.resultFiles[0];
      if fileId !in files then Step(m, [], Some(ProviderError))
      else
        var data := files[fileId];
        var key := ResultsKey(m.id);
        var put := [PutResults(key, data)];
        match ExtractMetrics(ds.classes, data)
        case Failure(e) => Step(m, put, Some(e))
        case Success(metrics) =>
          var evaluation := Evaluation(EvaluationName(m.name), m.id, metrics, true);
          CostUpdate(m.(status := "succeeded", modelId := job.fineTunedModel), job.events,
                     put + [InsertEvaluation(evaluation), SetSucceeded(m.id, job.fineTunedModel, key, fileId)])
  }

  /** A succeeded job without a results file, or whose file the provider cannot return, ends the
      request before anything is written. Otherwise the results are stored first under the model's
      key; when the metrics can be read, the training evaluation and the "succeeded" update follow,
      in that order, and the model records the job's fine-tuned model. */
  lemma SucceededStoresResults(m: ModelDoc, ds: DatasetDoc, job: FineTuneJob, files: map<string, string>)
    ensures job.resultFiles == [] ==> Succeeded(m, ds, job, files) == Step(m, [], Some(NoResultFile))
    ensures job.resultFiles != [] && job.resultFiles[0] !in files ==> Succeeded(m, ds, job, files) == Step(m, [], Some(ProviderError))
    ensures job.resultFiles != [] && job.resultFiles[0] in files ==>
      var fileId := job.resultFiles[0];
      var metrics := ExtractMetrics(ds.classes, files[fileId]);
      var s := Succeeded(m, ds, job, files);
      && |s.writes| >= 1 && s.writes[0] == PutResults(ResultsKey(m.id), files[fileId])
      && (s.error.Some? <==> metrics.Failure?)
      && (metrics.Failure? ==> s == Step(m, [PutResults(ResultsKey(m.id), files[fileId])], Some(MissingMetric)))
      && (metrics.Success? ==>
            && |s.writes| >= 3
            && s.writes[1] == InsertEvaluation(Evaluation(EvaluationName(m.name), m.id, metrics.value, true))
            && s.writes[2] == SetSucceeded(m.id, job.fineTunedModel, ResultsKey(m.id), fileId)
            && s.model.status == "succeeded" && s.model.modelId == job.fineTunedModel)
  {
  }

  /** One iteration of the loop over the project's models. */
  function Refresh(m: ModelDoc, src: Sources): Step
  {
    if m.status == "imported" then Step(m, [], None)
    else if m.datasetId !in src.datasets then Step(m, [], Some(DatasetMissing))
    else
      var ds := src.datasets[m.datasetId];
      var named := m.(datasetName := Some(ds.name));
      if m.status == "succeeded" then Step(named, [], None)
      else if m.finetuneId !in src.jobs then Step(named, [], Some(ProviderError))
      else
        var job := src.jobs[m.finetuneId];
        if job.status == "succeeded" then Succeeded(named, ds, job, src.files)
        else if job.status == "failed" then Step(named.(status := "failed"), [SetFailed(m.id, job.fineTunedModel)], None)
        else
          match DeriveStatus(job.events)
          case None => Step(named, [], Some(NoEvents))
          case Some(status) => CostUpdate(named.(status := status), job.events, [])
  }

  /** Imported models are left exactly as they are, whatever the dataset and provider say. */
  lemma ImportedModelsSkipped(m: ModelDoc, src: Sources)
    requires m.status == "imported"
    ensures Refresh(m, src) == Step(m, [], None)
  {
  }

  /** A model that already succeeded only gets its dataset name: the provider is not asked and
      nothing is written. */
  lemma SucceededModelsNotPolled(m: ModelDoc, src: Sources)
    requires m.status == "succeeded" && m.datasetId in src.datasets
    ensures Refresh(m, src) == Step(m.(datasetName := Some(src.datasets[m.datasetId].name)), [], None)
  {
  }

  /** A job the provider reports as failed marks the model "failed", writes only that, and records
      no cost. */
  lemma FailedJobMarksModelFailed(m: ModelDoc, src: Sources)
    requires m.status != "imported" && m.status != "succeeded" && m.datasetId in src.datasets
    requires m.finetuneId in src.jobs && src.jobs[m.finetuneId].status == "failed"
    ensures var s := Refresh(m, src);
      && s.error.None? && s.model.status == "failed" && s.model.cost == m.cost
      && s.writes == [SetFailed(m.id, src.jobs[m.finetuneId].fineTunedModel)]
  {
  }

  /** A polled model's cost is recorded exactly when it had none, the job has two or more events,
      and the second one announces the cost; the recorded value is the parse of the text after `$`. */
  lemma CostRecordedOnlyWhenAnnounced(m: ModelDoc, src: Sources)
    requires m.status != "imported" && m.status != "succeeded" && m.datasetId in src.datasets
    requires m.finetuneId in src.jobs && src.jobs[m.finetuneId].status != "failed"
    requires Refresh(m, src).error.None?
    ensures var s := Refresh(m, src);
      var events := src.jobs[m.finetuneId].events;
      && (s.model.cost != m.cost <==> RecordsCost(m, events))
      && (RecordsCost(m, events) ==>
            s.model.cost == Some(ParsedFloat(CostText(events[1]))) && s.writes[|s.writes| - 1] == SetCost(m.id, s.model.cost.value))
      && (!RecordsCost(m, events) ==> forall w :: w in s.writes ==> !w.SetCost?)
  {
    var job := src.jobs[m.finetuneId];
    var named := m.(datasetName := Some(src.datasets[m.datasetId].name));
    assert RecordsCost(m, job.events) <==> RecordsCost(named, job.events);
    if job.status == "succeeded" {
      var data := src.files[job.resultFiles[0]];
      var metrics := ExtractMetrics(src.datasets[m.datasetId].classes, data).value;
      assert RecordsCost(named, job.events) <==> RecordsCost(named.(status := "succeeded", modelId := job.fineTunedModel), job.events);
    } else {
      var status := DeriveStatus(job.events).value;
      assert RecordsCost(named, job.events) <==> RecordsCost(named.(status := status), job.events);
    }
  }

  /** A model the refresh leaves "succeeded" is settled: refreshing it again changes nothing and
      writes nothing. */
  lemma SucceededIsSettled(m: ModelDoc, src: Sources)
    requires Refresh(m, src).error.None? && Refresh(m, src).model.status == "succeeded"
    ensures Refresh(Refresh(m, src).model, src) == Step(Refresh(m, src).model, [], None)
  {
  }

  /** A model marked "failed" is not settled: every later listing asks the provider again and
      repeats the write. */
  lemma FailedIsPolledAgain(m: ModelDoc, src: Sources)
    requires Refresh(m, src).error.None? && Refresh(m, src).model.status == "failed"
    requires m.finetuneId in src.jobs && src.jobs[m.finetuneId].status == "failed"
    ensures Refresh(Refresh(m, src).model, src).writes == [SetFailed(m.id, src.jobs[m.finetuneId].fineTunedModel)]
  {
  }

  // ----- The loop ----------------------------------------------------------------------------

  /** The index of the first model whose processing ends the request. */
  function FirstFailing(ms: seq<ModelDoc>, src: Sources): (k: Option<nat>)
    ensures k.Some? ==> k.value < |ms| && Refresh(ms[k.value], src).error.Some?
    ensures k.Some? ==> forall j :: 0 <= j < k.value ==> Refresh(ms[j], src).error.None?
    ensures k.None? ==> forall j :: 0 <= j < |ms| ==> Refresh(ms[j], src).error.None?
  {
    if ms == [] then None
    else
      var n := |ms| - 1;
      match FirstFailing(ms[..n], src)
      case Some(k) => Some(k)
      case None => if Refresh(ms[n], src).error.Some? then Some(n) else None
  }

  /** How many models the loop processes: up to and including the first failing one. */
  function Processed(ms: seq<ModelDoc>, src: Sources): (n: nat)
    ensures n <= |ms|
  {
    match FirstFailing(ms, src)
    case None => |ms|
    case Some(k) => k + 1
  }

  /** The models as updated in memory, in order. */
  function Updated(ms: seq<ModelDoc>, src: Sources): (r: seq<ModelDoc>)
    ensures |r| == |ms|
  {
    if ms == [] then [] else Updated(ms[..|ms| - 1], src) + [Refresh(ms[|ms| - 1], src).model]
  }

  /** Each model is updated on its own: the j-th updated model is the refresh of the j-th model. */
  lemma {:induction false} UpdatedAt(ms: seq<ModelDoc>, src: Sources, j: nat)
    requires j < |ms|
    ensures Updated(ms, src)[j] == Refresh(ms[j], src).model
  {
    var n := |ms| - 1;
    if j < n {
      UpdatedAt(ms[..n], src, j);
    }
  }

  /** The writes made while processing `ms`, in order. */
  function WritesOf(ms: seq<ModelDoc>, src: Sources): seq<Write>
  {
    if ms == [] then [] else WritesOf(ms[..|ms| - 1], src) + Refresh(ms[|ms| - 1], src).writes
  }

  /** The error that ends the request, if any. */
  function ErrorOf(ms: seq<ModelDoc>, src: Sources): Option<PollError>
  {
    match FirstFailing(ms, src)
    case None => None
    case Some(k) => Refresh(ms[k], src).error
  }

  /** The `for` loop: every model up to the first failing one is updated in place, the others are
      untouched. */
  method RefreshModels(models: array<ModelDoc>, src: Sources) returns (writes: seq<Write>, error: Option<PollError>)
    modifies models
    ensures var ms := old(models[..]);
      var k := Processed(ms, src);
      && models[..k] == Updated(ms[..k], src)
      && models[k..] == ms[k..]
      && writes == WritesOf(ms[..k], src)
      && error == ErrorOf(ms, src)
  {
    ghost var ms := models[..];
    writes := [];
    error := None;
    var i := 0;
    while i < models.Length
      invariant 0 <= i <= models.Length
      invariant models[..i] == Updated(ms[..i], src)
      invariant models[i..] == ms[i..]
      invariant FirstFailing(ms[..i], src).None?
      invariant writes == WritesOf(ms[..i], src)
    {
      assert models[i] == ms[i] by { assert models[i..][0] == ms[i..][0]; }
      var step := Refresh(models[i], src);
      ghost var before := models[..];
      models[i] := step.model;
      RefreshStep(ms, src, i, before, models[..]);
      writes := writes + step.writes;
      if step.error.Some? {
        StopsAtFirstFailing(ms, src, i);
        return writes, step.error;
      }
      i := i + 1;
    }
    assert ms[..i] == ms;
  }

  /** Refreshing the model at index `i` in place extends the updated prefix by one model and the
      writes by that model's writes, and leaves the models after it as they were. */
  lemma RefreshStep(ms: seq<ModelDoc>, src: Sources, i: nat, before: seq<ModelDoc>, after: seq<ModelDoc>)
    requires i < |ms| == |before|
    requires before[..i] == Updated(ms[..i], src) && before[i..] == ms[i..]
    requires after == before[i := Refresh(ms[i], src).model]
    ensures after[..i + 1] == Updated(ms[..i + 1], src) && after[i + 1..] == ms[i + 1..]
    ensures WritesOf(ms[..i + 1], src) == WritesOf(ms[..i], src) + Refresh(ms[i], src).writes
    ensures FirstFailing(ms[..i], src).None? && Refresh(ms[i], src).error.None? ==> FirstFailing(ms[..i + 1], src).None?
  {
    assert ms[..i + 1][..i] == ms[..i];
    assert after[..i + 1] == before[..i] + [Refresh(ms[i], src).model];
    assert after[i + 1..] == before[i + 1..];
    assert before[i + 1..] == before[i..][1..];
  }

  /** A failing model preceded only by models that do not fail is where the loop stops. */
  lemma StopsAtFirstFailing(ms: seq<ModelDoc>, src: Sources, i: nat)
    requires i < |ms| && Refresh(ms[i], src).error.Some?
    requires FirstFailing(ms[..i], src).None?
    ensures FirstFailing(ms, src) == Some(i) && Processed(ms, src) == i + 1 && ErrorOf(ms, src) == Refresh(ms[i], src).error
  {
    forall j | 0 <= j < i ensures Refresh(ms[j], src).error.None? {
      assert ms[..i][j] == ms[j];
    }
  }

  // ----- The handler -------------------------------------------------------------------------

  /** The answer: 200 with the updated models, 400 "Project not found", or 400 with the error. */
  datatype Reply = Listed(models: seq<ModelDoc>) | ProjectNotFound | Failed(error: PollError)

  /** The handler after the session check: the user and the project are looked up, then every model
      of the project is refreshed. */
  method ListModels(userFound: bool, projectFound: bool, models: seq<ModelDoc>, src: Sources)
    returns (reply: Reply, writes: seq<Write>)
    ensures !userFound ==> reply == Failed(UserMissing) && writes == []
    ensures userFound && !projectFound ==> reply == ProjectNotFound && writes == []
    ensures userFound && projectFound ==>
      && writes == WritesOf(models[..Processed(models, src)], src)
      && (reply.Listed? <==> FirstFailing(models, src).None?)
      && (reply.Listed? ==>
            |reply.models| == |models| && forall j :: 0 <= j < |models| ==> reply.models[j] == Refresh(models[j], src).model)
      && (reply.Failed? ==> reply.error == Refresh(models[FirstFailing(models, src).value], src).error.value)
  {
    writes := [];
    if !userFound {
      return Failed(UserMissing), writes;
    }
    if !projectFound {
      return ProjectNotFound, writes;
    }
    var a := new ModelDoc[|models|](i requires 0 <= i < |models| => models[i]);
    assert a[..] == models;
    var error;
    writes, error := RefreshModels(a, src);
    if error.Some? {
      return Failed(error.value), writes;
    }
    assert a[..] == a[..|models|];
    forall j | 0 <= j < |models| ensures a[j] == Refresh(models[j], src).model {
      assert models[..|models|] == models;
      UpdatedAt(models, src, j);
    }
    reply := Listed(a[..]);
  }
}

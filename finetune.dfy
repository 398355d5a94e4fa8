/** The fine-tune handler (nextjs_app/pages/api/models/finetune/openai.js): it cleans the
    hyper-parameters, turns every CSV row of the dataset into a prompt/completion pair through
    the template, collects the class labels, builds the fine-tune request for a binary,
    multiclass or generative project, and decides what the caller and the model record see
    when something fails.

    The database, the storage bucket, the CSV parser and the provider are inputs: `Store` says
    what the lookups find, `readCsv` gives the rows stored under a key, and the file ids are the
    ones the provider hands back for the uploads. */
module Finetune {
  import opened Common
  import opened Placeholders

  // ----- Hyper-parameters --------------------------------------------------------------------

  /** A hyper-parameter value as posted: `null`, or any other JSON value, kept by its text. */
  datatype Json = JNull | JValue(text: string)

  /** `Number(value)`. The floating-point conversion itself is not modelled. */
  datatype Num = NumberOf(source: string)

  /** The loop over `Object.entries(hyperParams)`: each `null` entry is deleted, every other value
      is replaced by its `Number(...)`. */
  method CleanHyperParams(hyperParams: map<string, Json>) returns (cleaned: map<string, Num>)
    ensures cleaned.Keys == set k | k in hyperParams && hyperParams[k] != JNull
    ensures forall k :: k in cleaned ==> cleaned[k] == NumberOf(hyperParams[k].text)
    ensures cleaned == NonNullNumbers(hyperParams)
  {
    cleaned := map[];
    var pending := hyperParams.Keys;
    while pending != {}
      invariant pending <= hyperParams.Keys
      invariant cleaned.Keys == set k | k in hyperParams.Keys - pending && hyperParams[k] != JNull
      invariant forall k :: k in cleaned ==> cleaned[k] == NumberOf(hyperParams[k].text)
      decreases pending
    {
      var key :| key in pending;
      if hyperParams[key] != JNull {
        cleaned := cleaned[key := NumberOf(hyperParams[key].text)];
      }
      pending := pending - {key};
    }
  }

  // ----- Project type ------------------------------------------------------------------------

  datatype ProjectType = Generative | Classification

  /** The check on `project.type`: only the two supported kinds pass. */
  function ProjectTypeOf(t: string): (r: Result<ProjectType, HttpError>)
    ensures r.Success? <==> t == "generative" || t == "classification"
    ensures r.Success? ==> (r.value == Classification <==> t == "classification")
    ensures r.Failure? ==> r.error == HttpError(400, "Only classification and generation are supported")
  {
    if t == "generative" then Success(Generative)
    else if t == "classification" then Success(Classification)
    else Failure(HttpError(400, "Only classification and generation are supported"))
  }

  // ----- Dataset preparation -----------------------------------------------------------------

  /** One line of the training file. */
  datatype Example = Example(prompt: string, completion: string)

  /** Rendering one more match replaces its first occurrence in the text rendered so far. */
  lemma RenderStep(template: string, matches: seq<string>, k: nat, row: Row)
    requires k < |matches|
    ensures Render(template, matches[..k + 1], row)
         == ReplaceFirst(Render(template, matches[..k], row), matches[k], JsString(Cell(row, KeyOf(matches[k]))))
  {
    assert matches[..k + 1][..k] == matches[..k];
  }

  /** The replace loop of `templateTransform`: each match, in order, has its first occurrence in
      the prompt replaced by the row's cell for its key. */
  method RenderTemplate(template: string, matches: seq<string>, row: Row) returns (prompt: string)
    ensures prompt == Render(template, matches, row)
  {
    prompt := template;
    var k := 0;
    while k < |matches|
      invariant 0 <= k <= |matches|
      invariant prompt == Render(template, matches[..k], row)
    {
      var m := matches[k];
      RenderStep(template, matches, k, row);
      prompt := ReplaceFirst(prompt, m, JsString(Cell(row, KeyOf(m))));
      k := k + 1;
    }
    assert matches[..k] == matches;
  }

  /** What `templateTransform` returns for a row: the rendered template, and the output cell
      (`undefined` when missing) followed by the stop sequence. */
  function ExampleFor(templateString: string, outputColumn: string, stopSequence: string, row: Row): Example
  {
    Example(Render(templateString, Matches(templateString), row), JsString(Cell(row, outputColumn)) + stopSequence)
  }

  function ExamplesFor(templateString: string, outputColumn: string, stopSequence: string, rows: seq<Row>): (es: seq<Example>)
    ensures |es| == |rows|
    ensures forall i :: 0 <= i < |rows| ==> es[i] == ExampleFor(templateString, outputColumn, stopSequence, rows[i])
  {
    seq(|rows|, i requires 0 <= i < |rows| => ExampleFor(templateString, outputColumn, stopSequence, rows[i]))
  }

  /** The labels `templateTransform` pushes for `rows`: the output cell of each row, for a
      classification project only. */
  function ClassCells(classification: bool, outputColumn: string, rows: seq<Row>): (cells: seq<Option<string>>)
    ensures |cells| == (if classification then |rows| else 0)
    ensures forall i :: 0 <= i < |cells| ==> cells[i] == Cell(rows[i], outputColumn)
  {
    if classification then seq(|rows|, i requires 0 <= i < |rows| => Cell(rows[i], outputColumn)) else []
  }

  /** `classes` after deduplication: training rows first, then validation rows. */
  function Classes(classification: bool, outputColumn: string, trainRows: seq<Row>, valRows: seq<Row>): seq<Option<string>>
  {
    Distinct(ClassCells(classification, outputColumn, trainRows) + ClassCells(classification, outputColumn, valRows))
  }

  /** The handler's template state: the fixed template inputs, and the `classes` list that every
      transformed row may grow. */
  class DatasetPreparation {
    const templateString: string
    const matches: seq<string>
    const outputColumn: string
    const stopSequence: string
    const classification: bool
    var classes: seq<Option<string>>

    constructor (templateString: string, outputColumn: string, stopSequence: string, classification: bool)
      ensures this.templateString == templateString && matches == Matches(templateString)
      ensures this.outputColumn == outputColumn && this.stopSequence == stopSequence
      ensures this.classification == classification && classes == []
    {
      this.templateString := templateString;
      matches := Matches(templateString);
      this.outputColumn := outputColumn;
      this.stopSequence := stopSequence;
      this.classification := classification;
      classes := [];
    }

    /** `templateTransform(row)`: records the row's label, then replaces the matches one by one. */
    method TemplateTransform(row: Row) returns (example: Example)
      requires matches == Matches(templateString)
      modifies this
      ensures classes == old(classes) + ClassCells(classification, outputColumn, [row])
      ensures example == ExampleFor(templateString, outputColumn, stopSequence, row)
    {
      var rowCells := ClassCells(classification, outputColumn, [row]);
      assert rowCells == if classification then [Cell(row, outputColumn)] else [];
      if classification {
        classes := classes + [Cell(row, outputColumn)];
      }
      assert classes == old(classes) + rowCells;
      var prompt := RenderTemplate(templateString, matches, row);
      example := Example(prompt, JsString(Cell(row, outputColumn)) + stopSequence);
    }

    /** `rows.map(row => templateTransform(row))`. */
    method TransformAll(rows: seq<Row>) returns (examples: seq<Example>)
      requires matches == Matches(templateString)
      modifies this
      ensures classes == old(classes) + ClassCells(classification, outputColumn, rows)
      ensures examples == ExamplesFor(templateString, outputColumn, stopSequence, rows)
    {
      examples := [];
      var i := 0;
      while i < |rows|
        invariant 0 <= i <= |rows|
        invariant classes == old(classes) + ClassCells(classification, outputColumn, rows[..i])
        invariant examples == ExamplesFor(templateString, outputColumn, stopSequence, rows[..i])
      {
        var example := TemplateTransform(rows[i]);
        assert ClassCells(classification, outputColumn, rows[..i + 1])
            == ClassCells(classification, outputColumn, rows[..i]) + ClassCells(classification, outputColumn, [rows[i]]);
        assert ExamplesFor(templateString, outputColumn, stopSequence, rows[..i + 1])
            == ExamplesFor(templateString, outputColumn, stopSequence, rows[..i]) + [example];
        examples := examples + [example];
        i := i + 1;
      }
      assert rows[..i] == rows;
    }
  }

  /** The training and (when a validation file is present) validation examples, and the
      deduplicated class labels. */
  method PrepareTrainingData(templateString: string, outputColumn: string, stopSequence: string, classification: bool,
                             trainRows: seq<Row>, valRows: Option<seq<Row>>)
    returns (trainData: seq<Example>, valData: Option<seq<Example>>, classes: seq<Option<string>>)
    ensures trainData == ExamplesFor(templateString, outputColumn, stopSequence, trainRows)
    ensures valData.Some? <==> valRows.Some?
    ensures valRows.Some? ==> valData.value == ExamplesFor(templateString, outputColumn, stopSequence, valRows.value)
    ensures classes == Classes(classification, outputColumn, trainRows, if valRows.Some? then valRows.value else [])
  {
    var prep := new DatasetPreparation(templateString, outputColumn, stopSequence, classification);
    trainData := prep.TransformAll(trainRows);
    var trainCells := ClassCells(classification, outputColumn, trainRows);
    assert prep.classes == trainCells;
    valData := None;
    if valRows.Some? {
      var examples := prep.TransformAll(valRows.value);
      valData := Some(examples);
    } else {
      var noVal: seq<Row> := [];
      assert ClassCells(classification, outputColumn, noVal) == [];
      assert prep.classes == trainCells + ClassCells(classification, outputColumn, noVal);
    }
    classes := Distinct(prep.classes);
  }

  /** Every class is the output cell of some training or validation row of a classification
      project, and every such cell is a class. */
  lemma ClassesAreOutputCells(classification: bool, outputColumn: string, trainRows: seq<Row>, valRows: seq<Row>, x: Option<string>)
    ensures x in Classes(classification, outputColumn, trainRows, valRows) <==>
      classification && exists row :: row in trainRows + valRows && Cell(row, outputColumn) == x
  {
    var cells := ClassCells(classification, outputColumn, trainRows) + ClassCells(classification, outputColumn, valRows);
    var rows := trainRows + valRows;
    if classification {
      assert |cells| == |rows|;
      assert forall i :: 0 <= i < |cells| ==> cells[i] == Cell(rows[i], outputColumn);
      if x in cells {
        var i :| 0 <= i < |cells| && cells[i] == x;
        assert rows[i] in rows;
      }
      if exists row :: row in rows && Cell(row, outputColumn) == x {
        var row :| row in rows && Cell(row, outputColumn) == x;
        var i :| 0 <= i < |rows| && rows[i] == row;
        assert cells[i] == x;
      }
    }
  }

  /** The class labels appear once each, in the order they are first seen, training rows first. */
  lemma ClassesInFirstSeenOrder(classification: bool, outputColumn: string, trainRows: seq<Row>, valRows: seq<Row>)
    ensures var cells := ClassCells(classification, outputColumn, trainRows) + ClassCells(classification, outputColumn, valRows);
      var cs := Classes(classification, outputColumn, trainRows, valRows);
      && NoDuplicates(cs)
      && forall i, j :: 0 <= i < j < |cs| ==> FirstIndex(cells, cs[i]) < FirstIndex(cells, cs[j])
  {
    var cells := ClassCells(classification, outputColumn, trainRows) + ClassCells(classification, outputColumn, valRows);
    DistinctKeepsFirstOccurrenceOrder(cells);
  }

  // ----- The fine-tune request ---------------------------------------------------------------

  /** A value in the request object. */
  datatype Field = Text(text: string) | Flag(flag: bool) | Count(count: nat) | Number(num: Num)

  type Request = map<string, Field>

  /** `finetuneRequest` before the hyper-parameters are spread over it. `valFileId` is the
      uploaded validation file's id when a validation file is present. */
  function BaseRequest(projectType: ProjectType, classes: seq<Option<string>>, stopSequence: string, modelArchitecture: string,
                       trainFileId: string, valFileId: Option<string>): (r: Result<Request, HttpError>)
    // a classification project needs at least two classes
    ensures r.Failure? <==> projectType == Classification && |classes| <= 1
    ensures r.Failure? ==> r.error == HttpError(400, "Dataset classes not specified")
    ensures r.Success? ==> "training_file" in r.value && r.value["training_file"] == Text(trainFileId)
    ensures r.Success? ==> "model" in r.value && r.value["model"] == Text(modelArchitecture)
    // generative: nothing else
    ensures r.Success? && projectType == Generative ==> r.value.Keys == {"training_file", "model"}
    // classification: metrics on, the class field chosen by the number of classes, and the
    // validation file only when there is one
    ensures r.Success? && projectType == Classification ==>
      && "compute_classification_metrics" in r.value && r.value["compute_classification_metrics"] == Flag(true)
      && ("validation_file" in r.value <==> valFileId.Some?)
      && (valFileId.Some? ==> r.value["validation_file"] == Text(valFileId.value))
      && ("classification_positive_class" in r.value <==> |classes| == 2)
      && ("classification_n_classes" in r.value <==> |classes| > 2)
      && r.value.Keys <= {"training_file", "compute_classification_metrics", "classification_positive_class",
                          "classification_n_classes", "model", "validation_file"}
    ensures r.Success? && projectType == Classification && |classes| == 2 ==>
      r.value["classification_positive_class"] == Text(JsString(classes[0]) + stopSequence)
    ensures r.Success? && projectType == Classification && |classes| > 2 ==>
      r.value["classification_n_classes"] == Count(|classes|)
  {
    match projectType
    case Classification =>
      if |classes| <= 1 then Failure(HttpError(400, "Dataset classes not specified"))
      else
        var common := map["training_file" := Text(trainFileId), "compute_classification_metrics" := Flag(true),
                          "model" := Text(modelArchitecture)];
        var typed :=
          if |classes| == 2 then common["classification_positive_class" := Text(JsString(classes[0]) + stopSequence)]
          else common["classification_n_classes" := Count(|classes|)];
        Success(if valFileId.Some? then typed["validation_file" := Text(valFileId.value)] else typed)
    case Generative =>
      Success(map["training_file" := Text(trainFileId), "model" := Text(modelArchitecture)])
  }

  /** `{...finetuneRequest, ...hyperParams}`: every hyper-parameter is sent, overriding a request
      field of the same name; the other request fields stay. */
  function Merge(base: Request, hyperParams: map<string, Num>): (r: Request)
    ensures r.Keys == base.Keys + hyperParams.Keys
    ensures forall k :: k in hyperParams ==> r[k] == Number(hyperParams[k])
    ensures forall k :: k in base && k !in hyperParams ==> r[k] == base[k]
  {
    base + map k | k in hyperParams :: Number(hyperParams[k])
  }

  /** The hyper-parameters as sent: `null` entries dropped, the others converted. */
  function NonNullNumbers(hyperParams: map<string, Json>): map<string, Num>
  {
    map k | k in hyperParams && hyperParams[k] != JNull :: NumberOf(hyperParams[k].text)
  }

  /** In a binary request the positive class is the label of the first training row. */
  lemma PositiveClassIsFirstLabel(outputColumn: string, stopSequence: string, modelArchitecture: string,
                                  trainRows: seq<Row>, valRows: seq<Row>, trainFileId: string, valFileId: Option<string>)
    requires trainRows != []
    requires |Classes(true, outputColumn, trainRows, valRows)| == 2
    ensures var r := BaseRequest(Classification, Classes(true, outputColumn, trainRows, valRows), stopSequence, modelArchitecture, trainFileId, valFileId);
      r.Success? && r.value["classification_positive_class"] == Text(JsString(Cell(trainRows[0], outputColumn)) + stopSequence)
  {
    var cells := ClassCells(true, outputColumn, trainRows) + ClassCells(true, outputColumn, valRows);
    assert cells[0] == Cell(trainRows[0], outputColumn);
    DistinctStartsWithFirst(cells);
  }

  // ----- The handler -------------------------------------------------------------------------

  /** The parts of the request body the handler uses. */
  datatype Body = Body(hyperParams: map<string, Json>, templateString: string, outputColumn: string,
                       stopSequence: string, modelArchitecture: string)

  /** The dataset record: its stored file names (`undefined` when absent). */
  datatype DatasetDoc = DatasetDoc(trainFileName: Option<string>, valFileName: Option<string>)

  /** What the handler's lookups and uploads find. `projectType` is the type of the named project
      (`None`: no such project); `nameTaken` says creating the model record fails with the
      duplicate-key code 11000; the file ids are those the provider gives the uploads. */
  datatype Store = Store(userFound: bool, projectType: Option<string>, dataset: Option<DatasetDoc>, nameTaken: bool,
                         trainFileId: string, valFileId: string)

  /** The template record the handler stores. */
  datatype StoredTemplate = StoredTemplate(classes: Option<seq<Option<string>>>, fields: seq<string>)

  /** Why the model record ends up "failed". */
  datatype Cause = NoPlaceholders | Raised(error: HttpError)

  /** How one call ends.
      - `NoResponse`: an error thrown before the model record exists; the catch block sends nothing.
      - `DuplicateName`: the 400 answer for a model name already in use.
      - `ModelFailed`: an error after the 200 answer was sent; the model record is marked "failed".
      - `Submitted`: the fine-tune request is sent, with the uploaded examples and the stored template. */
  datatype Outcome =
    | NoResponse(error: HttpError)
    | DuplicateName(answer: HttpError)
    | ModelFailed(cause: Cause)
    | Submitted(request: Request, hyperParams: map<string, Num>, template: StoredTemplate,
                trainData: seq<Example>, valData: Option<seq<Example>>)

  /** What the handler does once the model record exists and 200 has been sent: with no
      placeholder `matches` is null and `matches.map` throws; a classification dataset with fewer
      than two classes throws 400; otherwise the request goes out. `valFileId` is the id of the
      uploaded validation file, used only when a validation file is present. */
  function AfterModelRecord(body: Body, projectType: ProjectType, ds: DatasetDoc, trainFileId: string, valFileId: string,
                            readCsv: string -> seq<Row>): (o: Outcome)
    ensures o.ModelFailed? || o.Submitted?
    ensures var valRows := if Truthy(ds.valFileName) then readCsv(RawDataKey(ds.valFileName)) else [];
      var classes := Classes(projectType == Classification, body.outputColumn, readCsv(RawDataKey(ds.trainFileName)), valRows);
      && (o.ModelFailed? <==> Matches(body.templateString) == [] || (projectType == Classification && |classes| <= 1))
      && (o.ModelFailed? && Matches(body.templateString) != [] ==>
            o.cause == Raised(HttpError(400, "Dataset classes not specified")))
  {
    var matches := Matches(body.templateString);
    if matches == [] then ModelFailed(NoPlaceholders)
    else
      var valPresent := Truthy(ds.valFileName);
      var trainRows := readCsv(RawDataKey(ds.trainFileName));
      var valRows := if valPresent then readCsv(RawDataKey(ds.valFileName)) else [];
      var classes := Classes(projectType == Classification, body.outputColumn, trainRows, valRows);
      var base := BaseRequest(projectType, classes, body.stopSequence, body.modelArchitecture, trainFileId,
                              if valPresent then Some(valFileId) else None);
      if base.Failure? then ModelFailed(Raised(base.error))
      else
        var hyperParams := NonNullNumbers(body.hyperParams);
        Submitted(Merge(base.value, hyperParams), hyperParams,
                  StoredTemplate(if |classes| > 1 then Some(classes) else None, MatchesStrings(matches)),
                  ExamplesFor(body.templateString, body.outputColumn, body.stopSequence, trainRows),
                  if valPresent then Some(ExamplesFor(body.templateString, body.outputColumn, body.stopSequence, valRows)) else None)
  }

  /** The model is marked failed for want of a placeholder exactly when no line of the template
      holds a `{{` followed by a `}}`. */
  lemma NoPlaceholderFailure(body: Body, projectType: ProjectType, ds: DatasetDoc, trainFileId: string, valFileId: string,
                             readCsv: string -> seq<Row>)
    ensures AfterModelRecord(body, projectType, ds, trainFileId, valFileId, readCsv) == ModelFailed(NoPlaceholders)
        <==> !exists i: nat, j: nat :: PlaceholderAt(body.templateString, i, j)
  {
    NoMatchesIffNoPlaceholder(body.templateString);
  }

  /** The handler from the hyper-parameter loop to the fine-tune call: the lookups fail in the
      order user, project, project type, dataset, model name; past them the outcome is the one
      `AfterModelRecord` describes. */
  method Handle(body: Body, store: Store, readCsv: string -> seq<Row>) returns (outcome: Outcome)
    ensures !store.userFound ==> outcome == NoResponse(HttpError(400, "User not found"))
    ensures store.userFound && store.projectType.None? ==> outcome == NoResponse(HttpError(400, "Project not found"))
    ensures store.userFound && store.projectType.Some? && ProjectTypeOf(store.projectType.value).Failure? ==>
      outcome == NoResponse(HttpError(400, "Only classification and generation are supported"))
    ensures store.userFound && store.projectType.Some? && ProjectTypeOf(store.projectType.value).Success? ==>
      && (store.dataset.None? ==> outcome == NoResponse(HttpError(400, "Dataset not found")))
      && (store.dataset.Some? && store.nameTaken ==>
            outcome == DuplicateName(HttpError(400, "Another model with the same name exists in this project")))
      && (store.dataset.Some? && !store.nameTaken ==>
            outcome == AfterModelRecord(body, ProjectTypeOf(store.projectType.value).value, store.dataset.value,
                                        store.trainFileId, store.valFileId, readCsv))
  {
    var hyperParams := CleanHyperParams(body.hyperParams);
    if !store.userFound {
      return NoResponse(HttpError(400, "User not found"));
    }
    if store.projectType.None? {
      return NoResponse(HttpError(400, "Project not found"));
    }
    var projectType := ProjectTypeOf(store.projectType.value);
    if projectType.Failure? {
      return NoResponse(projectType.error);
    }
    if store.dataset.None? {
      return NoResponse(HttpError(400, "Dataset not found"));
    }
    if store.nameTaken {
      // the catch block answers the duplicate-key error
      return DuplicateName(HttpError(400, "Another model with the same name exists in this project"));
    }
    // the model record exists and 200 has been sent: from here on a failure only marks it "failed"
    outcome := Submit(body, projectType.value, store.dataset.value, store.trainFileId, store.valFileId, readCsv, hyperParams);
  }

  /** The handler once the model record exists: placeholder extraction, the dataset files, the
      examples and classes, and the fine-tune request. */
  method Submit(body: Body, projectType: ProjectType, dataset: DatasetDoc, trainFileId: string, valFileId: string,
                readCsv: string -> seq<Row>, hyperParams: map<string, Num>) returns (outcome: Outcome)
    requires hyperParams == NonNullNumbers(body.hyperParams)
    ensures outcome == AfterModelRecord(body, projectType, dataset, trainFileId, valFileId, readCsv)
  {
    var matches := Matches(body.templateString);
    if matches == [] {
      return ModelFailed(NoPlaceholders);
    }
    var fields := MatchesStrings(matches);
    var classification := projectType == Classification;
    var valFilePresent := Truthy(dataset.valFileName);
    var trainRows := readCsv(RawDataKey(dataset.trainFileName));
    var valRows: Option<seq<Row>> := None;
    if valFilePresent {
      valRows := Some(readCsv(RawDataKey(dataset.valFileName)));
    }
    var trainData, valData, classes := PrepareTrainingData(body.templateString, body.outputColumn, body.stopSequence,
                                                           classification, trainRows, valRows);
    var template := StoredTemplate(if |classes| > 1 then Some(classes) else None, fields);
    var base := BaseRequest(projectType, classes, body.stopSequence, body.modelArchitecture, trainFileId,
                            if valFilePresent then Some(valFileId) else None);
    if base.Failure? {
      return ModelFailed(Raised(base.error));
    }
    outcome := Submitted(Merge(base.value, hyperParams), hyperParams, template, trainData, valData);
  }
}

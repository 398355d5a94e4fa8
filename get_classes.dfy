/** The class discovery handler (nextjs_app/pages/api/data/get-classes.js): it reads the
    validation file of a dataset, or its training file when there is none, and answers with the
    distinct values of one column, in the order they first appear.

    The database and the storage bucket are inputs: the user lookup is a flag, the dataset lookup
    an optional record, and `readCsv` gives the parsed rows stored under a key. */
module GetClasses {
  import opened Common

  /** The dataset record: its stored file names (`undefined` when absent). */
  datatype DatasetDoc = DatasetDoc(trainFileName: Option<string>, valFileName: Option<string>)

  /** The file whose rows are read: the validation file when its name is set and not empty,
      otherwise the training file. */
  function FileToRead(ds: DatasetDoc): (f: Option<string>)
    ensures Truthy(ds.valFileName) ==> f == ds.valFileName
    ensures !Truthy(ds.valFileName) ==> f == ds.trainFileName
  {
    if Truthy(ds.valFileName) then ds.valFileName else ds.trainFileName
  }

  /** The column's cell in every row, in row order (`undefined` where the row lacks it). */
  function ColumnValues(rows: seq<Row>, column: string): (vs: seq<Option<string>>)
    ensures |vs| == |rows|
    ensures forall i :: 0 <= i < |rows| ==> vs[i] == Cell(rows[i], column)
  {
    seq(|rows|, i requires 0 <= i < |rows| => Cell(rows[i], column))
  }

  /** The `Set` loop: each row's value is added, and the set is turned into an array in insertion
      order. */
  method DistinctColumnValues(rows: seq<Row>, column: string) returns (classes: seq<Option<string>>)
    ensures classes == Distinct(ColumnValues(rows, column))
  {
    var values := ColumnValues(rows, column);
    var seen: set<Option<string>> := {};
    classes := [];
    var i := 0;
    while i < |rows|
      invariant 0 <= i <= |rows|
      invariant classes == Distinct(values[..i])
      invariant seen == set x | x in classes
    {
      var value := Cell(rows[i], column);
      assert values[..i + 1] == values[..i] + [value];
      assert values[..i + 1][..i] == values[..i];
      if value !in seen {
        seen := seen + {value};
        classes := classes + [value];
      }
      i := i + 1;
    }
    assert values[..i] == values;
  }

  /** The classes are the column's values: each appears once, every row's value is among them and
      nothing else is, and they come in the order of their first row. */
  lemma ClassesAreTheColumnValues(rows: seq<Row>, column: string)
    ensures var classes := Distinct(ColumnValues(rows, column));
      && NoDuplicates(classes)
      && (forall x :: x in classes <==> exists i :: 0 <= i < |rows| && Cell(rows[i], column) == x)
      && (forall i, j :: 0 <= i < j < |classes| ==>
            FirstIndex(ColumnValues(rows, column), classes[i]) < FirstIndex(ColumnValues(rows, column), classes[j]))
  {
    var values := ColumnValues(rows, column);
    DistinctKeepsFirstOccurrenceOrder(values);
    forall x | x in values ensures exists i :: 0 <= i < |rows| && Cell(rows[i], column) == x {
      var i :| 0 <= i < |values| && values[i] == x;
    }
  }

  /** The handler inside its `try` block: a missing user or dataset raises a 400 error;
      otherwise the answer is the distinct values of the column in the chosen file. */
  method GetClasses(userFound: bool, dataset: Option<DatasetDoc>, column: string, readCsv: string -> seq<Row>)
    returns (r: Result<seq<Option<string>>, HttpError>)
    ensures !userFound ==> r == Failure(HttpError(400, "User not found"))
    ensures userFound && dataset.None? ==> r == Failure(HttpError(400, "Dataset not found"))
    ensures userFound && dataset.Some? ==>
      r == Success(Distinct(ColumnValues(readCsv(RawDataKey(FileToRead(dataset.value))), column)))
  {
    if !userFound {
      return Failure(HttpError(400, "User not found"));
    }
    if dataset.None? {
      return Failure(HttpError(400, "Dataset not found"));
    }
    var fileName := if Truthy(dataset.value.valFileName) then dataset.value.valFileName else dataset.value.trainFileName;
    var rows := readCsv(RawDataKey(fileName));
    var classes := DistinctColumnValues(rows, column);
    return Success(classes);
  }
}

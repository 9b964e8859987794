/**
 Planning the per-column number formats of a spreadsheet export. The table
 is written with its row index in sheet column 0, so the table's column `i`
 lands in sheet column `i + 1`; each column named in the assignment gets the
 format code its logical format name resolves to in a fixed catalog.
 */
module ExcelFormat {
  import opened Wrappers

  /** The exception raised when a logical format name is not in the catalog. */
  datatype LookupError = KeyError(key: string)

  /** The catalog of logical format names and their number-format codes. */
  const FormatTypes: map<string, string> := map[
    "monetary" := "$#,##0.00",
    "percentage" := "0.00%",
    "date" := "mm/dd/yyyy",
    "integer" := "0",
    "float" := "0.00",
    "text" := "@"
  ]

  /** Looks a logical format name up in the catalog. */
  function FormatCode(logical: string): (r: Result<string, LookupError>)
    ensures r.Success? <==> logical in {"monetary", "percentage", "date", "integer", "float", "text"}
    ensures r.Failure? ==> r.error == KeyError(logical)
    ensures logical == "monetary" ==> r == Success("$#,##0.00")
    ensures logical == "percentage" ==> r == Success("0.00%")
    ensures logical == "date" ==> r == Success("mm/dd/yyyy")
    ensures logical == "integer" ==> r == Success("0")
    ensures logical == "float" ==> r == Success("0.00")
    ensures logical == "text" ==> r == Success("@")
  {
    if logical in FormatTypes then Success(FormatTypes[logical]) else Failure(KeyError(logical))
  }

  /** One format application: sheet columns `first` through `last` get `code`. */
  datatype ColumnFormat = ColumnFormat(first: nat, last: nat, code: string)

  /** The logical name assigned to column `i` resolves in the catalog (or none is assigned). */
  predicate Resolves(columns: seq<string>, assignment: map<string, string>, i: int)
    requires 0 <= i < |columns|
  {
    columns[i] in assignment ==> assignment[columns[i]] in FormatTypes
  }

  /** `e` formats exactly one sheet column, that of an assigned table column,
      with the code its logical name resolves to. */
  predicate FormatsAssignedColumn(e: ColumnFormat, columns: seq<string>, assignment: map<string, string>)
  {
    && 1 <= e.first <= |columns|
    && e.last == e.first
    && columns[e.first - 1] in assignment
    && assignment[columns[e.first - 1]] in FormatTypes
    && e.code == FormatTypes[assignment[columns[e.first - 1]]]
  }

  /** Column `i` is the first, in table order, whose logical name is unknown. */
  predicate FirstUnresolved(columns: seq<string>, assignment: map<string, string>, i: int)
  {
    && 0 <= i < |columns|
    && !Resolves(columns, assignment, i)
    && forall j :: 0 <= j < i ==> Resolves(columns, assignment, j)
  }

  /** The formats the formatting loop applies to a table with the given
      columns, in the order it applies them, or the lookup error it raises:
      the loop completes exactly when every assigned logical name of a table
      column is in the catalog; otherwise it fails with the logical name of
      the first such column in table order. */
  function PlanFormats(columns: seq<string>, assignment: map<string, string>): (r: Result<seq<ColumnFormat>, LookupError>)
    ensures r.Success? <==> forall i :: 0 <= i < |columns| ==> Resolves(columns, assignment, i)
    ensures r.Failure? ==> exists i :: FirstUnresolved(columns, assignment, i)
                                       && r.error == KeyError(assignment[columns[i]])
    decreases |columns|
  {
    if |columns| == 0 then Success([])
    else
      var n := |columns|;
      var prefix := columns[..n - 1];
      assert forall i :: 0 <= i < n - 1 ==> Resolves(prefix, assignment, i) == Resolves(columns, assignment, i);
      match PlanFormats(prefix, assignment)
      case Failure(e) => Failure(e)
      case Success(plan) =>
        if columns[n - 1] in assignment then
          match FormatCode(assignment[columns[n - 1]])
          case Failure(e) =>
            assert !Resolves(columns, assignment, n - 1);
            Failure(e)
          case Success(code) => Success(plan + [ColumnFormat(n, n, code)])
        else Success(plan)
  }

  /** Every planned format targets an assigned column, shifted past the index
      column, with its catalog code; targets strictly increase, so the plan
      follows table order and sets each sheet column at most once. */
  lemma {:induction false} PlanPlacement(columns: seq<string>, assignment: map<string, string>)
    ensures var r := PlanFormats(columns, assignment);
      r.Success? ==>
        && (forall k :: 0 <= k < |r.value| ==> FormatsAssignedColumn(r.value[k], columns, assignment))
        && (forall k, l :: 0 <= k < l < |r.value| ==> r.value[k].first < r.value[l].first)
        && (forall k :: 0 <= k < |r.value| ==> r.value[k].first <= |columns|)
    decreases |columns|
  {
    if |columns| > 0 {
      var n := |columns|;
      var prefix := columns[..n - 1];
      PlanPlacement(prefix, assignment);
      var r := PlanFormats(columns, assignment);
      var rp := PlanFormats(prefix, assignment);
      if r.Success? {
        assert rp.Success?;
        forall k | 0 <= k < |rp.value|
          ensures FormatsAssignedColumn(rp.value[k], columns, assignment)
        {
          assert FormatsAssignedColumn(rp.value[k], prefix, assignment);
          assert prefix[rp.value[k].first - 1] == columns[rp.value[k].first - 1];
        }
      }
    }
  }

  /** Every table column that has an assignment receives a format. */
  lemma {:induction false} PlanCoverage(columns: seq<string>, assignment: map<string, string>)
    ensures var r := PlanFormats(columns, assignment);
      r.Success? ==> forall i :: 0 <= i < |columns| && columns[i] in assignment ==>
                       exists k :: 0 <= k < |r.value| && r.value[k].first == i + 1
    decreases |columns|
  {
    if |columns| > 0 {
      var n := |columns|;
      var prefix := columns[..n - 1];
      PlanCoverage(prefix, assignment);
      var r := PlanFormats(columns, assignment);
      var rp := PlanFormats(prefix, assignment);
      if r.Success? {
        assert rp.Success?;
        forall i | 0 <= i < n && columns[i] in assignment
          ensures exists k :: 0 <= k < |r.value| && r.value[k].first == i + 1
        {
          if i == n - 1 {
            assert r.value[|rp.value|].first == i + 1;
          } else {
            assert prefix[i] == columns[i];
            var k :| 0 <= k < |rp.value| && rp.value[k].first == i + 1;
            assert r.value[k].first == i + 1;
          }
        }
      }
    }
  }

  /** Two assignments that agree on every column of the table. */
  predicate AgreeOn(columns: seq<string>, a: map<string, string>, b: map<string, string>)
  {
    forall i :: 0 <= i < |columns| ==>
      && (columns[i] in a <==> columns[i] in b)
      && (columns[i] in a ==> a[columns[i]] == b[columns[i]])
  }

  /** Only the assignment's entries for the table's own columns matter:
      keys naming no column are ignored, even if their logical name is unknown. */
  lemma {:induction false} PlanIgnoresOtherKeys(columns: seq<string>, a: map<string, string>, b: map<string, string>)
    requires AgreeOn(columns, a, b)
    ensures PlanFormats(columns, a) == PlanFormats(columns, b)
    decreases |columns|
  {
    if |columns| > 0 {
      var prefix := columns[..|columns| - 1];
      assert AgreeOn(prefix, a, b) by {
        forall i | 0 <= i < |prefix| ensures prefix[i] == columns[i] { }
      }
      PlanIgnoresOtherKeys(prefix, a, b);
      assert columns[|columns| - 1] in a <==> columns[|columns| - 1] in b;
    }
  }

  /** The demonstration export: Revenue, Discount and Sale Date formatted as
      monetary, percentage and date in sheet columns 1, 2 and 3. */
  lemma ExampleSalesReport()
    ensures PlanFormats(["Revenue", "Discount", "Sale Date"],
                        map["Revenue" := "monetary", "Discount" := "percentage", "Sale Date" := "date"])
         == Success([ColumnFormat(1, 1, "$#,##0.00"), ColumnFormat(2, 2, "0.00%"), ColumnFormat(3, 3, "mm/dd/yyyy")])
  {
    var assignment := map["Revenue" := "monetary", "Discount" := "percentage", "Sale Date" := "date"];
    var one, two, three := ["Revenue"], ["Revenue", "Discount"], ["Revenue", "Discount", "Sale Date"];
    assert one[..0] == [] && two[..1] == one && three[..2] == two;
    assert assignment["Revenue"] == "monetary" && FormatCode("monetary") == Success("$#,##0.00");
    assert assignment["Discount"] == "percentage" && FormatCode("percentage") == Success("0.00%");
    assert assignment["Sale Date"] == "date" && FormatCode("date") == Success("mm/dd/yyyy");
    var p1, p2, p3 := PlanFormats(one, assignment).value, PlanFormats(two, assignment).value,
                      PlanFormats(three, assignment).value;
    assert |p1| == 1 && p1[0] == ColumnFormat(1, 1, "$#,##0.00");
    assert |p2| == 2 && p2[1] == ColumnFormat(2, 2, "0.00%");
    assert |p3| == 3 && p3[2] == ColumnFormat(3, 3, "mm/dd/yyyy");
    assert p3 == [ColumnFormat(1, 1, "$#,##0.00"), ColumnFormat(2, 2, "0.00%"), ColumnFormat(3, 3, "mm/dd/yyyy")];
  }

  /** An unknown logical name on a table column aborts the export with a
      lookup error naming it; an unknown name on a key that is no column does not. */
  lemma ExampleUnknownFormat()
    ensures PlanFormats(["Revenue", "Discount"],
                        map["Revenue" := "monetary", "Discount" := "currency", "Profit" := "bogus"])
         == Failure(KeyError("currency"))
  {
  }
}

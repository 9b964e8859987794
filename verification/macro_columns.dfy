/**
 Reshaping a flat table into one whose columns carry a two-level
 (theme, column name) index, following an ordered relation of pairs.
 A column named by the relation but absent from the source table is
 replaced by an all-missing placeholder column and reported as a warning.
 */
module MacroColumns {
  import opened Wrappers

  /** A cell of a table; `None` stands for the missing-value marker NA. */
  type Cell<V> = Option<V>

  /** A flat table: its row index and its columns, looked up by name. */
  datatype Frame<L, V> = Frame(index: seq<L>, columns: map<string, seq<Cell<V>>>)
  {
    /** Every column holds one cell per row of the index. */
    predicate WellFormed() {
      forall name :: name in columns ==> |columns[name]| == |index|
    }
  }

  /** One entry of the relation: (theme, column name). */
  type Pair = (string, string)

  /** A column of `rows` missing-value markers. */
  function MissingColumn<V>(rows: nat): (col: seq<Cell<V>>)
    ensures |col| == rows
    ensures forall i :: 0 <= i < rows ==> col[i] == None
  {
    seq(rows, i => None)
  }

  /** What a relation entry is bound to: a source column carried over
      unchanged, or a placeholder synthesized for the given row count. */
  datatype Binding<V> = Present(values: seq<Cell<V>>) | Synthesized(rows: nat)
  {
    function Values(): (vs: seq<Cell<V>>) {
      match this
      case Present(vs) => vs
      case Synthesized(n) => MissingColumn(n)
    }
  }

  /** The binding of one column name against the source table: the source
      column when the name is present, otherwise a placeholder; either way
      one cell per row of a well-formed table. */
  function Bind<L, V>(data: Frame<L, V>, colName: string): (b: Binding<V>)
    ensures b.Present? <==> colName in data.columns
    ensures b.Present? ==> b.Values() == data.columns[colName]
    ensures data.WellFormed() ==> |b.Values()| == |data.index|
  {
    if colName in data.columns then Present(data.columns[colName]) else Synthesized(|data.index|)
  }

  /** The result of checking the relation: the bindings keyed by pair,
      and one warning (the column name) per entry whose column is absent. */
  datatype Verified<V> = Verified(reordered: map<Pair, Binding<V>>, warnings: seq<string>)

  /** Walks the relation in order, binding each pair; the map is keyed by
      pair, so a repeated identical pair rebinds the same key. */
  function VerifyColumns<L, V>(data: Frame<L, V>, relations: seq<Pair>): (v: Verified<V>)
    ensures forall p :: p in v.reordered <==> p in relations
    ensures forall p :: p in v.reordered ==> v.reordered[p] == Bind(data, p.1)
    ensures forall w :: w in v.warnings ==> w !in data.columns
    ensures |v.warnings| <= |relations|
    decreases |relations|
  {
    if |relations| == 0 then Verified(map[], [])
    else
      var prefix := relations[..|relations| - 1];
      var (theme, colName) := relations[|relations| - 1];
      assert relations == prefix + [(theme, colName)];
      var prev := VerifyColumns(data, prefix);
      var warning := if colName in data.columns then [] else [colName];
      Verified(prev.reordered[(theme, colName) := Bind(data, colName)], prev.warnings + warning)
  }

  /** Reference definition of the warnings: the column names of the entries
      whose column is absent, read front to back. */
  function AbsentNames<L, V>(data: Frame<L, V>, relations: seq<Pair>): (names: seq<string>)
    decreases |relations|
  {
    if |relations| == 0 then []
    else
      (if relations[0].1 in data.columns then [] else [relations[0].1])
      + AbsentNames(data, relations[1..])
  }

  /** How many entries of the relation name the column `colName`. */
  function Occurrences(relations: seq<Pair>, colName: string): (n: nat)
    decreases |relations|
  {
    if |relations| == 0 then 0
    else (if relations[0].1 == colName then 1 else 0) + Occurrences(relations[1..], colName)
  }

  lemma {:induction false} AbsentNamesAppend<L, V>(data: Frame<L, V>, relations: seq<Pair>, p: Pair)
    ensures AbsentNames(data, relations + [p])
         == AbsentNames(data, relations) + (if p.1 in data.columns then [] else [p.1])
    decreases |relations|
  {
    if |relations| == 0 {
      assert relations + [p] == [p];
    } else {
      assert (relations + [p])[1..] == relations[1..] + [p];
      AbsentNamesAppend(data, relations[1..], p);
    }
  }

  /** The warnings are emitted in relation order, one per absent entry. */
  lemma {:induction false} WarningsInRelationOrder<L, V>(data: Frame<L, V>, relations: seq<Pair>)
    ensures VerifyColumns(data, relations).warnings == AbsentNames(data, relations)
    decreases |relations|
  {
    if |relations| > 0 {
      var prefix := relations[..|relations| - 1];
      var last := relations[|relations| - 1];
      assert relations == prefix + [last];
      WarningsInRelationOrder(data, prefix);
      AbsentNamesAppend(data, prefix, last);
    }
  }

  /** A name is warned about once per entry naming it when its column is
      absent, and never when its column is present. */
  lemma {:induction false} WarningCount<L, V>(data: Frame<L, V>, relations: seq<Pair>, name: string)
    ensures multiset(AbsentNames(data, relations))[name]
         == if name in data.columns then 0 else Occurrences(relations, name)
    decreases |relations|
  {
    if |relations| > 0 {
      WarningCount(data, relations[1..], name);
    }
  }

  /** The two-level column index: level 0 holds the themes, level 1 the
      column names, position by position. */
  datatype MultiIndex = MultiIndex(themes: seq<string>, names: seq<string>)
  {
    predicate WellFormed() {
      |themes| == |names|
    }

    /** The index read back as (theme, column name) pairs. */
    function Tuples(): (ts: seq<Pair>)
      requires WellFormed()
      ensures |ts| == |themes|
      ensures forall i :: 0 <= i < |ts| ==> ts[i].0 == themes[i] && ts[i].1 == names[i]
    {
      seq(|themes|, i requires 0 <= i < |themes| => (themes[i], names[i]))
    }
  }

  /** The fault `MultiIndex.from_tuples` raises when given no tuples: it
      cannot infer the number of levels from an empty list. */
  datatype LevelError = CannotInferLevels

  /** The two-level index of the pairs, total: reading it back as pairs gives
      the relation itself, order and repetitions included, and the empty
      relation gives the empty index. */
  function IndexFromTuples(relations: seq<Pair>): (mi: MultiIndex)
    ensures mi.WellFormed()
    ensures mi.Tuples() == relations
  {
    MultiIndex(seq(|relations|, i requires 0 <= i < |relations| => relations[i].0),
               seq(|relations|, i requires 0 <= i < |relations| => relations[i].1))
  }

  /** The other direction of the round trip: a well-formed index, the empty
      one included, is the one built from its own pairs. */
  lemma IndexFromTuplesOfTuples(mi: MultiIndex)
    requires mi.WellFormed()
    ensures IndexFromTuples(mi.Tuples()) == mi
  {
  }

  /** Builds the two-level index as the script does: a non-empty relation
      gives the index whose pairs are the relation; an empty one is the
      level-inference fault. */
  function CreateMultiIndex(relations: seq<Pair>): (r: Result<MultiIndex, LevelError>)
    ensures r.Failure? <==> |relations| == 0
    ensures r.Failure? ==> r.error == CannotInferLevels
    ensures r.Success? ==> r.value.WellFormed() && r.value.Tuples() == relations
  {
    if |relations| == 0 then Failure(CannotInferLevels) else Success(IndexFromTuples(relations))
  }

  /** The round trip through the script's builder: a well-formed index with
      at least one level entry is rebuilt from its own pairs. */
  lemma CreateMultiIndexOfTuples(mi: MultiIndex)
    requires mi.WellFormed()
    requires |mi.themes| > 0
    ensures CreateMultiIndex(mi.Tuples()) == Success(mi)
  {
    IndexFromTuplesOfTuples(mi);
  }

  /** A table whose columns are addressed by a two-level index; `data[j]`
      is the column at position `j` of `columns`. */
  datatype MultiFrame<L, V> = MultiFrame(index: seq<L>, columns: MultiIndex, data: seq<seq<Cell<V>>>)
  {
    predicate WellFormed() {
      && columns.WellFormed()
      && |data| == |columns.names|
      && forall j :: 0 <= j < |data| ==> |data[j]| == |index|
    }
  }

  /** The reshaped table together with the warnings printed while building it. */
  datatype Reshaped<L, V> = Reshaped(frame: MultiFrame<L, V>, warnings: seq<string>)

  /** The columns of the reshaped table, position by position: each entry
      of the relation takes its binding from the pair-keyed map. */
  function BoundColumns<L, V>(data: Frame<L, V>, relations: seq<Pair>): (cols: seq<seq<Cell<V>>>)
    ensures |cols| == |relations|
    ensures forall j :: 0 <= j < |relations| && relations[j].1 in data.columns ==>
              cols[j] == data.columns[relations[j].1]
    ensures forall j :: 0 <= j < |relations| && relations[j].1 !in data.columns ==>
              cols[j] == MissingColumn(|data.index|)
  {
    var reordered := VerifyColumns(data, relations).reordered;
    assert forall j :: 0 <= j < |relations| ==> relations[j] in reordered;
    seq(|relations|, j requires 0 <= j < |relations| => reordered[relations[j]].Values())
  }

  /** Reshapes `data` so that its column index is exactly `relations`.
      Defined for every table and relation: a missing column is never an
      error, and the empty relation gives a table with no columns. */
  function Reshape<L, V>(data: Frame<L, V>, relations: seq<Pair>): (r: Reshaped<L, V>)
    ensures r.frame.index == data.index
    ensures r.frame.columns.WellFormed() && r.frame.columns.Tuples() == relations
    ensures |r.frame.data| == |relations|
    ensures forall j :: 0 <= j < |relations| && relations[j].1 in data.columns ==>
              r.frame.data[j] == data.columns[relations[j].1]
    ensures forall j :: 0 <= j < |relations| && relations[j].1 !in data.columns ==>
              r.frame.data[j] == MissingColumn(|data.index|)
    ensures forall i, j :: 0 <= i < |relations| && 0 <= j < |relations| && relations[i].1 == relations[j].1 ==>
              r.frame.data[i] == r.frame.data[j]
    ensures data.WellFormed() ==> r.frame.WellFormed()
    ensures r.warnings == AbsentNames(data, relations)
    ensures forall name :: multiset(r.warnings)[name]
              == if name in data.columns then 0 else Occurrences(relations, name)
  {
    var warnings := VerifyColumns(data, relations).warnings;
    WarningsInRelationOrder(data, relations);
    forall name ensures multiset(warnings)[name]
                   == if name in data.columns then 0 else Occurrences(relations, name) {
      WarningCount(data, relations, name);
    }
    Reshaped(MultiFrame(data.index, IndexFromTuples(relations), BoundColumns(data, relations)), warnings)
  }

  /** The reshaping as the script performs it: the columns are bound first,
      then the index is built, which fails on the empty relation; any other
      relation gives the reshaped table. */
  function CreateMultiIndexDataFrame<L, V>(data: Frame<L, V>, relations: seq<Pair>): (r: Result<Reshaped<L, V>, LevelError>)
    ensures r.Failure? <==> relations == []
    ensures r.Failure? ==> r.error == CannotInferLevels
    ensures r.Success? ==> r.value == Reshape(data, relations)
  {
    match CreateMultiIndex(relations)
    case Failure(e) => Failure(e)
    case Success(multiIndex) =>
      var reshaped := Reshape(data, relations);
      Success(Reshaped(MultiFrame(data.index, multiIndex, reshaped.frame.data), reshaped.warnings))
  }

  /** The script's reshaping fails on an empty relation, where the total
      reshaping keeps the row index and yields no columns and no warnings. */
  lemma EmptyRelationFails<L, V>(data: Frame<L, V>)
    ensures CreateMultiIndexDataFrame(data, []) == Failure(CannotInferLevels)
    ensures Reshape(data, []).frame.index == data.index
    ensures Reshape(data, []).frame.data == []
    ensures Reshape(data, []).frame.columns == MultiIndex([], [])
    ensures Reshape(data, []).warnings == []
  {
  }

  /** The demonstration table: ten rows, columns Coluna1..Coluna3 holding 1..10, 11..20, 21..30. */
  const ExampleData: Frame<int, int> :=
    Frame(seq(10, i => i),
          map["Coluna1" := seq(10, i => Some(i + 1)),
              "Coluna2" := seq(10, i => Some(i + 11)),
              "Coluna3" := seq(10, i => Some(i + 21))])

  /** The demonstration relation; Coluna4 is not a column of the table. */
  const ExampleRelations: seq<Pair> :=
    [("Tema 1", "Coluna1"), ("Tema 1", "Coluna2"), ("Tema 2", "Coluna3"), ("Tema 1", "Coluna4")]

  /** The demonstration yields four columns addressed by the four pairs, the
      first three carried from the source, the last all-missing, and a single
      warning naming Coluna4. */
  lemma ExampleReshape()
    ensures var res := CreateMultiIndexDataFrame(ExampleData, ExampleRelations);
      && res.Success?
      && var r := res.value;
      && r.frame.index == ExampleData.index
      && r.frame.columns.Tuples() == ExampleRelations
      && |r.frame.data| == 4
      && r.frame.data[0] == seq(10, i => Some(i + 1))
      && r.frame.data[1] == seq(10, i => Some(i + 11))
      && r.frame.data[2] == seq(10, i => Some(i + 21))
      && r.frame.data[3] == MissingColumn(10)
      && r.warnings == ["Coluna4"]
  {
    var data, rels := ExampleData, ExampleRelations;
    assert "Coluna1" in data.columns && "Coluna2" in data.columns && "Coluna3" in data.columns && "Coluna4" !in data.columns;
    assert AbsentNames(data, rels[3..]) == ["Coluna4"];
    assert AbsentNames(data, rels[2..]) == ["Coluna4"] by { assert rels[2..][1..] == rels[3..]; }
    assert AbsentNames(data, rels[1..]) == ["Coluna4"] by { assert rels[1..][1..] == rels[2..]; }
    assert AbsentNames(data, rels) == ["Coluna4"];
  }
}

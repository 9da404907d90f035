/**
 * The transformation stage: the fixed column declarations, the split of each
 * loaded table into a feature table and a target vector, the column router
 * built from the declared groups, its fit-on-train-then-transform-test
 * lifecycle, the appending of the target as the last column, and the saving
 * of the fitted router under the configured path.
 *
 * Tables are abstract: a sequence of column names and rows of cells of a
 * generic type `C`. The numeric and categorical sub-pipelines (imputation,
 * scaling, one-hot encoding) are abstract `Step`s: what a step learns is
 * modelled as the training rows restricted to its columns, from which any
 * statistic can be computed, and applying it maps one row to a row whose width
 * is fixed by what it learned.
 */
module Transformation {
  import opened Seqs

  // ---------------------------------------------------------------------------
  // Configuration and column declarations
  // ---------------------------------------------------------------------------

  const ArtifactsDir: string := "artifacts"
  const PreprocessorFileName: string := "proprocessor.pkl"

  /** The column the later stage learns to predict. */
  const TargetColumn: string := "math_score"

  const NumericalColumns: seq<string> := ["writing_score", "reading_score"]

  const CategoricalColumns: seq<string> := [
    "gender",
    "race_ethnicity",
    "parental_level_of_education",
    "lunch",
    "test_preparation_course"
  ]

  datatype TransformationConfig = TransformationConfig(preprocessorObjFilePath: string)

  /** Joining a directory and a file name with the POSIX separator. */
  function JoinPath(dir: string, name: string): string {
    dir + "/" + name
  }

  /** The configuration every run uses: the fitted router goes under `artifacts`. */
  function DefaultConfig(): (c: TransformationConfig)
    ensures c.preprocessorObjFilePath == "artifacts/proprocessor.pkl"
  {
    TransformationConfig(JoinPath(ArtifactsDir, PreprocessorFileName))
  }

  /** The two feature groups share no column and neither holds the target. */
  lemma DeclaredGroupsSeparate()
    ensures Distinct(NumericalColumns + CategoricalColumns)
    ensures TargetColumn !in NumericalColumns && TargetColumn !in CategoricalColumns
  {
  }

  // ---------------------------------------------------------------------------
  // Errors
  // ---------------------------------------------------------------------------

  datatype Error =
    | MissingColumn(column: string)  // a named column is not in the table
    | NotFitted                      // transform asked of a router never fitted
    | RowCountMismatch               // column-wise stacking of unequal row counts

  datatype Result<T> = Ok(value: T) | Err(error: Error)

  datatype Option<T> = None | Some(value: T)

  // ---------------------------------------------------------------------------
  // Tables
  // ---------------------------------------------------------------------------

  datatype Table<C> = Table(columns: seq<string>, rows: seq<seq<C>>)

  /**
   * What a loaded table guarantees: column names are distinct (duplicate
   * headers are renamed on load) and every row has one cell per column.
   */
  predicate WellFormed<C>(t: Table<C>) {
    && Distinct(t.columns)
    && forall i :: 0 <= i < |t.rows| ==> |t.rows[i]| == |t.columns|
  }

  /** The position of the first occurrence of `name`. */
  function IndexOf(names: seq<string>, name: string): (k: nat)
    requires name in names
    ensures k < |names| && names[k] == name
    ensures forall j :: 0 <= j < k ==> names[j] != name
  {
    if names[0] == name then 0 else 1 + IndexOf(names[1..], name)
  }

  /** The cell of row `i` under column `name`. */
  function Value<C>(t: Table<C>, i: nat, name: string): C
    requires WellFormed(t) && i < |t.rows| && name in t.columns
  {
    t.rows[i][IndexOf(t.columns, name)]
  }

  /** In a table with distinct names, a column's name leads back to its position. */
  lemma ValueAt<C>(t: Table<C>, i: nat, k: nat)
    requires WellFormed(t) && i < |t.rows| && k < |t.columns|
    ensures Value(t, i, t.columns[k]) == t.rows[i][k]
  {
    var j := IndexOf(t.columns, t.columns[k]);
    assert !(j < k) && !(k < j);
  }

  function RemoveAt<T>(s: seq<T>, k: nat): (r: seq<T>)
    requires k < |s|
    ensures |r| == |s| - 1
  {
    s[..k] + s[k + 1..]
  }

  function InsertAt<T>(s: seq<T>, k: nat, x: T): (r: seq<T>)
    requires k <= |s|
    ensures |r| == |s| + 1
  {
    s[..k] + [x] + s[k..]
  }

  /** Reference definition of the remaining column names: all but `name`, in order. */
  function Without(names: seq<string>, name: string): seq<string> {
    Filter(names, (c: string) => c != name)
  }

  /** The remaining names are exactly the others, in their original order. */
  lemma WithoutSchema(names: seq<string>, name: string)
    ensures IsSubsequence(Without(names, name), names)
    ensures forall c :: c in Without(names, name) <==> c in names && c != name
  {
    FilterIsSubsequence(names, (c: string) => c != name);
    forall c
      ensures c in Without(names, name) <==> c in names && c != name
    {
      FilterCount(names, (c: string) => c != name, c);
    }
  }

  /** With distinct names, removing by name is removing at the name's position. */
  lemma {:induction false} WithoutIsRemoveAt(names: seq<string>, name: string)
    requires Distinct(names) && name in names
    ensures Without(names, name) == RemoveAt(names, IndexOf(names, name))
    decreases |names|
  {
    if names[0] == name {
      assert name !in names[1..];
      FilterAllKept(names[1..], (c: string) => c != name);
      assert RemoveAt(names, 0) == names[1..];
    } else {
      var tail := names[1..];
      assert Distinct(tail);
      WithoutIsRemoveAt(tail, name);
      var k := IndexOf(tail, name);
      assert IndexOf(names, name) == k + 1;
      assert RemoveAt(names, k + 1) == [names[0]] + RemoveAt(tail, k);
    }
  }

  lemma RemoveAtDistinct(names: seq<string>, k: nat)
    requires Distinct(names) && k < |names|
    ensures Distinct(RemoveAt(names, k))
  {
    var r := RemoveAt(names, k);
    forall i, j | 0 <= i < j < |r|
      ensures r[i] != r[j]
    {
      var i' := if i < k then i else i + 1;
      var j' := if j < k then j else j + 1;
      assert r[i] == names[i'] && r[j] == names[j'] && i' < j';
    }
  }

  /**
   * The feature table: the table without the column `name`. Dropping a
   * column the table does not have is an error.
   */
  function DropColumn<C>(t: Table<C>, name: string): (r: Result<Table<C>>)
    requires WellFormed(t)
    ensures r.Ok? <==> name in t.columns
    ensures r.Err? ==> r.error == MissingColumn(name)
    ensures r.Ok? ==> WellFormed(r.value)
    ensures r.Ok? ==> r.value.columns == Without(t.columns, name)
    ensures r.Ok? ==> |r.value.rows| == |t.rows|
  {
    if name !in t.columns then Err(MissingColumn(name))
    else
      var k := IndexOf(t.columns, name);
      WithoutIsRemoveAt(t.columns, name);
      RemoveAtDistinct(t.columns, k);
      Ok(Table(RemoveAt(t.columns, k),
               seq(|t.rows|, i requires 0 <= i < |t.rows| => RemoveAt(t.rows[i], k))))
  }

  /** The target vector: the column `name` of every row. Selecting a missing column is an error. */
  function SelectColumn<C>(t: Table<C>, name: string): (r: Result<seq<C>>)
    requires WellFormed(t)
    ensures r.Ok? <==> name in t.columns
    ensures r.Err? ==> r.error == MissingColumn(name)
    ensures r.Ok? ==> |r.value| == |t.rows|
    ensures r.Ok? ==> forall i :: 0 <= i < |t.rows| ==> r.value[i] == Value(t, i, name)
  {
    if name !in t.columns then Err(MissingColumn(name))
    else Ok(seq(|t.rows|, i requires 0 <= i < |t.rows| => Value(t, i, name)))
  }

  /**
   * The feature table keeps every other column's cells: under each remaining
   * column name, every row holds the value it held in the loaded table.
   */
  lemma DropColumnKeepsValues<C>(t: Table<C>, name: string, i: nat, c: string)
    requires WellFormed(t) && name in t.columns && i < |t.rows|
    requires c in t.columns && c != name
    ensures c in DropColumn(t, name).value.columns
    ensures Value(DropColumn(t, name).value, i, c) == Value(t, i, c)
  {
    var f := DropColumn(t, name).value;
    var k := IndexOf(t.columns, name);
    WithoutSchema(t.columns, name);
    var j := IndexOf(f.columns, c);
    var j' := if j < k then j else j + 1;
    assert f.columns[j] == t.columns[j'];
    assert f.rows[i][j] == t.rows[i][j'];
    ValueAt(t, i, j');
  }

  /**
   * Splitting is lossless: putting the target vector back as a column at the
   * target's position in the feature table gives the loaded table again.
   */
  lemma SplitReassembles<C>(t: Table<C>, name: string)
    requires WellFormed(t) && name in t.columns
    ensures var k := IndexOf(t.columns, name);
            var features := DropColumn(t, name).value;
            var target := SelectColumn(t, name).value;
            && InsertAt(features.columns, k, name) == t.columns
            && forall i :: 0 <= i < |t.rows| ==> InsertAt(features.rows[i], k, target[i]) == t.rows[i]
  {
    var k := IndexOf(t.columns, name);
    var features := DropColumn(t, name).value;
    var target := SelectColumn(t, name).value;
    assert InsertAt(RemoveAt(t.columns, k), k, name) == t.columns;
    forall i | 0 <= i < |t.rows|
      ensures InsertAt(features.rows[i], k, target[i]) == t.rows[i]
    {
      assert target[i] == t.rows[i][k];
      assert InsertAt(RemoveAt(t.rows[i], k), k, t.rows[i][k]) == t.rows[i];
    }
  }

  // ---------------------------------------------------------------------------
  // The column router
  // ---------------------------------------------------------------------------

  /**
   * An abstract sub-pipeline: `apply(learned, row)` transforms one row of its
   * columns using what was learned from the training rows of those columns;
   * `width(learned)` is the number of output columns this learning fixes.
   */
  datatype Step<!C> = Step(width: seq<seq<C>> -> nat, apply: (seq<seq<C>>, seq<C>) -> seq<C>)

  /** Every output row of the step has the width its learned state fixes. */
  ghost predicate FixedWidth<C(!new)>(s: Step<C>) {
    forall learned, row :: |s.apply(learned, row)| == s.width(learned)
  }

  /** A named sub-pipeline applied to the declared columns, in the declared order. */
  datatype Route<!C> = Route(name: string, step: Step<C>, columns: seq<string>)

  /** Routes are applied in order and their outputs concatenated; other columns are dropped. */
  datatype ColumnRouter<!C> = ColumnRouter(routes: seq<Route<C>>)

  /** All column names the routes select, route by route. */
  function DeclaredColumns<C>(routes: seq<Route<C>>): seq<string> {
    if routes == [] then [] else routes[0].columns + DeclaredColumns(routes[1..])
  }

  ghost predicate AllFixedWidth<C(!new)>(routes: seq<Route<C>>) {
    forall k :: 0 <= k < |routes| ==> FixedWidth(routes[k].step)
  }

  /**
   * The router of the stage: the numeric route on the two score columns
   * first, the categorical route on the five descriptive columns second.
   * Building it reads no data.
   */
  function GetDataTransformerObject<C>(numPipeline: Step<C>, catPipeline: Step<C>): (r: ColumnRouter<C>)
    ensures |r.routes| == 2
    ensures r.routes[0].step == numPipeline && r.routes[0].columns == NumericalColumns
    ensures r.routes[1].step == catPipeline && r.routes[1].columns == CategoricalColumns
    ensures DeclaredColumns(r.routes) == NumericalColumns + CategoricalColumns
    ensures Distinct(DeclaredColumns(r.routes)) && TargetColumn !in DeclaredColumns(r.routes)
  {
    var r := ColumnRouter([Route("num_pipeline", numPipeline, NumericalColumns),
                           Route("cat_pipelines", catPipeline, CategoricalColumns)]);
    assert DeclaredColumns(r.routes[1..]) == CategoricalColumns;
    DeclaredGroupsSeparate();
    r
  }

  /** Every column some route selects is in the table. */
  predicate RoutesPresent<C>(routes: seq<Route<C>>, t: Table<C>) {
    forall k, c :: 0 <= k < |routes| && c in routes[k].columns ==> c in t.columns
  }

  /** The first of `names` that `present` lacks. */
  function FirstAbsent(names: seq<string>, present: seq<string>): (r: Option<string>)
    ensures r.None? <==> forall c :: c in names ==> c in present
    ensures r.Some? ==> r.value in names && r.value !in present
  {
    if names == [] then None
    else if names[0] !in present then Some(names[0])
    else FirstAbsent(names[1..], present)
  }

  /** The first selected column, route by route, that the table lacks. */
  function FirstMissingColumn<C>(routes: seq<Route<C>>, t: Table<C>): (r: Option<string>)
    ensures r.None? <==> RoutesPresent(routes, t)
    ensures r.Some? ==> r.value !in t.columns && r.value in DeclaredColumns(routes)
  {
    if routes == [] then None
    else
      match FirstAbsent(routes[0].columns, t.columns)
      case Some(c) => Some(c)
      case None =>
        var rest := FirstMissingColumn(routes[1..], t);
        assert RoutesPresent(routes, t) <==> RoutesPresent(routes[1..], t) by {
          if RoutesPresent(routes[1..], t) {
            forall k, c | 0 <= k < |routes| && c in routes[k].columns
              ensures c in t.columns
            {
              if k > 0 { assert routes[1..][k - 1] == routes[k]; }
            }
          }
        }
        rest
  }

  /** The cells of row `i` under the given column names, in the given order. */
  function ProjectRow<C>(t: Table<C>, i: nat, names: seq<string>): (r: seq<C>)
    requires WellFormed(t) && i < |t.rows|
    requires forall c :: c in names ==> c in t.columns
    ensures |r| == |names|
  {
    seq(|names|, j requires 0 <= j < |names| => Value(t, i, names[j]))
  }

  /** Every row restricted to the given column names. */
  function ProjectRows<C>(t: Table<C>, names: seq<string>): (r: seq<seq<C>>)
    requires WellFormed(t)
    requires forall c :: c in names ==> c in t.columns
    ensures |r| == |t.rows|
  {
    seq(|t.rows|, i requires 0 <= i < |t.rows| => ProjectRow(t, i, names))
  }

  /** What fitting learns: per route, the fitting table restricted to the route's columns. */
  function LearnedState<C>(routes: seq<Route<C>>, t: Table<C>): (s: seq<seq<seq<C>>>)
    requires WellFormed(t) && RoutesPresent(routes, t)
    ensures |s| == |routes|
  {
    seq(|routes|, k requires 0 <= k < |routes| => ProjectRows(t, routes[k].columns))
  }

  /** Row `i` through every route, the route outputs side by side in route order. */
  function RouteRow<C>(routes: seq<Route<C>>, state: seq<seq<seq<C>>>, t: Table<C>, i: nat): seq<C>
    requires |state| == |routes| && WellFormed(t) && i < |t.rows| && RoutesPresent(routes, t)
    decreases |routes|
  {
    if routes == [] then []
    else
      assert RoutesPresent(routes[1..], t) by {
        forall k, c | 0 <= k < |routes| - 1 && c in routes[1..][k].columns
          ensures c in t.columns
        {
          assert routes[1..][k] == routes[k + 1];
        }
      }
      routes[0].step.apply(state[0], ProjectRow(t, i, routes[0].columns))
        + RouteRow(routes[1..], state[1..], t, i)
  }

  /** The total output width the learned state fixes: the sum of the route widths. */
  function OutputWidth<C>(routes: seq<Route<C>>, state: seq<seq<seq<C>>>): nat
    requires |state| == |routes|
    decreases |routes|
  {
    if routes == [] then 0 else routes[0].step.width(state[0]) + OutputWidth(routes[1..], state[1..])
  }

  /** Each routed row has exactly the width the learned state fixes. */
  lemma {:induction false} RouteRowWidth<C(!new)>(routes: seq<Route<C>>, state: seq<seq<seq<C>>>, t: Table<C>, i: nat)
    requires |state| == |routes| && WellFormed(t) && i < |t.rows| && RoutesPresent(routes, t)
    requires AllFixedWidth(routes)
    ensures |RouteRow(routes, state, t, i)| == OutputWidth(routes, state)
    decreases |routes|
  {
    if routes != [] {
      assert FixedWidth(routes[0].step);
      assert AllFixedWidth(routes[1..]) by {
        forall k | 0 <= k < |routes| - 1
          ensures FixedWidth(routes[1..][k].step)
        {
          assert routes[1..][k] == routes[k + 1];
        }
      }
      RouteRowWidth(routes[1..], state[1..], t, i);
    }
  }

  /**
   * Columns outside the routes are dropped: two rows, of possibly different
   * tables, that agree on every selected column are routed to the same output.
   */
  lemma {:induction false} RouteRowDependsOnlyOnSelected<C>(
    routes: seq<Route<C>>, state: seq<seq<seq<C>>>,
    t1: Table<C>, i1: nat, t2: Table<C>, i2: nat)
    requires |state| == |routes|
    requires WellFormed(t1) && i1 < |t1.rows| && RoutesPresent(routes, t1)
    requires WellFormed(t2) && i2 < |t2.rows| && RoutesPresent(routes, t2)
    requires forall k, c :: 0 <= k < |routes| && c in routes[k].columns ==> Value(t1, i1, c) == Value(t2, i2, c)
    ensures RouteRow(routes, state, t1, i1) == RouteRow(routes, state, t2, i2)
    decreases |routes|
  {
    if routes != [] {
      assert ProjectRow(t1, i1, routes[0].columns) == ProjectRow(t2, i2, routes[0].columns);
      forall k, c | 0 <= k < |routes| - 1 && c in routes[1..][k].columns
        ensures Value(t1, i1, c) == Value(t2, i2, c)
      {
        assert routes[1..][k] == routes[k + 1];
      }
      assert RoutesPresent(routes[1..], t1) && RoutesPresent(routes[1..], t2) by {
        forall k, c | 0 <= k < |routes| - 1 && c in routes[1..][k].columns
          ensures c in t1.columns && c in t2.columns
        {
          assert routes[1..][k] == routes[k + 1];
        }
      }
      RouteRowDependsOnlyOnSelected(routes[1..], state[1..], t1, i1, t2, i2);
    }
  }

  /** Every row through the routes. */
  function TransformRows<C>(routes: seq<Route<C>>, state: seq<seq<seq<C>>>, t: Table<C>): (r: seq<seq<C>>)
    requires |state| == |routes| && WellFormed(t) && RoutesPresent(routes, t)
    ensures |r| == |t.rows|
  {
    seq(|t.rows|, i requires 0 <= i < |t.rows| => RouteRow(routes, state, t, i))
  }

  /**
   * Transforming with a learned state: an error naming the first selected
   * column the table lacks, otherwise one routed row per input row.
   */
  function ApplyFitted<C>(router: ColumnRouter<C>, state: seq<seq<seq<C>>>, t: Table<C>): (r: Result<seq<seq<C>>>)
    requires WellFormed(t) && |state| == |router.routes|
    ensures r.Ok? <==> RoutesPresent(router.routes, t)
    ensures r.Err? ==> r.error.MissingColumn? && r.error.column !in t.columns
    ensures r.Err? ==> r.error.column in DeclaredColumns(router.routes)
    ensures r.Ok? ==> |r.value| == |t.rows|
  {
    match FirstMissingColumn(router.routes, t)
    case Some(c) => Err(MissingColumn(c))
    case None => Ok(TransformRows(router.routes, state, t))
  }

  /**
   * With fixed-width sub-pipelines every transformed row has the same width:
   * the sum of the widths the routes produce from what they learned.
   */
  lemma ApplyFittedWidth<C(!new)>(router: ColumnRouter<C>, state: seq<seq<seq<C>>>, t: Table<C>)
    requires WellFormed(t) && |state| == |router.routes| && AllFixedWidth(router.routes)
    ensures var r := ApplyFitted(router, state, t);
            r.Ok? ==> forall i :: 0 <= i < |r.value| ==> |r.value[i]| == OutputWidth(router.routes, state)
  {
    if RoutesPresent(router.routes, t) {
      forall i | 0 <= i < |t.rows|
        ensures |RouteRow(router.routes, state, t, i)| == OutputWidth(router.routes, state)
      {
        RouteRowWidth(router.routes, state, t, i);
      }
    }
  }

  /** Fitting on `t` and transforming `t` with what was learned. */
  function FitTransformResult<C>(router: ColumnRouter<C>, t: Table<C>): (r: Result<seq<seq<C>>>)
    requires WellFormed(t)
    ensures r.Ok? <==> RoutesPresent(router.routes, t)
    ensures r.Err? ==> r.error.MissingColumn? && r.error.column !in t.columns
    ensures r.Err? ==> r.error.column in DeclaredColumns(router.routes)
    ensures r.Ok? ==> |r.value| == |t.rows|
  {
    match FirstMissingColumn(router.routes, t)
    case Some(c) => Err(MissingColumn(c))
    case None => ApplyFitted(router, LearnedState(router.routes, t), t)
  }

  /** A record of one use of the router, with the table it was given. */
  datatype Call<C> = FitTransformCall(input: Table<C>) | TransformCall(input: Table<C>)

  /**
   * The history fits exactly once, first, on `x`: every later call only
   * transforms.
   */
  ghost predicate FittedOnceOn<C>(calls: seq<Call<C>>, x: Table<C>) {
    && |calls| > 0
    && calls[0] == FitTransformCall(x)
    && forall n :: 1 <= n < |calls| ==> calls[n].TransformCall?
  }

  /** The column router as an object: unfitted when built, fitted by `FitTransform`. */
  class Preprocessor<C(!new)> {
    const router: ColumnRouter<C>
    var fitted: bool
    var state: seq<seq<seq<C>>>
    /** Every fit and transform request, in order. */
    ghost var calls: seq<Call<C>>

    ghost predicate Valid()
      reads this
    {
      && AllFixedWidth(router.routes)
      && (fitted ==> |state| == |router.routes|)
    }

    constructor (router: ColumnRouter<C>)
      requires AllFixedWidth(router.routes)
      ensures Valid()
      ensures this.router == router && !fitted && calls == []
    {
      this.router := router;
      fitted := false;
      state := [];
      calls := [];
    }

    /**
     * Learns from `x` and transforms `x`. On a missing selected column
     * nothing is learned and the error names the column.
     */
    method FitTransform(x: Table<C>) returns (r: Result<seq<seq<C>>>)
      requires Valid() && WellFormed(x)
      modifies this
      ensures Valid()
      ensures calls == old(calls) + [FitTransformCall(x)]
      ensures r == FitTransformResult(router, x)
      ensures r.Ok? ==> fitted && state == LearnedState(router.routes, x)
      ensures r.Ok? ==> forall i :: 0 <= i < |r.value| ==> |r.value[i]| == OutputWidth(router.routes, state)
      ensures r.Err? ==> fitted == old(fitted) && state == old(state)
    {
      calls := calls + [FitTransformCall(x)];
      var missing := FirstMissingColumn(router.routes, x);
      if missing.Some? {
        return Err(MissingColumn(missing.value));
      }
      state := LearnedState(router.routes, x);
      fitted := true;
      r := ApplyFitted(router, state, x);
      ApplyFittedWidth(router, state, x);
    }

    /**
     * Transforms `x` with what was learned, learning nothing from it.
     * Transforming before any fit is an error.
     */
    method Transform(x: Table<C>) returns (r: Result<seq<seq<C>>>)
      requires Valid() && WellFormed(x)
      modifies this`calls
      ensures Valid()
      ensures calls == old(calls) + [TransformCall(x)]
      ensures !fitted ==> r == Err(NotFitted)
      ensures fitted ==> r == ApplyFitted(router, state, x)
      ensures fitted && r.Ok? ==> forall i :: 0 <= i < |r.value| ==> |r.value[i]| == OutputWidth(router.routes, state)
    {
      calls := calls + [TransformCall(x)];
      if !fitted {
        return Err(NotFitted);
      }
      r := ApplyFitted(router, state, x);
      ApplyFittedWidth(router, state, x);
    }
  }

  // ---------------------------------------------------------------------------
  // Appending the target
  // ---------------------------------------------------------------------------

  /**
   * Column-wise stacking of a matrix and a vector: the vector becomes the last
   * column. Stacking unequal row counts is an error.
   */
  function AppendTarget<C>(features: seq<seq<C>>, target: seq<C>): (r: Result<seq<seq<C>>>)
    ensures r.Ok? <==> |features| == |target|
    ensures r.Err? ==> r.error == RowCountMismatch
    ensures r.Ok? ==> |r.value| == |features|
    ensures r.Ok? ==> forall i :: 0 <= i < |features| ==> |r.value[i]| == |features[i]| + 1
  {
    if |features| != |target| then Err(RowCountMismatch)
    else Ok(seq(|features|, i requires 0 <= i < |features| => features[i] + [target[i]]))
  }

  /** Every row without its last column. */
  function FeatureColumns<C>(m: seq<seq<C>>): seq<seq<C>>
    requires forall i :: 0 <= i < |m| ==> |m[i]| > 0
  {
    seq(|m|, i requires 0 <= i < |m| => m[i][..|m[i]| - 1])
  }

  /** The last column of every row. */
  function LastColumn<C>(m: seq<seq<C>>): seq<C>
    requires forall i :: 0 <= i < |m| ==> |m[i]| > 0
  {
    seq(|m|, i requires 0 <= i < |m| => m[i][|m[i]| - 1])
  }

  /**
   * Appending the target is undone by splitting off the last column: the
   * rest is the feature matrix and the last column is the target vector.
   */
  lemma AppendTargetSplits<C>(features: seq<seq<C>>, target: seq<C>)
    requires |features| == |target|
    ensures var m := AppendTarget(features, target).value;
            && (forall i :: 0 <= i < |m| ==> |m[i]| > 0)
            && FeatureColumns(m) == features
            && LastColumn(m) == target
  {
    var m := AppendTarget(features, target).value;
    assert forall i :: 0 <= i < |m| ==> m[i][..|m[i]| - 1] == features[i];
  }

  // ---------------------------------------------------------------------------
  // The stage
  // ---------------------------------------------------------------------------

  datatype TransformationOutput<C> =
    TransformationOutput(trainArr: seq<seq<C>>, testArr: seq<seq<C>>, preprocessorPath: string)

  /**
   * The stage as a value: split both tables, fit on the training features,
   * transform both feature tables with what was learned, append each target
   * vector, and report `path`. The first failing step decides the error.
   */
  function Pipeline<C>(train: Table<C>, test: Table<C>, numPipeline: Step<C>, catPipeline: Step<C>, path: string)
    : Result<TransformationOutput<C>>
    requires WellFormed(train) && WellFormed(test)
  {
    var router := GetDataTransformerObject(numPipeline, catPipeline);
    match DropColumn(train, TargetColumn)
    case Err(e) => Err(e)
    case Ok(trainX) =>
      var trainY := SelectColumn(train, TargetColumn).value;
      match DropColumn(test, TargetColumn)
      case Err(e) => Err(e)
      case Ok(testX) =>
        var testY := SelectColumn(test, TargetColumn).value;
        match FitTransformResult(router, trainX)
        case Err(e) => Err(e)
        case Ok(trainFeatures) =>
          match ApplyFitted(router, LearnedState(router.routes, trainX), testX)
          case Err(e) => Err(e)
          case Ok(testFeatures) =>
            match AppendTarget(trainFeatures, trainY)
            case Err(e) => Err(e)
            case Ok(trainArr) =>
              match AppendTarget(testFeatures, testY)
              case Err(e) => Err(e)
              case Ok(testArr) => Ok(TransformationOutput(trainArr, testArr, path))
  }

  /** Every declared feature column and the target are columns of `t`. */
  predicate HasDeclaredSchema<C>(t: Table<C>) {
    && TargetColumn in t.columns
    && forall c :: c in NumericalColumns + CategoricalColumns ==> c in t.columns
  }

  /**
   * The stage's router sends a row through the numeric route and then the
   * categorical route: its output is the numeric output followed by the
   * categorical output.
   */
  lemma TwoRouteRow<C>(numPipeline: Step<C>, catPipeline: Step<C>, state: seq<seq<seq<C>>>, t: Table<C>, i: nat)
    requires |state| == 2 && WellFormed(t) && i < |t.rows|
    requires forall c :: c in NumericalColumns + CategoricalColumns ==> c in t.columns
    ensures var routes := GetDataTransformerObject(numPipeline, catPipeline).routes;
            && RoutesPresent(routes, t)
            && RouteRow(routes, state, t, i)
               == numPipeline.apply(state[0], ProjectRow(t, i, NumericalColumns))
                + catPipeline.apply(state[1], ProjectRow(t, i, CategoricalColumns))
  {
    var routes := GetDataTransformerObject(numPipeline, catPipeline).routes;
    assert routes[1..][1..] == [];
    assert RouteRow(routes[1..], state[1..], t, i)
        == catPipeline.apply(state[1], ProjectRow(t, i, CategoricalColumns));
  }

  /** Restricting the feature table to columns other than `name` is restricting the loaded table. */
  lemma ProjectAfterDrop<C>(t: Table<C>, name: string, names: seq<string>)
    requires WellFormed(t) && name in t.columns
    requires forall c :: c in names ==> c in t.columns && c != name
    ensures forall c :: c in names ==> c in DropColumn(t, name).value.columns
    ensures ProjectRows(DropColumn(t, name).value, names) == ProjectRows(t, names)
  {
    var f := DropColumn(t, name).value;
    WithoutSchema(t.columns, name);
    forall i | 0 <= i < |t.rows|
      ensures ProjectRow(f, i, names) == ProjectRow(t, i, names)
    {
      forall j | 0 <= j < |names|
        ensures Value(f, i, names[j]) == Value(t, i, names[j])
      {
        DropColumnKeepsValues(t, name, i, names[j]);
      }
    }
  }

  /**
   * The target never reaches fitting: what the router learns from the
   * training features is the training table's numeric columns for the first
   * route and its categorical columns for the second.
   */
  lemma LearnedFromDeclaredTrainingColumns<C>(train: Table<C>, numPipeline: Step<C>, catPipeline: Step<C>)
    requires WellFormed(train) && HasDeclaredSchema(train)
    ensures var routes := GetDataTransformerObject(numPipeline, catPipeline).routes;
            var trainX := DropColumn(train, TargetColumn).value;
            && RoutesPresent(routes, trainX)
            && LearnedState(routes, trainX)
               == [ProjectRows(train, NumericalColumns), ProjectRows(train, CategoricalColumns)]
  {
    var routes := GetDataTransformerObject(numPipeline, catPipeline).routes;
    var trainX := DropColumn(train, TargetColumn).value;
    DeclaredGroupsSeparate();
    ProjectAfterDrop(train, TargetColumn, NumericalColumns);
    ProjectAfterDrop(train, TargetColumn, CategoricalColumns);
    assert RoutesPresent(routes, trainX);
  }

  /**
   * One output row of the stage: the numeric output, then the categorical
   * output, both computed with what was learned from the training table,
   * then the row's own target value.
   */
  ghost function OutputRow<C>(numPipeline: Step<C>, catPipeline: Step<C>, train: Table<C>, t: Table<C>, i: nat): seq<C>
    requires WellFormed(train) && HasDeclaredSchema(train)
    requires WellFormed(t) && HasDeclaredSchema(t) && i < |t.rows|
  {
    numPipeline.apply(ProjectRows(train, NumericalColumns), ProjectRow(t, i, NumericalColumns))
      + catPipeline.apply(ProjectRows(train, CategoricalColumns), ProjectRow(t, i, CategoricalColumns))
      + [Value(t, i, TargetColumn)]
  }

  /** Row `i` of the feature table of `t`, routed, with its target appended. */
  lemma OutputRowOf<C>(numPipeline: Step<C>, catPipeline: Step<C>, train: Table<C>, t: Table<C>, i: nat)
    requires WellFormed(train) && HasDeclaredSchema(train)
    requires WellFormed(t) && HasDeclaredSchema(t) && i < |t.rows|
    ensures var routes := GetDataTransformerObject(numPipeline, catPipeline).routes;
            var trainX := DropColumn(train, TargetColumn).value;
            var x := DropColumn(t, TargetColumn).value;
            && RoutesPresent(routes, trainX) && RoutesPresent(routes, x)
            && RouteRow(routes, LearnedState(routes, trainX), x, i)
                 + [SelectColumn(t, TargetColumn).value[i]]
               == OutputRow(numPipeline, catPipeline, train, t, i)
  {
    var routes := GetDataTransformerObject(numPipeline, catPipeline).routes;
    var x := DropColumn(t, TargetColumn).value;
    LearnedFromDeclaredTrainingColumns(train, numPipeline, catPipeline);
    LearnedFromDeclaredTrainingColumns(t, numPipeline, catPipeline);
    DeclaredGroupsSeparate();
    ProjectAfterDrop(t, TargetColumn, NumericalColumns);
    ProjectAfterDrop(t, TargetColumn, CategoricalColumns);
    TwoRouteRow(numPipeline, catPipeline, LearnedState(routes, DropColumn(train, TargetColumn).value), x, i);
    assert ProjectRows(x, NumericalColumns)[i] == ProjectRow(x, i, NumericalColumns);
    assert ProjectRows(x, CategoricalColumns)[i] == ProjectRow(x, i, CategoricalColumns);
  }

  /**
   * The stage fails exactly when the target or a declared feature column is
   * missing from the train or the test table, and the error names a column
   * that one of them lacks. The checks come in the order of the stage: the
   * target of the training table, the target of the test table, the training
   * features (while fitting), then the test features (while transforming). So
   * a table missing the target is reported before any feature, and a complete
   * training table with an incomplete test table is reported as a column the
   * test table lacks.
   */
  lemma PipelineFailsOnlyOnMissingColumns<C>(
    train: Table<C>, test: Table<C>, numPipeline: Step<C>, catPipeline: Step<C>, path: string)
    requires WellFormed(train) && WellFormed(test)
    ensures var r := Pipeline(train, test, numPipeline, catPipeline, path);
            && (r.Ok? <==> HasDeclaredSchema(train) && HasDeclaredSchema(test))
            && (r.Err? ==> r.error.MissingColumn?
                           && (r.error.column !in train.columns || r.error.column !in test.columns))
            && (TargetColumn !in train.columns ==> r == Err(MissingColumn(TargetColumn)))
            && (TargetColumn in train.columns && TargetColumn !in test.columns
                ==> r == Err(MissingColumn(TargetColumn)))
            && (TargetColumn in train.columns && TargetColumn in test.columns && !HasDeclaredSchema(train)
                ==> r.Err? && r.error.MissingColumn? && r.error.column !in train.columns)
            && (HasDeclaredSchema(train) && !HasDeclaredSchema(test)
                ==> r.Err? && r.error.MissingColumn? && r.error.column !in test.columns)
  {
    var r := Pipeline(train, test, numPipeline, catPipeline, path);
    var router := GetDataTransformerObject(numPipeline, catPipeline);
    if TargetColumn !in train.columns || TargetColumn !in test.columns {
      assert r == Err(MissingColumn(TargetColumn));
    } else {
      var trainX := DropColumn(train, TargetColumn).value;
      var testX := DropColumn(test, TargetColumn).value;
      FeaturesPresent(train, numPipeline, catPipeline);
      FeaturesPresent(test, numPipeline, catPipeline);
      var fit := FitTransformResult(router, trainX);
      if fit.Err? {
        assert r == Err(fit.error);
      } else {
        var applied := ApplyFitted(router, LearnedState(router.routes, trainX), testX);
        if applied.Err? {
          assert r == Err(applied.error);
        } else {
          assert r.Ok?;
        }
      }
    }
  }

  /**
   * The feature table has every declared column exactly when the loaded table
   * does, and a declared column the feature table lacks, the loaded table lacks.
   */
  lemma FeaturesPresent<C>(t: Table<C>, numPipeline: Step<C>, catPipeline: Step<C>)
    requires WellFormed(t) && TargetColumn in t.columns
    ensures var routes := GetDataTransformerObject(numPipeline, catPipeline).routes;
            var x := DropColumn(t, TargetColumn).value;
            && (RoutesPresent(routes, x) <==> HasDeclaredSchema(t))
            && forall c :: c in DeclaredColumns(routes) && c !in x.columns ==> c !in t.columns
  {
    var routes := GetDataTransformerObject(numPipeline, catPipeline).routes;
    WithoutSchema(t.columns, TargetColumn);
    DeclaredGroupsSeparate();
    assert forall c :: c in NumericalColumns ==> c in routes[0].columns;
    assert forall c :: c in CategoricalColumns ==> c in routes[1].columns;
  }

  /**
   * On tables with the declared schema the stage succeeds, reports `path`,
   * and gives one output row per input row for train and for test. Each row
   * is the numeric then categorical output computed with what was learned
   * from the training table, followed by that row's target value; so every
   * row of both matrices has the same width, the transformed width plus one.
   */
  lemma PipelineOutputs<C(!new)>(
    train: Table<C>, test: Table<C>, numPipeline: Step<C>, catPipeline: Step<C>, path: string)
    requires WellFormed(train) && HasDeclaredSchema(train)
    requires WellFormed(test) && HasDeclaredSchema(test)
    requires FixedWidth(numPipeline) && FixedWidth(catPipeline)
    ensures Pipeline(train, test, numPipeline, catPipeline, path).Ok?
    ensures var out := Pipeline(train, test, numPipeline, catPipeline, path).value;
            var width := numPipeline.width(ProjectRows(train, NumericalColumns))
                       + catPipeline.width(ProjectRows(train, CategoricalColumns));
            && out.preprocessorPath == path
            && |out.trainArr| == |train.rows|
            && |out.testArr| == |test.rows|
            && (forall i :: 0 <= i < |train.rows| ==>
                  out.trainArr[i] == OutputRow(numPipeline, catPipeline, train, train, i)
                  && |out.trainArr[i]| == width + 1
                  && out.trainArr[i][width] == Value(train, i, TargetColumn))
            && (forall i :: 0 <= i < |test.rows| ==>
                  out.testArr[i] == OutputRow(numPipeline, catPipeline, train, test, i)
                  && |out.testArr[i]| == width + 1
                  && out.testArr[i][width] == Value(test, i, TargetColumn))
  {
    PipelineFailsOnlyOnMissingColumns(train, test, numPipeline, catPipeline, path);
    var out := Pipeline(train, test, numPipeline, catPipeline, path).value;
    var routes := GetDataTransformerObject(numPipeline, catPipeline).routes;
    var trainX := DropColumn(train, TargetColumn).value;
    var testX := DropColumn(test, TargetColumn).value;
    LearnedFromDeclaredTrainingColumns(train, numPipeline, catPipeline);
    LearnedFromDeclaredTrainingColumns(test, numPipeline, catPipeline);
    var state := LearnedState(routes, trainX);
    var width := numPipeline.width(ProjectRows(train, NumericalColumns))
               + catPipeline.width(ProjectRows(train, CategoricalColumns));
    forall i | 0 <= i < |train.rows|
      ensures out.trainArr[i] == OutputRow(numPipeline, catPipeline, train, train, i)
      ensures |out.trainArr[i]| == width + 1
      ensures out.trainArr[i][width] == Value(train, i, TargetColumn)
    {
      OutputRowOf(numPipeline, catPipeline, train, train, i);
    }
    forall i | 0 <= i < |test.rows|
      ensures out.testArr[i] == OutputRow(numPipeline, catPipeline, train, test, i)
      ensures |out.testArr[i]| == width + 1
      ensures out.testArr[i][width] == Value(test, i, TargetColumn)
    {
      OutputRowOf(numPipeline, catPipeline, train, test, i);
    }
  }

  /**
   * No leakage: the test table never influences what is learned. With the
   * same training table, two runs give the same training matrix, and test
   * rows that agree on the declared columns and the target give the same
   * output row, whatever the rest of their test tables holds.
   */
  lemma TestTableNeverLearnedFrom<C(!new)>(
    train: Table<C>, test1: Table<C>, test2: Table<C>,
    numPipeline: Step<C>, catPipeline: Step<C>, path: string, i1: nat, i2: nat)
    requires WellFormed(train) && HasDeclaredSchema(train)
    requires WellFormed(test1) && HasDeclaredSchema(test1) && i1 < |test1.rows|
    requires WellFormed(test2) && HasDeclaredSchema(test2) && i2 < |test2.rows|
    requires FixedWidth(numPipeline) && FixedWidth(catPipeline)
    requires forall c :: c in NumericalColumns + CategoricalColumns + [TargetColumn] ==>
               Value(test1, i1, c) == Value(test2, i2, c)
    ensures Pipeline(train, test1, numPipeline, catPipeline, path).Ok?
    ensures Pipeline(train, test2, numPipeline, catPipeline, path).Ok?
    ensures Pipeline(train, test1, numPipeline, catPipeline, path).value.trainArr
         == Pipeline(train, test2, numPipeline, catPipeline, path).value.trainArr
    ensures Pipeline(train, test1, numPipeline, catPipeline, path).value.testArr[i1]
         == Pipeline(train, test2, numPipeline, catPipeline, path).value.testArr[i2]
  {
    PipelineOutputs(train, test1, numPipeline, catPipeline, path);
    PipelineOutputs(train, test2, numPipeline, catPipeline, path);
    var out1 := Pipeline(train, test1, numPipeline, catPipeline, path).value;
    var out2 := Pipeline(train, test2, numPipeline, catPipeline, path).value;
    assert ProjectRow(test1, i1, NumericalColumns) == ProjectRow(test2, i2, NumericalColumns);
    assert ProjectRow(test1, i1, CategoricalColumns) == ProjectRow(test2, i2, CategoricalColumns);
    assert Value(test1, i1, TargetColumn) == Value(test2, i2, TargetColumn);
    assert out1.trainArr == out2.trainArr;
  }

  /** The stage object: its configuration and the objects it has saved, by path. */
  class DataTransformation<C(!new)> {
    const config: TransformationConfig
    /** The effect of saving an object: what each written path now holds. */
    var saved: map<string, Preprocessor<C>>

    constructor ()
      ensures config == DefaultConfig() && saved == map[]
    {
      config := DefaultConfig();
      saved := map[];
    }

    /**
     * Runs the stage on the loaded train and test tables. The two
     * sub-pipelines, whose numerics are not modelled, are parameters.
     */
    method InitiateDataTransformation(train: Table<C>, test: Table<C>, numPipeline: Step<C>, catPipeline: Step<C>)
      returns (r: Result<TransformationOutput<C>>)
      requires WellFormed(train) && WellFormed(test)
      requires FixedWidth(numPipeline) && FixedWidth(catPipeline)
      modifies this`saved
      ensures r == Pipeline(train, test, numPipeline, catPipeline, config.preprocessorObjFilePath)
      ensures r.Err? ==> saved == old(saved)
      ensures r.Ok? ==> TargetColumn in train.columns && TargetColumn in test.columns
      ensures r.Ok? ==> r.value.preprocessorPath == config.preprocessorObjFilePath
      ensures r.Ok? ==> config.preprocessorObjFilePath in saved
      ensures r.Ok? ==> forall p :: p != config.preprocessorObjFilePath ==>
                          (p in saved <==> p in old(saved)) && (p in saved ==> saved[p] == old(saved)[p])
      ensures r.Ok? ==>
        var obj := saved[config.preprocessorObjFilePath];
        var trainX := DropColumn(train, TargetColumn).value;
        var testX := DropColumn(test, TargetColumn).value;
        && fresh(obj)
        && obj.router == GetDataTransformerObject(numPipeline, catPipeline)
        && obj.fitted
        && RoutesPresent(obj.router.routes, trainX)
        && obj.state == LearnedState(obj.router.routes, trainX)
        && obj.calls == [FitTransformCall(trainX), TransformCall(testX)]
        && FittedOnceOn(obj.calls, trainX)
    {
      var router := GetDataTransformerObject(numPipeline, catPipeline);
      var preprocessingObj := new Preprocessor(router);

      var trainX := DropColumn(train, TargetColumn);
      if trainX.Err? {
        return Err(trainX.error);
      }
      var trainY := SelectColumn(train, TargetColumn);

      var testX := DropColumn(test, TargetColumn);
      if testX.Err? {
        return Err(testX.error);
      }
      var testY := SelectColumn(test, TargetColumn);

      var trainFeatures := preprocessingObj.FitTransform(trainX.value);
      if trainFeatures.Err? {
        return Err(trainFeatures.error);
      }
      var testFeatures := preprocessingObj.Transform(testX.value);
      if testFeatures.Err? {
        return Err(testFeatures.error);
      }

      // Both stackings succeed: the router keeps the row count of its input.
      var trainArr := AppendTarget(trainFeatures.value, trainY.value);
      var testArr := AppendTarget(testFeatures.value, testY.value);

      saved := saved[config.preprocessorObjFilePath := preprocessingObj];
      r := Ok(TransformationOutput(trainArr.value, testArr.value, config.preprocessorObjFilePath));
    }
  }
}

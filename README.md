# Requirement cleaning and the transformation stage of a tabular ML pipeline

This project models two pieces of a small batch pipeline that prepares a
student-performance dataset for model training.

- **Requirement-line cleaning** (`setup.py`, `get_requirements`). The raw lines
  of a requirements file become the install requirements. Every newline
  character is removed from every line. Then empty lines and the exact
  editable-install marker `-e .` are dropped. Module `Requirements`
  (`requirements.dfy`) models this as pure functions over `seq<string>`, with
  lemmas. The generic filter and subsequence facts it uses are in module
  `Seqs` (`seqs.dfy`).
- **The transformation stage** (`src/components/data_transformation.py`,
  class `DataTransformation`). It declares the numeric and categorical column
  groups and the target column `math_score`. It builds a column router with
  the numeric route first. It splits each loaded table into a feature table
  and a target vector. It fits the router on the training features only,
  then transforms the training and test features. It appends the target as
  the last column of every output row. It saves the fitted router and
  returns the path it was saved to. Module `Transformation`
  (`transformation.dfy`) models this:
  - tables are abstract: column names plus rows of cells of a generic type;
  - the two sub-pipelines are abstract `Step`s. A step learns from the
    training rows restricted to its own columns. It maps each row to an
    output row whose width is fixed by what it learned;
  - the router object is a class, `Preprocessor`, with a `fitted` flag, the
    learned state, and a ghost log of every fit and transform request;
  - the stage is a class, `DataTransformation`. Its method
    `InitiateDataTransformation` is proved equal to the pure specification
    `Pipeline`, and the stage's properties are lemmas about `Pipeline`.

Loading the CSV files is not modelled: the loaded tables are inputs. A
loaded table has distinct column names, because duplicate headers are
renamed on load, and one cell per column in every row (`WellFormed`).
Errors that the source raises become `Result` values:

- dropping or selecting a missing target column gives `MissingColumn`;
- a declared feature column missing at fit or transform time gives
  `MissingColumn`, because the router selects its columns by name;
- a transform before any fit gives `NotFitted`;
- column-wise stacking of unequal row counts gives `RowCountMismatch`.

The last two are proved never to happen in the stage.

## Model

| member | source | states |
|---|---|---|
| `Requirements.StripNewlines` | setup.py:11 | the cleaned line contains no newline character and is no longer than the raw line |
| `Requirements.StripNewlinesKeepsOthers` | setup.py:11 | removing newlines keeps every other character, in order and with its multiplicity |
| `Requirements.StripNewlinesNoNewline` | setup.py:11 | a line without a newline is unchanged |
| `Requirements.StripTrailingNewline` | setup.py:10-11 | a line read with its trailing newline is cleaned to the line without it |
| `Requirements.GetRequirements` | setup.py:4-13 | no returned requirement contains a newline, is empty or equals `-e .`; there are at most as many requirements as lines; an empty file yields an empty list |
| `Requirements.ResultIsOrderedSubsequence` | setup.py:10-12 | the result is an order-preserving subsequence of the newline-stripped lines |
| `Requirements.ResultMultiplicity` | setup.py:12 | every stripped value that is a requirement occurs in the result exactly as often as among the stripped lines; every other value does not occur |
| `Requirements.LineIsListed` | setup.py:11-12 | completeness: a line whose stripped form is non-empty and not `-e .` is in the result |
| `Requirements.GetRequirementsIdempotent` | setup.py:11-12 | cleaning the result again returns it unchanged |
| `Requirements.SingleLine` | setup.py:11-12 | a one-line file lists the stripped line exactly when it is a requirement |
| `Requirements.MarkerMatchIsExact` | setup.py:12 | the marker test is exact equality after stripping: `-e .` plus a newline is dropped; ` -e .` is kept; the cleaning step alone would keep `-e .` plus a carriage return |
| `Seqs.Filter` | setup.py:12 | the list comprehension with a condition: every kept element satisfies it, and no element is added |
| `Seqs.FilterCount` | setup.py:12 | the filter keeps each kept value with its full multiplicity and drops every other value |
| `Transformation.DefaultConfig` | src/components/data_transformation.py:19-22 | the fitted router is saved to `artifacts/proprocessor.pkl` |
| `Transformation.DeclaredGroupsSeparate` | src/components/data_transformation.py:34-41 | the numeric and categorical groups are disjoint and without repeats, and neither contains `math_score` |
| `Transformation.GetDataTransformerObject` | src/components/data_transformation.py:28-76 | the router has two routes, numeric columns first and categorical columns second; its declared columns are distinct and exclude the target; it is built from no data |
| `Transformation.TwoRouteRow` | src/components/data_transformation.py:66-74 | a routed row is the numeric route's output followed by the categorical route's output |
| `Transformation.RouteRowDependsOnlyOnSelected` | src/components/data_transformation.py:66-74 | columns outside the routes are dropped: rows that agree on the selected columns have the same output |
| `Transformation.RouteRowWidth` | src/components/data_transformation.py:128-129 | each routed row has exactly the width fixed by the learned state, the sum of the route widths |
| `Transformation.FirstMissingColumn` | src/components/data_transformation.py:128-129 | the router reports a missing column exactly when some selected column is absent, and the reported column is selected and absent |
| `Transformation.DropColumn` | src/components/data_transformation.py:114 | the feature table exists exactly when the column exists, otherwise the error names it; it has the same rows and the columns of the input without that column, and it is well-formed |
| `Transformation.WithoutSchema` | src/components/data_transformation.py:114 | the remaining columns are exactly the other columns, in their original order |
| `Transformation.DropColumnKeepsValues` | src/components/data_transformation.py:114 | under every remaining column name, each row keeps the value it had |
| `Transformation.SelectColumn` | src/components/data_transformation.py:115 | the target vector exists exactly when the column exists, otherwise the error names it; it has one entry per row, and entry i is row i's value in that column |
| `Transformation.SplitReassembles` | src/components/data_transformation.py:114-115 | putting the target vector back at its column position in the feature table gives the loaded table again |
| `Transformation.FitTransformResult` | src/components/data_transformation.py:128 | fitting and transforming succeeds exactly when every selected column is present, gives one row per input row, and otherwise names a selected column the table lacks |
| `Transformation.ApplyFitted` | src/components/data_transformation.py:129 | transforming with a learned state succeeds exactly when every selected column is present, gives one row per input row, and otherwise names a selected column the table lacks |
| `Transformation.ApplyFittedWidth` | src/components/data_transformation.py:66-74 | with fixed-width sub-pipelines, every transformed row is as wide as the sum of the route output widths |
| `Transformation.Preprocessor.constructor` | src/components/data_transformation.py:104 | a new router is unfitted and has no calls |
| `Transformation.Preprocessor.FitTransform` | src/components/data_transformation.py:128 | logs a fit call; on success it is fitted, its state is what was learned from this table, and every output row has the width the routes produce from that state; on error its state is unchanged |
| `Transformation.Preprocessor.Transform` | src/components/data_transformation.py:129 | logs a transform call and learns nothing; before any fit it fails with `NotFitted`; after a fit, a success gives rows of the width the routes produce from the learned state |
| `Transformation.AppendTarget` | src/components/data_transformation.py:131-136 | stacking succeeds exactly when the row counts agree; each output row is one cell wider than its feature row |
| `Transformation.AppendTargetSplits` | src/components/data_transformation.py:131-136 | splitting off the last column gives back the feature matrix and the target vector |
| `Transformation.LearnedFromDeclaredTrainingColumns` | src/components/data_transformation.py:114-128 | the target never reaches fitting: the router learns the training table's numeric columns and its categorical columns |
| `Transformation.FeaturesPresent` | src/components/data_transformation.py:114-129 | the feature table has all declared columns exactly when the loaded table does |
| `Transformation.OutputRowOf` | src/components/data_transformation.py:128-136 | one output row is the numeric then categorical output, computed with what was learned from training, followed by the row's target |
| `Transformation.PipelineFailsOnlyOnMissingColumns` | src/components/data_transformation.py:114-129 | the stage fails exactly when the target or a declared feature column is missing from the train or test table; errors follow the stage's order: a missing training target, then a missing test target, are reported as the target; otherwise an incomplete training table is reported by a column it lacks, and a complete training table with an incomplete test table by a column the test table lacks |
| `Transformation.PipelineOutputs` | src/components/data_transformation.py:109-151 | with the declared schema the stage succeeds and returns the given path; the output row counts equal the input row counts; every train and test row is the transformed row plus the target; every row has the transformed width plus one, with the target last |
| `Transformation.TestTableNeverLearnedFrom` | src/components/data_transformation.py:126-129 | no leakage: the training matrix does not depend on the test table, and a test row's output depends only on that row |
| `Transformation.DataTransformation.constructor` | src/components/data_transformation.py:24-26 | the stage uses the default configuration and has saved nothing yet |
| `Transformation.DataTransformation.InitiateDataTransformation` | src/components/data_transformation.py:85-152 | the result equals `Pipeline`; on error nothing is saved; on success the configured path is returned and now holds a new router, fitted once on the training features and then asked only to transform the test features; no other path changes |

## Left out

- src/components/data_ingestion.py is not part of this model. Its CSV read, directory creation and writes are I/O, and its seeded shuffle and split come from a library whose algorithm is not visible.
- The numerics inside the sub-pipelines are not modelled: median and most-frequent imputation, standard scaling and one-hot encoding. Each sub-pipeline is an abstract `Step` given as a parameter of `InitiateDataTransformation`, assumed to give a fixed output width (`FixedWidth`).
- Unseen categories at transform time: the source builds the one-hot encoder with library defaults (`OneHotEncoder()`), and with those defaults transforming a category that was not seen in training raises an error, so the stage fails at the test transform. The model leaves this failure out: a `Step` never fails. No all-zero policy for unseen categories is assumed either.
- PipelineOutputs: the promised success holds only for test tables whose categorical values all appeared in the training table; on any other test table the source fails at the test transform.
- TestTableNeverLearnedFrom: its conclusions that both stage runs succeed hold only for test tables whose categorical values all appeared in the training table; the equalities between the two runs' outputs are unaffected.
- PipelineFailsOnlyOnMissingColumns: the "exactly when" holds only for test tables whose categorical values all appeared in the training table; otherwise the source also fails, with an unseen-category error, when no column is missing.
- GetRequirements: reading the requirements file in text mode translates `\r\n` and a lone `\r` into `\n`, so no line the source cleans holds a carriage return. `GetRequirements` accepts such lines too, and what `MarkerMatchIsExact` says about a carriage return is a fact about the cleaning step alone.
- Failures that the sub-pipelines themselves can raise while fitting or transforming (for instance a column with no usable values) are not modelled. In the model a `Step` never fails; the only router failures are missing selected columns and a transform before any fit.
- `FirstMissingColumn`: when several selected columns are missing, the model reports the first in route order; the library's message lists the missing columns, and the text of messages is not modelled.
- Reading the train and test CSV files is not modelled: the loaded tables are the inputs. Numeric conversion of cells is not modelled either: target cells and transformed cells share one cell type `C`, so the float conversion in the column-wise stacking is not captured, and neither is a sparse output representation.
- Saving the router (`save_object`, pickle) is modelled only by its effect: the `saved` map of `DataTransformation` holds the router object under the path. Serialization, reloading and write failures are left out.
- Logging and the wrapping of errors into `CustomException` are left out; errors are returned as plain `Result` values.
- `JoinPath` uses the POSIX separator `/`; on Windows the path would use a backslash.
- Opening and reading the requirements file, and the `setup(...)` and `find_packages()` call in setup.py, are setuptools and filesystem plumbing. The lines of the file are the input of `GetRequirements`.
- The local `numerical_columns` re-declared in `initiate_data_transformation` is never used by the source and has no counterpart here.

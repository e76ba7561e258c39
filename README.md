# StateLengthLogprobInterval13 in Dafny

A model of the semi-Markov CRF feature `StateLengthLogprobInterval13` of the
calhoun/conrad gene-finding toolkit. The feature scores a segment, meaning a state of
the 13-state interval13 gene model plus a length, with the log-probability of that
length under a duration model trained per category. States route to three
categories: intergenic (state 0), exon (states 1-3 and 7-9) and intron (states
4-6 and 10-12).

The model covers:

- **Routing** (`Categories`). The state switch is `CategoryOf`. The order in which
  training pools the lists is `StatesOf`. Lemmas prove that the two agree and that
  they partition 0..12.
- **Training** (`Pooling`, `Scoring.SelectFitModes`,
  `Interval13.StateLengthLogprobInterval13.Train`). The 13 per-state run-length
  lists are concatenated into three pools in the source's fixed order. Each pool is
  copied into a `double[]` array. The fit mode is chosen by the `forceExponential` /
  `exonExponential` / `intronExponential` chain.
- **Scoring** (`Scoring.Score`, `...EvaluateNodeLength`). The order of the fatal
  checks, the `noIntergenic` gate, the single write to the accumulator and the
  index it goes to are all modelled.
- **Metadata**: `FeatureCount` and `FeatureName`.

The duration estimator (`MixtureOfGammas`) is a value
`Estimator(samples, mode)` identified by what it was built from. Its
`logEvaluate` is a parameter `(Estimator, real) -> Double` of the scoring call.
`Double` distinguishes a finite value from NaN and the two infinities.

Each fatal `Assert.a` becomes a `Failure`/`Fail` value. The checks run in the
source's order: non-positive length, unknown state, missing model (a
`NullPointerException` before training), then non-finite log-probability. Java
`int` arithmetic is modelled with 32-bit wrap-around (`Int32`). This arithmetic is
used for `startIx + offset` and `featureIndex - startIx`. `FeatureName` states
the name table for every input, wrapped differences included. For example,
`featureIndex = Integer.MIN_VALUE` read against `startIx = Integer.MAX_VALUE` names
the exon weight.

`train` records `startIx` before it checks the state count. So a failed training
pass still changes the start index, and the model does the same.

The `else if` chain at lines 180-187 gives `exonExponential` priority. When it
is set, `intronExponential` has no effect, so with both per-category flags set the
intron pool is still fitted as a mixture. `SelectFitModes` states this priority.

## Model

| member | source | states |
|---|---|---|
| `Int32.Add` | src/calhoun/analysis/crf/features/interval13/StateLengthLogprobInterval13.java:106 | Java int addition: equals the exact sum when it fits in 32 bits, and is always congruent to it modulo 2^32 |
| `Int32.Sub` | src/calhoun/analysis/crf/features/interval13/StateLengthLogprobInterval13.java:116 | Java int subtraction: exact when it fits in 32 bits, congruent modulo 2^32 otherwise |
| `Categories.CategoryOf` | src/calhoun/analysis/crf/features/interval13/StateLengthLogprobInterval13.java:72-99 | a state has a category iff it is in 0..12, and it is intergenic iff it is state 0; every other id reaches the failing default branch |
| `Categories.Offset` | src/calhoun/analysis/crf/features/interval13/StateLengthLogprobInterval13.java:71-96 | the index offset of a category is below 3 and identifies the category (Intergenic 0, Exon 1, Intron 2) |
| `Categories.PoolingAgreesWithRouting` | src/calhoun/analysis/crf/features/interval13/StateLengthLogprobInterval13.java:145-159 | a state is pooled into a category in training iff scoring routes it to that category |
| `Categories.StatesPartition` | src/calhoun/analysis/crf/features/interval13/StateLengthLogprobInterval13.java:72-99 | every state 0..12 lies in exactly one category's state list and no other id lies in any |
| `Pooling.PoolsUnfolded` | src/calhoun/analysis/crf/features/interval13/StateLengthLogprobInterval13.java:141-159 | the intergenic pool is state 0's list; the exon pool is lists 1,2,3,7,8,9 and the intron pool lists 4,5,6,10,11,12, concatenated in that order |
| `Pooling.PoolMember` | src/calhoun/analysis/crf/features/interval13/StateLengthLogprobInterval13.java:145-159 | a run length is in a category's pool iff some state of that category observed it |
| `Pooling.PoolsPartitionSamples` | src/calhoun/analysis/crf/features/interval13/StateLengthLogprobInterval13.java:141-159 | the three pools together hold exactly the multiset of all 13 lists' run lengths, so their sizes add up to the total |
| `Pooling.PoolLengths` | src/calhoun/analysis/crf/features/interval13/StateLengthLogprobInterval13.java:141-159 | the three lists grown by `addAll` equal the category pools: state 0's list, lists 1,2,3,7,8,9 and lists 4,5,6,10,11,12 in that order |
| `Pooling.ToDoubleArray` | src/calhoun/analysis/crf/features/interval13/StateLengthLogprobInterval13.java:161-174 | the copied array has the list's length and holds each element, cast to double, at the same position |
| `Scoring.SelectFitModes` | src/calhoun/analysis/crf/features/interval13/StateLengthLogprobInterval13.java:176-193 | intergenic is always forced exponential; exon iff forceExponential or exonExponential; intron iff forceExponential or (not exonExponential and intronExponential) |
| `Scoring.FeatureIndex` | src/calhoun/analysis/crf/features/interval13/StateLengthLogprobInterval13.java:106 | the write index is startIx plus the category's offset in multi-feature mode and startIx otherwise (when no overflow occurs) |
| `Scoring.Score` | src/calhoun/analysis/crf/features/interval13/StateLengthLogprobInterval13.java:67-107 | a non-positive length fails for every state; an unknown state fails; no write happens iff the state is 0 under noIntergenic; any write is of the finite log-density of the state's category model at the length, at that category's index |
| `Scoring.ScoreAddsCategoryValue` | src/calhoun/analysis/crf/features/interval13/StateLengthLogprobInterval13.java:101-106 | a positive length for a routed, trained category whose log-density is finite adds exactly that value at the category's index |
| `Scoring.NoIntergenicOnlyAffectsStateZero` | src/calhoun/analysis/crf/features/interval13/StateLengthLogprobInterval13.java:73-78 | for every state other than 0, scoring is the same whether noIntergenic is set or not |
| `Scoring.MultipleFeaturesOnlyMovesIndex` | src/calhoun/analysis/crf/features/interval13/StateLengthLogprobInterval13.java:106 | multipleFeatures changes neither success nor failure nor the value written, only its index: startIx alone versus the category's index |
| `Scoring.FeatureCount` | src/calhoun/analysis/crf/features/interval13/StateLengthLogprobInterval13.java:196-198 | 3 features in multi-feature mode, 1 otherwise |
| `Scoring.FeatureName` | src/calhoun/analysis/crf/features/interval13/StateLengthLogprobInterval13.java:113-121 | single-feature mode always gives the fixed model name; multi-feature mode gives "Intergenic/Exon/Intron lengths" for startIx, startIx+1, startIx+2 and fails for an index outside that window whenever `featureIndex - startIx` does not wrap; for every input, the name exists iff that difference taken modulo 2^32 is below 3, and it is the name of the category with that offset |
| `Scoring.FeatureCountCoversIndices` | src/calhoun/analysis/crf/features/interval13/StateLengthLogprobInterval13.java:196-198 | every category writes inside [startIx, startIx + count); in multi-feature mode offsets 0, 1, 2 are Intergenic, Exon, Intron; every written index has a name (the category's, or the single name) |
| `Interval13.StateLengthLogprobInterval13.constructor` | src/calhoun/analysis/crf/features/interval13/StateLengthLogprobInterval13.java:41-53 | a new feature has every switch off, no trained model and start index 0 |
| `Interval13.StateLengthLogprobInterval13.SetForceExponential` | src/calhoun/analysis/crf/features/interval13/StateLengthLogprobInterval13.java:55-57 | sets forceExponential; nothing else changes |
| `Interval13.StateLengthLogprobInterval13.SetExonExponential` | src/calhoun/analysis/crf/features/interval13/StateLengthLogprobInterval13.java:59-61 | sets exonExponential; nothing else changes |
| `Interval13.StateLengthLogprobInterval13.SetIntronExponential` | src/calhoun/analysis/crf/features/interval13/StateLengthLogprobInterval13.java:63-65 | sets intronExponential; nothing else changes |
| `Interval13.StateLengthLogprobInterval13.SetMultipleFeatures` | src/calhoun/analysis/crf/features/interval13/StateLengthLogprobInterval13.java:210-212 | sets multipleFeatures; nothing else changes |
| `Interval13.StateLengthLogprobInterval13.SetNoIntergenic` | src/calhoun/analysis/crf/features/interval13/StateLengthLogprobInterval13.java:224-226 | sets noIntergenic; nothing else changes |
| `Interval13.StateLengthLogprobInterval13.EvaluateNodeLength` | src/calhoun/analysis/crf/features/interval13/StateLengthLogprobInterval13.java:67-107 | fails exactly as `Score` fails and then leaves the accumulator untouched; otherwise appends exactly the one entry `Score` gives, or none under noIntergenic for state 0 |
| `Interval13.StateLengthLogprobInterval13.Train` | src/calhoun/analysis/crf/features/interval13/StateLengthLogprobInterval13.java:132-194 | always records the start index; fails on a state count other than 13 and keeps the old models; otherwise installs, per category, an estimator over that category's pool cast to double, with the mode `SelectFitModes` chooses; the switches are unchanged |

## Left out

- `MixtureOfGammas` internals are not part of this model: the EM fit, the
  median-relative prior pseudo-observations, the zero-variance exponential fallback
  and the Gamma/Exponential log-densities. The estimator is an opaque value, and its
  `logEvaluate` is a parameter of the scoring call.
- `Train` assumes that building an estimator never fails. Java assigns the three
  `*MixGamma` fields one after another (lines 177-192). If a constructor threw,
  for example on an empty pool, the fields assigned before it would already be
  replaced. The model installs all three together.
- `SequenceConverter.stateVector2StateLengths` is not part of this model. `Train`
  receives its output, the per-state run-length lists, as a parameter. It requires
  one list per state when the state count is 13, which is what that converter
  returns.
- The `ModelManager` reference `mi` is not stored. `Train` receives its state count
  as the `numStates` parameter.
- The warning logged for a finite positive log-probability (lines 103-105) is left
  out. It is diagnostic output only.
- Floating-point semantics are abstracted by `Double`, which tells a finite value
  apart from NaN and the infinities. Finite values are reals, and the int-to-double
  cast is exact.
- `getCacheStrategy`, `getInputComponent`/`setInputComponent` and
  `serialVersionUID` are left out. They are framework plumbing with no behaviour of
  their own.
- The getters `isMultipleFeatures` and `isNoIntergenic` are left out. They return a
  field unchanged, and the model reads the fields directly.
- `evaluateNodeLength` ignores its `seq` and `pos` parameters, so the model omits
  them.
- `FeatureList` is not part of this model beyond recording each `addFeature(index,
  value)` call as an appended entry.
- `Train` keeps the contents of each copied `double[]` array in the estimator, not
  the array object itself. Aliasing between the estimator and the array is not
  modelled.

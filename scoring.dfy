/** What one scoring call and one training pass of the interval13 duration
    feature produce, as functions of the configuration and the trained models. */
module Scoring {
  import opened Wrappers
  import opened Int32
  import opened Categories
  import opened Estimation
  import opened Pooling

  /** The fatal conditions of the feature. */
  datatype Error =
    | NonPositiveLength(length: int)          // assertion on the segment length
    | UnknownState(state: int)                // default branch of the state switch
    | Untrained(category: Category)           // the category's model is still null
    | NonFiniteLogProb(value: Double)         // NaN or an infinity from the model
    | WrongStateCount(numStates: int)         // training on a model without 13 states
    | FeatureIndexOutOfRange(featureIndex: int32)  // name asked for an index outside the window

  /** The configuration switches, all false on a new feature. */
  datatype Flags = Flags(
    forceExponential: bool,
    exonExponential: bool,
    intronExponential: bool,
    multipleFeatures: bool,
    noIntergenic: bool)

  /** The three trained duration models (None before training). */
  datatype Models = Models(intergenic: Option<Estimator>, exon: Option<Estimator>, intron: Option<Estimator>)
  {
    function For(c: Category): Option<Estimator> {
      match c
      case Intergenic => intergenic
      case Exon => exon
      case Intron => intron
    }
  }

  /** What a scoring call does to the feature accumulator. */
  datatype Write = NoWrite | AddFeature(index: int32, value: real)

  /** The fitting mode of each category. */
  datatype FitPlan = FitPlan(intergenic: FitMode, exon: FitMode, intron: FitMode)

  const SINGLE_FEATURE_NAME: string := "StateDurationLogProbForModelInterval13"

  /** The if/else-if chain choosing how each pool is fitted. */
  function SelectFitModes(forceExponential: bool, exonExponential: bool, intronExponential: bool): (p: FitPlan)
    ensures p.intergenic == ForcedExponential
    ensures p.exon == ForcedExponential <==> forceExponential || exonExponential
    ensures p.intron == ForcedExponential <==> forceExponential || (!exonExponential && intronExponential)
  {
    if forceExponential then FitPlan(ForcedExponential, ForcedExponential, ForcedExponential)
    else if exonExponential then FitPlan(ForcedExponential, ForcedExponential, Mixture)
    else if intronExponential then FitPlan(ForcedExponential, Mixture, ForcedExponential)
    else FitPlan(ForcedExponential, Mixture, Mixture)
  }

  /** The models a successful training pass installs. */
  function TrainedModels(flags: Flags, d: seq<seq<int>>): Models
    requires |d| == NUM_STATES
  {
    var plan := SelectFitModes(flags.forceExponential, flags.exonExponential, flags.intronExponential);
    Models(
      Some(Estimator(AsDoubles(Pool(d, Intergenic)), plan.intergenic)),
      Some(Estimator(AsDoubles(Pool(d, Exon)), plan.exon)),
      Some(Estimator(AsDoubles(Pool(d, Intron)), plan.intron)))
  }

  /** The accumulator index a category's value goes to. */
  function FeatureIndex(startIx: int32, multipleFeatures: bool, c: Category): (ix: int32)
    ensures startIx as int <= MAX - 2 ==>
      ix as int == startIx as int + (if multipleFeatures then Offset(c) else 0)
  {
    Add(startIx, if multipleFeatures then Offset(c) as int32 else 0)
  }

  /** The effect of scoring a segment of `state` lasting `length` positions. */
  function Score(flags: Flags, startIx: int32, models: Models, logEvaluate: (Estimator, real) -> Double,
                 length: int, state: int): (r: Result<Write, Error>)
    ensures length <= 0 ==> r == Failure(NonPositiveLength(length))
    ensures length > 0 && CategoryOf(state).None? ==> r == Failure(UnknownState(state))
    ensures r == Success(NoWrite) <==> length > 0 && state == 0 && flags.noIntergenic
    ensures r.Success? && r.value.AddFeature? ==>
      && length > 0
      && CategoryOf(state).Some?
      && !(state == 0 && flags.noIntergenic)
      && models.For(CategoryOf(state).value).Some?
      && logEvaluate(models.For(CategoryOf(state).value).value, length as real) == Finite(r.value.value)
      && r.value.index == FeatureIndex(startIx, flags.multipleFeatures, CategoryOf(state).value)
  {
    if length <= 0 then Failure(NonPositiveLength(length))
    else match CategoryOf(state)
      case None => Failure(UnknownState(state))
      case Some(c) =>
        if c == Intergenic && flags.noIntergenic then Success(NoWrite)
        else match models.For(c)
          case None => Failure(Untrained(c))
          case Some(m) =>
            var val := logEvaluate(m, length as real);
            if !IsFinite(val) then Failure(NonFiniteLogProb(val))
            else Success(AddFeature(FeatureIndex(startIx, flags.multipleFeatures, c), val.value))
  }

  /** A valid segment of a trained category whose log-probability is finite
      adds exactly that value, at the category's index. */
  lemma {:induction false} ScoreAddsCategoryValue(flags: Flags, startIx: int32, models: Models,
                                  logEvaluate: (Estimator, real) -> Double, length: int, state: int)
    requires length > 0 && CategoryOf(state).Some?
    requires !(state == 0 && flags.noIntergenic)
    requires models.For(CategoryOf(state).value).Some?
    requires IsFinite(logEvaluate(models.For(CategoryOf(state).value).value, length as real))
    ensures var c := CategoryOf(state).value;
      Score(flags, startIx, models, logEvaluate, length, state)
        == Success(AddFeature(FeatureIndex(startIx, flags.multipleFeatures, c),
                              logEvaluate(models.For(c).value, length as real).value))
  {
  }

  /** The no-intergenic switch affects state 0 only. */
  lemma {:induction false} NoIntergenicOnlyAffectsStateZero(flags: Flags, startIx: int32, models: Models,
                                           logEvaluate: (Estimator, real) -> Double, length: int, state: int)
    requires state != 0
    ensures Score(flags.(noIntergenic := true), startIx, models, logEvaluate, length, state)
         == Score(flags.(noIntergenic := false), startIx, models, logEvaluate, length, state)
  {
  }

  /** The per-category switch moves the write and changes nothing else. */
  lemma {:induction false} MultipleFeaturesOnlyMovesIndex(flags: Flags, startIx: int32, models: Models,
                                         logEvaluate: (Estimator, real) -> Double, length: int, state: int)
    ensures var single := Score(flags.(multipleFeatures := false), startIx, models, logEvaluate, length, state);
            var multi := Score(flags.(multipleFeatures := true), startIx, models, logEvaluate, length, state);
            && (single.Success? <==> multi.Success?)
            && (single.Failure? ==> single == multi)
            && (single.Success? && single.value.AddFeature? ==>
                  && multi.value.AddFeature?
                  && single.value.value == multi.value.value
                  && single.value.index == startIx
                  && multi.value.index == FeatureIndex(startIx, true, CategoryOf(state).value))
  {
  }

  /** Number of weights the feature occupies. */
  function FeatureCount(multipleFeatures: bool): (n: nat)
    ensures n == 3 <==> multipleFeatures
    ensures n == 1 <==> !multipleFeatures
  {
    if multipleFeatures then 3 else 1
  }

  /** Display name of the weight at `featureIndex`; in per-category mode an
      index outside the three-entry name table is fatal. */
  function FeatureName(multipleFeatures: bool, startIx: int32, featureIndex: int32): (r: Result<string, Error>)
    ensures !multipleFeatures ==> r == Success(SINGLE_FEATURE_NAME)
    ensures multipleFeatures && startIx as int <= featureIndex as int < startIx as int + 3 ==>
      r == Success(Name(CategoryAt(featureIndex as int - startIx as int)) + " lengths")
    ensures multipleFeatures && featureIndex as int - startIx as int >= MIN
            && !(startIx as int <= featureIndex as int < startIx as int + 3) ==>
      r == Failure(FeatureIndexOutOfRange(featureIndex))
    ensures multipleFeatures ==>
      (r.Success? <==> (featureIndex as int - startIx as int) % MODULUS < 3)
    ensures multipleFeatures && r.Success? ==>
      r.value == Name(CategoryAt((featureIndex as int - startIx as int) % MODULUS)) + " lengths"
  {
    if multipleFeatures then
      var vals := ["Intergenic", "Exon", "Intron"];
      var k := Sub(featureIndex, startIx);
      if 0 <= k < 3 then Success(vals[k] + " lengths")
      else Failure(FeatureIndexOutOfRange(featureIndex))
    else
      Success(SINGLE_FEATURE_NAME)
  }

  /** The feature count matches the indices scoring writes to: every category
      writes inside the window [startIx, startIx + count), every index of the
      window is some category's, and each such index has a name. */
  lemma FeatureCountCoversIndices(startIx: int32, multipleFeatures: bool)
    requires startIx as int <= MAX - 2
    ensures forall c :: startIx as int <= FeatureIndex(startIx, multipleFeatures, c) as int
                        < startIx as int + FeatureCount(multipleFeatures)
    ensures multipleFeatures ==>
      forall k :: 0 <= k < 3 ==> FeatureIndex(startIx, true, CategoryAt(k)) as int == startIx as int + k
    ensures forall c :: (FeatureName(multipleFeatures, startIx, FeatureIndex(startIx, multipleFeatures, c))
      == Success(if multipleFeatures then Name(c) + " lengths" else SINGLE_FEATURE_NAME))
  {
  }
}

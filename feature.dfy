/** The semi-Markov feature itself: configuration switches, the training pass
    that installs the three duration models, and the scoring call that writes
    into the caller's feature accumulator. */
module Interval13 {
  import opened Wrappers
  import opened Int32
  import opened Categories
  import opened Estimation
  import opened Pooling
  import opened Scoring

  /** The caller's feature accumulator, seen as the list of values added to it. */
  class FeatureList {
    var entries: seq<(int32, real)>

    constructor()
      ensures entries == []
    {
      entries := [];
    }

    method AddFeature(index: int32, value: real)
      modifies this
      ensures entries == old(entries) + [(index, value)]
    {
      entries := entries + [(index, value)];
    }
  }

  class StateLengthLogprobInterval13 {
    var startIx: int32

    var intergenicMixGamma: Option<Estimator>
    var exonMixGamma: Option<Estimator>
    var intronMixGamma: Option<Estimator>

    var forceExponential: bool
    var exonExponential: bool
    var intronExponential: bool
    var multipleFeatures: bool
    var noIntergenic: bool

    /** The configuration switches as one value. */
    function Settings(): Flags
      reads this
    {
      Flags(forceExponential, exonExponential, intronExponential, multipleFeatures, noIntergenic)
    }

    /** The three duration models as one value. */
    function Trained(): Models
      reads this
    {
      Models(intergenicMixGamma, exonMixGamma, intronMixGamma)
    }

    /** A new feature: every switch off, no model trained, start index 0. */
    constructor()
      ensures Settings() == Flags(false, false, false, false, false)
      ensures Trained() == Models(None, None, None)
      ensures startIx == 0
    {
      startIx := 0;
      intergenicMixGamma, exonMixGamma, intronMixGamma := None, None, None;
      forceExponential, exonExponential, intronExponential := false, false, false;
      multipleFeatures, noIntergenic := false, false;
    }

    method SetForceExponential(value: bool)
      modifies this
      ensures Settings() == old(Settings()).(forceExponential := value)
      ensures Trained() == old(Trained()) && startIx == old(startIx)
    {
      forceExponential := value;
    }

    method SetExonExponential(value: bool)
      modifies this
      ensures Settings() == old(Settings()).(exonExponential := value)
      ensures Trained() == old(Trained()) && startIx == old(startIx)
    {
      exonExponential := value;
    }

    method SetIntronExponential(value: bool)
      modifies this
      ensures Settings() == old(Settings()).(intronExponential := value)
      ensures Trained() == old(Trained()) && startIx == old(startIx)
    {
      intronExponential := value;
    }

    method SetMultipleFeatures(value: bool)
      modifies this
      ensures Settings() == old(Settings()).(multipleFeatures := value)
      ensures Trained() == old(Trained()) && startIx == old(startIx)
    {
      multipleFeatures := value;
    }

    method SetNoIntergenic(value: bool)
      modifies this
      ensures Settings() == old(Settings()).(noIntergenic := value)
      ensures Trained() == old(Trained()) && startIx == old(startIx)
    {
      noIntergenic := value;
    }

    /** Scores a segment of `state` lasting `length` positions. `logEvaluate`
        is the duration model's log-density. On success at most one entry is
        appended to `result`; on failure `result` is untouched. */
    method EvaluateNodeLength(length: int, state: int, result: FeatureList,
                              logEvaluate: (Estimator, real) -> Double)
      returns (outcome: Outcome<Error>)
      modifies result
      ensures match Score(Settings(), startIx, Trained(), logEvaluate, length, state)
        case Failure(e) => outcome == Fail(e) && result.entries == old(result.entries)
        case Success(NoWrite) => outcome == Pass && result.entries == old(result.entries)
        case Success(AddFeature(ix, v)) => outcome == Pass && result.entries == old(result.entries) + [(ix, v)]
    {
      if length <= 0 {
        return Fail(NonPositiveLength(length));
      }
      var mg: Option<Estimator>;
      var category: Category;
      if state == 0 {
        if noIntergenic {
          return Pass;
        }
        category, mg := Intergenic, intergenicMixGamma;
      } else if state == 1 || state == 2 || state == 3 || state == 7 || state == 8 || state == 9 {
        category, mg := Exon, exonMixGamma;
      } else if state == 4 || state == 5 || state == 6 || state == 10 || state == 11 || state == 12 {
        category, mg := Intron, intronMixGamma;
      } else {
        return Fail(UnknownState(state));
      }
      if mg.None? {
        return Fail(Untrained(category));
      }
      var val := logEvaluate(mg.value, length as real);
      if !IsFinite(val) {
        return Fail(NonFiniteLogProb(val));
      }
      var indexOffset: int32 := if multipleFeatures then Offset(category) as int32 else 0;
      result.AddFeature(Add(startIx, indexOffset), val.value);
      outcome := Pass;
    }

    /** One training pass. `numStates` is the model's state count and
        `stateDurations` the run lengths observed per state. The start index
        is recorded before the state count is checked. */
    method Train(startingIndex: int32, numStates: int, stateDurations: seq<seq<int>>)
      returns (outcome: Outcome<Error>)
      requires numStates == NUM_STATES ==> |stateDurations| == NUM_STATES
      modifies this
      ensures startIx == startingIndex && Settings() == old(Settings())
      ensures numStates != NUM_STATES ==>
        outcome == Fail(WrongStateCount(numStates)) && Trained() == old(Trained())
      ensures numStates == NUM_STATES ==>
        outcome == Pass && Trained() == TrainedModels(Settings(), stateDurations)
    {
      startIx := startingIndex;
      if numStates != NUM_STATES {
        return Fail(WrongStateCount(numStates));
      }

      var intergenicLengths, exonLengths, intronLengths := PoolLengths(stateDurations);

      var inter := ToDoubleArray(intergenicLengths);
      var exon := ToDoubleArray(exonLengths);
      var intron := ToDoubleArray(intronLengths);
      assert inter[..] == AsDoubles(intergenicLengths);
      assert exon[..] == AsDoubles(exonLengths);
      assert intron[..] == AsDoubles(intronLengths);

      var plan := SelectFitModes(forceExponential, exonExponential, intronExponential);
      intergenicMixGamma := Some(Estimator(inter[..], plan.intergenic));
      exonMixGamma := Some(Estimator(exon[..], plan.exon));
      intronMixGamma := Some(Estimator(intron[..], plan.intron));
      outcome := Pass;
    }
  }
}

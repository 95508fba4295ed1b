// Market data, feature, strategy and signal values.
//
// Times and durations are whole microseconds. Prices are exact numbers.
module Domain {
  import opened Collections

  datatype Instrument = Instrument(identifier: string)

  datatype AvailabilitySemantics = ProviderPublished | SystemReceived | Modeled

  datatype Provenance = Provenance(source: string, timezone: Option<string>, session: Option<string>)

  datatype Bar = Bar(
    instrument: Instrument, interval: int, observed: int, available: int,
    semantics: AvailabilitySemantics,
    open: real, high: real, low: real, close: real, volume: Option<real>,
    provenance: Provenance)
  {
    predicate Valid() {
      && interval > 0
      && observed <= available
      && open <= high && close <= high
      && low <= open && low <= close
      && (volume.Some? ==> volume.value >= 0.0)
    }
  }

  datatype MarketState = Normal | Locked | Crossed

  datatype Quote = Quote(
    instrument: Instrument, bid: real, ask: real, bidSize: Option<real>, askSize: Option<real>,
    observed: int, available: int, semantics: AvailabilitySemantics, provenance: Provenance)
  {
    predicate Valid() {
      && observed <= available
      && (bidSize.Some? ==> bidSize.value >= 0.0)
      && (askSize.Some? ==> askSize.value >= 0.0)
    }

    function State(): MarketState {
      if bid < ask then Normal else if bid == ask then Locked else Crossed
    }
  }

  datatype Metadata = Metadata(
    source: string, dataset: string, instruments: seq<Instrument>,
    coverageStart: int, coverageEnd: int, interval: Option<int>, validated: bool)

  // The number sqrt(square), or its negation: a z-score in exact arithmetic.
  datatype SignedRoot = SignedRoot(negative: bool, square: real)
  {
    predicate Valid() {
      square >= 0.0 && (negative ==> square > 0.0)
    }

    predicate AtMost(bound: real) {
      if negative then bound >= 0.0 || square >= bound * bound
      else bound >= 0.0 && square <= bound * bound
    }

    predicate AtLeast(bound: real) {
      if negative then bound < 0.0 && square <= bound * bound
      else bound <= 0.0 || square >= bound * bound
    }
  }

  datatype FeatureName = SimpleReturn | RollingMean | RollingVariance | RollingStandardDeviation | ZScore

  datatype FeatureState = WarmingUp | Ready | Unavailable

  datatype UnavailableReason = InsufficientHistory | ZeroVariance

  const FEATURE_VERSION := "shadow.features.v1"
  const STRATEGY_ID := "mean_reversion_z_score"
  const STRATEGY_VERSION := "shadow.strategies.mean_reversion.v1"

  datatype FeatureSnapshot = FeatureSnapshot(
    instrument: Instrument, name: FeatureName, version: string, value: Option<SignedRoot>,
    observed: int, available: int, window: int, state: FeatureState,
    reason: Option<UnavailableReason>, dataset: string)

  // The feature name, input and version of a configuration are fixed by its contract.
  datatype MeanReversionConfig = MeanReversionConfig(
    instrument: Instrument, configuration: string, window: int,
    entryThreshold: real, exitThreshold: real, maximumFeatureAge: int)
  {
    predicate Valid() {
      window > 0 && entryThreshold < exitThreshold && maximumFeatureAge >= 0
    }
  }

  datatype PositionState = PositionFlat | PositionHolding

  datatype SignalType = LongEntry | LongExit

  datatype SignalReason = EntryThreshold | ExitThreshold

  datatype Signal = Signal(
    instrument: Instrument, strategy: string, strategyVersion: string, kind: SignalType,
    decided: int, available: int,
    featureName: FeatureName, featureVersion: string, featureWindow: int,
    featureObserved: int, featureAvailable: int, value: SignedRoot,
    configuration: string, entryThreshold: real, exitThreshold: real, maximumFeatureAge: int,
    reason: SignalReason, dataset: string)

  // SignedRoot comparisons mean what dividing by any exact square root would.
  lemma RootComparisons(z: SignedRoot, root: real, bound: real)
    requires z.Valid() && root >= 0.0 && root * root == z.square
    ensures z.AtMost(bound) <==> (if z.negative then -root else root) <= bound
    ensures z.AtLeast(bound) <==> (if z.negative then -root else root) >= bound
  {
    SquaresOrdered(root, bound);
    SquaresOrdered(root, -bound);
    assert (-bound) * (-bound) == bound * bound;
  }

  lemma ProductPositive(x: real, y: real)
    requires x > 0.0 && y > 0.0
    ensures x * y > 0.0
  {
  }

  lemma SquaresOrdered(x: real, y: real)
    requires x >= 0.0
    ensures y >= 0.0 ==> (x <= y <==> x * x <= y * y)
    ensures y >= 0.0 ==> (x >= y <==> x * x >= y * y)
  {
    if y >= 0.0 {
      assert (y - x) * (y + x) == y * y - x * x;
      if x < y {
        ProductPositive(y - x, y + x);
      } else if x > y {
        ProductPositive(x - y, y + x);
        assert (x - y) * (y + x) == x * x - y * y;
      }
    }
  }
}

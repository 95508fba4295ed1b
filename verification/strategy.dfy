// The mean-reversion decision rule: strategies/mean_reversion.py.
module Strategy {
  import opened Collections
  import opened Domain

  predicate Usable(f: FeatureSnapshot, c: MeanReversionConfig, now: int) {
    && f.instrument == c.instrument
    && f.name == ZScore
    && f.version == FEATURE_VERSION
    && f.window == c.window
    && f.state == Ready
    && f.value.Some?
    && f.available <= now
    && now - f.observed <= c.maximumFeatureAge
  }

  function EvaluateMeanReversion(
    f: FeatureSnapshot, c: MeanReversionConfig, position: PositionState, now: int): (r: Option<Signal>)
    ensures r.Some? ==>
              && r.value.instrument == f.instrument == c.instrument
              && r.value.decided == r.value.available == now
              && r.value.featureObserved == f.observed
              && r.value.configuration == c.configuration
              && (position == PositionFlat <==> r.value.kind == LongEntry)
  {
    if !Usable(f, c, now) then None
    else if position == PositionFlat && f.value.value.AtMost(c.entryThreshold) then
      Some(Propose(f, c, LongEntry, EntryThreshold, now))
    else if position == PositionHolding && f.value.value.AtLeast(c.exitThreshold) then
      Some(Propose(f, c, LongExit, ExitThreshold, now))
    else None
  }

  function Propose(
    f: FeatureSnapshot, c: MeanReversionConfig, kind: SignalType, reason: SignalReason, now: int): Signal
    requires f.value.Some?
  {
    Signal(f.instrument, STRATEGY_ID, STRATEGY_VERSION, kind, now, now,
           f.name, f.version, f.window, f.observed, f.available, f.value.value,
           c.configuration, c.entryThreshold, c.exitThreshold, c.maximumFeatureAge, reason, f.dataset)
  }

  // The z-score itself, given the square root it stands for.
  function ScoreWith(z: SignedRoot, root: real): real {
    if z.negative then -root else root
  }

  // The signal names its rule, the feature it rests on, the configuration, and the time.
  ghost predicate Carries(s: Signal, f: FeatureSnapshot, c: MeanReversionConfig, now: int) {
    && s.instrument == c.instrument && s.strategy == "mean_reversion_z_score"
    && s.strategyVersion == "shadow.strategies.mean_reversion.v1" && s.decided == now && s.available == now
    && s.featureName == ZScore && s.featureVersion == f.version && s.featureWindow == f.window
    && s.featureObserved == f.observed && s.featureAvailable == f.available && f.value == Some(s.value)
    && s.configuration == c.configuration && s.entryThreshold == c.entryThreshold
    && s.exitThreshold == c.exitThreshold && s.maximumFeatureAge == c.maximumFeatureAge && s.dataset == f.dataset
    && (s.reason == EntryThreshold <==> s.kind == LongEntry)
  }

  // Evidence of the configured feature at its window, ready, already available, and not too old.
  ghost predicate Evidenced(f: FeatureSnapshot, c: MeanReversionConfig, now: int) {
    && f.instrument == c.instrument && f.name == ZScore && f.version == "shadow.features.v1" && f.window == c.window
    && f.state == Ready && f.value.Some? && f.available <= now && now - f.observed <= c.maximumFeatureAge
  }

  // A proposal has its evidence, and the score is past the threshold of its kind.
  lemma ProposalEvidenced(f: FeatureSnapshot, c: MeanReversionConfig, position: PositionState, now: int)
    requires EvaluateMeanReversion(f, c, position, now).Some?
    ensures var s := EvaluateMeanReversion(f, c, position, now).value;
            && Evidenced(f, c, now) && Carries(s, f, c, now)
            && s.kind == (if position == PositionFlat then LongEntry else LongExit)
            && (if s.kind == LongEntry then s.value.AtMost(c.entryThreshold) else s.value.AtLeast(c.exitThreshold))
  {
  }

  // A signal is proposed exactly when the evidence is of the configured feature, ready, available
  // and not too old, and the score itself is at or below the entry threshold while flat, or at or
  // above the exit threshold while holding; its kind says which, and it carries that evidence.
  lemma ProposesExactly(
    f: FeatureSnapshot, c: MeanReversionConfig, position: PositionState, now: int, root: real)
    requires f.value.Some? && f.value.value.Valid() && root >= 0.0 && root * root == f.value.value.square
    ensures var r, score := EvaluateMeanReversion(f, c, position, now), ScoreWith(f.value.value, root);
            && (r.Some? <==>
                  Evidenced(f, c, now)
                  && (if position == PositionFlat then score <= c.entryThreshold else score >= c.exitThreshold))
            && (r.Some? ==> r.value.kind == if position == PositionFlat then LongEntry else LongExit)
            && (r.Some? ==> Carries(r.value, f, c, now))
  {
    RootComparisons(f.value.value, root, c.entryThreshold);
    RootComparisons(f.value.value, root, c.exitThreshold);
  }
}

// Chronological validation of bar collections: data/validation.py.
module Validation {
  import opened Collections
  import opened Domain

  // What a bar collection must satisfy to be used at all.
  ghost predicate ValidBars(bars: seq<Bar>, metadata: Metadata) {
    && bars != []
    && metadata.interval.Some?
    && (forall b :: b in bars ==> InScope(b, metadata))
    && (forall i, j :: 0 <= i < j < |bars| ==> bars[i].observed <= bars[j].observed)
    && (forall i, j :: 0 <= i < j < |bars| ==> BarIdentity(bars[i]) != BarIdentity(bars[j]))
  }

  predicate InScope(b: Bar, metadata: Metadata) {
    && metadata.interval == Some(b.interval)
    && b.instrument in metadata.instruments
    && b.provenance.source == metadata.source
    && metadata.coverageStart <= b.observed <= metadata.coverageEnd
  }

  function BarIdentity(b: Bar): (string, int, int) {
    (b.instrument.identifier, b.interval, b.observed)
  }

  method ValidateBars(bars: seq<Bar>, metadata: Metadata) returns (r: Result<nat>)
    ensures r.Ok? <==> ValidBars(bars, metadata)
    ensures r.Ok? ==> r.value == |bars|
  {
    if metadata.interval.None? {
      return Err("dataset_interval");
    }
    for i := 0 to |bars|
      invariant forall k :: 0 <= k < i ==> metadata.interval == Some(bars[k].interval)
    {
      if metadata.interval != Some(bars[i].interval) {
        assert !InScope(bars[i], metadata);
        return Err("interval_consistency");
      }
    }
    if bars == [] {
      return Err("dataset_records");
    }
    var previous := None;
    var identities := {};
    for i := 0 to |bars|
      invariant previous == if i == 0 then None else Some(bars[i - 1].observed)
      invariant forall k :: 0 <= k < i ==> InScope(bars[k], metadata)
      invariant forall k, l :: 0 <= k < l < i ==> bars[k].observed <= bars[l].observed
      invariant forall k, l :: 0 <= k < l < i ==> BarIdentity(bars[k]) != BarIdentity(bars[l])
      invariant identities == set k | 0 <= k < i :: BarIdentity(bars[k])
    {
      var bar := bars[i];
      if previous.Some? && bar.observed < previous.value {
        assert bars[i - 1].observed > bars[i].observed;
        return Err("chronological_order");
      }
      previous := Some(bar.observed);
      if bar.instrument !in metadata.instruments {
        assert !InScope(bars[i], metadata);
        return Err("instrument_scope");
      }
      if bar.provenance.source != metadata.source {
        assert !InScope(bars[i], metadata);
        return Err("provenance_source");
      }
      if !(metadata.coverageStart <= bar.observed <= metadata.coverageEnd) {
        assert !InScope(bars[i], metadata);
        return Err("coverage");
      }
      var identity := BarIdentity(bar);
      if identity in identities {
        return Err("duplicate_observation");
      }
      identities := identities + {identity};
    }
    r := Ok(|bars|);
  }

  // Bars of one instrument arrive at strictly increasing observation times.
  lemma SameInstrumentIncreasing(bars: seq<Bar>, metadata: Metadata, i: nat, j: nat)
    requires ValidBars(bars, metadata)
    requires i < j < |bars| && bars[i].instrument == bars[j].instrument
    ensures bars[i].observed < bars[j].observed
  {
    assert InScope(bars[i], metadata) && InScope(bars[j], metadata);
    assert BarIdentity(bars[i]) != BarIdentity(bars[j]);
  }

  // A collection is accepted exactly when every bar is of the data set's interval, instruments,
  // source and coverage, observation times never fall, and those of one instrument always rise.
  lemma AcceptedExactly(bars: seq<Bar>, metadata: Metadata)
    ensures ValidBars(bars, metadata) <==>
            && bars != [] && metadata.interval.Some?
            && (forall b :: b in bars ==>
                  && b.interval == metadata.interval.value && b.instrument in metadata.instruments
                  && b.provenance.source == metadata.source
                  && metadata.coverageStart <= b.observed && b.observed <= metadata.coverageEnd)
            && (forall i, j :: 0 <= i < j < |bars| ==>
                  && bars[i].observed <= bars[j].observed
                  && (bars[i].instrument == bars[j].instrument ==> bars[i].observed < bars[j].observed))
  {
    if ValidBars(bars, metadata) {
      forall i, j | 0 <= i < j < |bars| && bars[i].instrument == bars[j].instrument
        ensures bars[i].observed < bars[j].observed
      {
        SameInstrumentIncreasing(bars, metadata, i, j);
      }
      assert forall b :: b in bars ==> InScope(b, metadata);
    }
  }
}

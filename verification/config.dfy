/** Threshold configuration: the module constants, the built-in crop profiles,
    the in-place merge of a profile into the caller's configuration, and the
    resolution of every threshold the analyses read. */
module Config {
  import opened Options

  // Fallback thresholds, used when neither the caller nor a profile sets a key.
  const WindSpeedThresholdMs: real := 2.8
  const PrecipitationProbThreshold: real := 0.1
  const FungalRiskHumidity: real := 80.0
  const FungalRiskTempMin: real := 18.0
  const FungalRiskTempMax: real := 26.0
  const MinWindowHours: real := 12.0
  const FrostTempThreshold: real := 2.0
  const HeatStressTempThreshold: real := 32.0
  const PlantingTempMin: real := 18.0
  const PlantingTempMax: real := 30.0
  const PlantingRainProbThreshold: real := 0.3
  const HarvestRainProbThreshold: real := 0.1
  const HarvestHumidityThreshold: real := 70.0
  const IrrigationNoRainThreshold: real := 0.05
  const IrrigationTempThreshold: real := 25.0
  const IrrigationMinHours: real := 24.0
  const GddBaseTemp: real := 10.0

  /** A profile is an ordered list of (key, value) items. */
  type ProfileItems = seq<(string, real)>

  /** The names of the thresholds, in the order the profiles list them. */
  const ThresholdKeys: seq<string> := [
    "wind_speed_threshold_ms", "precipitation_prob_threshold",
    "fungal_risk_humidity", "fungal_risk_temp_min", "fungal_risk_temp_max",
    "frost_temp_threshold", "heat_stress_temp_threshold",
    "planting_temp_min", "planting_temp_max", "planting_rain_prob_threshold",
    "harvest_rain_prob_threshold", "harvest_humidity_threshold",
    "irrigation_no_rain_threshold", "irrigation_temp_threshold", "irrigation_min_hours",
    "min_window_hours", "gdd_base_temp"]

  /** Builds a profile from its seventeen values, in ThresholdKeys order. */
  function Profile(wind: real, precip: real, fHum: real, fMin: real, fMax: real,
                   frost: real, heat: real, pMin: real, pMax: real, pRain: real,
                   hRain: real, hHum: real, iRain: real, iTemp: real, iHours: real,
                   minWindow: real, gddBase: real): (items: ProfileItems)
    ensures |items| == |ThresholdKeys|
    ensures forall i :: 0 <= i < |items| ==> items[i].0 == ThresholdKeys[i]
  {
    [("wind_speed_threshold_ms", wind), ("precipitation_prob_threshold", precip),
     ("fungal_risk_humidity", fHum), ("fungal_risk_temp_min", fMin), ("fungal_risk_temp_max", fMax),
     ("frost_temp_threshold", frost), ("heat_stress_temp_threshold", heat),
     ("planting_temp_min", pMin), ("planting_temp_max", pMax), ("planting_rain_prob_threshold", pRain),
     ("harvest_rain_prob_threshold", hRain), ("harvest_humidity_threshold", hHum),
     ("irrigation_no_rain_threshold", iRain), ("irrigation_temp_threshold", iTemp),
     ("irrigation_min_hours", iHours), ("min_window_hours", minWindow), ("gdd_base_temp", gddBase)]
  }

  /** The "default" profile: the fallback constants themselves. */
  const DefaultProfile: ProfileItems :=
    Profile(WindSpeedThresholdMs, PrecipitationProbThreshold,
            FungalRiskHumidity, FungalRiskTempMin, FungalRiskTempMax,
            FrostTempThreshold, HeatStressTempThreshold,
            PlantingTempMin, PlantingTempMax, PlantingRainProbThreshold,
            HarvestRainProbThreshold, HarvestHumidityThreshold,
            IrrigationNoRainThreshold, IrrigationTempThreshold, IrrigationMinHours,
            MinWindowHours, GddBaseTemp)

  /** The built-in crop profiles. */
  const CropProfiles: map<string, ProfileItems> := map[
    "default" := DefaultProfile,
    "soja" := Profile(3.5, 0.15, 75.0, 20.0, 28.0, 0.0, 30.0, 20.0, 32.0, 0.4,
                      0.05, 65.0, 0.1, 28.0, 36.0, 18.0, 10.0),
    "milho" := Profile(4.0, 0.2, 85.0, 22.0, 30.0, -1.0, 35.0, 16.0, 30.0, 0.3,
                       0.15, 75.0, 0.15, 26.0, 24.0, 12.0, 10.0),
    "algodao" := Profile(3.0, 0.1, 70.0, 25.0, 35.0, 5.0, 38.0, 20.0, 35.0, 0.2,
                         0.05, 60.0, 0.05, 30.0, 48.0, 12.0, 15.0),
    "arroz" := Profile(2.5, 0.3, 90.0, 20.0, 30.0, 0.0, 32.0, 20.0, 30.0, 0.5,
                       0.2, 80.0, 0.05, 25.0, 24.0, 12.0, 10.0)]

  /** The value of the first item with the given key, if any. */
  function Lookup(items: ProfileItems, key: string): (r: Option<real>)
    ensures r.Some? <==> exists i :: 0 <= i < |items| && items[i].0 == key
  {
    if items == [] then None
    else if items[0].0 == key then Some(items[0].1)
    else
      assert forall i :: 1 <= i < |items| ==> items[1..][i - 1] == items[i];
      Lookup(items[1..], key)
  }

  /** The keys a profile sets. */
  function ItemKeys(items: ProfileItems): (keys: set<string>)
    ensures forall key :: key in keys <==> Lookup(items, key).Some?
  {
    set i | 0 <= i < |items| :: items[i].0
  }

  /** Profile values fill every key that is absent or null; keys the caller set
      to a value keep it, and keys the profile does not name are untouched. */
  function Overlay(values: map<string, Option<real>>, items: ProfileItems): (r: map<string, Option<real>>)
    ensures r.Keys == values.Keys + ItemKeys(items)
  {
    map key | key in values.Keys + ItemKeys(items) ::
      if key !in values || values[key].None? then Lookup(items, key) else values[key]
  }

  /** The profile name selects one of the built-in profiles. */
  predicate KnownProfile(profile: Option<string>) {
    profile.Some? && profile.value in CropProfiles
  }

  /** The configuration after the crop profile has been merged into it. */
  function MergeProfile(values: map<string, Option<real>>, profile: Option<string>): map<string, Option<real>> {
    if KnownProfile(profile) then Overlay(values, CropProfiles[profile.value]) else values
  }

  /** The caller's configuration, which the analysis updates in place. */
  class AnalysisConfig {
    var values: map<string, Option<real>>
    var cropProfile: Option<string>

    constructor (values: map<string, Option<real>>, cropProfile: Option<string>)
      ensures this.values == values && this.cropProfile == cropProfile
    {
      this.values := values;
      this.cropProfile := cropProfile;
    }

    /** Writes the selected profile's values into every key that is absent or
        null; an unknown or missing profile name changes nothing. */
    method ApplyCropProfile()
      modifies this`values
      ensures values == MergeProfile(old(values), cropProfile)
    {
      if cropProfile.Some? && cropProfile.value != "" && cropProfile.value in CropProfiles {
        var items := CropProfiles[cropProfile.value];
        for i := 0 to |items|
          invariant values == Overlay(old(values), items[..i])
        {
          var (key, value) := items[i];
          OverlayStep(old(values), items, i);
          if key !in values || values[key].None? {
            values := values[key := Some(value)];
          }
        }
        assert items[..|items|] == items;
      }
    }
  }

  lemma LookupStep(items: ProfileItems, i: nat, key: string)
    requires i < |items|
    ensures Lookup(items[..i + 1], key) ==
            if Lookup(items[..i], key).Some? then Lookup(items[..i], key)
            else if items[i].0 == key then Some(items[i].1) else None
    decreases i
  {
    if i > 0 && items[0].0 != key {
      LookupStep(items[1..], i - 1, key);
      assert items[..i + 1][1..] == items[1..][..i];
      assert items[..i][1..] == items[1..][..i - 1];
    }
  }

  /** Overlaying one more item sets its key exactly when that key is absent or null. */
  lemma OverlayStep(values: map<string, Option<real>>, items: ProfileItems, i: nat)
    requires i < |items|
    ensures var before := Overlay(values, items[..i]);
            var (key, value) := items[i];
            Overlay(values, items[..i + 1]) ==
              if key !in before || before[key].None? then before[key := Some(value)] else before
  {
    var before := Overlay(values, items[..i]);
    var (key, value) := items[i];
    var expected := if key !in before || before[key].None? then before[key := Some(value)] else before;
    var after := Overlay(values, items[..i + 1]);
    forall k | k in after || k in expected
      ensures k in after && k in expected && after[k] == expected[k]
    {
      LookupStep(items, i, k);
    }
  }

  // ---------------------------------------------------------------------
  // Resolution of the thresholds.

  /** Every threshold the analyses read, after resolution. */
  datatype Thresholds = Thresholds(
    windSpeedMs: real, precipitationProb: real,
    fungalHumidity: real, fungalTempMin: real, fungalTempMax: real,
    minWindowHours: real, frostTemp: real, heatStressTemp: real,
    plantingTempMin: real, plantingTempMax: real, plantingRainProb: real,
    harvestRainProb: real, harvestHumidity: real,
    irrigationNoRain: real, irrigationTemp: real, irrigationMinHours: real,
    gddBaseTemp: real)

  /** No threshold key is left explicitly null. */
  predicate NoNullThresholds(values: map<string, Option<real>>) {
    forall key :: key in ThresholdKeys && key in values ==> values[key].Some?
  }

  /** The configured value of a key, or the fallback when the key is absent. */
  function Setting(values: map<string, Option<real>>, key: string, fallback: real): (r: real)
    requires key in values ==> values[key].Some?
    ensures key in values ==> r == values[key].value
    ensures key !in values ==> r == fallback
  {
    if key in values then values[key].value else fallback
  }

  function Resolve(values: map<string, Option<real>>): Thresholds
    requires NoNullThresholds(values)
  {
    Thresholds(
      Setting(values, "wind_speed_threshold_ms", WindSpeedThresholdMs),
      Setting(values, "precipitation_prob_threshold", PrecipitationProbThreshold),
      Setting(values, "fungal_risk_humidity", FungalRiskHumidity),
      Setting(values, "fungal_risk_temp_min", FungalRiskTempMin),
      Setting(values, "fungal_risk_temp_max", FungalRiskTempMax),
      Setting(values, "min_window_hours", MinWindowHours),
      Setting(values, "frost_temp_threshold", FrostTempThreshold),
      Setting(values, "heat_stress_temp_threshold", HeatStressTempThreshold),
      Setting(values, "planting_temp_min", PlantingTempMin),
      Setting(values, "planting_temp_max", PlantingTempMax),
      Setting(values, "planting_rain_prob_threshold", PlantingRainProbThreshold),
      Setting(values, "harvest_rain_prob_threshold", HarvestRainProbThreshold),
      Setting(values, "harvest_humidity_threshold", HarvestHumidityThreshold),
      Setting(values, "irrigation_no_rain_threshold", IrrigationNoRainThreshold),
      Setting(values, "irrigation_temp_threshold", IrrigationTempThreshold),
      Setting(values, "irrigation_min_hours", IrrigationMinHours),
      Setting(values, "gdd_base_temp", GddBaseTemp))
  }

  // ---------------------------------------------------------------------
  // Properties of the merge and the resolution.

  /** Every built-in profile sets every threshold key. */
  lemma ProfilesComplete(name: string, key: string)
    requires name in CropProfiles && key in ThresholdKeys
    ensures Lookup(CropProfiles[name], key).Some?
  {
    var items := CropProfiles[name];
    assert |items| == |ThresholdKeys| && forall j :: 0 <= j < |items| ==> items[j].0 == ThresholdKeys[j];
    var i :| 0 <= i < |ThresholdKeys| && ThresholdKeys[i] == key;
    assert items[i].0 == key;
  }

  /** Precedence for one key: a non-null caller value, then the selected
      profile's value, then the fallback constant. */
  lemma ResolutionPrecedence(values: map<string, Option<real>>, profile: Option<string>,
                             key: string, fallback: real)
    requires key in ThresholdKeys
    requires key in values && values[key].None? ==> KnownProfile(profile)
    ensures var merged := MergeProfile(values, profile);
            (key in merged ==> merged[key].Some?) &&
            Setting(merged, key, fallback) ==
              if key in values && values[key].Some? then values[key].value
              else if KnownProfile(profile) then Lookup(CropProfiles[profile.value], key).value
              else fallback
  {
    if KnownProfile(profile) {
      ProfilesComplete(profile.value, key);
    }
  }

  /** With a known profile no threshold stays null, whatever the caller sent. */
  lemma KnownProfileFillsAll(values: map<string, Option<real>>, profile: Option<string>)
    requires KnownProfile(profile)
    ensures NoNullThresholds(MergeProfile(values, profile))
  {
    forall key | key in ThresholdKeys && key in MergeProfile(values, profile)
      ensures MergeProfile(values, profile)[key].Some?
    {
      ProfilesComplete(profile.value, key);
    }
  }

  /** Keys outside the profile, and keys the caller set to a value, are never
      changed by the merge. */
  lemma MergeKeepsCallerValues(values: map<string, Option<real>>, profile: Option<string>, key: string)
    requires key in values && (values[key].Some? || !KnownProfile(profile))
    ensures key in MergeProfile(values, profile)
    ensures MergeProfile(values, profile)[key] == values[key]
  {
  }


  /** No threshold key is listed twice. */
  lemma ThresholdKeysDistinct()
    ensures forall i, j :: 0 <= i < j < |ThresholdKeys| ==> ThresholdKeys[i] != ThresholdKeys[j]
  {
  }

  /** Looking up the key of an item finds that item when no earlier item has the key. */
  lemma {:induction false} LookupFirst(items: ProfileItems, i: nat)
    requires i < |items|
    requires forall j :: 0 <= j < i ==> items[j].0 != items[i].0
    ensures Lookup(items, items[i].0) == Some(items[i].1)
  {
    if i > 0 {
      LookupFirst(items[1..], i - 1);
    }
  }

  /** After the "default" profile is merged in, each threshold key holds the
      caller's value when the caller set one, and the profile's value otherwise. */
  lemma DefaultSetting(values: map<string, Option<real>>, i: nat)
    requires i < |ThresholdKeys|
    ensures ThresholdKeys[i] in MergeProfile(values, Some("default"))
    ensures MergeProfile(values, Some("default"))[ThresholdKeys[i]] ==
            if ThresholdKeys[i] in values && values[ThresholdKeys[i]].Some? then values[ThresholdKeys[i]]
            else Some(DefaultProfile[i].1)
  {
    assert CropProfiles["default"] == DefaultProfile;
    ThresholdKeysDistinct();
    LookupFirst(DefaultProfile, i);
  }

  /** The threshold under key i, with the "default" profile's value, which
      is the key's fallback constant, as fallback. */
  function ResolveKey(values: map<string, Option<real>>, i: nat): real
    requires NoNullThresholds(values) && i < |ThresholdKeys|
  {
    Setting(values, ThresholdKeys[i], DefaultProfile[i].1)
  }

  /** Resolution, one threshold key at a time. */
  lemma ResolveByKey(values: map<string, Option<real>>)
    requires NoNullThresholds(values)
    ensures Resolve(values) ==
      Thresholds(ResolveKey(values, 0), ResolveKey(values, 1), ResolveKey(values, 2),
                 ResolveKey(values, 3), ResolveKey(values, 4), ResolveKey(values, 15),
                 ResolveKey(values, 5), ResolveKey(values, 6), ResolveKey(values, 7),
                 ResolveKey(values, 8), ResolveKey(values, 9), ResolveKey(values, 10),
                 ResolveKey(values, 11), ResolveKey(values, 12), ResolveKey(values, 13),
                 ResolveKey(values, 14), ResolveKey(values, 16))
  {
  }

  /** The "default" profile holds exactly the fallback constants, so merging
      it into any configuration without null thresholds changes no resolved
      threshold. */
  lemma DefaultProfileMatchesConstants(values: map<string, Option<real>>)
    requires NoNullThresholds(values)
    ensures NoNullThresholds(MergeProfile(values, Some("default")))
    ensures Resolve(MergeProfile(values, Some("default"))) == Resolve(values)
  {
    KnownProfileFillsAll(values, Some("default"));
    var merged := MergeProfile(values, Some("default"));
    forall i | 0 <= i < |ThresholdKeys|
      ensures ResolveKey(merged, i) == ResolveKey(values, i)
    {
      DefaultSetting(values, i);
    }
    ResolveByKey(values);
    ResolveByKey(merged);
  }
}

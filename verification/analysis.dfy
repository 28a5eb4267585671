/** The insight report: one pass of every analysis over the same forecast,
    with thresholds resolved from the caller's configuration after the
    selected crop profile has been merged into it. */
module Analysis {
  import opened Options
  import opened Weather
  import opened Config
  import opened Spraying
  import opened Fungal
  import opened TemperatureRisk
  import opened Planting
  import opened Harvesting
  import opened Irrigation
  import opened Gdd

  /** The eight insight records of a report. */
  datatype Insights = Insights(
    spraying: SprayingAlert,
    fungalRisk: FungalAlert,
    frost: FrostAlert,
    heatStress: HeatStressAlert,
    planting: PlantingAlert,
    harvesting: HarvestAlert,
    irrigation: IrrigationAlert,
    gdd: GddResult)

  datatype AnalysisResult = Report(insights: Insights) | StructuralError

  /** What the analyses need of the resolved thresholds and the data: no
      threshold left null, positive minimum windows, a scorable fungal band,
      and a maximum and a minimum for every historical date. */
  ghost predicate Analyzable(ps: seq<Period>, values: map<string, Option<real>>, daily: Option<DailySeries>) {
    && NoNullThresholds(values)
    && Resolve(values).minWindowHours > 0.0
    && Resolve(values).irrigationMinHours > 0.0
    && Scorable(ps, Resolve(values).fungalHumidity, Resolve(values).fungalTempMin, Resolve(values).fungalTempMax)
    && Aligned(daily)
  }

  /** Every analysis of the forecast under the resolved thresholds `t`. */
  function InsightsFor(ps: seq<Period>, t: Thresholds, daily: Option<DailySeries>): (ins: Insights)
    requires t.minWindowHours > 0.0 && t.irrigationMinHours > 0.0
    requires Scorable(ps, t.fungalHumidity, t.fungalTempMin, t.fungalTempMax) && Aligned(daily)
    ensures ins.spraying == SprayingOutcome(ps, t.windSpeedMs, t.precipitationProb, t.minWindowHours)
    ensures ins.fungalRisk == FungalOutcome(ps, t.fungalHumidity, t.fungalTempMin, t.fungalTempMax)
    ensures ins.frost == FrostOutcome(ps, t.frostTemp)
    ensures ins.heatStress == HeatStressOutcome(ps, t.heatStressTemp)
    ensures ins.planting == PlantingOutcome(ps, t.plantingTempMin, t.plantingTempMax, t.plantingRainProb)
    ensures ins.harvesting == HarvestOutcome(ps, t.harvestRainProb, t.harvestHumidity, t.minWindowHours)
    ensures ins.irrigation == IrrigationOutcome(ps, t.irrigationNoRain, t.irrigationTemp, t.irrigationMinHours)
    ensures ins.gdd == GddOutcome(daily, t.gddBaseTemp)
  {
    Insights(
      SprayingOutcome(ps, t.windSpeedMs, t.precipitationProb, t.minWindowHours),
      FungalOutcome(ps, t.fungalHumidity, t.fungalTempMin, t.fungalTempMax),
      FrostOutcome(ps, t.frostTemp),
      HeatStressOutcome(ps, t.heatStressTemp),
      PlantingOutcome(ps, t.plantingTempMin, t.plantingTempMax, t.plantingRainProb),
      HarvestOutcome(ps, t.harvestRainProb, t.harvestHumidity, t.minWindowHours),
      IrrigationOutcome(ps, t.irrigationNoRain, t.irrigationTemp, t.irrigationMinHours),
      GddOutcome(daily, t.gddBaseTemp))
  }

  /** Rejects a forecast without a period list; otherwise merges the crop
      profile into the configuration, resolves the thresholds and runs every
      analysis. */
  method AnalyzeForecast(forecast: ForecastData, daily: Option<DailySeries>, config: AnalysisConfig)
    returns (r: AnalysisResult)
    requires forecast.list.Some? ==>
               Analyzable(forecast.list.value, MergeProfile(config.values, config.cropProfile), daily)
    modifies config`values
    ensures forecast.list.None? ==> r == StructuralError && config.values == old(config.values)
    ensures forecast.list.Some? ==>
              config.values == MergeProfile(old(config.values), config.cropProfile) &&
              r == Report(InsightsFor(forecast.list.value, Resolve(config.values), daily))
  {
    if forecast.list.None? {
      return StructuralError;
    }
    var forecastList := forecast.list.value;
    config.ApplyCropProfile();
    var t := Resolve(config.values);
    var sprayingWindow := FindSprayingWindow(forecastList, t.windSpeedMs, t.precipitationProb, t.minWindowHours);
    var fungalRisk := FindFungalRisk(forecastList, t.fungalHumidity, t.fungalTempMin, t.fungalTempMax,
                                     t.minWindowHours);
    var frostAlert := FindFrostRisk(forecastList, t.frostTemp);
    var heatStressAlert := FindHeatStressRisk(forecastList, t.heatStressTemp);
    var plantingWindowAlert := FindPlantingWindow(forecastList, t.plantingTempMin, t.plantingTempMax,
                                                  t.plantingRainProb);
    var harvestingWindowAlert := FindHarvestingWindow(forecastList, t.harvestRainProb, t.harvestHumidity,
                                                      t.minWindowHours);
    var irrigationRecommendation := FindIrrigationRecommendation(forecastList, t.irrigationNoRain,
                                                                 t.irrigationTemp, t.irrigationMinHours);
    var gddInsight := CalculateGdd(daily, t.gddBaseTemp);
    r := Report(Insights(sprayingWindow, fungalRisk, frostAlert, heatStressAlert, plantingWindowAlert,
                         harvestingWindowAlert, irrigationRecommendation, gddInsight));
  }

  /** With no crop profile and no thresholds set, every analysis runs on the
      fallback constants. */
  lemma EmptyConfigurationUsesConstants()
    ensures NoNullThresholds(MergeProfile(map[], None))
    ensures Resolve(MergeProfile(map[], None)) ==
            Thresholds(WindSpeedThresholdMs, PrecipitationProbThreshold,
                       FungalRiskHumidity, FungalRiskTempMin, FungalRiskTempMax,
                       MinWindowHours, FrostTempThreshold, HeatStressTempThreshold,
                       PlantingTempMin, PlantingTempMax, PlantingRainProbThreshold,
                       HarvestRainProbThreshold, HarvestHumidityThreshold,
                       IrrigationNoRainThreshold, IrrigationTempThreshold, IrrigationMinHours,
                       GddBaseTemp)
  {
  }

  /** Choosing the "default" profile gives the same report as choosing none,
      whatever thresholds the caller set. */
  lemma DefaultProfileGivesSameReport(ps: seq<Period>, values: map<string, Option<real>>,
                                      daily: Option<DailySeries>)
    requires Analyzable(ps, MergeProfile(values, None), daily)
    ensures Analyzable(ps, MergeProfile(values, Some("default")), daily)
    ensures InsightsFor(ps, Resolve(MergeProfile(values, Some("default"))), daily) ==
            InsightsFor(ps, Resolve(MergeProfile(values, None)), daily)
  {
    DefaultProfileMatchesConstants(values);
  }
}

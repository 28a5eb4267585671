# Demeter forecast analysis engine, modelled in Dafny

The model covers the analysis engine of the Demeter agronomic-insight service.
The engine takes a 5-day forecast of 3-hour periods, an optional daily
historical temperature series and a caller configuration. From them it computes
eight insight records:

- the first spraying window;
- a fungal-disease risk score and level;
- frost and heat-stress alerts;
- planting periods;
- harvesting windows;
- irrigation runs;
- accumulated growing-degree-days (GDD).

Before the analyses run, the engine merges the selected crop profile into the
caller's configuration, in place. It then resolves every threshold as the
configured value or else a built-in constant.

Every analysis is a scan over the periods. In the model each scan is a `method`
with a loop, and each is proved equal to a declarative definition of its result
(`…Outcome`). The properties the alerts promise are proved about those
definitions.

Modules, in dependency order:

- `Options`: the optional value used for absent keys and null settings.
- `Weather`: a forecast period.
  - Its precipitation probability, which defaults to 0 when absent.
  - The "is raining" test: some condition code below 600.
- `Runs`: maximal runs of consecutive good periods and the ones that reach a
  minimum duration of 3 hours per period (`QualifyingRuns`).
  - `Scan` is the left-to-right state of the window scanners: closed windows
    plus the current run.
  - The lemmas relating the two.
- `Selection`: the indices a flag sequence selects, and the records at those indices.
- `Config`: the threshold constants and the five crop profiles.
  - `AnalysisConfig`, whose `ApplyCropProfile` merges a profile into the
    configuration map in place.
  - The resolution of the seventeen thresholds.
- `Spraying`, `Fungal`, `TemperatureRisk` (frost, heat stress), `Planting`,
  `Harvesting`, `Irrigation`, `Gdd`: one module per analysis.
- `Analysis`: `AnalyzeForecast`, which runs the whole pass.

Three scans are split in two: a loop method and a report method. The loop
methods are `FirstSprayWindow`, `CollectHarvestWindows` and `CollectDryHotRuns`.
Each computes the window list the source builds in its `for` loop. The report
method then turns that list into the alert. The inner look-ahead loop of the
planting scan is the method `MoistureAhead`.

Points of the source worth knowing:

- The planting look-ahead disagrees with its comment. The comment at
  app/logic.py:341 promises rain "in the current period or the next 2 periods",
  which is periods i, i + 1 and i + 2. The code at app/logic.py:343 is
  `range(i, min(i + 2, n))`, which reads only periods i and i + 1. The model
  follows the code (`Planting.MoistureAhead`, `Planting.LookAheadEnd`).
  `Planting.LastPeriodLooksAtItself` and `Planting.IdealEntriesAreIdeal` state
  what the code does.
- The frost comparison is `<=`, so a period whose minimum is exactly the
  threshold counts. Minimum temperatures 3, 1, 2 and -1 against a threshold of 2
  give three frost periods (`TemperatureRisk.FrostThresholdIsInclusive`).
- The fungal details text says humidity "> threshold". The code counts a period
  whose humidity is equal to the threshold (`>=`), and so does the model.
- The fungal score is normalised by 140 (40 periods at 3.5 points). A favourable
  period scores at most 4.5 points (`Fungal.PeriodScoreBounds`), so 140 is below
  the highest score 40 periods can reach. The `min(100, …)` cap
  (`Fungal.Normalize`) absorbs the difference.
- The report holds no satellite record. `analyze_forecast` builds none, and
  no code in the repository adds one: app/main.py:42-47 returns its result
  unchanged. No satellite analysis is modelled.

## Model

| member | source | states |
|---|---|---|
| Config.Profile | app/logic.py:25-121 | every built-in profile lists exactly the seventeen threshold keys, in one fixed order |
| Config.Lookup | app/logic.py:141-144 | a profile yields a value for a key exactly when one of its items carries that key |
| Config.Overlay | app/logic.py:141-144 | after the merge the configuration holds the caller's keys plus the profile's keys |
| Config.AnalysisConfig.ApplyCropProfile | app/logic.py:136-144 | the configuration map afterwards is the profile overlaid on the old map: a key that was absent or null gets the profile value, all others keep theirs; an unknown or missing profile name changes nothing |
| Config.ProfilesComplete | app/logic.py:25-121 | every built-in profile sets every threshold key |
| Config.ResolutionPrecedence | app/logic.py:136-163 | for each key, the value `Setting` resolves from the merged map (`Resolve` applies it to all seventeen keys) is a non-null caller value if there is one, else the selected profile's value, else the module constant |
| Config.KnownProfileFillsAll | app/logic.py:138-144 | with a known profile no threshold key stays null after the merge |
| Config.MergeKeepsCallerValues | app/logic.py:141-144 | a value the caller set is never overwritten, and nothing changes without a known profile |
| Config.ThresholdKeysDistinct | app/logic.py:26-44 | no threshold key is listed twice in a profile |
| Config.DefaultProfileMatchesConstants | app/logic.py:26-44 | the "default" profile holds exactly the fallback constants, so merging it into any configuration without null thresholds leaves none null and changes no resolved threshold (`Resolve`) |
| Runs.QualifyingRunsExact | app/logic.py:373-394 | the qualifying runs are in order and disjoint; a span is listed exactly when it is a maximal run of good periods whose 3 hours per period reach the minimum |
| Runs.FirstQualifyingIsEarliest | app/logic.py:189-199 | the first qualifying run starts no later than any maximal run that is long enough |
| Runs.ScanTracksRuns | app/logic.py:373-391 | after i periods the scan's current run is [start, i) of good periods, its closed windows are the records of spans `done`, and `done` followed by the qualifying runs from `start` on are all the qualifying runs |
| Runs.ScanFindsQualifyingRuns | app/logic.py:373-394 | a complete scan that also closes its last run at the end yields the records of exactly the qualifying runs, in order |
| Runs.TotalSizeOfPieces | app/logic.py:405 | the periods in the windows add up to the total length of the runs |
| Spraying.MpsToKmhPreservesOrder | app/logic.py:123-125 | the m/s to km/h conversion can be undone by dividing by 3.6, and it keeps the order and equality of speeds |
| Spraying.FirstSprayWindow | app/logic.py:186-204 | the scan returns the periods of the earliest qualifying run, or nothing |
| Spraying.FirstRunFound | app/logic.py:196-204 | when the scan stops, on a break or at the end of the forecast, its run is the earliest qualifying run, or none if it is too short |
| Spraying.FindSprayingWindow | app/logic.py:184-224 | the alert is built from that window: none when the window is shorter than the minimum, otherwise its hours, its start, 3 hours after its last start, and its mean wind in km/h |
| Spraying.SprayWindowIsRun | app/logic.py:189-204 | a reported window is the periods of a maximal run of good periods that is long enough |
| Spraying.SprayWindowIsEarliest | app/logic.py:197-199 | whenever some maximal good run is long enough, a window is found and it starts no later than that run |
| Spraying.SprayWindowFoundIff | app/logic.py:203-207 | the window is non-empty exactly when some maximal good run is long enough, and then it reaches the minimum |
| Spraying.SprayingFoundIff | app/logic.py:189-219 | a window is reported exactly when some maximal run of good periods is long enough; good (`SprayFlags`) means wind below the limit, rain probability (`RainProb`: `pop`, or 0 when absent) below the limit, and no condition code below 600 (`IsRaining`) |
| Spraying.SprayingReportDescribesRun | app/logic.py:206-216 | the report's hours, start, end and mean wind are those of the run ps[s..e) |
| Spraying.SprayWindowAllGood | app/logic.py:190-195 | every period of the window has wind below the limit, a rain probability (`RainProb`) below the limit and no condition code below 600 |
| Spraying.SprayingWindBelowLimit | app/logic.py:216 | the reported mean wind is below the wind limit converted to km/h by `MpsToKmh` |
| Fungal.RiskHours | app/logic.py:240-241 | risk hours are non-negative, a multiple of 3 and at most 3 per period |
| Fungal.Normalize | app/logic.py:257-258 | the normalised score is score/140·100 when that is below 100 and exactly 100 otherwise, so never above 100 and non-negative for a non-negative score |
| Fungal.FindFungalRisk | app/logic.py:227-280 | the alert's hours, normalised score and level are those of the accumulated risk over all periods |
| Fungal.TempFactorBounds | app/logic.py:245-246 | inside the band the temperature factor is in [0, 1], 1 exactly at the midpoint and 0 at the edges |
| Fungal.TempFactorPeaksAtMidpoint | app/logic.py:245-246 | a temperature closer to the midpoint never gets a smaller factor |
| Fungal.HumidityFactorBounds | app/logic.py:249 | the humidity factor is 0 at the threshold and 1 at 100%, lies in [0, 1] between them, and grows with humidity |
| Fungal.PeriodScoreBounds | app/logic.py:240-253 | a favourable period scores between 1.5 and 4.5 points |
| Fungal.RiskScoreBounds | app/logic.py:236-253 | the raw score `RiskScore` accumulated over the periods earns between 0.5 and 1.5 points per risk hour |
| Fungal.NoFavourablePeriodIsLow | app/logic.py:236-272 | without favourable periods there are no risk hours, the score is zero and the level is low |
| Fungal.NormalizeMonotone | app/logic.py:257-258 | normalisation keeps scores in [0, 100] and preserves their order |
| Fungal.LevelMonotone | app/logic.py:260-272 | under the level bands of `LevelOf` (25, 50, 75), a higher normalised score never gives a lower level |
| Fungal.LevelNeedsRiskHours | app/logic.py:240-272 | each level above low needs 24 more risk hours: moderate 24, high 48, severe 72 |
| Fungal.RiskHoursForceLevel | app/logic.py:240-272 | 70 risk hours force at least moderate, 140 at least high, 210 severe |
| TemperatureRisk.FindFrostRisk | app/logic.py:282-304 | the alert lists the frost periods in order and reports the first one's minimum and start |
| TemperatureRisk.FrostFoundIff | app/logic.py:285-304 | frost is reported exactly when some period's minimum is at or below the threshold (`FrostFlags`) |
| TemperatureRisk.FrostDetailsExact | app/logic.py:285-291 | the listed entries are the start and minimum temperature (`FrostRecords`) of exactly the frost periods, each once, in forecast order |
| TemperatureRisk.FrostFirstIsEarliest | app/logic.py:298-303 | the reported frost is the earliest frost period |
| TemperatureRisk.FrostThresholdIsInclusive | app/logic.py:287 | minima 3, 1, 2, -1 against 2 list three periods, the one at exactly 2 among them |
| TemperatureRisk.FindHeatStressRisk | app/logic.py:306-328 | the alert lists the hot periods in order and reports the first one's maximum and start |
| TemperatureRisk.HeatStressFoundIff | app/logic.py:309-328 | heat stress is reported exactly when some period's maximum is at or above the threshold (`HeatFlags`) |
| TemperatureRisk.HeatDetailsExact | app/logic.py:309-315 | the listed entries are the start and maximum temperature (`HeatRecords`) of exactly the hot periods, each once, in forecast order |
| TemperatureRisk.HeatFirstIsEarliest | app/logic.py:322-327 | the reported heat stress is the earliest hot period |
| Planting.MoistureAhead | app/logic.py:342-346 | the inner loop finds a wet period in the look-ahead exactly when there is one |
| Planting.FindPlantingWindow | app/logic.py:330-366 | the alert lists the ideal periods in order and reports the first one's start |
| Planting.PlantingFoundIff | app/logic.py:334-366 | a window is reported exactly when some period's temperature is in the band and it, or the period right after it, is wet: rain probability at the limit or a condition code below 600 (`PlantingFlags`) |
| Planting.IdealPeriodsExact | app/logic.py:333-353 | the listed entries are the start, temperature and rain probability (`PlantingRecords`) of exactly the ideal periods, each once, in forecast order |
| Planting.IdealEntriesAreIdeal | app/logic.py:339-353 | each listed entry is a period in the band that is wet or followed by a wet period |
| Planting.DryForecastHasNoPlantingWindow | app/logic.py:342-348 | without a wet period no window is found, however mild the temperatures |
| Planting.LastPeriodLooksAtItself | app/logic.py:343 | the look-ahead of the last period (`LookAheadEnd`) covers that period alone, so it is ideal exactly when it is in the band and itself wet |
| Harvesting.HarvestWindowsNonEmpty | app/logic.py:404 | no listed window is empty, so the first one has a first period |
| Harvesting.CollectHarvestWindows | app/logic.py:370-394 | the scan collects the records of exactly the qualifying runs, in order |
| Harvesting.FindHarvestingWindow | app/logic.py:368-410 | the alert lists those windows and reports the first one's start and 3 hours per listed period |
| Harvesting.HarvestFoundIff | app/logic.py:374-410 | a window is reported exactly when some maximal run of good periods is long enough; good (`HarvestFlags`) means rain probability below the limit, no condition code below 600 and humidity below the limit |
| Harvesting.HarvestWindowIsRun | app/logic.py:373-394 | the q-th window is the start, temperature, humidity and wind (`HarvestRecords`) of the periods of a maximal good run that is long enough, and it ends before the next one starts |
| Harvesting.HarvestRunIsListed | app/logic.py:373-394 | every maximal good run that is long enough is listed |
| Harvesting.HarvestTotalHours | app/logic.py:405 | the total is 3 hours per listed period, at least the minimum window and at most the whole forecast |
| Harvesting.HarvestFirstIsEarliest | app/logic.py:404 | whenever some maximal good run is long enough, a window is reported, and its first time is the start of a long-enough maximal good run that starts no later |
| Irrigation.IrrigationWindowsNonEmpty | app/logic.py:483 | no listed run is empty, so the first one has a first period |
| Irrigation.CollectDryHotRuns | app/logic.py:454-475 | the scan collects the records of exactly the qualifying dry, hot runs, in order |
| Irrigation.FindIrrigationRecommendation | app/logic.py:452-489 | the recommendation lists those runs and reports the first one's start and 3 hours per listed period |
| Irrigation.IrrigationFoundIff | app/logic.py:458-489 | irrigation is recommended exactly when some maximal run of dry, hot periods is long enough; dry and hot (`IrrigationFlags`) means rain probability below the limit, no condition code below 600 and temperature at or above the limit |
| Irrigation.IrrigationWindowIsRun | app/logic.py:457-475 | the q-th run listed is the start, temperature and rain probability (`IrrigationRecords`) of the periods of a maximal dry, hot run that is long enough, and it ends before the next one starts |
| Irrigation.IrrigationRunIsListed | app/logic.py:457-475 | every maximal dry, hot run that is long enough is listed |
| Irrigation.IrrigationTotalHours | app/logic.py:484 | the total is 3 hours per listed period, at least the minimum and at most the whole forecast |
| Irrigation.IrrigationFirstIsEarliest | app/logic.py:483 | whenever some maximal dry, hot run is long enough, irrigation is recommended, and its first time is the start of a long-enough maximal dry, hot run that starts no later |
| Irrigation.RainyForecastNeedsNoIrrigation | app/logic.py:463 | when every period's rain probability reaches the limit, no irrigation is recommended |
| Gdd.DailyGdd | app/logic.py:432-433 | a day's degree-days are never negative; they are positive exactly when the day's mean exceeds the base, and then equal the excess |
| Gdd.CalculateGdd | app/logic.py:412-448 | an incomplete record gives insufficient data; otherwise the total and the details over all dates, or "none accumulated" with the day count and base when the total is not positive |
| Gdd.GddSumNonNegative | app/logic.py:433-434 | the accumulated total is never negative |
| Gdd.GddSumPositiveIff | app/logic.py:434-437 | the total is positive exactly when some day's mean exceeds the base |
| Gdd.GddSumAntitone | app/logic.py:433-434 | a higher base never accumulates more degree-days |
| Gdd.GddCalculatedIff | app/logic.py:414-448 | insufficient data exactly when a series is missing; degree-days are reported exactly when some day's mean exceeds the base; otherwise the day count and the base are reported |
| Gdd.GddDetailsSumToTotal | app/logic.py:427-442 | the reported total is positive, the details (`GddDetails`) hold one entry per date, and their values add up to the total |
| Gdd.DailyGddExamples | app/logic.py:432-433 | 30 and 20 against base 10 give 15 degree-days; 10 and 5 give 0 |
| Analysis.AnalyzeForecast | app/logic.py:127-182 | a forecast without a period list gives a structural error and leaves the configuration alone; otherwise the configuration becomes the profile merge and each of the eight records of the report (`InsightsFor`) is that analysis's outcome under the resolved thresholds |
| Analysis.EmptyConfigurationUsesConstants | app/logic.py:147-163 | with no profile and no settings, `Resolve` gives all seventeen thresholds their module constants |
| Analysis.DefaultProfileGivesSameReport | app/logic.py:136-182 | for any caller configuration, choosing the "default" profile gives the same report as choosing none |

## Left out

- Date formatting: the model carries the Unix start time of a period, not the
  `%d/%m %H:%M` text. The human-readable `message` strings and the fungal
  `details` text are also left out. The alerts carry the values those strings
  are built from.
- Fungal.FindFungalRisk: the reported score is the unrounded normalised score.
  The source rounds it to two decimals for display.
- Floating point: temperatures, probabilities and scores are exact reals, not
  IEEE doubles.
- Spraying.FindSprayingWindow, Harvesting.FindHarvestingWindow and
  Irrigation.FindIrrigationRecommendation require a positive minimum duration.
  With a minimum of 0 or less, the source keeps empty windows, or with
  `ideal_periods[0][0]` raises on an empty first window. The model does not
  cover those inputs.
- Analysis.AnalyzeForecast requires every threshold to be non-null after the
  profile merge. A null threshold can make the source raise a type error. A
  null `min_window_hours` always does, at the comparison of app/logic.py:203,
  and so does a null fungal band, at the midpoint of app/logic.py:233. A null
  per-period threshold raises only when a period reaches its comparison, so
  with an empty period list the source returns a report. The model does not
  cover any null threshold.
- Analysis.AnalyzeForecast requires the fungal band to be scorable: when some
  period is favourable, the band is wider than a point and the humidity
  threshold is below 100. Otherwise the source divides by zero.
- Gdd.CalculateGdd requires each present series to have a maximum and a minimum
  for every date. A shorter array makes the source raise an index error, and
  null entries in the arrays are not modelled.
- The historical record is a single optional `daily` series. "No record" and
  "no `daily` key" are both `None`.
- The minimum window parameter of the fungal analysis is accepted and unused, as
  in the source.
- Fetching forecast, historical and satellite data, the job queue and the HTTP
  layer are not part of this model. The call at app/main.py:42 passes two
  arguments to `analyze_forecast`, which declares three; the model follows the
  declaration at app/logic.py:127.
- The response schemas of `app/schemas.py` are not part of this model. The
  alert datatypes keep only the fields the engine computes.

# ha interference model in Dafny

A model of the interference and SNR tracking engine of the ns-3 `ha` module
(`src/ha/model/ha-interference-model.cc` and `.h`). The engine has three parts:

- `HaInterferenceModel` keeps:
  - the aggregate power spectrum of everything in the air (`m_allSignals`);
  - the noise floor;
  - a map from each tracked PPDU to its entry.

  It adds and subtracts signals in place. After every change it updates each
  live entry once.
- `HaInterferenceEntry` computes a PPDU's instantaneous SNR, own ÷ (aggregate − own),
  and pushes that sample into the PPDU's status.
- `HaInterferenceStatus` keeps the running minimum, maximum and time-weighted mean
  SNR. It updates them lazily with a discrete sum.

The project has five modules:

- `Spectrum` (`spectrum.dfy`) models spectra as one `real` per band. It has:
  - the elementwise `+=`/`-=`;
  - the converter between band partitions;
  - the per-band SNR;
  - the invariant that the aggregate is the noise plus every signal in the air.
- `SnrStatistics` (`snr_statistics.dfy`) models the status as a value. It has:
  - `Push` (one `UpdateNewSnr`) and `CatchUp` (what a getter does first);
  - `Replay` of a sample history;
  - the closed forms of the header's formula: the integral `Area`, `ClosedFormMean`, and the extremes `MinSnrOf`/`MaxSnrOf`.

  The lemmas prove that the incremental status equals the closed form after every update.
- `HaInterference` (`interference_model.dfy`) holds the three classes:
  - They keep the source's fields and update them in place.
  - The aggregate is an `array<real>`, shared by the model and every entry; entries only read it.
  - Every status keeps a ghost `history` of its samples, and `Valid()` ties its fields to `Replay(history)`.
  - The model keeps a ghost list `inAir` of the signals added and not yet removed. Its invariant says the aggregate is the noise plus those signals, band by band.
- `MeanOracle` (`mean_oracle.dfy`) models the reference loop of `src/ha/examples/test.py`. It is proved equal to the status recurrence.
- `Scenarios` (`scenarios.dfy`) drives both test cases of `src/ha/test/interference-model.cc` event by event. It proves that the model produces the statistics the tests expect.

The simulator clock is the parameter `now` of every operation. `AddSignal` and
`AddPpdu` return the actions they schedule as `Event` values, in the order they
scheduled them. Whoever drives the model runs each action at its time, and runs
actions due at the same time in that order.

The order matters at the end of a PPDU. The removal of its power is scheduled
(`ha-interference-model.cc:140`) before its finish (`:121`). So the last sample
`FinishCalculation` pushes is taken after the PPDU's own power has left the
aggregate: own ÷ (others − own), which is negative once others < own. The status
stays usable through the pointer `AddPpdu` returned, and its getters keep
integrating that last sample. In the second test, a read at 16 gives minimum
−10/9 and mean 184/27 (`Scenarios.AddOneHaPpduAndAnotherSignal`).

## Model

| member | source | states |
|---|---|---|
| `Spectrum.Zeros` | src/ha/model/ha-interference-model.cc:98-102 | a freshly created spectrum has one zero per band |
| `Spectrum.Plus` | src/ha/model/ha-interference-model.cc:173 | `+=` adds band by band and keeps the length |
| `Spectrum.Minus` | src/ha/model/ha-interference-model.cc:184 | `-=` subtracts band by band and keeps the length |
| `Spectrum.MinusPlus` | src/ha/model/ha-interference-model.cc:126-141 | subtracting a signal that was just added restores the aggregate exactly |
| `Spectrum.Convert` | src/ha/model/ha-interference-model.cc:163-168 | conversion between equal partitions is the identity; otherwise the result has one value per target band |
| `Spectrum.ConvertPlus` | src/ha/model/ha-interference-model.cc:163-168 | converting a sum of spectra is the sum of their conversions |
| `Spectrum.SnrSpectrum` | src/ha/model/ha-interference-model.cc:231 | band b of the SNR spectrum is own[b] ÷ (aggregate[b] − own[b]) |
| `Spectrum.SnrSpectrumOfSum` | src/ha/model/ha-interference-model.cc:231 | when the aggregate is own + others, each band's SNR is own ÷ others |
| `Spectrum.InstantSnrSinglePartition` | src/ha/model/ha-interference-model.cc:228-238 | with the signal in the main one-band partition, CalculateSnrNow is own power over the power of everything else |
| `Spectrum.InstantSnrSameModel` | src/ha/model/ha-interference-model.cc:228-238 | when the signal's own partition is the main one, the conversion back is the identity and the SNR is own ÷ (aggregate − own) in the one band |
| `Spectrum.BandSumRemove` | src/ha/model/ha-interference-model.cc:181-190 | taking one signal out of the list in the air takes exactly its power out of every band's sum |
| `Spectrum.ComposedAdd` | src/ha/model/ha-interference-model.cc:170-179 | adding a signal to the aggregate and to the signals in the air keeps aggregate = noise + Σ signals |
| `Spectrum.ComposedRemove` | src/ha/model/ha-interference-model.cc:181-190 | subtracting a signal in the air and dropping it keeps aggregate = noise + Σ signals |
| `Spectrum.ComposedNoise` | src/ha/model/ha-interference-model.cc:143-149 | aggregate − old noise + new noise is the new noise + Σ signals |
| `SnrStatistics.Initial` | src/ha/model/ha-interference-model.cc:8-17 | construction sets min = max = mean = last SNR = start SNR, start = last time = now, discrete sum 0 |
| `SnrStatistics.Push` | src/ha/model/ha-interference-model.cc:49-89 | an update widens min and max with the previous sample (min never rises, max never falls, each is its old value or the previous sample, min ≤ max is kept), keeps the start time and remembers the new sample and time |
| `SnrStatistics.CatchUp` | src/ha/model/ha-interference-model.cc:19-47 | a getter leaves the status at time now with its last SNR unchanged, and changes nothing when it was already updated at now |
| `SnrStatistics.CatchUpIdempotent` | src/ha/model/ha-interference-model.cc:19-47 | a second query at the same time changes no field |
| `SnrStatistics.PushIntegrates` | src/ha/model/ha-interference-model.cc:83 | one update adds lastSnr·(now − lastTime) to the discrete sum |
| `SnrStatistics.AreaSnoc` | src/ha/model/ha-interference-model.h:78-82 | one more sample extends the documented integral by the previous sample held until it |
| `SnrStatistics.MinMaxSnoc` | src/ha/model/ha-interference-model.cc:60-76 | one more sample widens the minimum and maximum of a history by that sample |
| `SnrStatistics.MinSnrOf` | src/ha/model/ha-interference-model.cc:69-76 | the minimum of a history is at most every sample's SNR and is the SNR of one of them |
| `SnrStatistics.MaxSnrOf` | src/ha/model/ha-interference-model.cc:60-67 | the maximum of a history is at least every sample's SNR and is the SNR of one of them |
| `SnrStatistics.ReplayIntegral` | src/ha/model/ha-interference-model.h:78-82 | after any history the discrete sum is the integral Σ SNRᵢ₋₁·(tᵢ − tᵢ₋₁), the start time is t₀ and the last sample is the newest |
| `SnrStatistics.ReplayExtremes` | src/ha/model/ha-interference-model.cc:53-54 | after any history min and max are those of every sample but the newest (the first sample alone at the start) |
| `SnrStatistics.ReplayMean` | src/ha/model/ha-interference-model.h:42-43 | from the second sample on, the incremental mean is the integral over tₙ − t₀ |
| `SnrStatistics.ReplayClosedForm` | src/ha/model/ha-interference-model.h:33-43 | the incrementally updated status equals the documented closed form after every step: min, max, mean, start, last time, last SNR and sum |
| `SnrStatistics.MinMaxExtend` | src/ha/model/ha-interference-model.cc:53-57 | a history's extremes are those of its integrated samples widened with its newest sample |
| `SnrStatistics.ReplaySnoc` | src/ha/model/ha-interference-model.cc:49-58 | replaying one more sample is one more UpdateNewSnr |
| `SnrStatistics.ChronologicalSnoc` | src/ha/model/ha-interference-model.cc:52-56 | a sample taken no earlier than the status's last update keeps the history in time order |
| `SnrStatistics.AreaAtLeast` | src/ha/model/ha-interference-model.h:33-36 | a lower bound of every integrated sample, held over t₀..tₙ, bounds the integral from below |
| `SnrStatistics.AreaAtMost` | src/ha/model/ha-interference-model.h:33-36 | an upper bound of every integrated sample, held over t₀..tₙ, bounds the integral from above |
| `SnrStatistics.MeanWithinBounds` | src/ha/model/ha-interference-model.h:33-36 | once time has advanced past the start, min ≤ mean ≤ max |
| `HaInterference.InterferenceStatus.constructor` | src/ha/model/ha-interference-model.cc:8-17 | a new status is in the initial state of its start SNR and its history is that one sample |
| `HaInterference.InterferenceStatus.CatchUpTo` | src/ha/model/ha-interference-model.cc:22-25 | the catch-up pushes the last SNR again exactly when the last update was at another time, and keeps the status valid |
| `HaInterference.InterferenceStatus.GetMinSnr` | src/ha/model/ha-interference-model.cc:19-27 | returns the minimum over every sample integrated so far, after the catch-up |
| `HaInterference.InterferenceStatus.GetMaxSnr` | src/ha/model/ha-interference-model.cc:29-37 | returns the maximum over every sample integrated so far, after the catch-up |
| `HaInterference.InterferenceStatus.GetMeanSnr` | src/ha/model/ha-interference-model.cc:39-47 | returns the documented time-weighted mean of the history, after the catch-up; once time has passed the start, that mean lies between the minimum and the maximum |
| `HaInterference.InterferenceStatus.UpdateNewSnr` | src/ha/model/ha-interference-model.cc:49-58 | the fields become Push of the old fields, the history grows by the new sample, and the fields still equal the replay of the history |
| `HaInterference.InterferenceStatus.UpdateMaxSnr` | src/ha/model/ha-interference-model.cc:60-67 | the maximum becomes the larger of itself and the given SNR; nothing else changes |
| `HaInterference.InterferenceStatus.UpdateMinSnr` | src/ha/model/ha-interference-model.cc:69-76 | the minimum becomes the smaller of itself and the given SNR; nothing else changes |
| `HaInterference.InterferenceStatus.UpdateMeanSnr` | src/ha/model/ha-interference-model.cc:78-89 | the sum grows by lastSnr·(now − lastTime), the mean is sum ÷ (now − start), and the new SNR and time are remembered |
| `HaInterference.SharedSpectrum.constructor` | src/ha/model/ha-interference-model.cc:100 | the aggregate starts as a fresh all-zero spectrum over the given partition |
| `HaInterference.InterferenceEntry.constructor` | src/ha/model/ha-interference-model.cc:199-213 | the entry keeps its signals and the shared aggregate, and its fresh status starts from the SNR against the aggregate as it is now |
| `HaInterference.InterferenceEntry.Update` | src/ha/model/ha-interference-model.cc:215-220 | the entry's status receives exactly one sample, the SNR against the current aggregate |
| `HaInterference.InterferenceModel.constructor` | src/ha/model/ha-interference-model.cc:98-102 | a new model has a zero aggregate, zero noise, no entries and nothing in the air |
| `HaInterference.SnrInMainPartition` | src/ha/model/ha-interference-model.cc:228-238 | an entry whose signal is in the aggregate's one-band partition has SNR own ÷ (aggregate − own) |
| `HaInterference.InterferenceModel.ConvertToMainModel` | src/ha/model/ha-interference-model.cc:163-168 | a spectrum from another partition comes back with one value per band of the main partition |
| `HaInterference.InterferenceModel.InMainModel` | src/ha/model/ha-interference-model.cc:107-115 | a spectrum already in the main partition is used as it is; any other is converted |
| `HaInterference.InterferenceModel.CanGetInterferenceStatus` | src/ha/model/ha-interference-model.cc:151-155 | holds exactly when looking up the PPDU's status succeeds |
| `HaInterference.InterferenceModel.GetInterferenceStatus` | src/ha/model/ha-interference-model.cc:157-161 | a status is found exactly when the PPDU is tracked, and it is the tracked entry's own status |
| `HaInterference.InterferenceModel.AddToAggregate` | src/ha/model/ha-interference-model.cc:173 | the aggregate becomes aggregate + signal, in place |
| `HaInterference.InterferenceModel.SubtractFromAggregate` | src/ha/model/ha-interference-model.cc:184 | the aggregate becomes aggregate − signal, in place |
| `HaInterference.InterferenceModel.UpdateEntries` | src/ha/model/ha-interference-model.cc:174-178 | every live status receives exactly one sample, its SNR against the current aggregate, whatever the visiting order; the key set is unchanged |
| `HaInterference.InterferenceModel.UpdateEntry` | src/ha/model/ha-interference-model.cc:176-177 | updating one entry leaves every other entry's status unchanged |
| `HaInterference.InterferenceModel.AddSignalToOthers` | src/ha/model/ha-interference-model.cc:170-179 | the signal is added to the aggregate, then every live status is pushed once with its new SNR; the keys are unchanged |
| `HaInterference.InterferenceModel.RemoveSignalFromOthers` | src/ha/model/ha-interference-model.cc:181-190 | the signal is subtracted from the aggregate and leaves the signals in the air; every live status is pushed once; the model stays valid |
| `HaInterference.InterferenceModel.ForgetSignal` | src/ha/model/ha-interference-model.cc:184 | after one copy of a signal leaves the air, aggregate − signal is the noise plus what is left |
| `HaInterference.InterferenceModel.AddSignal` | src/ha/model/ha-interference-model.cc:126-141 | the signal (converted if needed) is added to the aggregate and the air, every live status is pushed once, and its removal is scheduled at now + duration |
| `HaInterference.InterferenceModel.SetNoise` | src/ha/model/ha-interference-model.cc:143-149 | the aggregate becomes aggregate − old noise + new noise, the noise is replaced and every live status is pushed once |
| `HaInterference.InterferenceModel.AddPpdu` | src/ha/model/ha-interference-model.cc:104-124 | the power is in the aggregate before the entry is created, so the first SNR counts it; the entry is stored under the PPDU, replacing any earlier one; the returned status is the entry's; the removal is scheduled before the finish |
| `HaInterference.InterferenceModel.TrackPpdu` | src/ha/model/ha-interference-model.cc:118-119 | the map becomes the old map with the PPDU bound to a fresh entry against the current aggregate |
| `HaInterference.InterferenceModel.FinishCalculation` | src/ha/model/ha-interference-model.cc:192-197 | a tracked PPDU's status receives one last sample and its key is erased; other statuses are untouched; an absent key is reported |
| `MeanOracle.PrintedMeans` | src/ha/examples/test.py:6-22 | each printed mean is the documented mean of the pairs so far; the loop stops with ZeroDivisionError exactly when a later pair repeats the first time |
| `MeanOracle.AgreesWithStatus` | src/ha/examples/test.py:12-22 | every mean the script prints is the mean a status holds after the same samples |
| `MeanOracle.ScriptExample` | src/ha/examples/test.py:1-4 | for (1, 5), (2, 6), (5, 7) the script prints 5, 5 and 5.75 |
| `Scenarios.CheckStatisticsByStatus` | src/ha/test/interference-model.h:72-84 | reading max, min and mean at one time catches the status up once and returns the caught-up fields |
| `Scenarios.CheckStatisticsByPpdu` | src/ha/test/interference-model.h:57-70 | the statistics of a tracked PPDU are read exactly when it is tracked |
| `Scenarios.CheckCantGetStatisticByPpdu` | src/ha/test/interference-model.h:86-108 | the lookup fails exactly when the PPDU is not tracked |
| `Scenarios.StageFacts` | src/ha/model/ha-interference-model.cc:228-238 | with one tracked PPDU of power own in a one-band aggregate, its SNR is own ÷ (aggregate − own) |
| `Scenarios.Check` | src/ha/test/interference-model.h:57-70 | a check in the one-PPDU fixture returns the caught-up max, min and mean |
| `Scenarios.AddSignal` | src/ha/test/interference-model.h:51-55 | another signal arriving raises the aggregate by its power and pushes own ÷ (aggregate + power − own) |
| `Scenarios.RunRemoval` | src/ha/model/ha-interference-model.cc:181-190 | a scheduled removal lowers the aggregate by the signal's power and pushes own ÷ (aggregate − power − own) |
| `Scenarios.RunFinish` | src/ha/model/ha-interference-model.cc:192-197 | the finish pushes one last own ÷ (aggregate − own) and leaves no entry |
| `Scenarios.AddSignalThenRemoval` | src/ha/model/ha-interference-model.cc:126-141 | a signal followed by its scheduled removal leaves the aggregate and the signals in the air as they were |
| `Scenarios.NewModelWithNoise` | src/ha/test/interference-model.cc:63-70 | the test model over one band with its noise set holds exactly the noise |
| `Scenarios.StartWithPpdu` | src/ha/test/interference-model.cc:72-87 | a PPDU arriving over the noise alone starts with SNR power ÷ noise, and its removal and finish are scheduled at now + duration |
| `Scenarios.AnotherSignalTrajectory` | src/ha/test/interference-model.cc:82-134 | the status states after each event of the second test case |
| `Scenarios.AddOneHaPpduAndAnotherSignal` | src/ha/test/interference-model.cc:60-136 | the checks at 11 to 15 read {10,10,10}, {10,10,10}, {10,2,22/3}, {10,2,8}, {10,2,8.4}; nothing is tracked at 16 |
| `Scenarios.OnePpduTrajectory` | src/ha/test/interference-model.cc:22-45 | the status states after each event of the one-PPDU test case |
| `Scenarios.AddOneHaPpdu` | src/ha/test/interference-model.cc:22-45 | the checks at 3 and 4 read {5,5,5}, and nothing is tracked at 6 |

## Left out

- `Spectrum.Divide`: IEEE division by zero gives ±inf or NaN; the model yields 0 instead. This affects:
  - `UpdateMeanSnr` at the start time (0 ÷ 0 in the source);
  - `CalculateSnrNow` when a band holds nothing but the PPDU's own power.
- `HaInterference.InterferenceModel.FinishCalculation`: `map::at` throws for a PPDU that is not tracked. The model returns `found == false` and changes nothing.
- `HaInterference.InterferenceModel.GetInterferenceStatus`: the exception of `map::at` becomes the `NotFound` result.
- `MeanOracle.PrintedMeans`: Python's ZeroDivisionError becomes the returned `zeroDivision` flag. The loop stops there, with the means printed so far.
- `HaInterference.InterferenceModel.UpdateEntries`:
  - `std::map` visits keys in pointer order; the model visits them in any order.
  - Each entry's result does not depend on that order, and the contract is proved for every order.
- The simulator (`Simulator::Now`, `Simulator::Schedule`) is left out:
  - the clock is the parameter `now`;
  - scheduled actions are returned as `Event` values for the caller to run.
- `SpectrumConverter` and `SpectrumModel` are library code:
  - A partition is a uid and a band count, compared by value where ns-3 compares pointers.
  - A conversion between different partitions is a caller-supplied sparse matrix.
- Floating point: powers and SNRs are `real`. The test's tolerance comparisons (`7.333333333` for 22/3) become exact equalities with the exact values.
- Time: ticks are unbounded `int`, so the 64-bit tick counter cannot overflow.
- Reference counting (`Ptr`, `SimpleRefCount`) is left out. The aggregate and the statuses are class references, shared as in the source. Spectra passed in are `SpectrumValue` values, copied where the source keeps the caller's pointer.
- `HaInterference.InterferenceModel.AddSignal`, `SetNoise`, `AddPpdu` and `RemoveSignalFromOthers` keep copies of the spectra they are given (`ha-interference-model.cc:132`, `:140`, `:147`, `:203-204`). A caller that changes a spectrum after passing it in would change the source's noise, entry signals and scheduled removals, but not the model's. The model assumes callers never do that; the tests set each spectrum's values once, before passing it in (`src/ha/test/interference-model.cc:27-37` and `:65-79`).
- `friend` and private access are left out: the model cannot prevent outside callers from pushing samples into a status.
- `HaInterferenceEntry::GetStatus` is the `status` field.
- TypeId and object registration are left out.
- `AddOneHaPpduTest` is defined but never added to the test suite (`src/ha/test/interference-model.cc:149`). It is modelled anyway.
- The rest of the `ha` module is not part of this model: the PHY, the PPDU, MPDU, header and transmission-parameter classes, and the unit aliases.

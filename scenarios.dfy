/**
 * The interference-model test cases, driven step by step on the model. The
 * simulator's event queue is unrolled by hand: every action runs at its time,
 * and actions due at the same time run in the order they were scheduled
 * (the checks scheduled up front come before the removal and finish that
 * AddPpdu and AddSignal schedule while the simulation runs).
 */
module Scenarios {
  import opened Spectrum
  import opened SnrStatistics
  import opened HaInterference

  /** What one statistics check reads, in its order: maximum, minimum, mean. */
  datatype Statistics = Statistics(max: real, min: real, mean: real)

  /** CheckStatisticsByStatus: read the maximum, then the minimum, then the
      mean at `now`. The first read catches the status up; the other two find
      it already up to date. */
  method CheckStatisticsByStatus(status: InterferenceStatus, now: int) returns (stats: Statistics)
    requires status.Valid() && status.lastTime <= now
    modifies status
    ensures status.Valid()
    ensures status.State() == CatchUp(old(status.State()), now)
    ensures stats == Statistics(status.maxSnr, status.minSnr, status.meanSnr)
  {
    var max := status.GetMaxSnr(now);
    var min := status.GetMinSnr(now);
    var mean := status.GetMeanSnr(now);
    CatchUpIdempotent(old(status.State()), now);
    stats := Statistics(max, min, mean);
  }

  /** CheckStatisticsByPpdu: the PPDU must still be tracked, and its status is
      read as above. */
  method CheckStatisticsByPpdu(model: InterferenceModel, ppdu: PpduId, now: int)
    returns (exist: bool, stats: Statistics)
    requires model.Valid() && model.ReadyAt(now)
    modifies model.Statuses()
    ensures model.Valid() && model.ReadyAt(now)
    ensures exist == (ppdu in model.ppduInterferences)
    ensures exist ==>
              var status := model.ppduInterferences[ppdu].status;
              status.State() == CatchUp(old(status.State()), now)
              && stats == Statistics(status.maxSnr, status.minSnr, status.meanSnr)
  {
    exist := model.CanGetInterferenceStatus(ppdu);
    stats := Statistics(0.0, 0.0, 0.0);
    if exist {
      var lookup := model.GetInterferenceStatus(ppdu);
      stats := CheckStatisticsByStatus(lookup.status, now);
    }
  }

  /** CheckCantGetStatisticByPpdu: the PPDU is no longer tracked and looking
      up its status fails. */
  method CheckCantGetStatisticByPpdu(model: InterferenceModel, ppdu: PpduId)
    returns (exist: bool, thrown: bool)
    ensures exist == (ppdu in model.ppduInterferences)
    ensures thrown == (ppdu !in model.ppduInterferences)
  {
    exist := model.CanGetInterferenceStatus(ppdu);
    thrown := model.GetInterferenceStatus(ppdu).NotFound?;
  }

  /** The test's partitions are all the same one-band partition, so the
      converter is never consulted. */
  function NoConversion(): ConversionMatrices {
    (from: SpectrumModel, to: SpectrumModel) => []
  }

  /** The fixture of both tests: a valid model over one band that tracks
      exactly `ppdu`, with status `status` and power `own` in the main
      partition; the aggregate is `aggregate`, the signals in the air are
      `air` and the status is in state `state`. */
  ghost predicate Stage(model: InterferenceModel, ppdu: PpduId, status: InterferenceStatus, own: real,
                        aggregate: real, air: multiset<seq<real>>, state: StatusState)
    reads model, model.allSignals.values, model.Statuses(), status
  {
    model.Valid() && model.allSignals.model.numBands == 1
    && model.ppduInterferences.Keys == {ppdu} && model.Statuses() == {status}
    && model.ppduInterferences[ppdu].status == status
    && model.ppduInterferences[ppdu].signal.model == model.allSignals.model
    && model.ppduInterferences[ppdu].signalInMainModel.values == [own]
    && model.Aggregate() == [aggregate] && multiset(model.inAir) == air
    && status.State() == state
  }

  /** In the fixture the tracked PPDU's SNR is its power over everything
      else in the air, and the model is ready from the status's last update on. */
  lemma StageFacts(model: InterferenceModel, ppdu: PpduId, status: InterferenceStatus, own: real,
                   aggregate: real, air: multiset<seq<real>>, state: StatusState, now: int)
    requires Stage(model, ppdu, status, own, aggregate, air, state) && state.lastTime <= now
    ensures model.ppduInterferences[ppdu].CalculateSnrNow() == Divide(own, aggregate - own)
    ensures model.ReadyAt(now)
  {
    assert model.Aggregate() == [own + (aggregate - own)];
    InstantSnrSinglePartition(model.allSignals.model, own, aggregate - own, model.conversion);
  }

  /** BaseInterferenceModelTestCase::CheckStatisticsByPpdu in the fixture. */
  method Check(model: InterferenceModel, ppdu: PpduId, status: InterferenceStatus, own: real,
               ghost aggregate: real, ghost air: multiset<seq<real>>, ghost state: StatusState,
               now: int) returns (stats: Statistics)
    requires Stage(model, ppdu, status, own, aggregate, air, state) && state.lastTime <= now
    modifies status
    ensures Stage(model, ppdu, status, own, aggregate, air, CatchUp(state, now))
    ensures stats == Statistics(CatchUp(state, now).maxSnr, CatchUp(state, now).minSnr,
                                CatchUp(state, now).meanSnr)
  {
    StageFacts(model, ppdu, status, own, aggregate, air, state, now);
    var exist;
    exist, stats := CheckStatisticsByPpdu(model, ppdu, now);
  }

  /** BaseInterferenceModelTestCase::AddSignal in the fixture. */
  method AddSignal(model: InterferenceModel, ppdu: PpduId, status: InterferenceStatus, own: real,
                   ghost aggregate: real, ghost air: multiset<seq<real>>, ghost state: StatusState,
                   power: real, duration: int, now: int) returns (removal: Event)
    requires Stage(model, ppdu, status, own, aggregate, air, state) && state.lastTime <= now
    requires duration >= 0
    modifies model`inAir, model.allSignals.values, status
    ensures Stage(model, ppdu, status, own, aggregate + power, air + multiset{[power]},
                  Push(state, Divide(own, aggregate + power - own), now))
    ensures removal == RemoveSignal([power], now + duration)
  {
    StageFacts(model, ppdu, status, own, aggregate, air, state, now);
    removal := model.AddSignal(SpectrumValue(model.allSignals.model, [power]), duration, now);
    SingleBand(aggregate, power);
    assert status.State() == Push(state, Divide(own, aggregate + power - own), now) by {
      assert model.Aggregate() == [own + (aggregate + power - own)];
      InstantSnrSinglePartition(model.allSignals.model, own, aggregate + power - own, model.conversion);
    }
  }

  /** A scheduled RemoveSignalFromOthers of a signal of power `power`,
      running in the fixture at `now`. */
  method RunRemoval(model: InterferenceModel, ppdu: PpduId, status: InterferenceStatus, own: real,
                    ghost aggregate: real, ghost air: multiset<seq<real>>, ghost state: StatusState,
                    power: real, now: int)
    requires Stage(model, ppdu, status, own, aggregate, air, state) && state.lastTime <= now
    requires [power] in air
    modifies model`inAir, model.allSignals.values, status
    ensures Stage(model, ppdu, status, own, aggregate - power, air - multiset{[power]},
                  Push(state, Divide(own, aggregate - power - own), now))
  {
    StageFacts(model, ppdu, status, own, aggregate, air, state, now);
    model.RemoveSignalFromOthers([power], now);
    SingleBand(aggregate, power);
    assert status.State() == Push(state, Divide(own, aggregate - power - own), now) by {
      assert model.Aggregate() == [own + (aggregate - power - own)];
      InstantSnrSinglePartition(model.allSignals.model, own, aggregate - power - own, model.conversion);
    }
  }

  /** A scheduled FinishCalculation running in the fixture: one last update,
      then the PPDU is no longer tracked. */
  method RunFinish(model: InterferenceModel, ppdu: PpduId, status: InterferenceStatus, own: real,
                   ghost aggregate: real, ghost air: multiset<seq<real>>, ghost state: StatusState,
                   now: int)
    requires Stage(model, ppdu, status, own, aggregate, air, state) && state.lastTime <= now
    modifies model`ppduInterferences, status
    ensures model.Valid() && model.ppduInterferences == map[]
    ensures status.Valid() && status.State() == Push(state, Divide(own, aggregate - own), now)
  {
    StageFacts(model, ppdu, status, own, aggregate, air, state, now);
    var found := model.FinishCalculation(ppdu, now);
  }

  /** AddSignal followed, `duration` later, by the removal it scheduled:
      the aggregate and the signals in the air are as they were before. */
  method AddSignalThenRemoval(model: InterferenceModel, power: SpectrumValue, duration: int, now: int)
    requires model.Valid() && model.ReadyAt(now)
    requires power.WellFormed() && duration >= 0
    modifies model`inAir, model.allSignals.values, model.Statuses()
    ensures model.Valid() && model.ReadyAt(now + duration)
    ensures model.Aggregate() == old(model.Aggregate())
    ensures multiset(model.inAir) == multiset(old(model.inAir))
  {
    var removal := model.AddSignal(power, duration, now);
    assert model.ReadyAt(removal.at);
    model.RemoveSignalFromOthers(removal.signal, removal.at);
    MinusPlus(old(model.Aggregate()), model.InMainModel(power));
  }

  /** The harness's model: one band, no conversion, and the noise floor set
      at time 0 before anything is in the air. */
  method NewModelWithNoise(noise: real) returns (model: InterferenceModel)
    ensures fresh(model) && fresh(model.allSignals.values)
    ensures model.Valid() && model.allSignals.model == SpectrumModel(1, 1)
    ensures model.Aggregate() == [noise] && model.inAir == []
    ensures model.ppduInterferences == map[]
  {
    var main := SpectrumModel(1, 1);
    model := new InterferenceModel(main, NoConversion());
    assert Zeros(1) == [0.0];
    model.SetNoise(SpectrumValue(main, [noise]), 0);
    SingleBand(0.0, 0.0);
    SingleBand(0.0, noise);
  }

  /** The opening of both tests: the harness's model over noise `noise`,
      then a PPDU arriving at `now`. Its first SNR is its power over the
      noise. */
  method StartWithPpdu(noise: real, ppdu: PpduId, power: real, duration: int, now: int)
    returns (model: InterferenceModel, status: InterferenceStatus, scheduled: seq<Event>)
    requires duration >= 0 && now >= 0
    ensures fresh(model) && fresh(model.allSignals.values) && fresh(status)
    ensures Stage(model, ppdu, status, power, noise + power, multiset{[power]},
                  Initial(Divide(power, noise), now))
    ensures scheduled == [RemoveSignal([power], now + duration), Finish(ppdu, now + duration)]
  {
    model := NewModelWithNoise(noise);
    var main := model.allSignals.model;
    status, scheduled := model.AddPpdu(ppdu, SpectrumValue(main, [power]), duration, now);
    assert model.ppduInterferences.Keys == {ppdu};
    assert model.Statuses() == {status};
    SingleBand(noise, power);
    InstantSnrSinglePartition(main, power, noise, model.conversion);
  }

  /** The status of AddOneHaPpduAndAnotherSignal through its events: the
      catch-up of each check, and the pushes at 12 (SNR 20 / 10), 13 (20 / 2)
      and twice at 15 (20 / (2 - 20)). */
  lemma AnotherSignalTrajectory()
    ensures Initial(Divide(20.0, 2.0), 10) == StatusState(10.0, 10.0, 10.0, 10, 10, 10.0, 0.0)
    ensures CatchUp(StatusState(10.0, 10.0, 10.0, 10, 10, 10.0, 0.0), 11)
            == StatusState(10.0, 10.0, 10.0, 10, 11, 10.0, 10.0)
    ensures Push(StatusState(10.0, 10.0, 10.0, 10, 11, 10.0, 10.0), Divide(20.0, 22.0 + 8.0 - 20.0), 12)
            == StatusState(10.0, 10.0, 10.0, 10, 12, 2.0, 20.0)
    ensures CatchUp(StatusState(10.0, 10.0, 10.0, 10, 12, 2.0, 20.0), 12)
            == StatusState(10.0, 10.0, 10.0, 10, 12, 2.0, 20.0)
    ensures CatchUp(StatusState(10.0, 10.0, 10.0, 10, 12, 2.0, 20.0), 13)
            == StatusState(2.0, 10.0, 22.0 / 3.0, 10, 13, 2.0, 22.0)
    ensures Push(StatusState(2.0, 10.0, 22.0 / 3.0, 10, 13, 2.0, 22.0), Divide(20.0, 30.0 - 8.0 - 20.0), 13)
            == StatusState(2.0, 10.0, 22.0 / 3.0, 10, 13, 10.0, 22.0)
    ensures CatchUp(StatusState(2.0, 10.0, 22.0 / 3.0, 10, 13, 10.0, 22.0), 14)
            == StatusState(2.0, 10.0, 8.0, 10, 14, 10.0, 32.0)
    ensures CatchUp(StatusState(2.0, 10.0, 8.0, 10, 14, 10.0, 32.0), 15)
            == StatusState(2.0, 10.0, 8.4, 10, 15, 10.0, 42.0)
    ensures Push(StatusState(2.0, 10.0, 8.4, 10, 15, 10.0, 42.0), Divide(20.0, 22.0 - 20.0 - 20.0), 15)
            == StatusState(2.0, 10.0, 8.4, 10, 15, -10.0 / 9.0, 42.0)
    ensures Push(StatusState(2.0, 10.0, 8.4, 10, 15, -10.0 / 9.0, 42.0), Divide(20.0, 2.0 - 20.0), 15)
            == StatusState(-10.0 / 9.0, 10.0, 8.4, 10, 15, -10.0 / 9.0, 42.0)
    ensures CatchUp(StatusState(-10.0 / 9.0, 10.0, 8.4, 10, 15, -10.0 / 9.0, 42.0), 16)
            == StatusState(-10.0 / 9.0, 10.0, 184.0 / 27.0, 10, 16, -10.0 / 9.0, 368.0 / 9.0)
  {
  }

  /** AddOneHaPpduAndAnotherSignal: noise 2, a PPDU of power 20 over [10, 15)
      and another signal of power 8 over [12, 13). The checks at 11 to 15 see
      the expected statistics and the PPDU is gone at 16. Its status, still
      held by the caller, keeps integrating its last SNR: the sample taken
      after the PPDU's own power left the aggregate, 20 / (2 - 20). */
  method AddOneHaPpduAndAnotherSignal()
    returns (observed: seq<Statistics>, availableAt16: bool, lateRead: Statistics)
    ensures observed == [Statistics(10.0, 10.0, 10.0), Statistics(10.0, 10.0, 10.0),
                         Statistics(10.0, 2.0, 22.0 / 3.0), Statistics(10.0, 2.0, 8.0),
                         Statistics(10.0, 2.0, 8.4)]
    ensures !availableAt16
    ensures lateRead == Statistics(10.0, -10.0 / 9.0, 184.0 / 27.0)
  {
    AnotherSignalTrajectory();
    var ppdu: PpduId := 0;
    var own := 20.0;

    // t = 10: the PPDU arrives over noise 2; its first SNR is 20 / 2.
    var model, status, scheduled := StartWithPpdu(2.0, ppdu, own, 5, 10);
    assert fresh(model) && fresh(status);
    ghost var air := multiset{[own]};
    ghost var s := StatusState(10.0, 10.0, 10.0, 10, 10, 10.0, 0.0);

    // t = 11
    var at11 := Check(model, ppdu, status, own, 22.0, air, s, 11);
    s := StatusState(10.0, 10.0, 10.0, 10, 11, 10.0, 10.0);

    // t = 12: the other signal arrives before the check; the SNR drops to 20 / 10.
    var removal := AddSignal(model, ppdu, status, own, 22.0, air, s, 8.0, 1, 12);
    air := air + multiset{[8.0]};
    s := StatusState(10.0, 10.0, 10.0, 10, 12, 2.0, 20.0);
    var at12 := Check(model, ppdu, status, own, 30.0, air, s, 12);

    // t = 13: the check, then the other signal's removal; the SNR is 10 again.
    var at13 := Check(model, ppdu, status, own, 30.0, air, s, 13);
    s := StatusState(2.0, 10.0, 22.0 / 3.0, 10, 13, 2.0, 22.0);
    RunRemoval(model, ppdu, status, own, 30.0, air, s, removal.signal[0], removal.at);
    air := air - multiset{[8.0]};
    s := StatusState(2.0, 10.0, 22.0 / 3.0, 10, 13, 10.0, 22.0);

    // t = 14
    var at14 := Check(model, ppdu, status, own, 22.0, air, s, 14);
    s := StatusState(2.0, 10.0, 8.0, 10, 14, 10.0, 32.0);

    // t = 15: the check, then the PPDU's removal, then its finish.
    var at15 := Check(model, ppdu, status, own, 22.0, air, s, 15);
    s := StatusState(2.0, 10.0, 8.4, 10, 15, 10.0, 42.0);
    RunRemoval(model, ppdu, status, own, 22.0, air, s, scheduled[0].signal[0], scheduled[0].at);
    air := air - multiset{[own]};
    s := StatusState(2.0, 10.0, 8.4, 10, 15, -10.0 / 9.0, 42.0);
    RunFinish(model, scheduled[1].ppdu, status, own, 2.0, air, s, scheduled[1].at);
    observed := [at11, at12, at13, at14, at15];

    // t = 16
    var thrown;
    availableAt16, thrown := CheckCantGetStatisticByPpdu(model, ppdu);
    lateRead := CheckStatisticsByStatus(status, 16);
  }

  /** The status of AddOneHaPpdu through its two checks. */
  lemma OnePpduTrajectory()
    ensures Initial(Divide(5.0, 1.0), 2) == StatusState(5.0, 5.0, 5.0, 2, 2, 5.0, 0.0)
    ensures CatchUp(StatusState(5.0, 5.0, 5.0, 2, 2, 5.0, 0.0), 3)
            == StatusState(5.0, 5.0, 5.0, 2, 3, 5.0, 5.0)
    ensures CatchUp(StatusState(5.0, 5.0, 5.0, 2, 3, 5.0, 5.0), 4)
            == StatusState(5.0, 5.0, 5.0, 2, 4, 5.0, 10.0)
  {
  }

  /** AddOneHaPpdu: noise 1 and a PPDU of power 5 over [2, 5). The checks at 3
      and 4 see 5, 5, 5 and the PPDU is gone at 6. */
  method AddOneHaPpdu() returns (observed: seq<Statistics>, availableAt6: bool)
    ensures observed == [Statistics(5.0, 5.0, 5.0), Statistics(5.0, 5.0, 5.0)]
    ensures !availableAt6
  {
    OnePpduTrajectory();
    var ppdu: PpduId := 0;
    var own := 5.0;

    // t = 2: the PPDU arrives over noise 1; its SNR is 5 / 1.
    var model, status, scheduled := StartWithPpdu(1.0, ppdu, own, 3, 2);
    assert fresh(model) && fresh(status);
    ghost var air := multiset{[own]};
    ghost var s := StatusState(5.0, 5.0, 5.0, 2, 2, 5.0, 0.0);

    // t = 3 and t = 4
    var at3 := Check(model, ppdu, status, own, 6.0, air, s, 3);
    s := StatusState(5.0, 5.0, 5.0, 2, 3, 5.0, 5.0);
    var at4 := Check(model, ppdu, status, own, 6.0, air, s, 4);
    s := StatusState(5.0, 5.0, 5.0, 2, 4, 5.0, 10.0);
    observed := [at3, at4];

    // t = 5: the removal, then the finish.
    RunRemoval(model, ppdu, status, own, 6.0, air, s, scheduled[0].signal[0], scheduled[0].at);
    RunFinish(model, scheduled[1].ppdu, status, own, 1.0, air - multiset{[own]},
              Push(s, Divide(own, 1.0 - own), 5), scheduled[1].at);

    // t = 6
    var thrown;
    availableAt6, thrown := CheckCantGetStatisticByPpdu(model, ppdu);
  }
}

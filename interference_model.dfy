/**
 * HaInterferenceModel with its nested HaInterferenceEntry, and
 * HaInterferenceStatus: the aggregate-signal accumulator, one entry per
 * tracked PPDU, and the lazily updated time-weighted SNR statistics.
 *
 * The simulator clock is the parameter `now` of every operation, and the
 * operations that schedule work return the scheduled actions as `Event`
 * values, in the order they were scheduled; the caller runs each at its time.
 */
module HaInterference {
  import opened Spectrum
  import opened SnrStatistics

  /** Identity of a tracked PPDU (the source keys its map by PPDU pointer). */
  type PpduId = nat

  /** An action handed to the scheduler, to run once at time `at`. */
  datatype Event =
    | RemoveSignal(signal: seq<real>, at: int)  // RemoveSignalFromOthers(signal)
    | Finish(ppdu: PpduId, at: int)             // FinishCalculation(ppdu)

  /** Result of GetInterferenceStatus: `map::at` throws for a missing key. */
  datatype StatusLookup = Found(status: InterferenceStatus) | NotFound

  /** Time-weighted min, max and mean SNR of one tracked PPDU. */
  class InterferenceStatus {
    var minSnr: real
    var maxSnr: real
    var meanSnr: real
    var startTime: int
    var lastTime: int
    var lastSnr: real
    var discreteSum: real
    /** Every sample pushed so far; the first is the one it was created with. */
    ghost var history: seq<Sample>

    function State(): StatusState
      reads this
    {
      StatusState(minSnr, maxSnr, meanSnr, startTime, lastTime, lastSnr, discreteSum)
    }

    /** The fields are exactly what replaying the history produces. */
    ghost predicate Valid()
      reads this
    {
      |history| > 0 && Chronological(history) && State() == Replay(history)
    }

    constructor (startSnr: real, now: int)
      ensures Valid()
      ensures State() == Initial(startSnr, now)
      ensures history == [Sample(now, startSnr)]
    {
      minSnr := startSnr;
      maxSnr := startSnr;
      meanSnr := startSnr;
      startTime := now;
      lastTime := now;
      lastSnr := startSnr;
      discreteSum := 0.0;
      history := [Sample(now, startSnr)];
    }

    /** The catch-up every getter performs before reading its field. */
    method CatchUpTo(now: int)
      requires Valid() && lastTime <= now
      modifies this
      ensures Valid()
      ensures State() == CatchUp(old(State()), now)
      ensures history == if old(lastTime) != now then old(history) + [Sample(now, old(lastSnr))]
                         else old(history)
    {
      if lastTime != now {
        UpdateNewSnr(lastSnr, now);
      }
    }

    method GetMinSnr(now: int) returns (r: real)
      requires Valid() && lastTime <= now
      modifies this
      ensures Valid()
      ensures State() == CatchUp(old(State()), now)
      ensures history == if old(lastTime) != now then old(history) + [Sample(now, old(lastSnr))]
                         else old(history)
      ensures r == minSnr == MinSnrOf(Integrated(history))
    {
      CatchUpTo(now);
      r := minSnr;
      ReplayClosedForm(history);
    }

    method GetMaxSnr(now: int) returns (r: real)
      requires Valid() && lastTime <= now
      modifies this
      ensures Valid()
      ensures State() == CatchUp(old(State()), now)
      ensures history == if old(lastTime) != now then old(history) + [Sample(now, old(lastSnr))]
                         else old(history)
      ensures r == maxSnr == MaxSnrOf(Integrated(history))
    {
      CatchUpTo(now);
      r := maxSnr;
      ReplayClosedForm(history);
    }

    method GetMeanSnr(now: int) returns (r: real)
      requires Valid() && lastTime <= now
      modifies this
      ensures Valid()
      ensures State() == CatchUp(old(State()), now)
      ensures history == if old(lastTime) != now then old(history) + [Sample(now, old(lastSnr))]
                         else old(history)
      ensures r == meanSnr == ClosedFormMean(history)
      ensures startTime < now ==> minSnr <= r <= maxSnr
    {
      CatchUpTo(now);
      r := meanSnr;
      ReplayClosedForm(history);
      if startTime < now {
        MeanWithinBounds(history);
      }
    }

    /** Push the sample `snrNow` taken at `now`. */
    method UpdateNewSnr(snrNow: real, now: int)
      requires Valid() && lastTime <= now
      modifies this
      ensures Valid()
      ensures State() == Push(old(State()), snrNow, now)
      ensures history == old(history) + [Sample(now, snrNow)]
    {
      ghost var before, h := State(), history;
      UpdateMaxSnr(lastSnr);
      UpdateMinSnr(lastSnr);
      UpdateMeanSnr(snrNow, now);
      lastTime := now;
      lastSnr := snrNow;
      assert State() == Push(before, snrNow, now);
      ChronologicalSnoc(h, Sample(now, snrNow));
      ReplaySnoc(h, Sample(now, snrNow));
      history := h + [Sample(now, snrNow)];
    }

    method UpdateMaxSnr(currentSnr: real)
      modifies this`maxSnr
      ensures maxSnr == Max(old(maxSnr), currentSnr)
    {
      if currentSnr > maxSnr {
        maxSnr := currentSnr;
      }
    }

    method UpdateMinSnr(currentSnr: real)
      modifies this`minSnr
      ensures minSnr == Min(old(minSnr), currentSnr)
    {
      if currentSnr < minSnr {
        minSnr := currentSnr;
      }
    }

    /** Integrate the last plateau up to now and recompute the mean. */
    method UpdateMeanSnr(currentSnr: real, now: int)
      modifies this`discreteSum, this`meanSnr, this`lastSnr, this`lastTime
      ensures discreteSum == old(discreteSum) + Held(old(lastSnr), old(lastTime), now)
      ensures meanSnr == Divide(discreteSum, (now - startTime) as real)
      ensures lastSnr == currentSnr && lastTime == now
    {
      discreteSum := discreteSum + lastSnr * (now - lastTime) as real;
      meanSnr := Divide(discreteSum, (now - startTime) as real);
      lastSnr := currentSnr;
      lastTime := now;
    }
  }

  /** A spectrum that its owner updates in place and others only read. */
  class SharedSpectrum {
    const model: SpectrumModel
    const values: array<real>

    constructor (model: SpectrumModel)
      ensures this.model == model && fresh(values)
      ensures values[..] == Zeros(model.numBands)
    {
      this.model := model;
      values := new real[model.numBands](_ => 0.0);
    }
  }

  /** One tracked PPDU: its signal, a read-only view of the aggregate, and
      its status. Every field is fixed at construction. */
  class InterferenceEntry {
    const signal: SpectrumValue
    const signalInMainModel: SpectrumValue
    const allSignals: SharedSpectrum
    /** The converter from the aggregate's partition to the signal's own. */
    const conversion: ConversionMatrices
    const status: InterferenceStatus

    /** The two assertions of the constructor, and well-formed spectra. */
    predicate Valid() {
      signal.WellFormed() && signal.model.numBands == 1
      && signalInMainModel.WellFormed() && signalInMainModel.model == allSignals.model
      && allSignals.values.Length == allSignals.model.numBands
    }

    constructor (signal: SpectrumValue, signalInMainModel: SpectrumValue,
                 allSignals: SharedSpectrum, conversion: ConversionMatrices, now: int)
      requires signal.WellFormed() && signal.model.numBands == 1
      requires signalInMainModel.WellFormed() && signalInMainModel.model == allSignals.model
      requires allSignals.values.Length == allSignals.model.numBands
      ensures Valid()
      ensures this.signal == signal && this.signalInMainModel == signalInMainModel
      ensures this.allSignals == allSignals && this.conversion == conversion
      ensures fresh(status) && status.Valid()
      ensures status.State() == Initial(CalculateSnrNow(), now)
      ensures status.history == [Sample(now, CalculateSnrNow())]
    {
      this.signal := signal;
      this.signalInMainModel := signalInMainModel;
      this.allSignals := allSignals;
      this.conversion := conversion;
      var snr := InstantSnr(signal.model, signalInMainModel.values, allSignals.model,
                            allSignals.values[..], conversion);
      status := new InterferenceStatus(snr, now);
    }

    /** The SNR against the aggregate as it is now. */
    function CalculateSnrNow(): real
      requires Valid()
      reads allSignals.values
    {
      InstantSnr(signal.model, signalInMainModel.values, allSignals.model,
                 allSignals.values[..], conversion)
    }

    /** Push the current SNR into the status. */
    method Update(now: int)
      requires Valid() && status.Valid() && status.lastTime <= now
      modifies status
      ensures status.Valid()
      ensures status.State() == Push(old(status.State()), CalculateSnrNow(), now)
      ensures status.history == old(status.history) + [Sample(now, CalculateSnrNow())]
    {
      var snr := CalculateSnrNow();
      status.UpdateNewSnr(snr, now);
    }
  }

  /** The aggregate of every signal in the air, the noise floor, and the live
      entries keyed by PPDU. */
  class InterferenceModel {
    const allSignals: SharedSpectrum
    const conversion: ConversionMatrices
    var noise: SpectrumValue
    var ppduInterferences: map<PpduId, InterferenceEntry>
    /** The signals folded into the aggregate whose removal has not run yet. */
    ghost var inAir: seq<seq<real>>

    function Aggregate(): seq<real>
      reads allSignals.values
    {
      allSignals.values[..]
    }

    ghost function Statuses(): set<InterferenceStatus>
      reads this`ppduInterferences
    {
      set p | p in ppduInterferences :: ppduInterferences[p].status
    }

    /** Every live entry reads this model's aggregate, and no two live entries
        share a status. */
    ghost predicate EntriesValid()
      reads this`ppduInterferences, Statuses()
    {
      (forall p :: p in ppduInterferences ==>
         ppduInterferences[p].Valid() && ppduInterferences[p].allSignals == allSignals
         && ppduInterferences[p].conversion == conversion && ppduInterferences[p].status.Valid())
      && (forall p, q :: p in ppduInterferences && q in ppduInterferences && p != q ==>
            ppduInterferences[p].status != ppduInterferences[q].status)
    }

    /** The aggregate is the noise plus every signal in the air, band by band. */
    ghost predicate AggregateValid()
      reads this`noise, this`inAir, allSignals.values
    {
      noise.WellFormed() && noise.model == allSignals.model
      && allSignals.values.Length == allSignals.model.numBands
      && Composed(Aggregate(), noise.values, inAir)
    }

    ghost predicate Valid()
      reads this, allSignals.values, Statuses()
    {
      AggregateValid() && EntriesValid()
    }

    /** The clock has not run backwards past any live status's last update. */
    ghost predicate ReadyAt(now: int)
      reads this`ppduInterferences, Statuses()
    {
      forall p :: p in ppduInterferences ==> ppduInterferences[p].status.lastTime <= now
    }

    constructor (model: SpectrumModel, conversion: ConversionMatrices)
      ensures Valid()
      ensures fresh(allSignals) && fresh(allSignals.values)
      ensures allSignals.model == model && Aggregate() == Zeros(model.numBands)
      ensures noise == SpectrumValue(model, Zeros(model.numBands))
      ensures ppduInterferences == map[] && inAir == []
      ensures this.conversion == conversion
    {
      allSignals := new SharedSpectrum(model);
      this.conversion := conversion;
      noise := SpectrumValue(model, Zeros(model.numBands));
      ppduInterferences := map[];
      inAir := [];
    }

    /** ConvertToMainModel: re-express a spectrum in the aggregate's partition. */
    function ConvertToMainModel(power: SpectrumValue): (r: seq<real>)
      ensures power.model != allSignals.model ==> |r| == allSignals.model.numBands
    {
      Convert(conversion, power.model, allSignals.model, power.values)
    }

    /** A spectrum already in the aggregate's partition is used as it is;
        any other is converted. */
    function InMainModel(power: SpectrumValue): (r: seq<real>)
      requires power.WellFormed()
      ensures |r| == allSignals.model.numBands
      ensures power.model == allSignals.model ==> r == power.values
    {
      if power.model == allSignals.model then power.values else ConvertToMainModel(power)
    }

    /** Whether the PPDU is tracked: exactly when looking up its status
        succeeds. */
    function CanGetInterferenceStatus(ppdu: PpduId): (r: bool)
      reads this
      ensures r <==> GetInterferenceStatus(ppdu).Found?
    {
      ppdu in ppduInterferences
    }

    function GetInterferenceStatus(ppdu: PpduId): (r: StatusLookup)
      reads this
      ensures r.Found? <==> ppdu in ppduInterferences
      ensures r.Found? ==> r.status == ppduInterferences[ppdu].status
    {
      if ppdu in ppduInterferences then Found(ppduInterferences[ppdu].status) else NotFound
    }

    /** `*m_allSignals += *signal`, in place. */
    method AddToAggregate(signal: seq<real>)
      requires |signal| == allSignals.values.Length
      modifies allSignals.values
      ensures Aggregate() == Plus(old(Aggregate()), signal)
    {
      forall b | 0 <= b < allSignals.values.Length {
        allSignals.values[b] := allSignals.values[b] + signal[b];
      }
    }

    /** `*m_allSignals -= *signal`, in place. */
    method SubtractFromAggregate(signal: seq<real>)
      requires |signal| == allSignals.values.Length
      modifies allSignals.values
      ensures Aggregate() == Minus(old(Aggregate()), signal)
    {
      forall b | 0 <= b < allSignals.values.Length {
        allSignals.values[b] := allSignals.values[b] - signal[b];
      }
    }

    /** The loop run after every change of the aggregate: update every live
        entry once, whatever the order. */
    method UpdateEntries(now: int)
      requires EntriesValid() && ReadyAt(now)
      modifies Statuses()
      ensures ppduInterferences == old(ppduInterferences)
      ensures EntriesValid() && ReadyAt(now)
      ensures forall p :: p in ppduInterferences ==>
                ppduInterferences[p].status.State()
                == Push(old(ppduInterferences[p].status.State()),
                        ppduInterferences[p].CalculateSnrNow(), now)
    {
      var pending := ppduInterferences.Keys;
      while pending != {}
        invariant ppduInterferences == old(ppduInterferences)
        invariant pending <= ppduInterferences.Keys
        invariant EntriesValid() && ReadyAt(now)
        invariant forall p :: p in ppduInterferences && p in pending ==>
                    ppduInterferences[p].status.State() == old(ppduInterferences[p].status.State())
        invariant forall p :: p in ppduInterferences && p !in pending ==>
                    ppduInterferences[p].status.State()
                    == Push(old(ppduInterferences[p].status.State()),
                            ppduInterferences[p].CalculateSnrNow(), now)
        decreases pending
      {
        var p :| p in pending;
        UpdateEntry(p, now);
        pending := pending - {p};
      }
    }

    /** One iteration of that loop: update the entry of `p`; no other status
        changes, since no two entries share one. */
    method UpdateEntry(p: PpduId, now: int)
      requires EntriesValid() && ReadyAt(now) && p in ppduInterferences
      modifies ppduInterferences[p].status
      ensures EntriesValid() && ReadyAt(now)
      ensures ppduInterferences[p].status.State()
              == Push(old(ppduInterferences[p].status.State()),
                      ppduInterferences[p].CalculateSnrNow(), now)
      ensures forall q :: q in ppduInterferences && q != p ==>
                ppduInterferences[q].status.State() == old(ppduInterferences[q].status.State())
    {
      ppduInterferences[p].Update(now);
    }

    /** Fold a signal (in the main partition) into the aggregate, then update
        every live entry. */
    method AddSignalToOthers(signal: seq<real>, now: int)
      requires EntriesValid() && ReadyAt(now)
      requires |signal| == allSignals.values.Length
      modifies allSignals.values, Statuses()
      ensures ppduInterferences == old(ppduInterferences)
      ensures Aggregate() == Plus(old(Aggregate()), signal)
      ensures EntriesValid() && ReadyAt(now)
      ensures forall p :: p in ppduInterferences ==>
                ppduInterferences[p].status.State()
                == Push(old(ppduInterferences[p].status.State()),
                        ppduInterferences[p].CalculateSnrNow(), now)
    {
      AddToAggregate(signal);
      UpdateEntries(now);
    }

    /** The scheduled end of a signal: take it out of the aggregate, then
        update every live entry. */
    method RemoveSignalFromOthers(signal: seq<real>, now: int)
      requires Valid() && ReadyAt(now)
      requires signal in inAir
      modifies this`inAir, allSignals.values, Statuses()
      ensures Valid() && ReadyAt(now)
      ensures Aggregate() == Minus(old(Aggregate()), signal)
      ensures multiset(inAir) == multiset(old(inAir)) - multiset{signal}
      ensures forall p :: p in ppduInterferences ==>
                ppduInterferences[p].status.State()
                == Push(old(ppduInterferences[p].status.State()),
                        ppduInterferences[p].CalculateSnrNow(), now)
    {
      ForgetSignal(signal);
      SubtractFromAggregate(signal);
      UpdateEntries(now);
    }

    /** The bookkeeping half of a removal: drop one copy of `signal` from the
        signals in the air, so that the aggregate minus `signal` is composed
        of what is left. */
    ghost method ForgetSignal(signal: seq<real>)
      requires AggregateValid() && signal in inAir
      modifies this`inAir
      ensures multiset(inAir) == multiset(old(inAir)) - multiset{signal}
      ensures |signal| == |Aggregate()|
      ensures Composed(Minus(Aggregate(), signal), noise.values, inAir)
    {
      var i :| 0 <= i < |inAir| && inAir[i] == signal;
      ComposedRemove(Aggregate(), noise.values, inAir, i);
      MultisetRemove(inAir, i);
      inAir := inAir[..i] + inAir[i + 1..];
    }

    /** Fold a signal into the aggregate now; its removal is scheduled after
        `duration`. */
    method AddSignal(power: SpectrumValue, duration: int, now: int) returns (removal: Event)
      requires Valid() && ReadyAt(now)
      requires power.WellFormed() && duration >= 0
      modifies this`inAir, allSignals.values, Statuses()
      ensures Valid() && ReadyAt(now)
      ensures Aggregate() == Plus(old(Aggregate()), InMainModel(power))
      ensures inAir == old(inAir) + [InMainModel(power)]
      ensures removal == RemoveSignal(InMainModel(power), now + duration)
      ensures forall p :: p in ppduInterferences ==>
                ppduInterferences[p].status.State()
                == Push(old(ppduInterferences[p].status.State()),
                        ppduInterferences[p].CalculateSnrNow(), now)
    {
      var addedSignal := InMainModel(power);
      ghost var before := inAir;
      inAir := inAir + [addedSignal];
      AddSignalToOthers(addedSignal, now);
      ComposedAdd(old(Aggregate()), noise.values, before, addedSignal);
      removal := RemoveSignal(addedSignal, now + duration);
    }

    /** Replace the noise floor: take the old noise out of the aggregate, put
        the new one in, and update every live entry. */
    method SetNoise(newNoise: SpectrumValue, now: int)
      requires Valid() && ReadyAt(now)
      requires newNoise.WellFormed() && newNoise.model == allSignals.model
      modifies this`noise, allSignals.values, Statuses()
      ensures Valid() && ReadyAt(now)
      ensures noise == newNoise
      ensures Aggregate() == Plus(Minus(old(Aggregate()), old(noise).values), newNoise.values)
      ensures forall p :: p in ppduInterferences ==>
                ppduInterferences[p].status.State()
                == Push(old(ppduInterferences[p].status.State()),
                        ppduInterferences[p].CalculateSnrNow(), now)
    {
      SubtractFromAggregate(noise.values);
      noise := newNoise;
      AddSignalToOthers(noise.values, now);
      ComposedNoise(old(Aggregate()), old(noise).values, newNoise.values, inAir);
    }

    /** Track a PPDU: fold its power into the aggregate, create its entry
        (whose first SNR already counts the PPDU's own power), and schedule
        the signal's removal and then the entry's finish after `duration`. */
    method AddPpdu(ppdu: PpduId, power: SpectrumValue, duration: int, now: int)
      returns (status: InterferenceStatus, scheduled: seq<Event>)
      requires Valid() && ReadyAt(now)
      requires power.WellFormed() && power.model.numBands == 1 && duration >= 0
      modifies this`inAir, this`ppduInterferences, allSignals.values, Statuses()
      ensures Valid() && ReadyAt(now)
      ensures fresh(status)
      ensures ppduInterferences.Keys == old(ppduInterferences).Keys + {ppdu}
      ensures forall p :: p in old(ppduInterferences) && p != ppdu ==>
                ppduInterferences[p] == old(ppduInterferences)[p]
      ensures ppduInterferences[ppdu].status == status
      ensures ppduInterferences[ppdu].signal == power
      ensures ppduInterferences[ppdu].signalInMainModel.values == InMainModel(power)
      ensures Aggregate() == Plus(old(Aggregate()), InMainModel(power))
      ensures inAir == old(inAir) + [InMainModel(power)]
      ensures status.State() == Initial(ppduInterferences[ppdu].CalculateSnrNow(), now)
      ensures scheduled == [RemoveSignal(InMainModel(power), now + duration),
                            Finish(ppdu, now + duration)]
      ensures forall p :: p in old(ppduInterferences) ==>
                old(ppduInterferences)[p].status.State()
                == Push(old(ppduInterferences[p].status.State()),
                        old(ppduInterferences)[p].CalculateSnrNow(), now)
    {
      var convertedSignal := SpectrumValue(allSignals.model, InMainModel(power));
      var removal := AddSignal(convertedSignal, duration, now);
      var entry := TrackPpdu(ppdu, power, convertedSignal, now);
      scheduled := [removal, Finish(ppdu, now + duration)];
      status := entry.status;
    }

    /** The second half of AddPpdu: create the entry against the aggregate as
        it is now and store it under `ppdu`, replacing any entry there. */
    method TrackPpdu(ppdu: PpduId, power: SpectrumValue, signalInMainModel: SpectrumValue,
                     now: int) returns (entry: InterferenceEntry)
      requires Valid() && ReadyAt(now)
      requires power.WellFormed() && power.model.numBands == 1
      requires signalInMainModel.WellFormed() && signalInMainModel.model == allSignals.model
      modifies this`ppduInterferences
      ensures Valid() && ReadyAt(now)
      ensures fresh(entry) && fresh(entry.status)
      ensures ppduInterferences == old(ppduInterferences)[ppdu := entry]
      ensures entry.signal == power && entry.signalInMainModel == signalInMainModel
      ensures entry.allSignals == allSignals && entry.conversion == conversion
      ensures entry.status.State() == Initial(entry.CalculateSnrNow(), now)
    {
      entry := new InterferenceEntry(power, signalInMainModel, allSignals, conversion, now);
      ppduInterferences := ppduInterferences[ppdu := entry];
    }

    /** The scheduled end of a tracked PPDU: one last update of its entry,
        then drop it. A key that is no longer present makes `map::at` throw;
        the model reports that as `found == false` and changes nothing. */
    method FinishCalculation(ppdu: PpduId, now: int) returns (found: bool)
      requires Valid() && ReadyAt(now)
      modifies this`ppduInterferences, Statuses()
      ensures Valid() && ReadyAt(now)
      ensures found == (ppdu in old(ppduInterferences))
      ensures ppduInterferences == old(ppduInterferences) - {ppdu}
      ensures found ==> old(ppduInterferences)[ppdu].status.Valid()
      ensures found ==> old(ppduInterferences)[ppdu].status.State()
                        == Push(old(ppduInterferences[ppdu].status.State()),
                                old(ppduInterferences)[ppdu].CalculateSnrNow(), now)
      ensures forall p :: p in ppduInterferences ==>
                ppduInterferences[p].status.State() == old(ppduInterferences[p].status.State())
    {
      found := ppdu in ppduInterferences;
      if found {
        ppduInterferences[ppdu].Update(now);
        ppduInterferences := ppduInterferences - {ppdu};
      }
    }
  }

  /** With the entry's signal already in the aggregate's partition, its SNR
      is its power over the power of everything else in its one band. */
  lemma SnrInMainPartition(e: InterferenceEntry)
    requires e.Valid() && e.signal.model == e.allSignals.model
    ensures e.CalculateSnrNow() == Divide(e.signalInMainModel.values[0],
                                          e.allSignals.values[0] - e.signalInMainModel.values[0])
  {
    InstantSnrSameModel(e.signal.model, e.signalInMainModel.values, e.allSignals.model,
                        e.allSignals.values[..], e.conversion);
  }
}

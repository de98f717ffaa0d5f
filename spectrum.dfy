/**
 * Power spectra over a partition of the frequency axis: the parts of ns-3's
 * SpectrumModel, SpectrumValue and SpectrumConverter that the interference
 * model relies on. These are library collaborators; only their observable
 * arithmetic is modelled here.
 */
module Spectrum {

  /** A band partition. ns-3 compares partitions by pointer identity; a
      partition here is identified by its uid. */
  datatype SpectrumModel = SpectrumModel(uid: nat, numBands: nat)

  /** An immutable power spectrum: one power value per band of its partition. */
  datatype SpectrumValue = SpectrumValue(model: SpectrumModel, values: seq<real>) {
    /** A SpectrumValue always holds exactly one value per band. */
    predicate WellFormed() {
      |values| == model.numBands
    }
  }

  /** The spectrum `Create<SpectrumValue>(model)` yields: every band zero. */
  function Zeros(n: nat): (r: seq<real>)
    ensures |r| == n
    ensures forall i :: 0 <= i < n ==> r[i] == 0.0
  {
    seq(n, _ => 0.0)
  }

  /** Elementwise `+` of two spectra over the same partition. */
  function Plus(a: seq<real>, b: seq<real>): (r: seq<real>)
    requires |a| == |b|
    ensures |r| == |a|
    ensures forall i :: 0 <= i < |r| ==> r[i] == a[i] + b[i]
  {
    seq(|a|, i requires 0 <= i < |a| => a[i] + b[i])
  }

  /** Elementwise `-` of two spectra over the same partition. */
  function Minus(a: seq<real>, b: seq<real>): (r: seq<real>)
    requires |a| == |b|
    ensures |r| == |a|
    ensures forall i :: 0 <= i < |r| ==> r[i] == a[i] - b[i]
  {
    seq(|a|, i requires 0 <= i < |a| => a[i] - b[i])
  }

  /** Over a single band, adding and subtracting are those of the one value. */
  lemma SingleBand(a: real, b: real)
    ensures Plus([a], [b]) == [a + b] && Minus([a], [b]) == [a - b]
  {
  }

  /** Removing a signal that was just added restores the spectrum. */
  lemma MinusPlus(a: seq<real>, s: seq<real>)
    requires |a| == |s|
    ensures Minus(Plus(a, s), s) == a
  {
    var r := Minus(Plus(a, s), s);
    assert |r| == |a|;
    forall i | 0 <= i < |a| ensures r[i] == a[i] {
      assert Plus(a, s)[i] == a[i] + s[i];
    }
  }

  /** IEEE division of powers. Reals have no infinity and no NaN: where the
      divisor is zero (an infinite or undefined quotient in the source) the
      model yields 0. */
  function Divide(a: real, b: real): real {
    if b == 0.0 then 0.0 else a / b
  }

  /** Conversion matrices supplied by the converter collaborator: row j of
      `conversion(from, to)` holds the coefficients of target band j. The
      matrix is sparse, as ns-3 stores it: a missing row or column is a zero
      coefficient. */
  type ConversionMatrices = (SpectrumModel, SpectrumModel) -> seq<seq<real>>

  /** Sum of products over the common prefix of a matrix row and a spectrum. */
  function Dot(row: seq<real>, v: seq<real>): real
    decreases |row|
  {
    if |row| == 0 || |v| == 0 then 0.0 else row[0] * v[0] + Dot(row[1..], v[1..])
  }

  /** `SpectrumConverter(from, to).Convert(v)`: a linear map from one partition
      to another. Between a partition and itself it is the identity. */
  function Convert(conversion: ConversionMatrices, from: SpectrumModel, to: SpectrumModel,
                   v: seq<real>): (r: seq<real>)
    ensures from == to ==> r == v
    ensures from != to ==> |r| == to.numBands
  {
    if from == to then v
    else
      var m := conversion(from, to);
      seq(to.numBands, j => if 0 <= j < |m| then Dot(m[j], v) else 0.0)
  }

  lemma {:induction false} DotPlus(row: seq<real>, a: seq<real>, b: seq<real>)
    requires |a| == |b|
    ensures Dot(row, Plus(a, b)) == Dot(row, a) + Dot(row, b)
    decreases |row|
  {
    if |row| != 0 && |a| != 0 {
      assert Plus(a, b)[1..] == Plus(a[1..], b[1..]);
      DotPlus(row[1..], a[1..], b[1..]);
    }
  }

  /** The converter is linear: converting a sum is the sum of the conversions. */
  lemma ConvertPlus(conversion: ConversionMatrices, from: SpectrumModel, to: SpectrumModel,
                    a: seq<real>, b: seq<real>)
    requires |a| == |b|
    ensures var ca := Convert(conversion, from, to, a);
            var cb := Convert(conversion, from, to, b);
            |ca| == |cb| && Convert(conversion, from, to, Plus(a, b)) == Plus(ca, cb)
  {
    if from != to {
      var m := conversion(from, to);
      var ca := Convert(conversion, from, to, a);
      var cb := Convert(conversion, from, to, b);
      var cs := Convert(conversion, from, to, Plus(a, b));
      forall j | 0 <= j < to.numBands ensures cs[j] == ca[j] + cb[j] {
        if 0 <= j < |m| {
          DotPlus(m[j], a, b);
        }
      }
    }
  }

  /** Per-band SNR spectrum: own ÷ (aggregate − own). */
  function SnrSpectrum(own: seq<real>, aggregate: seq<real>): (r: seq<real>)
    requires |own| == |aggregate|
    ensures |r| == |own|
    ensures forall i :: 0 <= i < |r| ==> r[i] == Divide(own[i], aggregate[i] - own[i])
  {
    seq(|own|, i requires 0 <= i < |own| => Divide(own[i], aggregate[i] - own[i]))
  }

  /** Dividing one's own power by own + others gives own ÷ others, band by band. */
  lemma SnrSpectrumOfSum(own: seq<real>, others: seq<real>)
    requires |own| == |others|
    ensures forall i :: 0 <= i < |own| ==>
              SnrSpectrum(own, Plus(own, others))[i] == Divide(own[i], others[i])
  {
    forall i | 0 <= i < |own|
      ensures SnrSpectrum(own, Plus(own, others))[i] == Divide(own[i], others[i])
    {
      assert Plus(own, others)[i] - own[i] == others[i];
    }
  }

  /** CalculateSnrNow: the SNR spectrum own ÷ (aggregate − own) in the main
      partition, converted back to the signal's own single-band partition and
      read at its one band. */
  function InstantSnr(ownModel: SpectrumModel, ownInMain: seq<real>, mainModel: SpectrumModel,
                      aggregate: seq<real>, conversion: ConversionMatrices): real
    requires ownModel.numBands == 1
    requires |ownInMain| == |aggregate| == mainModel.numBands
  {
    Convert(conversion, mainModel, ownModel, SnrSpectrum(ownInMain, aggregate))[0]
  }

  /** When the signal's own partition is the main one, the conversion back
      is the identity and the SNR is that of the one band. */
  lemma InstantSnrSameModel(ownModel: SpectrumModel, ownInMain: seq<real>, mainModel: SpectrumModel,
                            aggregate: seq<real>, conversion: ConversionMatrices)
    requires ownModel.numBands == 1
    requires |ownInMain| == |aggregate| == mainModel.numBands
    requires ownModel == mainModel
    ensures InstantSnr(ownModel, ownInMain, mainModel, aggregate, conversion)
            == Divide(ownInMain[0], aggregate[0] - ownInMain[0])
  {
  }

  /** With the signal already in the main partition (one band), the SNR is its
      power over the power of everything else in the air. */
  lemma InstantSnrSinglePartition(model: SpectrumModel, own: real, others: real,
                                  conversion: ConversionMatrices)
    requires model.numBands == 1
    ensures InstantSnr(model, [own], model, [own + others], conversion) == Divide(own, others)
  {
    SnrSpectrumOfSum([own], [others]);
    assert Plus([own], [others]) == [own + others];
  }

  /** Band b of the sum of a list of spectra (a spectrum too short to have
      band b contributes nothing). */
  function BandSum(signals: seq<seq<real>>, b: nat): real
    decreases |signals|
  {
    if |signals| == 0 then 0.0
    else
      var s := signals[|signals| - 1];
      BandSum(signals[..|signals| - 1], b) + (if b < |s| then s[b] else 0.0)
  }

  /** Taking one spectrum out of the list takes its band b out of the sum. */
  lemma {:induction false} BandSumRemove(signals: seq<seq<real>>, i: int, b: nat)
    requires 0 <= i < |signals|
    ensures BandSum(signals, b)
            == BandSum(signals[..i] + signals[i + 1..], b)
               + (if b < |signals[i]| then signals[i][b] else 0.0)
    decreases |signals|
  {
    var n := |signals|;
    if i == n - 1 {
      assert signals[..i] + signals[i + 1..] == signals[..n - 1];
    } else {
      var init := signals[..n - 1];
      BandSumRemove(init, i, b);
      assert signals[..i] + signals[i + 1..] == (init[..i] + init[i + 1..]) + [signals[n - 1]];
    }
  }

  /** `aggregate` is `noise` plus every spectrum in `signals`, band by band. */
  ghost predicate Composed(aggregate: seq<real>, noise: seq<real>, signals: seq<seq<real>>) {
    |noise| == |aggregate|
    && (forall s :: s in signals ==> |s| == |aggregate|)
    && forall b :: 0 <= b < |aggregate| ==> aggregate[b] == noise[b] + BandSum(signals, b)
  }

  /** Adding a signal to the aggregate and to the list keeps them composed. */
  lemma ComposedAdd(aggregate: seq<real>, noise: seq<real>, signals: seq<seq<real>>,
                    s: seq<real>)
    requires Composed(aggregate, noise, signals) && |s| == |aggregate|
    ensures Composed(Plus(aggregate, s), noise, signals + [s])
  {
    assert (signals + [s])[..|signals|] == signals;
  }

  /** Subtracting a listed signal and dropping it from the list keeps them
      composed. */
  lemma ComposedRemove(aggregate: seq<real>, noise: seq<real>, signals: seq<seq<real>>, i: int)
    requires Composed(aggregate, noise, signals) && 0 <= i < |signals|
    ensures Composed(Minus(aggregate, signals[i]), noise, signals[..i] + signals[i + 1..])
  {
    var rest := signals[..i] + signals[i + 1..];
    forall s | s in rest ensures |s| == |aggregate| {
      var k :| 0 <= k < |rest| && rest[k] == s;
      if k < i {
        assert s == signals[k];
      } else {
        assert s == signals[k + 1];
      }
    }
    forall b | 0 <= b < |aggregate|
      ensures Minus(aggregate, signals[i])[b] == noise[b] + BandSum(rest, b)
    {
      BandSumRemove(signals, i, b);
    }
  }

  lemma MultisetRemove<T>(xs: seq<T>, i: int)
    requires 0 <= i < |xs|
    ensures multiset(xs[..i] + xs[i + 1..]) == multiset(xs) - multiset{xs[i]}
  {
    assert xs == xs[..i] + [xs[i]] + xs[i + 1..];
  }

  /** Swapping the noise inside the aggregate keeps it composed. */
  lemma ComposedNoise(aggregate: seq<real>, oldNoise: seq<real>, newNoise: seq<real>,
                      signals: seq<seq<real>>)
    requires Composed(aggregate, oldNoise, signals) && |newNoise| == |aggregate|
    ensures Composed(Plus(Minus(aggregate, oldNoise), newNoise), newNoise, signals)
  {
  }
}

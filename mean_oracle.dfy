/**
 * The reference mean computation of the example script: a single loop over
 * (time, SNR) pairs that prints the running time-weighted mean after each
 * pair. It is the independent reference the status's incremental update is
 * checked against.
 */
module MeanOracle {
  import opened SnrStatistics

  /** The loop of the script. `means` holds every printed mean in order. The
      script divides by `currentTime - start_time` unguarded, so a later pair
      at the start time raises ZeroDivisionError: the loop stops there, with
      `zeroDivision` set and the means printed so far. */
  method PrintedMeans(values: seq<Sample>) returns (means: seq<real>, zeroDivision: bool)
    ensures zeroDivision <==> exists i :: 0 < i < |values| && values[i].time == values[0].time
    ensures zeroDivision ==> 0 < |means| < |values| && values[|means|].time == values[0].time
    ensures !zeroDivision ==> |means| == |values|
    ensures forall i :: 0 < i < |means| ==> values[i].time != values[0].time
    ensures forall i :: 0 <= i < |means| ==> means[i] == ClosedFormMean(values[..i + 1])
    ensures forall i :: 0 <= i < |means| ==> means[i] == Replay(values[..i + 1]).meanSnr
  {
    var started := false;
    var startTime, lastTime := 0, 0;
    var lastSnr, discretSum, meanSnr := 0.0, 0.0, 0.0;
    means, zeroDivision := [], false;
    var k := 0;
    while k < |values|
      invariant 0 <= k <= |values| && |means| == k
      invariant started <==> k > 0
      invariant k == 0 ==> discretSum == 0.0
      invariant k > 0 ==> startTime == values[0].time && lastTime == values[k - 1].time
                          && lastSnr == values[k - 1].snr && discretSum == Area(values[..k])
      invariant forall i :: 0 < i < k ==> values[i].time != values[0].time
      invariant forall i :: 0 <= i < k ==> means[i] == ClosedFormMean(values[..i + 1])
    {
      var currentTime, currentSnr := values[k].time, values[k].snr;
      if !started {
        started := true;
        startTime := currentTime;
        meanSnr := currentSnr;
        assert Area(values[..1]) == 0.0;
      } else {
        assert Last(values[..k]) == values[k - 1];
        AreaSnoc(values[..k], values[k]);
        assert values[..k + 1] == values[..k] + [values[k]];
        discretSum := discretSum + lastSnr * (currentTime - lastTime) as real;
        if currentTime == startTime {
          zeroDivision := true;
          AgreesWithStatus(values, means);
          return;
        }
        meanSnr := discretSum / (currentTime - startTime) as real;
      }
      lastTime := currentTime;
      lastSnr := currentSnr;
      means := means + [meanSnr];
      k := k + 1;
    }
    AgreesWithStatus(values, means);
  }

  /** Every mean the closed form gives for a prefix is the mean a status holds
      after being created with its first sample and updated with the rest. */
  lemma AgreesWithStatus(values: seq<Sample>, means: seq<real>)
    requires |means| <= |values|
    requires forall i :: 0 <= i < |means| ==> means[i] == ClosedFormMean(values[..i + 1])
    ensures forall i :: 0 <= i < |means| ==> means[i] == Replay(values[..i + 1]).meanSnr
  {
    forall i | 0 <= i < |means| ensures means[i] == Replay(values[..i + 1]).meanSnr {
      ReplayClosedForm(values[..i + 1]);
    }
  }

  /** The script's own input: pairs (1, 5), (2, 6), (5, 7) print 5, 5 and 5.75. */
  method ScriptExample() returns (means: seq<real>, zeroDivision: bool)
    ensures means == [5.0, 5.0, 5.75] && !zeroDivision
  {
    var values := [Sample(1, 5.0), Sample(2, 6.0), Sample(5, 7.0)];
    means, zeroDivision := PrintedMeans(values);
    var late := [Sample(5, 7.0)];
    var tail := [Sample(2, 6.0)] + late;
    assert values[1..] == tail && tail[1..] == late;
    assert Area(tail) == 18.0;
    assert Area(values) == 23.0;
    assert values[..1] == [Sample(1, 5.0)] && values[..3] == values;
    assert values[..2] == [Sample(1, 5.0), Sample(2, 6.0)];
    assert Area(values[..2]) == 5.0;
  }
}

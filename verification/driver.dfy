/** The decision loop of `main`: the startup checks, then one dispatch per
    data point. The `AdapAD` controller is not part of this model; the loop
    is modelled by the sequence of controller calls it makes. */
module Driver {
  import opened Outcomes
  import opened Csv

  /** What the loop does with one data point. */
  datatype Event =
    | Warmup(observed: nat)                        // still collecting: "k/train_size to warmup training"
    | Train(trainingData: seq<real>, value: real)  // set_training_data(observed_data); train(measured_value)
    | Decide(value: real, actual: bool)            // is_anomalous(measured_value, actual_anomaly); clean()

  /** The measured values of the points, in order. */
  function Values(points: seq<DataPoint>): (r: seq<real>)
    ensures |r| == |points|
    ensures forall k :: 0 <= k < |points| ==> r[k] == points[k].value
  {
    seq(|points|, k requires 0 <= k < |points| => points[k].value)
  }

  /** One event per point: point `k` trains when `k + 1 == train_size`, on
      the values of points 0..k; it is decided, with its own value and
      label, when `train_size < k + 1`; otherwise it is warm-up `k + 1`. */
  predicate Dispatches(points: seq<DataPoint>, trainSize: nat, events: seq<Event>) {
    && |events| == |points|
    && (forall k :: 0 <= k < |points| ==> (events[k].Train? <==> k + 1 == trainSize))
    && (forall k :: 0 <= k < |points| ==> (events[k].Decide? <==> trainSize < k + 1))
    && (forall k :: 0 <= k < |points| && events[k].Train? ==>
          events[k] == Train(Values(points[..k + 1]), points[k].value))
    && (forall k :: 0 <= k < |points| && events[k].Decide? ==>
          events[k] == Decide(points[k].value, points[k].isAnomaly))
    && (forall k :: 0 <= k < |points| && events[k].Warmup? ==> events[k] == Warmup(k + 1))
  }

  /** The loop over the data points. `observed_data` grows by one value per
      point; training happens at the point where its size first equals
      `train_size`, on exactly the values seen so far, and every later point
      goes to the anomaly decision with its own value and label. */
  method Drive(points: seq<DataPoint>, trainSize: nat) returns (events: seq<Event>)
    ensures Dispatches(points, trainSize, events)
  {
    var observed: seq<real> := [];
    events := [];
    var k := 0;
    while k < |points|
      invariant 0 <= k <= |points|
      invariant |events| == k
      invariant observed == Values(points[..k])
      invariant forall j :: 0 <= j < k ==> (events[j].Train? <==> j + 1 == trainSize)
      invariant forall j :: 0 <= j < k ==> (events[j].Decide? <==> trainSize < j + 1)
      invariant forall j :: 0 <= j < k && events[j].Train? ==>
        events[j] == Train(Values(points[..j + 1]), points[j].value)
      invariant forall j :: 0 <= j < k && events[j].Decide? ==>
        events[j] == Decide(points[j].value, points[j].isAnomaly)
      invariant forall j :: 0 <= j < k && events[j].Warmup? ==> events[j] == Warmup(j + 1)
    {
      var point := points[k];
      observed := observed + [point.value];
      assert observed == Values(points[..k + 1]);
      var size := |observed|;
      var e;
      if size == trainSize {
        e := Train(observed, point.value);
      } else if size > trainSize {
        e := Decide(point.value, point.isAnomaly);
      } else {
        e := Warmup(size);
      }
      events := events + [e];
      k := k + 1;
    }
  }

  function CountTrain(events: seq<Event>): nat {
    if |events| == 0 then 0
    else CountTrain(events[..|events| - 1]) + (if events[|events| - 1].Train? then 1 else 0)
  }

  function CountDecide(events: seq<Event>): nat {
    if |events| == 0 then 0
    else CountDecide(events[..|events| - 1]) + (if events[|events| - 1].Decide? then 1 else 0)
  }

  /** With the dispatch of `Drive`, training happens exactly once when
      there are at least `train_size >= 1` points, and never otherwise. */
  lemma {:induction false} TrainFiresOnce(events: seq<Event>, trainSize: nat)
    requires forall k :: 0 <= k < |events| ==> (events[k].Train? <==> k + 1 == trainSize)
    ensures CountTrain(events) == if 1 <= trainSize <= |events| then 1 else 0
  {
    if |events| > 0 {
      var prefix := events[..|events| - 1];
      assert forall k :: 0 <= k < |prefix| ==> prefix[k] == events[k];
      TrainFiresOnce(prefix, trainSize);
    }
  }

  /** With the dispatch of `Drive`, `max(0, n - train_size)` points go to the
      anomaly decision. */
  lemma {:induction false} DecisionsAfterWarmup(events: seq<Event>, trainSize: nat)
    requires forall k :: 0 <= k < |events| ==> (events[k].Decide? <==> trainSize < k + 1)
    ensures CountDecide(events) == if trainSize <= |events| then |events| - trainSize else 0
  {
    if |events| > 0 {
      var prefix := events[..|events| - 1];
      assert forall k :: 0 <= k < |prefix| ==> prefix[k] == events[k];
      DecisionsAfterWarmup(prefix, trainSize);
    }
  }

  /** `main` after configuration loading: a zero minimal threshold and an
      empty data set are refused before any point is processed; otherwise
      every point is dispatched, training once (for `train_size >= 1` and
      enough points) and deciding on every point after the warm-up. */
  method Run(minimalThreshold: real, points: seq<DataPoint>, trainSize: nat) returns (r: Result<seq<Event>>)
    ensures minimalThreshold == 0.0 ==> r == Failure(MissingMinimalThreshold)
    ensures minimalThreshold != 0.0 && |points| == 0 ==> r == Failure(NoData)
    ensures r.Success? <==> minimalThreshold != 0.0 && 0 < |points|
    ensures r.Success? ==>
      && Dispatches(points, trainSize, r.value)
      && CountTrain(r.value) == (if 1 <= trainSize <= |points| then 1 else 0)
      && CountDecide(r.value) == (if trainSize <= |points| then |points| - trainSize else 0)
  {
    if minimalThreshold == 0.0 {
      return Failure(MissingMinimalThreshold);
    }
    if |points| == 0 {
      return Failure(NoData);
    }
    var events := Drive(points, trainSize);
    TrainFiresOnce(events, trainSize);
    DecisionsAfterWarmup(events, trainSize);
    return Success(events);
  }
}

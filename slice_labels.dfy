/** Label materialisation: per-slice indicator and predictor labels written into
    the label store of a dataset. */
module SliceLabels {
  import opened Collections
  import opened SliceNames
  import opened BaseSlice
  import opened Tasks

  /** The label store of a dataset: one label array per task name, updated in place. */
  class Dataset {
    var labelsByTask: map<string, seq<int>>

    constructor (labelsByTask: map<string, seq<int>>)
      ensures this.labelsByTask == labelsByTask
    {
      this.labelsByTask := labelsByTask;
    }
  }

  /** Why materialisation stops: the width check fails, the base task has no labels,
      or the base labels do not have one entry per example. */
  datatype LabelError = ShapeMismatch | MissingBaseLabels | LabelLengthMismatch

  datatype Outcome = Pass | Fail(error: LabelError)

  /** Indicator labels of column i: `convert` recodes each membership value on its own. */
  function IndicatorLabels(m: Matrix, i: nat, convert: int -> int): seq<int>
    requires m.WellFormed() && i < m.cols
  {
    seq(|m.rows|, e requires 0 <= e < |m.rows| => convert(m.rows[e][i]))
  }

  /** Predictor labels of column i: membership times the base label. */
  function PredictorLabels(m: Matrix, i: nat, labels: seq<int>): (r: seq<int>)
    requires m.WellFormed() && i < m.cols && |labels| == |m.rows|
    ensures |r| == |m.rows|
    ensures forall e :: 0 <= e < |r| && m.rows[e][i] == 0 ==> r[e] == 0
    ensures forall e :: 0 <= e < |r| && m.rows[e][i] == 1 ==> r[e] == labels[e]
  {
    seq(|m.rows|, e requires 0 <= e < |m.rows| => m.rows[e][i] * labels[e])
  }

  /** The entries written for the first |names| columns, in loop order. */
  function SliceLabelEntries(task: string, m: Matrix, names: seq<string>, labels: seq<int>,
                             convert: int -> int): map<string, seq<int>>
    requires m.WellFormed() && |names| <= m.cols && |labels| == |m.rows|
  {
    if names == [] then map[]
    else
      var i := |names| - 1;
      SliceLabelEntries(task, m, names[..i], labels, convert)
        [IndTaskName(task, names[i]) := IndicatorLabels(m, i, convert)]
        [PredTaskName(task, names[i]) := PredictorLabels(m, i, labels)]
  }

  function SliceLabelKeys(task: string, names: seq<string>): set<string> {
    (set s | s in names :: IndTaskName(task, s)) + (set s | s in names :: PredTaskName(task, s))
  }

  lemma SliceLabelKeysSnoc(task: string, names: seq<string>)
    requires names != []
    ensures SliceLabelKeys(task, names)
            == SliceLabelKeys(task, names[..|names| - 1])
               + {IndTaskName(task, names[|names| - 1]), PredTaskName(task, names[|names| - 1])}
  {
    var n := |names| - 1;
    assert names == names[..n] + [names[n]];
    assert forall s :: s in names <==> s in names[..n] || s == names[n];
  }

  lemma SliceLabelEntriesSnoc(task: string, m: Matrix, names: seq<string>, labels: seq<int>,
                              convert: int -> int, i: nat)
    requires m.WellFormed() && i < |names| <= m.cols && |labels| == |m.rows|
    ensures SliceLabelEntries(task, m, names[..i + 1], labels, convert)
            == SliceLabelEntries(task, m, names[..i], labels, convert)
                 [IndTaskName(task, names[i]) := IndicatorLabels(m, i, convert)]
                 [PredTaskName(task, names[i]) := PredictorLabels(m, i, labels)]
  {
    assert names[..i + 1][..i] == names[..i];
  }

  /** The entries are keyed exactly by the slice task names, never by the base task's. */
  lemma {:induction false} SliceLabelEntriesKeys(task: string, m: Matrix, names: seq<string>,
                                                 labels: seq<int>, convert: int -> int)
    requires m.WellFormed() && |names| <= m.cols && |labels| == |m.rows|
    ensures SliceLabelEntries(task, m, names, labels, convert).Keys == SliceLabelKeys(task, names)
    ensures task !in SliceLabelKeys(task, names)
  {
    if names != [] {
      var n := |names| - 1;
      SliceLabelEntriesKeys(task, m, names[..n], labels, convert);
      SliceLabelKeysSnoc(task, names);
      TaskNamesInjective(task, names[n], names[n]);
    }
  }

  /** With distinct slice names, every slice's two keys hold that slice's own labels. */
  lemma {:induction false} SliceLabelEntriesAt(task: string, m: Matrix, names: seq<string>,
                                               labels: seq<int>, convert: int -> int)
    requires m.WellFormed() && |names| <= m.cols && |labels| == |m.rows| && Distinct(names)
    ensures forall i :: 0 <= i < |names| ==>
              && IndTaskName(task, names[i]) in SliceLabelEntries(task, m, names, labels, convert)
              && PredTaskName(task, names[i]) in SliceLabelEntries(task, m, names, labels, convert)
              && SliceLabelEntries(task, m, names, labels, convert)[IndTaskName(task, names[i])]
                 == IndicatorLabels(m, i, convert)
              && SliceLabelEntries(task, m, names, labels, convert)[PredTaskName(task, names[i])]
                 == PredictorLabels(m, i, labels)
  {
    if names != [] {
      var n := |names| - 1;
      var prefix := names[..n];
      SliceLabelEntriesAt(task, m, prefix, labels, convert);
      SliceLabelEntriesKeys(task, m, prefix, labels, convert);
      var before := SliceLabelEntries(task, m, prefix, labels, convert);
      var ik, pk := IndTaskName(task, names[n]), PredTaskName(task, names[n]);
      var after := SliceLabelEntries(task, m, names, labels, convert);
      assert after == before[ik := IndicatorLabels(m, n, convert)][pk := PredictorLabels(m, n, labels)];
      TaskNamesInjective(task, names[n], names[n]);
      forall i | 0 <= i < n
        ensures IndTaskName(task, names[i]) in after && PredTaskName(task, names[i]) in after
        ensures after[IndTaskName(task, names[i])] == IndicatorLabels(m, i, convert)
        ensures after[PredTaskName(task, names[i])] == PredictorLabels(m, i, labels)
      {
        assert prefix[i] == names[i];
        TaskNamesInjective(task, names[i], names[n]);
        TaskNamesInjective(task, names[n], names[i]);
      }
    }
  }

  /** The indicator entries do not depend on the base labels: two label arrays give the
      same store except under predictor keys. */
  lemma {:induction false} IndicatorIgnoresBaseLabels(task: string, m: Matrix, names: seq<string>,
                                                      labels1: seq<int>, labels2: seq<int>, convert: int -> int)
    requires m.WellFormed() && |names| <= m.cols && |labels1| == |m.rows| && |labels2| == |m.rows|
    ensures SliceLabelEntries(task, m, names, labels1, convert).Keys
            == SliceLabelEntries(task, m, names, labels2, convert).Keys
    ensures forall k :: k in SliceLabelEntries(task, m, names, labels1, convert) &&
                        k !in (set s | s in names :: PredTaskName(task, s)) ==>
              SliceLabelEntries(task, m, names, labels1, convert)[k]
              == SliceLabelEntries(task, m, names, labels2, convert)[k]
  {
    if names != [] {
      var n := |names| - 1;
      IndicatorIgnoresBaseLabels(task, m, names[..n], labels1, labels2, convert);
      assert forall s :: s in names[..n] ==> s in names;
    }
  }

  /** The label store after materialisation: the slice task names are added with each
      slice's own labels, and every other entry, the base task's labels included, is kept. */
  lemma SliceLabelStore(store: map<string, seq<int>>, task: string, m: Matrix, names: seq<string>,
                        labels: seq<int>, convert: int -> int)
    requires m.WellFormed() && |names| <= m.cols && |labels| == |m.rows|
    requires task in store && store[task] == labels
    ensures var r := store + SliceLabelEntries(task, m, names, labels, convert);
            && r.Keys == store.Keys + SliceLabelKeys(task, names)
            && (forall k :: k in store && k !in SliceLabelKeys(task, names) ==> r[k] == store[k])
            && r[task] == labels
    ensures Distinct(names) ==>
              var r := store + SliceLabelEntries(task, m, names, labels, convert);
              forall i :: 0 <= i < |names| ==>
                && IndTaskName(task, names[i]) in r && r[IndTaskName(task, names[i])] == IndicatorLabels(m, i, convert)
                && PredTaskName(task, names[i]) in r && r[PredTaskName(task, names[i])] == PredictorLabels(m, i, labels)
  {
    SliceLabelEntriesKeys(task, m, names, labels, convert);
    if Distinct(names) {
      SliceLabelEntriesAt(task, m, names, labels, convert);
    }
  }

  /** The loop of the materialisation: for each slice in order, store its indicator
      labels, then its predictor labels. */
  method WriteSliceLabels(dataset: Dataset, task: string, m: Matrix, names: seq<string>,
                          labels: seq<int>, convert: int -> int)
    requires m.WellFormed() && |names| <= m.cols && |labels| == |m.rows|
    modifies dataset
    ensures dataset.labelsByTask
            == old(dataset.labelsByTask) + SliceLabelEntries(task, m, names, labels, convert)
  {
    for i := 0 to |names|
      invariant dataset.labelsByTask
                == old(dataset.labelsByTask) + SliceLabelEntries(task, m, names[..i], labels, convert)
    {
      var indLabels := IndicatorLabels(m, i, convert);
      var predLabels := PredictorLabels(m, i, labels);
      dataset.labelsByTask := dataset.labelsByTask[IndTaskName(task, names[i]) := indLabels];
      dataset.labelsByTask := dataset.labelsByTask[PredTaskName(task, names[i]) := predLabels];
      SliceLabelEntriesSnoc(task, m, names, labels, convert, i);
      UnionUpdate2(old(dataset.labelsByTask), SliceLabelEntries(task, m, names[..i], labels, convert),
                   IndTaskName(task, names[i]), indLabels, PredTaskName(task, names[i]), predLabels);
    }
    assert names[..|names|] == names;
  }

  /** Adds the indicator and predictor labels of every (base-normalised) slice to the
      dataset's label store, keyed by the slice task names. Every check happens before
      the first write, so a failed call leaves the store as it was. */
  method AddSliceLabels(dataset: Dataset, baseTask: Task, sliceLabels: Matrix,
                        sliceNames: seq<string>, convert: int -> int)
    returns (outcome: Outcome)
    requires sliceLabels.WellFormed()
    modifies dataset
    ensures outcome == Fail(ShapeMismatch) <==> sliceLabels.cols != |sliceNames|
    ensures outcome == Fail(MissingBaseLabels) <==>
              sliceLabels.cols == |sliceNames| && baseTask.name !in old(dataset.labelsByTask)
    ensures outcome == Fail(LabelLengthMismatch) <==>
              && sliceLabels.cols == |sliceNames|
              && baseTask.name in old(dataset.labelsByTask)
              && |old(dataset.labelsByTask)[baseTask.name]| != |sliceLabels.rows|
    ensures outcome.Fail? ==> dataset.labelsByTask == old(dataset.labelsByTask)
    ensures outcome.Pass? ==>
              var m := AddBaseSlice(sliceLabels, sliceNames).0;
              var names := WithBase(sliceNames);
              var labels := old(dataset.labelsByTask)[baseTask.name];
              && m.cols == |names| && |labels| == |m.rows|
              && dataset.labelsByTask
                 == old(dataset.labelsByTask) + SliceLabelEntries(baseTask.name, m, names, labels, convert)
              && dataset.labelsByTask.Keys == old(dataset.labelsByTask).Keys + SliceLabelKeys(baseTask.name, names)
              && (forall k :: k in old(dataset.labelsByTask) && k !in SliceLabelKeys(baseTask.name, names) ==>
                    dataset.labelsByTask[k] == old(dataset.labelsByTask)[k])
              && dataset.labelsByTask[baseTask.name] == labels
              && (Distinct(sliceNames) ==>
                    forall i :: 0 <= i < |names| ==>
                      && dataset.labelsByTask[IndTaskName(baseTask.name, names[i])] == IndicatorLabels(m, i, convert)
                      && dataset.labelsByTask[PredTaskName(baseTask.name, names[i])] == PredictorLabels(m, i, labels))
  {
    var normalised := AddBaseSlice(sliceLabels, sliceNames);
    var m, names := normalised.0, normalised.1;
    if m.cols != |names| {
      return Fail(ShapeMismatch);
    }
    if baseTask.name !in dataset.labelsByTask {
      return Fail(MissingBaseLabels);
    }
    var labels := dataset.labelsByTask[baseTask.name];
    if |labels| != |m.rows| {
      return Fail(LabelLengthMismatch);
    }
    WriteSliceLabels(dataset, baseTask.name, m, names, labels, convert);
    SliceLabelStore(old(dataset.labelsByTask), baseTask.name, m, names, labels, convert);
    outcome := Pass;
  }
}

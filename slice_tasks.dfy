/** Task graph expansion: one base task becomes per-slice indicator tasks,
    per-slice predictor tasks and a master task, all built on the base task's body. */
module SliceTasks {
  import opened Collections
  import opened SliceNames
  import opened Tasks

  /** Indicator tasks are scored by F1, since slice membership is usually rare. */
  const F1Scorer: Scorer := Scorer(["f1"])

  // The decomposition of the base task: its last operation is taken as the head.

  function HeadOp(flow: seq<Operation>): Operation
    requires |flow| > 0
  {
    flow[|flow| - 1]
  }

  function BodyFlow(flow: seq<Operation>): seq<Operation>
    requires |flow| > 0
  {
    flow[..|flow| - 1]
  }

  /** The base task can be expanded: its flow is not empty, its last operation's module
      is in the pool and, once a replication wrapper is unwrapped, is a linear layer. */
  predicate HasLinearHead(t: Task)
    reads t.pool
  {
    && |t.flow| > 0
    && HeadOp(t.flow).moduleName in t.pool.modules
    && Unwrap(t.pool.modules[HeadOp(t.flow).moduleName]).kind.Linear?
  }

  /** The head module with any replication wrapper removed. */
  function HeadModule(t: Task): (m: Module)
    reads t.pool
    requires HasLinearHead(t)
    ensures m.kind.Linear?
  {
    Unwrap(t.pool.modules[HeadOp(t.flow).moduleName])
  }

  // The operations added for one slice.

  function IndHeadOp(task: string, slice: string, inputs: seq<InputRef>, opName: string -> string): Operation {
    NewOperation(IndHeadName(task, slice), inputs, opName)
  }

  function PredTransformOp(task: string, slice: string, inputs: seq<InputRef>, opName: string -> string): Operation {
    NewOperation(PredTransformName(task, slice), inputs, opName)
  }

  function PredHeadOp(task: string, slice: string, opName: string -> string): Operation {
    NewOperation(PredHeadName(task, slice), [OpOutput(opName(PredTransformName(task, slice)), 0)], opName)
  }

  /** The indicator operations of all slices, in slice order. */
  function IndHeadOps(task: string, names: seq<string>, inputs: seq<InputRef>, opName: string -> string): seq<Operation> {
    if names == [] then []
    else IndHeadOps(task, names[..|names| - 1], inputs, opName)
         + [IndHeadOp(task, names[|names| - 1], inputs, opName)]
  }

  /** The predictor operations of all slices, a transform then a head per slice. */
  function PredOps(task: string, names: seq<string>, inputs: seq<InputRef>, opName: string -> string): seq<Operation> {
    if names == [] then []
    else PredOps(task, names[..|names| - 1], inputs, opName)
         + [PredTransformOp(task, names[|names| - 1], inputs, opName), PredHeadOp(task, names[|names| - 1], opName)]
  }

  function CombinerOp(task: string, opName: string -> string): Operation {
    NewOperation(MasterCombinerName(task), [], opName)
  }

  function MasterHeadOp(task: string, opName: string -> string): Operation {
    NewOperation(MasterHeadName(task), [OpOutput(opName(MasterCombinerName(task)), 0)], opName)
  }

  // The tasks built for a base task.

  function IndicatorTask(base: Task, slice: string, opName: string -> string): Task
    requires |base.flow| > 0
  {
    Task(IndTaskName(base.name, slice), base.pool,
         BodyFlow(base.flow) + [IndHeadOp(base.name, slice, HeadOp(base.flow).inputs, opName)],
         F1Scorer)
  }

  function IndicatorTasks(base: Task, names: seq<string>, opName: string -> string): seq<Task>
    requires |base.flow| > 0
  {
    seq(|names|, i requires 0 <= i < |names| => IndicatorTask(base, names[i], opName))
  }

  function PredictorTask(base: Task, slice: string, opName: string -> string): Task
    requires |base.flow| > 0
  {
    Task(PredTaskName(base.name, slice), base.pool,
         BodyFlow(base.flow)
         + [PredTransformOp(base.name, slice, HeadOp(base.flow).inputs, opName), PredHeadOp(base.name, slice, opName)],
         base.scorer)
  }

  function PredictorTasks(base: Task, names: seq<string>, opName: string -> string): seq<Task>
    requires |base.flow| > 0
  {
    seq(|names|, i requires 0 <= i < |names| => PredictorTask(base, names[i], opName))
  }

  function MasterFlow(base: Task, names: seq<string>, opName: string -> string): seq<Operation>
    requires |base.flow| > 0
  {
    BodyFlow(base.flow)
    + IndHeadOps(base.name, names, HeadOp(base.flow).inputs, opName)
    + PredOps(base.name, names, HeadOp(base.flow).inputs, opName)
    + [CombinerOp(base.name, opName), MasterHeadOp(base.name, opName)]
  }

  function MasterTask(base: Task, names: seq<string>, pool: ModulePool, opName: string -> string): Task
    requires |base.flow| > 0
  {
    Task(base.name, pool, MasterFlow(base, names, opName), base.scorer)
  }

  /** The returned list: the indicator tasks, the predictor tasks, then the master task. */
  function ExpandedTasks(base: Task, names: seq<string>, masterPool: ModulePool, opName: string -> string): seq<Task>
    requires |base.flow| > 0
  {
    IndicatorTasks(base, names, opName) + PredictorTasks(base, names, opName) + [MasterTask(base, names, masterPool, opName)]
  }

  // Names of what is built.

  function IndHeadNames(task: string, names: seq<string>): set<string> {
    set s | s in names :: IndHeadName(task, s)
  }

  function PredModuleNames(task: string, names: seq<string>): set<string> {
    (set s | s in names :: PredTransformName(task, s)) + (set s | s in names :: PredHeadName(task, s))
  }

  function SliceModuleNames(task: string, names: seq<string>): set<string> {
    IndHeadNames(task, names) + PredModuleNames(task, names)
  }

  function TaskNames(tasks: seq<Task>): seq<string> {
    seq(|tasks|, i requires 0 <= i < |tasks| => tasks[i].name)
  }

  // Properties of the specification.

  lemma {:induction false} IndHeadOpsAt(task: string, names: seq<string>, inputs: seq<InputRef>, opName: string -> string)
    ensures |IndHeadOps(task, names, inputs, opName)| == |names|
    ensures forall i :: 0 <= i < |names| ==>
              IndHeadOps(task, names, inputs, opName)[i] == IndHeadOp(task, names[i], inputs, opName)
  {
    if names != [] {
      var n := |names| - 1;
      IndHeadOpsAt(task, names[..n], inputs, opName);
    }
  }

  lemma {:induction false} PredOpsAt(task: string, names: seq<string>, inputs: seq<InputRef>, opName: string -> string)
    ensures |PredOps(task, names, inputs, opName)| == 2 * |names|
    ensures forall i :: 0 <= i < |names| ==>
              && PredOps(task, names, inputs, opName)[2 * i] == PredTransformOp(task, names[i], inputs, opName)
              && PredOps(task, names, inputs, opName)[2 * i + 1] == PredHeadOp(task, names[i], opName)
  {
    if names != [] {
      var n := |names| - 1;
      PredOpsAt(task, names[..n], inputs, opName);
    }
  }

  lemma MasterFlowIndicatorOps(base: Task, names: seq<string>, opName: string -> string)
    requires |base.flow| > 0
    ensures forall i :: 0 <= i < |names| ==>
              && |base.flow| - 1 + i < |MasterFlow(base, names, opName)|
              && MasterFlow(base, names, opName)[|base.flow| - 1 + i]
                 == IndHeadOp(base.name, names[i], HeadOp(base.flow).inputs, opName)
  {
    var inputs := HeadOp(base.flow).inputs;
    var body, ind := BodyFlow(base.flow), IndHeadOps(base.name, names, inputs, opName);
    var rest := PredOps(base.name, names, inputs, opName) + [CombinerOp(base.name, opName), MasterHeadOp(base.name, opName)];
    IndHeadOpsAt(base.name, names, inputs, opName);
    assert MasterFlow(base, names, opName) == (body + ind) + rest;
  }

  lemma MasterFlowParts(base: Task, names: seq<string>, opName: string -> string)
    requires |base.flow| > 0
    ensures var inputs := HeadOp(base.flow).inputs;
            var pre := BodyFlow(base.flow) + IndHeadOps(base.name, names, inputs, opName);
            && |pre| == |base.flow| - 1 + |names|
            && |PredOps(base.name, names, inputs, opName)| == 2 * |names|
            && MasterFlow(base, names, opName)
               == pre + PredOps(base.name, names, inputs, opName) + [CombinerOp(base.name, opName), MasterHeadOp(base.name, opName)]
  {
    IndHeadOpsAt(base.name, names, HeadOp(base.flow).inputs, opName);
    PredOpsAt(base.name, names, HeadOp(base.flow).inputs, opName);
  }

  lemma MasterFlowPredictorOps(base: Task, names: seq<string>, opName: string -> string)
    requires |base.flow| > 0
    ensures forall i :: 0 <= i < |names| ==>
              && |base.flow| - 1 + |names| + 2 * i + 1 < |MasterFlow(base, names, opName)|
              && MasterFlow(base, names, opName)[|base.flow| - 1 + |names| + 2 * i]
                 == PredTransformOp(base.name, names[i], HeadOp(base.flow).inputs, opName)
              && MasterFlow(base, names, opName)[|base.flow| - 1 + |names| + 2 * i + 1]
                 == PredHeadOp(base.name, names[i], opName)
  {
    var inputs := HeadOp(base.flow).inputs;
    var pre := BodyFlow(base.flow) + IndHeadOps(base.name, names, inputs, opName);
    var pred := PredOps(base.name, names, inputs, opName);
    var tail := [CombinerOp(base.name, opName), MasterHeadOp(base.name, opName)];
    MasterFlowParts(base, names, opName);
    PredOpsAt(base.name, names, inputs, opName);
    forall i | 0 <= i < |names|
      ensures |base.flow| - 1 + |names| + 2 * i + 1 < |MasterFlow(base, names, opName)|
      ensures MasterFlow(base, names, opName)[|base.flow| - 1 + |names| + 2 * i]
              == PredTransformOp(base.name, names[i], inputs, opName)
      ensures MasterFlow(base, names, opName)[|base.flow| - 1 + |names| + 2 * i + 1]
              == PredHeadOp(base.name, names[i], opName)
    {
      ConcatAt(pre, pred, tail, 2 * i);
      ConcatAt(pre, pred, tail, 2 * i + 1);
    }
  }

  /** The master flow is the body, every indicator operation, every predictor operation
      pair, then the combiner (with no inputs) and the reused head fed by the combiner. */
  lemma MasterFlowShape(base: Task, names: seq<string>, opName: string -> string)
    requires |base.flow| > 0
    ensures |MasterFlow(base, names, opName)| == (|base.flow| - 1) + 3 * |names| + 2
    ensures MasterFlow(base, names, opName)[..|base.flow| - 1] == BodyFlow(base.flow)
    ensures forall i :: 0 <= i < |names| ==>
              && MasterFlow(base, names, opName)[|base.flow| - 1 + i]
                 == IndHeadOp(base.name, names[i], HeadOp(base.flow).inputs, opName)
              && MasterFlow(base, names, opName)[|base.flow| - 1 + |names| + 2 * i]
                 == PredTransformOp(base.name, names[i], HeadOp(base.flow).inputs, opName)
              && MasterFlow(base, names, opName)[|base.flow| - 1 + |names| + 2 * i + 1]
                 == PredHeadOp(base.name, names[i], opName)
    ensures var f := MasterFlow(base, names, opName);
            && f[|f| - 2].moduleName == MasterCombinerName(base.name)
            && f[|f| - 2].inputs == []
            && f[|f| - 1].moduleName == MasterHeadName(base.name)
            && f[|f| - 1].inputs == [OpOutput(f[|f| - 2].name, 0)]
  {
    IndHeadOpsAt(base.name, names, HeadOp(base.flow).inputs, opName);
    PredOpsAt(base.name, names, HeadOp(base.flow).inputs, opName);
    MasterFlowIndicatorOps(base, names, opName);
    MasterFlowPredictorOps(base, names, opName);
  }

  /** What each returned task is. The i-th indicator task is named after slice i, shares
      the base pool, is scored by F1, and runs the body then one operation on the slice's
      indicator head fed by the original head's inputs. The i-th predictor task shares the
      base pool, keeps the base scorer, and runs the body, the slice's transform on the
      original head's inputs, then the predictor head on the transform's output. The
      master task keeps the base task's name and scorer and has its own pool. */
  lemma ExpandedTasksAt(base: Task, names: seq<string>, masterPool: ModulePool, opName: string -> string)
    requires |base.flow| > 0
    ensures |ExpandedTasks(base, names, masterPool, opName)| == 2 * |names| + 1
    ensures var ts, body := ExpandedTasks(base, names, masterPool, opName), BodyFlow(base.flow);
            forall i :: 0 <= i < |names| ==>
              && ts[i].name == IndTaskName(base.name, names[i])
              && ts[i].pool == base.pool && ts[i].scorer == F1Scorer
              && |ts[i].flow| == |body| + 1 && ts[i].flow[..|body|] == body
              && ts[i].flow[|body|].moduleName == IndHeadName(base.name, names[i])
              && ts[i].flow[|body|].inputs == HeadOp(base.flow).inputs
    ensures var ts, body := ExpandedTasks(base, names, masterPool, opName), BodyFlow(base.flow);
            forall i :: |names| <= i < 2 * |names| ==>
              && ts[i].name == PredTaskName(base.name, names[i - |names|])
              && ts[i].pool == base.pool && ts[i].scorer == base.scorer
              && |ts[i].flow| == |body| + 2 && ts[i].flow[..|body|] == body
              && ts[i].flow[|body|].moduleName == PredTransformName(base.name, names[i - |names|])
              && ts[i].flow[|body|].inputs == HeadOp(base.flow).inputs
              && ts[i].flow[|body| + 1].moduleName == PredHeadName(base.name, names[i - |names|])
              && ts[i].flow[|body| + 1].inputs == [OpOutput(ts[i].flow[|body|].name, 0)]
    ensures var ts := ExpandedTasks(base, names, masterPool, opName);
            && ts[2 * |names|].name == base.name && ts[2 * |names|].pool == masterPool
            && ts[2 * |names|].scorer == base.scorer && ts[2 * |names|].flow == MasterFlow(base, names, opName)
  {
    var ts, n := ExpandedTasks(base, names, masterPool, opName), |names|;
    var ind, pred := IndicatorTasks(base, names, opName), PredictorTasks(base, names, opName);
    assert ts == ind + pred + [MasterTask(base, names, masterPool, opName)];
    forall i | n <= i < 2 * n
      ensures ts[i] == PredictorTask(base, names[i - n], opName)
    {
      assert ts[i] == pred[i - n];
    }
  }

  /** A list laid out as the returned task names (indicator names, predictor names, the
      base task's name) has no repeats exactly when the slice names have none. */
  lemma TaskNameLayoutDistinct(task: string, names: seq<string>, r: seq<string>)
    requires |r| == 2 * |names| + 1
    requires forall i :: 0 <= i < |names| ==> r[i] == IndTaskName(task, names[i])
    requires forall i :: |names| <= i < 2 * |names| ==> r[i] == PredTaskName(task, names[i - |names|])
    requires r[2 * |names|] == task
    ensures Distinct(r) <==> Distinct(names)
  {
    var n := |names|;
    if Distinct(names) {
      forall i, j | 0 <= i < j < |r|
        ensures r[i] != r[j]
      {
        if j < n {
          TaskNamesInjective(task, names[i], names[j]);
        } else if j < 2 * n {
          if i < n {
            TaskNamesInjective(task, names[i], names[j - n]);
          } else {
            TaskNamesInjective(task, names[i - n], names[j - n]);
          }
        } else if i < n {
          TaskNamesInjective(task, names[i], names[i]);
        } else {
          TaskNamesInjective(task, names[i - n], names[i - n]);
        }
      }
    } else {
      var i, j :| 0 <= i < j < n && names[i] == names[j];
      assert r[i] == r[j];
    }
  }

  /** The 2N+1 returned task names are pairwise distinct exactly when the slice names are. */
  lemma ExpandedTaskNamesDistinct(base: Task, names: seq<string>, masterPool: ModulePool, opName: string -> string)
    requires |base.flow| > 0
    ensures Distinct(TaskNames(ExpandedTasks(base, names, masterPool, opName))) <==> Distinct(names)
  {
    ExpandedTasksAt(base, names, masterPool, opName);
    TaskNameLayoutDistinct(base.name, names, TaskNames(ExpandedTasks(base, names, masterPool, opName)));
  }

  /** With distinct slice names, the per-slice module names are pairwise distinct. */
  lemma SliceModuleNamesDistinct(task: string, names: seq<string>)
    requires Distinct(names)
    ensures forall i, j :: 0 <= i < j < |names| ==>
              && IndHeadName(task, names[i]) != IndHeadName(task, names[j])
              && PredTransformName(task, names[i]) != PredTransformName(task, names[j])
              && PredHeadName(task, names[i]) != PredHeadName(task, names[j])
    ensures IndHeadNames(task, names) !! PredModuleNames(task, names)
  {
    forall i, j | 0 <= i < j < |names|
      ensures IndHeadName(task, names[i]) != IndHeadName(task, names[j])
      ensures PredTransformName(task, names[i]) != PredTransformName(task, names[j])
      ensures PredHeadName(task, names[i]) != PredHeadName(task, names[j])
    {
      ModuleNamesInjective(task, names[i], names[j]);
    }
    forall a, b | a in names && b in names
      ensures IndHeadName(task, a) != PredTransformName(task, b)
      ensures IndHeadName(task, a) != PredHeadName(task, b)
    {
      ModuleNamesInjective(task, a, b);
    }
  }

  // The pool entries registered by the two loops.

  /** The indicator heads of the slices, each under its slice's head name. */
  function IndicatorEntries(task: string, names: seq<string>, heads: seq<Module>): map<string, Module>
    requires |heads| == |names|
  {
    if names == [] then map[]
    else
      var n := |names| - 1;
      IndicatorEntries(task, names[..n], heads[..n])[IndHeadName(task, names[n]) := heads[n]]
  }

  /** Per slice, its transform and the shared head, under the slice's module names. */
  function PredictorEntries(task: string, names: seq<string>, transforms: seq<Module>, head: Module): map<string, Module>
    requires |transforms| == |names|
  {
    if names == [] then map[]
    else
      var n := |names| - 1;
      PredictorEntries(task, names[..n], transforms[..n], head)
        [PredTransformName(task, names[n]) := transforms[n]]
        [PredHeadName(task, names[n]) := head]
  }

  /** The first loop registers exactly the indicator head names. */
  lemma {:induction false} IndicatorEntriesKeys(task: string, names: seq<string>, heads: seq<Module>)
    requires |heads| == |names|
    ensures IndicatorEntries(task, names, heads).Keys == IndHeadNames(task, names)
  {
    if names != [] {
      var n := |names| - 1;
      IndicatorEntriesKeys(task, names[..n], heads[..n]);
      SnocMembers(names);
    }
  }

  /** With distinct slice names, every slice's indicator head name holds that slice's own head. */
  lemma {:induction false} IndicatorEntriesAt(task: string, names: seq<string>, heads: seq<Module>)
    requires |heads| == |names| && Distinct(names)
    ensures forall i :: 0 <= i < |names| ==>
              && IndHeadName(task, names[i]) in IndicatorEntries(task, names, heads)
              && IndicatorEntries(task, names, heads)[IndHeadName(task, names[i])] == heads[i]
  {
    if names != [] {
      var n := |names| - 1;
      IndicatorEntriesAt(task, names[..n], heads[..n]);
      var after := IndicatorEntries(task, names, heads);
      forall i | 0 <= i < |names|
        ensures IndHeadName(task, names[i]) in after && after[IndHeadName(task, names[i])] == heads[i]
      {
        if i < n {
          assert names[..n][i] == names[i] && heads[..n][i] == heads[i];
          ModuleNamesInjective(task, names[i], names[n]);
        }
      }
    }
  }

  /** The second loop registers exactly the transform and predictor head names. */
  lemma {:induction false} PredictorEntriesKeys(task: string, names: seq<string>, transforms: seq<Module>, head: Module)
    requires |transforms| == |names|
    ensures PredictorEntries(task, names, transforms, head).Keys == PredModuleNames(task, names)
  {
    if names != [] {
      var n := |names| - 1;
      PredictorEntriesKeys(task, names[..n], transforms[..n], head);
      SnocMembers(names);
    }
  }

  /** With distinct slice names, every slice's transform name holds its own transform
      and every predictor head name the one shared head. */
  lemma {:induction false} PredictorEntriesAt(task: string, names: seq<string>, transforms: seq<Module>, head: Module)
    requires |transforms| == |names| && Distinct(names)
    ensures forall i :: 0 <= i < |names| ==>
              && PredTransformName(task, names[i]) in PredictorEntries(task, names, transforms, head)
              && PredHeadName(task, names[i]) in PredictorEntries(task, names, transforms, head)
              && PredictorEntries(task, names, transforms, head)[PredTransformName(task, names[i])] == transforms[i]
              && PredictorEntries(task, names, transforms, head)[PredHeadName(task, names[i])] == head
  {
    if names != [] {
      var n := |names| - 1;
      PredictorEntriesAt(task, names[..n], transforms[..n], head);
      var after := PredictorEntries(task, names, transforms, head);
      ModuleNamesInjective(task, names[n], names[n]);
      forall i | 0 <= i < |names|
        ensures PredTransformName(task, names[i]) in after && after[PredTransformName(task, names[i])] == transforms[i]
        ensures PredHeadName(task, names[i]) in after && after[PredHeadName(task, names[i])] == head
      {
        if i < n {
          assert names[..n][i] == names[i] && transforms[..n][i] == transforms[i];
          ModuleNamesInjective(task, names[i], names[n]);
          ModuleNamesInjective(task, names[n], names[i]);
        }
      }
    }
  }

  // Bookkeeping for the loops: what one more slice adds to each accumulated value.

  predicate AllOfKind(ms: seq<Module>, kind: ModuleKind) {
    forall j :: 0 <= j < |ms| ==> ms[j].kind == kind
  }

  lemma AllOfKindSnoc(ms: seq<Module>, m: Module, kind: ModuleKind)
    requires AllOfKind(ms, kind) && m.kind == kind
    ensures AllOfKind(ms + [m], kind)
  {
  }

  lemma IndicatorSnoc(base: Task, names: seq<string>, i: nat, heads: seq<Module>, head: Module, opName: string -> string)
    requires |base.flow| > 0 && i < |names| && |heads| == i
    ensures IndicatorTasks(base, names[..i + 1], opName)
            == IndicatorTasks(base, names[..i], opName) + [IndicatorTask(base, names[i], opName)]
    ensures IndHeadOps(base.name, names[..i + 1], HeadOp(base.flow).inputs, opName)
            == IndHeadOps(base.name, names[..i], HeadOp(base.flow).inputs, opName)
               + [IndHeadOp(base.name, names[i], HeadOp(base.flow).inputs, opName)]
    ensures IndicatorEntries(base.name, names[..i + 1], heads + [head])
            == IndicatorEntries(base.name, names[..i], heads)[IndHeadName(base.name, names[i]) := head]
  {
    var prefix := names[..i + 1];
    assert prefix == names[..i] + [names[i]];
    assert prefix[..i] == names[..i];
    assert (heads + [head])[..i] == heads;
  }

  lemma PredictorSnoc(base: Task, names: seq<string>, i: nat, transforms: seq<Module>, transform: Module,
                      head: Module, opName: string -> string)
    requires |base.flow| > 0 && i < |names| && |transforms| == i
    ensures PredictorTasks(base, names[..i + 1], opName)
            == PredictorTasks(base, names[..i], opName) + [PredictorTask(base, names[i], opName)]
    ensures PredOps(base.name, names[..i + 1], HeadOp(base.flow).inputs, opName)
            == PredOps(base.name, names[..i], HeadOp(base.flow).inputs, opName)
               + [PredTransformOp(base.name, names[i], HeadOp(base.flow).inputs, opName),
                  PredHeadOp(base.name, names[i], opName)]
    ensures PredictorEntries(base.name, names[..i + 1], transforms + [transform], head)
            == PredictorEntries(base.name, names[..i], transforms, head)
                 [PredTransformName(base.name, names[i]) := transform][PredHeadName(base.name, names[i]) := head]
  {
    var prefix := names[..i + 1];
    assert prefix == names[..i] + [names[i]];
    assert prefix[..i] == names[..i];
    assert (transforms + [transform])[..i] == transforms;
  }

  // The expansion itself.

  /** One iteration of the first loop: the indicator task of one slice, with a fresh
      binary head registered in the shared pool. */
  method AddIndicatorTask(base: Task, slice: string, neckSize: nat, opName: string -> string,
                          ghost earlier: seq<Module>)
    returns (task: Task, op: Operation, head: Module)
    requires |base.flow| > 0
    modifies base.pool
    ensures head !in earlier
    ensures task == IndicatorTask(base, slice, opName)
    ensures op == IndHeadOp(base.name, slice, HeadOp(base.flow).inputs, opName)
    ensures fresh(head) && head.kind == Linear(neckSize, 2)
    ensures base.pool.modules == old(base.pool.modules)[IndHeadName(base.name, slice) := head]
  {
    var indTaskName := IndTaskName(base.name, slice);
    var indHeadModuleName := indTaskName + "_head";
    head := new Module(Linear(neckSize, 2));
    base.pool.modules := base.pool.modules[indHeadModuleName := head];
    op := NewOperation(indHeadModuleName, base.flow[|base.flow| - 1].inputs, opName);
    task := Task(indTaskName, base.pool, base.flow[..|base.flow| - 1] + [op], F1Scorer);
  }

  /** The first loop: one indicator task per slice, each with its own fresh binary
      linear head registered in the shared pool. */
  method AddIndicatorTasks(base: Task, names: seq<string>, neckSize: nat, opName: string -> string)
    returns (tasks: seq<Task>, ops: seq<Operation>, ghost heads: seq<Module>)
    requires |base.flow| > 0
    modifies base.pool
    ensures tasks == IndicatorTasks(base, names, opName) && |heads| == |names|
    ensures ops == IndHeadOps(base.name, names, HeadOp(base.flow).inputs, opName)
    ensures AllOfKind(heads, Linear(neckSize, 2)) && Distinct(heads) && fresh(heads)
    ensures base.pool.modules == old(base.pool.modules) + IndicatorEntries(base.name, names, heads)
  {
    tasks, ops, heads := [], [], [];
    for i := 0 to |names|
      invariant tasks == IndicatorTasks(base, names[..i], opName) && |heads| == i
      invariant ops == IndHeadOps(base.name, names[..i], HeadOp(base.flow).inputs, opName)
      invariant AllOfKind(heads, Linear(neckSize, 2)) && Distinct(heads) && fresh(heads)
      invariant base.pool.modules == old(base.pool.modules) + IndicatorEntries(base.name, names[..i], heads)
    {
      var indTask, indHeadOp, indHeadModule := AddIndicatorTask(base, names[i], neckSize, opName, heads);
      IndicatorSnoc(base, names, i, heads, indHeadModule, opName);
      UnionUpdate(old(base.pool.modules), IndicatorEntries(base.name, names[..i], heads),
                  IndHeadName(base.name, names[i]), indHeadModule);
      ops := ops + [indHeadOp];
      tasks := tasks + [indTask];
      DistinctSnoc(heads, indHeadModule);
      AllOfKindSnoc(heads, indHeadModule, Linear(neckSize, 2));
      heads := heads + [indHeadModule];
    }
    assert names[..|names|] == names;
  }

  /** One iteration of the second loop: the predictor task of one slice, with a fresh
      square transform and the shared head registered under the slice's names. */
  method AddPredictorTask(base: Task, slice: string, neckSize: nat, sharedHead: Module,
                          opName: string -> string, ghost earlier: seq<Module>)
    returns (task: Task, ops: seq<Operation>, transform: Module)
    requires |base.flow| > 0
    modifies base.pool
    ensures transform !in earlier && transform != sharedHead
    ensures task == PredictorTask(base, slice, opName)
    ensures ops == [PredTransformOp(base.name, slice, HeadOp(base.flow).inputs, opName),
                    PredHeadOp(base.name, slice, opName)]
    ensures fresh(transform) && transform.kind == Linear(neckSize, neckSize)
    ensures base.pool.modules
            == old(base.pool.modules)[PredTransformName(base.name, slice) := transform]
                                     [PredHeadName(base.name, slice) := sharedHead]
  {
    var predTaskName := PredTaskName(base.name, slice);
    var predHeadModuleName := predTaskName + "_head";
    var predTransformModuleName := predTaskName + "_transform";
    transform := new Module(Linear(neckSize, neckSize));
    base.pool.modules := base.pool.modules[predTransformModuleName := transform];
    base.pool.modules := base.pool.modules[predHeadModuleName := sharedHead];
    var predTransformOp := NewOperation(predTransformModuleName, base.flow[|base.flow| - 1].inputs, opName);
    var predHeadOp := NewOperation(predHeadModuleName, [OpOutput(predTransformOp.name, 0)], opName);
    ops := [predTransformOp, predHeadOp];
    task := Task(predTaskName, base.pool, base.flow[..|base.flow| - 1] + ops, base.scorer);
  }

  /** The second loop: one predictor head of the original cardinality, created once and
      shared, and per slice a fresh square transform; each slice's predictor task feeds
      the transform's output to the shared head. */
  method AddPredictorTasks(base: Task, names: seq<string>, neckSize: nat, cardinality: nat,
                           opName: string -> string)
    returns (tasks: seq<Task>, ops: seq<Operation>, sharedHead: Module, ghost transforms: seq<Module>)
    requires |base.flow| > 0
    modifies base.pool
    ensures tasks == PredictorTasks(base, names, opName) && |transforms| == |names|
    ensures ops == PredOps(base.name, names, HeadOp(base.flow).inputs, opName)
    ensures fresh(sharedHead) && sharedHead.kind == Linear(neckSize, cardinality)
    ensures AllOfKind(transforms, Linear(neckSize, neckSize)) && Distinct(transforms) && fresh(transforms)
    ensures sharedHead !in transforms
    ensures base.pool.modules == old(base.pool.modules) + PredictorEntries(base.name, names, transforms, sharedHead)
  {
    tasks, ops, transforms := [], [], [];
    sharedHead := new Module(Linear(neckSize, cardinality));
    for i := 0 to |names|
      invariant tasks == PredictorTasks(base, names[..i], opName) && |transforms| == i
      invariant ops == PredOps(base.name, names[..i], HeadOp(base.flow).inputs, opName)
      invariant AllOfKind(transforms, Linear(neckSize, neckSize)) && Distinct(transforms) && fresh(transforms)
      invariant sharedHead !in transforms
      invariant base.pool.modules == old(base.pool.modules) + PredictorEntries(base.name, names[..i], transforms, sharedHead)
    {
      var predTask, predOps, transform := AddPredictorTask(base, names[i], neckSize, sharedHead, opName, transforms);
      PredictorSnoc(base, names, i, transforms, transform, sharedHead, opName);
      UnionUpdate2(old(base.pool.modules), PredictorEntries(base.name, names[..i], transforms, sharedHead),
                   PredTransformName(base.name, names[i]), transform, PredHeadName(base.name, names[i]), sharedHead);
      ops := ops + predOps;
      tasks := tasks + [predTask];
      DistinctSnoc(transforms, transform);
      AllOfKindSnoc(transforms, transform, Linear(neckSize, neckSize));
      transforms := transforms + [transform];
    }
    assert names[..|names|] == names;
  }

  /** The pool after the expansion: the original head's entry is removed (unless a slice
      module reuses its name), every slice module name is added, and all other entries
      are unchanged. */
  lemma ExpandedPoolKeys(pool: map<string, Module>, headName: string, task: string, names: seq<string>,
                         indHeads: seq<Module>, transforms: seq<Module>, predHead: Module)
    requires |indHeads| == |names| && |transforms| == |names|
    ensures var r := (pool - {headName}) + IndicatorEntries(task, names, indHeads)
                     + PredictorEntries(task, names, transforms, predHead);
            && r.Keys == (pool.Keys - {headName}) + SliceModuleNames(task, names)
            && (forall k :: k in pool && k != headName && k !in SliceModuleNames(task, names) ==> r[k] == pool[k])
  {
    IndicatorEntriesKeys(task, names, indHeads);
    PredictorEntriesKeys(task, names, transforms, predHead);
  }

  /** With distinct slice names, each slice module name of the expanded pool holds the
      module made for that slice: its own head, its own transform, the shared head. */
  lemma ExpandedPoolAt(pool: map<string, Module>, headName: string, task: string, names: seq<string>,
                       indHeads: seq<Module>, transforms: seq<Module>, predHead: Module)
    requires |indHeads| == |names| && |transforms| == |names| && Distinct(names)
    ensures var r := (pool - {headName}) + IndicatorEntries(task, names, indHeads)
                     + PredictorEntries(task, names, transforms, predHead);
            forall i :: 0 <= i < |names| ==>
              && IndHeadName(task, names[i]) in r && r[IndHeadName(task, names[i])] == indHeads[i]
              && PredTransformName(task, names[i]) in r && PredHeadName(task, names[i]) in r
              && r[PredTransformName(task, names[i])] == transforms[i]
              && r[PredHeadName(task, names[i])] == predHead
  {
    var ind := IndicatorEntries(task, names, indHeads);
    var pred := PredictorEntries(task, names, transforms, predHead);
    PredictorEntriesKeys(task, names, transforms, predHead);
    IndicatorEntriesAt(task, names, indHeads);
    PredictorEntriesAt(task, names, transforms, predHead);
    SliceModuleNamesDistinct(task, names);
    forall i | 0 <= i < |names|
      ensures IndHeadName(task, names[i]) !in pred
    {
      assert names[i] in names;
    }
  }

  /** Expands a base task into an indicator and a predictor task per slice (the base
      slice included) and a master task under the base task's name. The base task's pool
      is updated in place and shared by all slice tasks; the master task gets a new pool
      holding only the combiner and the original head. */
  method ConvertToSliceTasks(baseTask: Task, sliceNames: seq<string>, opName: string -> string)
    returns (tasks: seq<Task>, ghost indHeads: seq<Module>, ghost transforms: seq<Module>,
             ghost predHead: Module, ghost combiner: Module)
    requires HasLinearHead(baseTask)
    modifies baseTask.pool
    ensures |tasks| > 0 && tasks == ExpandedTasks(baseTask, WithBase(sliceNames), tasks[|tasks| - 1].pool, opName)
    ensures fresh(tasks[|tasks| - 1].pool) && fresh(combiner) && combiner.kind == SliceCombiner
    ensures tasks[|tasks| - 1].pool.modules
            == map[MasterCombinerName(baseTask.name) := combiner, MasterHeadName(baseTask.name) := old(HeadModule(baseTask))]
    ensures var neck, card := old(HeadModule(baseTask)).kind.inFeatures, old(HeadModule(baseTask)).kind.outFeatures;
            && |indHeads| == |WithBase(sliceNames)| && |transforms| == |WithBase(sliceNames)|
            && AllOfKind(indHeads, Linear(neck, 2)) && Distinct(indHeads) && fresh(indHeads)
            && AllOfKind(transforms, Linear(neck, neck)) && Distinct(transforms) && fresh(transforms)
            && fresh(predHead) && predHead.kind == Linear(neck, card)
    ensures predHead !in transforms && predHead !in indHeads
    ensures forall i, j :: 0 <= i < |indHeads| && 0 <= j < |transforms| ==> indHeads[i] != transforms[j]
    ensures baseTask.pool.modules
            == (old(baseTask.pool.modules) - {HeadOp(baseTask.flow).moduleName})
               + IndicatorEntries(baseTask.name, WithBase(sliceNames), indHeads)
               + PredictorEntries(baseTask.name, WithBase(sliceNames), transforms, predHead)
    ensures HeadOp(baseTask.flow).moduleName !in SliceModuleNames(baseTask.name, WithBase(sliceNames))
            ==> !HasLinearHead(baseTask)
  {
    var names := WithBase(sliceNames);
    var headModuleOp := baseTask.flow[|baseTask.flow| - 1];
    var headModule := baseTask.pool.modules[headModuleOp.moduleName];
    if headModule.kind.DataParallel? {
      headModule := headModule.kind.inner;
    }
    var neckSize := headModule.kind.inFeatures;
    var cardinality := headModule.kind.outFeatures;
    baseTask.pool.modules := baseTask.pool.modules - {headModuleOp.moduleName};

    var indTasks, indOps;
    indTasks, indOps, indHeads := AddIndicatorTasks(baseTask, names, neckSize, opName);
    var predTasks, predOps;
    predTasks, predOps, predHead, transforms := AddPredictorTasks(baseTask, names, neckSize, cardinality, opName);

    var combinerModule := new Module(SliceCombiner);
    combiner := combinerModule;
    var masterPool := new ModulePool(map[MasterCombinerName(baseTask.name) := combinerModule,
                                         MasterHeadName(baseTask.name) := headModule]);
    var combinerOp := NewOperation(MasterCombinerName(baseTask.name), [], opName);
    var masterHeadOp := NewOperation(MasterHeadName(baseTask.name), [OpOutput(combinerOp.name, 0)], opName);
    var masterFlow := baseTask.flow[..|baseTask.flow| - 1] + indOps + predOps + [combinerOp, masterHeadOp];
    var masterTask := Task(baseTask.name, masterPool, masterFlow, baseTask.scorer);
    tasks := indTasks + predTasks + [masterTask];
    ExpandedPoolKeys(old(baseTask.pool.modules), headModuleOp.moduleName, baseTask.name, names, indHeads, transforms, predHead);
  }
}

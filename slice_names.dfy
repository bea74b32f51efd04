/** Slice names: the implicit base slice and the names derived from a base task's
    name and a slice name (task names, label keys, module names). */
module SliceNames {
  import opened Collections

  /** The reserved name of the slice that covers every example. */
  const BaseName: string := "base"

  /** Base-slice normalisation of a list of slice names: "base" is appended when it
      is missing. The argument is a value, so the caller's list is never changed. */
  function WithBase(names: seq<string>): (r: seq<string>)
    ensures BaseName in r
    ensures |names| <= |r| && r[..|names|] == names
    ensures |r| == if BaseName in names then |names| else |names| + 1
    ensures Distinct(names) ==> Distinct(r)
  {
    if BaseName in names then names else names + [BaseName]
  }

  // Names built by the f-strings of the slicing utilities.

  function IndTaskName(task: string, slice: string): string {
    task + "_slice:" + slice + "_ind"
  }

  function PredTaskName(task: string, slice: string): string {
    task + "_slice:" + slice + "_pred"
  }

  function IndHeadName(task: string, slice: string): string {
    IndTaskName(task, slice) + "_head"
  }

  function PredHeadName(task: string, slice: string): string {
    PredTaskName(task, slice) + "_head"
  }

  function PredTransformName(task: string, slice: string): string {
    PredTaskName(task, slice) + "_transform"
  }

  function MasterCombinerName(task: string): string {
    task + "_master_combiner"
  }

  function MasterHeadName(task: string): string {
    task + "_master_head"
  }

  // String facts behind the injectivity of the naming scheme.

  lemma CancelAffixes(p: string, a: string, b: string, x: string)
    requires p + a + x == p + b + x
    ensures a == b
  {
    var u := p + a + x;
    assert |a| == |b|;
    assert u[|p|..|p| + |a|] == a;
    assert (p + b + x)[|p|..|p| + |b|] == b;
  }

  lemma CancelRight(u: string, v: string, x: string)
    requires u + x == v + x
    ensures u == v
  {
    assert |u| == |v|;
    assert (u + x)[..|u|] == u;
    assert (v + x)[..|v|] == v;
  }

  lemma SuffixesDiffer(a: string, b: string, x: string, y: string)
    requires |x| <= |y| && y[|y| - |x|..] != x
    ensures a + x != b + y
  {
    var u, v := a + x, b + y;
    assert u[|u| - |x|..] == x;
    assert v[|v| - |x|..] == y[|y| - |x|..];
  }

  /** Task names (which are also the label keys) determine their slice and role,
      and never coincide with the base task's own name. */
  lemma TaskNamesInjective(task: string, a: string, b: string)
    ensures IndTaskName(task, a) == IndTaskName(task, b) ==> a == b
    ensures PredTaskName(task, a) == PredTaskName(task, b) ==> a == b
    ensures IndTaskName(task, a) != PredTaskName(task, b)
    ensures IndTaskName(task, a) != task && PredTaskName(task, a) != task
  {
    if IndTaskName(task, a) == IndTaskName(task, b) {
      CancelAffixes(task + "_slice:", a, b, "_ind");
    }
    if PredTaskName(task, a) == PredTaskName(task, b) {
      CancelAffixes(task + "_slice:", a, b, "_pred");
    }
    assert "_pred"[1..] == "pred";
    assert "pred"[0] != "_ind"[0];
    SuffixesDiffer(task + "_slice:" + a, task + "_slice:" + b, "_ind", "_pred");
    assert |IndTaskName(task, a)| > |task| && |PredTaskName(task, a)| > |task|;
  }

  /** The per-slice module names are pairwise distinct across slices and roles. */
  lemma ModuleNamesInjective(task: string, a: string, b: string)
    ensures IndHeadName(task, a) == IndHeadName(task, b) ==> a == b
    ensures PredHeadName(task, a) == PredHeadName(task, b) ==> a == b
    ensures PredTransformName(task, a) == PredTransformName(task, b) ==> a == b
    ensures IndHeadName(task, a) != PredHeadName(task, b)
    ensures IndHeadName(task, a) != PredTransformName(task, b)
    ensures PredHeadName(task, a) != PredTransformName(task, b)
  {
    TaskNamesInjective(task, a, b);
    if IndHeadName(task, a) == IndHeadName(task, b) {
      CancelRight(IndTaskName(task, a), IndTaskName(task, b), "_head");
    }
    if PredHeadName(task, a) == PredHeadName(task, b) {
      CancelRight(PredTaskName(task, a), PredTaskName(task, b), "_head");
    }
    if PredTransformName(task, a) == PredTransformName(task, b) {
      CancelRight(PredTaskName(task, a), PredTaskName(task, b), "_transform");
    }
    if IndHeadName(task, a) == PredHeadName(task, b) {
      CancelRight(IndTaskName(task, a), PredTaskName(task, b), "_head");
    }
    assert "_transform"[5..] == "sform";
    assert "sform"[0] != "_head"[0];
    SuffixesDiffer(IndTaskName(task, a), PredTaskName(task, b), "_head", "_transform");
    SuffixesDiffer(PredTaskName(task, a), PredTaskName(task, b), "_head", "_transform");
  }
}

/** The task data model that the slicing utilities consume and build: modules,
    module pools, operations and tasks. */
module Tasks {

  /** The structural facts kept of a module: a linear layer with its input and output
      sizes, a data-parallel replication wrapper around an inner module, the slice
      combiner, or any other module (a body module whose shape does not matter here). */
  datatype ModuleKind =
    | Linear(inFeatures: nat, outFeatures: nat)
    | DataParallel(inner: Module)
    | SliceCombiner
    | Other

  /** A module is an object: two pool entries hold the same module exactly when they
      hold the same reference, which is how weight sharing is expressed. */
  class Module {
    const kind: ModuleKind

    constructor (kind: ModuleKind)
      ensures this.kind == kind
    {
      this.kind := kind;
    }
  }

  /** The module a replication wrapper delegates to; any other module is itself. */
  function Unwrap(m: Module): Module {
    if m.kind.DataParallel? then m.kind.inner else m
  }

  /** A module pool, shared by reference among tasks and updated in place. */
  class ModulePool {
    var modules: map<string, Module>

    constructor (modules: map<string, Module>)
      ensures this.modules == modules
    {
      this.modules := modules;
    }
  }

  /** An input of an operation: an external input field, or an output (by position)
      of an earlier operation, named by that operation's name. */
  datatype InputRef = External(key: string) | OpOutput(opName: string, index: nat)

  datatype Operation = Operation(name: string, moduleName: string, inputs: seq<InputRef>)

  /** An operation built from a module name and inputs. Its name is derived from the
      module name by `opName`, the naming rule of the operation constructor. */
  function NewOperation(moduleName: string, inputs: seq<InputRef>, opName: string -> string): Operation {
    Operation(opName(moduleName), moduleName, inputs)
  }

  /** Scoring configuration, passed through untouched: only its metric list is kept. */
  datatype Scorer = Scorer(metrics: seq<string>)

  datatype Task = Task(name: string, pool: ModulePool, flow: seq<Operation>, scorer: Scorer)
}

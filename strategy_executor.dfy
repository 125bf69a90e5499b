/** The strategy pattern behind the command-line tool: an executor holds one
    strategy and runs it, strategies are loaded from source files, and Ctrl-C
    is handled by exiting cleanly. */
module StrategyExecutor {
  import opened Common

  /** `load_module_from_file`: the pair `(module, None)` when loading succeeds
      and `(None, error)` when it raises. `load` is what loading the file gives;
      a loader object is never itself a module, so the first return is dead. */
  function LoadModuleFromFile<M>(load: Result<M>): (r: (Option<M>, Option<PyError>))
    ensures r.0.Some? != r.1.Some?
    ensures r.0.Some? <==> load.Success?
    ensures r.0.Some? ==> load == Success(r.0.value)
    ensures r.1.Some? ==> load == Failure(r.1.value)
  {
    match load
    case Success(m) => (Some(m), None)
    case Failure(e) => (None, Some(e))
  }

  /** `Strategy.handler`: whatever signal arrives, the program exits with
      status 0. */
  function Handler(signalReceived: int): (exit: PyError)
    ensures exit.SystemExit? && exit.code == 0
  {
    SystemExit(0)
  }

  /** `Executor`: a single mutable cell holding the strategy. What running a
      strategy returns is the function `execute`; `executed` records, in order,
      every strategy that was run. */
  class Executor<S> {
    var strategy: S
    ghost var executed: seq<S>

    constructor(strategy: S)
      ensures this.strategy == strategy
      ensures executed == []
    {
      this.strategy := strategy;
      executed := [];
    }

    /** The `strategy` property getter. */
    function Strategy(): (s: S)
      reads this
      ensures s == strategy
    {
      strategy
    }

    /** The `strategy` property setter: replaces the held strategy and nothing
        else. */
    method SetStrategy(s: S)
      modifies this
      ensures strategy == s
      ensures executed == old(executed)
    {
      strategy := s;
    }

    /** `execute_strategy`: runs the held strategy once and returns its result
        untouched. */
    method ExecuteStrategy<R>(execute: S -> R) returns (r: R)
      modifies this
      ensures r == execute(old(strategy))
      ensures strategy == old(strategy)
      ensures executed == old(executed) + [old(strategy)]
    {
      r := execute(strategy);
      executed := executed + [strategy];
    }
  }

  /** How the command line drives an executor: construct it around the chosen
      strategy and run that strategy exactly once. */
  method RunStrategy<S, R>(s: S, execute: S -> R) returns (e: Executor<S>, r: R)
    ensures fresh(e)
    ensures r == execute(s)
    ensures e.Strategy() == s && e.executed == [s]
  {
    e := new Executor(s);
    r := e.ExecuteStrategy(execute);
  }
}

/**
 * The command registry of internal/executors/executors.go: a map from command
 * name to handler, filled by Register and consulted by Run.
 *
 * A handler is an opaque value of type `F`; what running it does to the program
 * state is not modelled: `invoke` gives the error (or nil) a handler returns
 * for a state and an executor.
 */
module Executors {
  import opened Wrappers

  /** A parsed command line: the command name and its arguments. */
  datatype Executor = Executor(name: string, args: seq<string>)

  /** The message of the error Run returns for a name with no handler. */
  function UnrecognisedCommand(name: string): string
  {
    "unrecognised command: " + name
  }

  class ExecutorMap<F> {
    var entries: map<string, F>

    constructor ()
      ensures entries == map[]
    {
      entries := map[];
    }

    /** Maps `name` to `f`, replacing any earlier handler of that name and no other. */
    method Register(name: string, f: F)
      modifies this
      ensures entries == old(entries)[name := f]
    {
      entries := entries[name := f];
    }

    /**
     * Runs the handler registered under the executor's name with the same state
     * and executor and returns its result; an unknown name is an error and runs
     * nothing. The map is only read.
     */
    method Run<S>(s: S, exe: Executor, invoke: (F, S, Executor) -> Outcome<string>) returns (r: Outcome<string>)
      ensures exe.name !in entries ==> r == Fail(UnrecognisedCommand(exe.name))
      ensures exe.name in entries ==> r == invoke(entries[exe.name], s, exe)
    {
      if exe.name !in entries {
        return Fail(UnrecognisedCommand(exe.name));
      }
      var runFunc := entries[exe.name];
      r := invoke(runFunc, s, exe);
    }
  }
}

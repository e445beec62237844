/**
 * commands.go, the older copy of the command layer: its own registry
 * (`commands.register` and `commands.run`), the `agg` handler and a copy of the
 * ingestion step.
 *
 * handlerAgg and scrapeFeeds here are statement for statement the same as
 * Aggregate and scrapeFeeds in internal/executors/aggregate.go, so they are
 * modelled once, in module Aggregate, and the members below delegate to it.
 */
module Commands {
  import opened Wrappers
  import Aggregate
  import Database

  /** A parsed command line of this copy: name and arguments. */
  datatype Command = Command(name: string, args: seq<string>)

  /** The registry of this copy: a map from command name to handler. */
  class Commands<F> {
    var commandMap: map<string, F>

    constructor ()
      ensures commandMap == map[]
    {
      commandMap := map[];
    }

    /** Stores `f` under `name`, overwriting any earlier entry and leaving other names alone. */
    method Register(name: string, f: F)
      modifies this
      ensures commandMap == old(commandMap)[name := f]
    {
      commandMap := commandMap[name := f];
    }

    /**
     * Runs the handler stored under the command's name and returns exactly its
     * result; an unregistered name is an "unrecognised command" error and runs
     * no handler.
     */
    method Run<S>(s: S, cmd: Command, invoke: (F, S, Command) -> Outcome<string>) returns (r: Outcome<string>)
      ensures cmd.name !in commandMap ==> r == Fail("unrecognised command: " + cmd.name)
      ensures cmd.name in commandMap ==> r == invoke(commandMap[cmd.name], s, cmd)
    {
      if cmd.name !in commandMap {
        return Fail("unrecognised command: " + cmd.name);
      }
      var runFunc := commandMap[cmd.name];
      r := invoke(runFunc, s, cmd);
    }
  }

  /**
   * The `agg` handler: rejects an argument count other than one and an
   * unparseable interval before any tick, and otherwise runs one ingestion step
   * per tick, only reporting each step's error.
   */
  method HandlerAgg(q: Database.Queries, cmd: Command, parseDuration: string -> Option<int>, ticks: seq<Aggregate.Env>)
    returns (r: Result<seq<Outcome<Aggregate.ScrapeError>>, Aggregate.AggregateError>)
    requires q.Valid()
    modifies q
    ensures q.Valid()
    ensures |cmd.args| != 1 ==> r == Failure(Aggregate.WrongArgCount(|cmd.args|)) && q.State() == old(q.State())
    ensures |cmd.args| == 1 && parseDuration(cmd.args[0]).None? ==>
      r == Failure(Aggregate.BadInterval(cmd.args[0])) && q.State() == old(q.State())
    ensures |cmd.args| == 1 && parseDuration(cmd.args[0]).Some? && parseDuration(cmd.args[0]).value <= 0 ==>
      r == Success([]) && q.State() == old(q.State())
    ensures |cmd.args| == 1 && parseDuration(cmd.args[0]).Some? && parseDuration(cmd.args[0]).value > 0 ==>
      r.Success? && (r.value, q.State()) == Aggregate.RunTicks(old(q.State()), ticks)
  {
    r := Aggregate.Aggregate(q, cmd.args, parseDuration, ticks);
  }

  /**
   * This copy's ingestion step: a fetch failure leads to neither a mark nor a
   * post, the mark precedes every post, and the step ends in success once the
   * mark succeeded.
   */
  method ScrapeFeeds(q: Database.Queries, env: Aggregate.Env) returns (r: Outcome<Aggregate.ScrapeError>)
    requires q.Valid()
    modifies q
    ensures q.Valid()
    ensures (r, q.State()) == Aggregate.Scrape(old(q.State()), env)
  {
    r := Aggregate.ScrapeFeeds(q, env);
  }
}

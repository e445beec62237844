/**
 * main.go: splitting the command line into a command name and arguments, the
 * table of commands registered at start-up, and dispatching to it.
 *
 * Loading the configuration and opening the database come before this in the
 * program and are not modelled; nor is the handlers' own work.
 */
module Main {
  import opened Wrappers
  import opened Executors

  /** The handlers the program registers. */
  datatype Handler =
    | Login | Register | Reset | Users | Aggregate | AddFeed
    | Feeds | Follow | Unfollow | Following | Browse

  /** A registered handler, as is or wrapped so that it first looks up the logged-in user. */
  datatype Registered = Direct(handler: Handler) | LoggedIn(handler: Handler)

  /** The commands that run only for the logged-in user. */
  const LoggedInCommands: set<string> := {"addfeed", "follow", "unfollow", "following", "browse"}

  /** The prefix of the error the program reports when the command line does not parse. */
  const ParseErrorPrefix: string := "unable to parse the command: "

  /** Splits the arguments after the program name into a command name and its arguments. */
  function ParseArgs(args: seq<string>): (r: Result<Executor, string>)
    ensures r.Failure? <==> args == []
    ensures r.Failure? ==> r.error == "no arguments given"
    ensures r.Success? ==> [r.value.name] + r.value.args == args
  {
    if |args| == 0 then Failure("no arguments given")
    else if |args| == 1 then Success(Executor(args[0], []))
    else Success(Executor(args[0], args[1..]))
  }

  /** Parsing the words of an executor gives that executor back. */
  lemma ParseArgsInverts(exe: Executor)
    ensures ParseArgs([exe.name] + exe.args) == Success(exe)
  {
    assert ([exe.name] + exe.args)[1..] == exe.args;
  }

  /** The registration table built at start-up: command name to handler. */
  function Registrations(): map<string, Registered>
  {
    map[
      "login" := Direct(Login),
      "register" := Direct(Register),
      "reset" := Direct(Reset),
      "users" := Direct(Users),
      "aggregate" := Direct(Aggregate),
      "addfeed" := LoggedIn(AddFeed),
      "feeds" := Direct(Feeds),
      "follow" := LoggedIn(Follow),
      "unfollow" := LoggedIn(Unfollow),
      "following" := LoggedIn(Following),
      "browse" := LoggedIn(Browse)]
  }

  /** The command name each handler is registered under. */
  function CommandName(h: Handler): string
  {
    match h
    case Login => "login"
    case Register => "register"
    case Reset => "reset"
    case Users => "users"
    case Aggregate => "aggregate"
    case AddFeed => "addfeed"
    case Feeds => "feeds"
    case Follow => "follow"
    case Unfollow => "unfollow"
    case Following => "following"
    case Browse => "browse"
  }

  /**
   * Every handler is registered under its own name, and every registered name
   * holds the handler of that name: one command per handler, eleven in all.
   */
  lemma EveryHandlerRegisteredOnce()
    ensures forall h: Handler :: CommandName(h) in Registrations() && Registrations()[CommandName(h)].handler == h
    ensures forall name :: name in Registrations() ==> CommandName(Registrations()[name].handler) == name
  {
  }

  /** Exactly addfeed, follow, unfollow, following and browse go through the logged-in wrapper. */
  lemma LoggedInWrapperShape()
    ensures forall name :: name in Registrations() ==>
      (Registrations()[name].LoggedIn? <==> name in LoggedInCommands)
  {
  }

  /** Builds the registry as start-up does, one Register call per command. */
  method NewExecutorMap() returns (m: ExecutorMap<Registered>)
    ensures fresh(m)
    ensures m.entries == Registrations()
  {
    m := new ExecutorMap();
    m.Register("login", Direct(Login));
    m.Register("register", Direct(Register));
    m.Register("reset", Direct(Reset));
    m.Register("users", Direct(Users));
    m.Register("aggregate", Direct(Aggregate));
    m.Register("addfeed", LoggedIn(AddFeed));
    m.Register("feeds", Direct(Feeds));
    m.Register("follow", LoggedIn(Follow));
    m.Register("unfollow", LoggedIn(Unfollow));
    m.Register("following", LoggedIn(Following));
    m.Register("browse", LoggedIn(Browse));
  }

  /**
   * Builds the registry, parses the command line and runs the named command:
   * no arguments is a parse error, an unknown name is an "unrecognised
   * command" error, and a known name runs its handler with the remaining words
   * as arguments.
   */
  method Run<S>(s: S, argv: seq<string>, invoke: (Registered, S, Executor) -> Outcome<string>) returns (r: Outcome<string>)
    ensures argv == [] ==> r == Fail(ParseErrorPrefix + "no arguments given")
    ensures argv != [] && argv[0] !in Registrations() ==> r == Fail(UnrecognisedCommand(argv[0]))
    ensures argv != [] && argv[0] in Registrations() ==>
      r == invoke(Registrations()[argv[0]], s, Executor(argv[0], argv[1..]))
  {
    var executorMap := NewExecutorMap();
    var executor := ParseArgs(argv);
    if executor.Failure? {
      return Fail(ParseErrorPrefix + executor.error);
    }
    r := executorMap.Run(s, executor.value, invoke);
  }
}

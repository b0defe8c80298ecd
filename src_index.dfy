/**
 * The task-facing API of src/index.ts and src/index.js: `run` (option normalisation, the
 * PATH written into the environment object in place, the log line, the hand-off to the
 * shell layer), `options`/`option` for reading a task's `this`, and `help`.
 */
module SrcIndex {
  import opened Js
  import opened Errors
  import opened Registry
  import opened Effects
  import opened Shell

  /** An environment object: `process.env` or one a caller passes; `run` writes its PATH. */
  class Env {
    var vars: map<string, string>

    constructor (vars: map<string, string>)
      ensures this.vars == vars
    {
      this.vars := vars;
    }
  }

  /** The options `run` accepts: `async` as its truthiness; keys not listed here are dropped. */
  datatype RunOptions = RunOptions(async: bool, cwd: Option<string>, env: Option<Env>, stdio: Option<Stdio>, timeout: Option<int>)

  /** `options.env || process.env`. */
  function EnvOf(options: RunOptions, processEnv: Env): Env {
    if options.env.Some? then options.env.value else processEnv
  }

  /** A variable as JavaScript reads it, with '' for a missing one (both are falsy). */
  function Var(vars: map<string, string>, key: string): string {
    if key in vars then vars[key] else ""
  }

  /**
   * `[binPath, env.PATH || process.env.PATH].join(delimiter)`: the bin directory first, then
   * the object's own PATH, or the process's when that is falsy (undefined joins as '').
   */
  function AugmentedPath(binPath: string, delimiter: string, own: map<string, string>, process: map<string, string>): (p: string)
    ensures binPath + delimiter <= p
    ensures Var(own, "PATH") != "" ==> p == binPath + delimiter + own["PATH"]
    ensures Var(own, "PATH") == "" ==> p == binPath + delimiter + Var(process, "PATH")
  {
    binPath + delimiter + if Var(own, "PATH") != "" then own["PATH"] else Var(process, "PATH")
  }

  /**
   * Each run prepends the bin directory again: two runs on `process.env` leave it twice in
   * front of the original PATH.
   */
  lemma RunTwicePrependsTwice(binPath: string, delimiter: string, vars: map<string, string>)
    requires binPath != ""
    ensures var once := vars["PATH" := AugmentedPath(binPath, delimiter, vars, vars)];
            AugmentedPath(binPath, delimiter, once, once) == binPath + delimiter + binPath + delimiter + Var(vars, "PATH")
  {
    var once := vars["PATH" := AugmentedPath(binPath, delimiter, vars, vars)];
    assert Var(once, "PATH") != "" by {
      assert |Var(once, "PATH")| >= |binPath|;
    }
  }

  /**
   * The options handed on: `async` coerced to a boolean, `stdio` defaulting to 'inherit',
   * the environment object (seen with its new PATH), `cwd` and `timeout` copied.
   */
  function Normalised(options: RunOptions, env: map<string, string>): (r: ShellOptions)
    ensures r.stdio.Some? && r.stdio.value == StdioOr(options.stdio)
    ensures r.async == options.async && r.cwd == options.cwd && r.timeout == options.timeout && r.env == Some(env)
  {
    ShellOptions(options.async, options.cwd, Some(env), Some(StdioOr(options.stdio)), options.timeout)
  }

  /**
   * The methods of the `Logger` class (src/common.ts, src/common.js), named by the level
   * each writes at: `title`, `log`, `warning` and `error`. Neither class has `info`.
   */
  function DefaultLogger(): set<Level> {
    {Title, Log, Warning, ErrorLevel}
  }

  /** The logger method `run` calls with the command: `title` in src/index.ts, `info` in src/index.js. */
  function CommandLevel(gen: Generation): Level {
    if gen == Ts then Title else Info
  }

  /**
   * The method src/index.js evidently means: `title`, as src/index.ts calls and as the
   * unit tests of src/index.js expect.
   */
  function IntendedCommandLevel(gen: Generation): (l: Level)
    ensures l in DefaultLogger()
    ensures l == CommandLevel(Ts)
  {
    Title
  }

  /**
   * As written, src/index.js calls a method the default logger does not have, so `run`
   * with the default logger throws a TypeError; src/index.ts calls one it has.
   */
  lemma DefaultLoggerLacksFlowLevel()
    ensures CommandLevel(Flow) !in DefaultLogger()
    ensures CommandLevel(Ts) in DefaultLogger()
  {
  }

  /** With the intended method, both versions log through every logger with `title`. */
  lemma IntendedLevelAgrees(gen: Generation, logger: set<Level>)
    requires Title in logger
    ensures IntendedCommandLevel(gen) in logger
    ensures IntendedCommandLevel(gen) == CommandLevel(Ts)
  {
  }

  /**
   * `run(command, options, logger)` logging the command at `level`: the PATH of the
   * environment object (by default `process.env` itself) is overwritten in place first;
   * a logger without the method throws a TypeError before anything is launched;
   * otherwise src/index.ts calls `shell`, src/index.js `runAsync` or `runSync`.
   */
  method RunAt(level: Level, gen: Generation, command: string, options: RunOptions, processEnv: Env, logger: set<Level>,
               binPath: string, delimiter: string, exec: Launch -> ExecOutcome)
    returns (log: seq<Effect>, outcome: Result<Shell.Outcome, Exception>)
    modifies EnvOf(options, processEnv)
    ensures EnvOf(options, processEnv).vars
            == old(EnvOf(options, processEnv).vars)["PATH" := AugmentedPath(binPath, delimiter, old(EnvOf(options, processEnv).vars), old(processEnv.vars))]
    ensures level !in logger ==> log == [] && outcome == Err(NotCallable())
    ensures level in logger ==> log == [Line(level, command)]
    ensures var next := Normalised(options, EnvOf(options, processEnv).vars);
            level in logger ==> outcome == Ok(if gen == Ts then ShellCall(command, Some(next), exec) else RunFlow(command, next, exec))
  {
    var env := if options.env.Some? then options.env.value else processEnv;
    env.vars := env.vars["PATH" := AugmentedPath(binPath, delimiter, env.vars, processEnv.vars)];
    var nextOptions := ShellOptions(options.async, options.cwd, Some(env.vars), Some(StdioOr(options.stdio)), options.timeout);
    if level !in logger {
      log, outcome := [], Err(NotCallable());
      return;
    }
    log := [Line(level, command)];
    if gen == Ts {
      outcome := Ok(ShellCall(command, Some(nextOptions), exec));
    } else {
      outcome := Ok(RunFlow(command, nextOptions, exec));
    }
  }

  /** `run` as written: `logger.title` in src/index.ts, `logger.info` in src/index.js. */
  method Run(gen: Generation, command: string, options: RunOptions, processEnv: Env, logger: set<Level>,
             binPath: string, delimiter: string, exec: Launch -> ExecOutcome)
    returns (log: seq<Effect>, outcome: Result<Shell.Outcome, Exception>)
    modifies EnvOf(options, processEnv)
    ensures EnvOf(options, processEnv).vars
            == old(EnvOf(options, processEnv).vars)["PATH" := AugmentedPath(binPath, delimiter, old(EnvOf(options, processEnv).vars), old(processEnv.vars))]
    ensures gen == Flow && logger == DefaultLogger() ==> log == [] && outcome == Err(NotCallable())
    ensures CommandLevel(gen) in logger ==> log == [Line(CommandLevel(gen), command)]
    ensures var next := Normalised(options, EnvOf(options, processEnv).vars);
            CommandLevel(gen) in logger ==> outcome == Ok(if gen == Ts then ShellCall(command, Some(next), exec) else RunFlow(command, next, exec))
  {
    DefaultLoggerLacksFlowLevel();
    log, outcome := RunAt(CommandLevel(gen), gen, command, options, processEnv, logger, binPath, delimiter, exec);
  }

  /** `run` with `logger.title` in both versions: the default logger never throws. */
  method RunCorrected(gen: Generation, command: string, options: RunOptions, processEnv: Env, logger: set<Level>,
                      binPath: string, delimiter: string, exec: Launch -> ExecOutcome)
    returns (log: seq<Effect>, outcome: Result<Shell.Outcome, Exception>)
    modifies EnvOf(options, processEnv)
    ensures EnvOf(options, processEnv).vars
            == old(EnvOf(options, processEnv).vars)["PATH" := AugmentedPath(binPath, delimiter, old(EnvOf(options, processEnv).vars), old(processEnv.vars))]
    ensures Title in logger ==> log == [Line(Title, command)]
    ensures var next := Normalised(options, EnvOf(options, processEnv).vars);
            Title in logger ==> outcome == Ok(if gen == Ts then ShellCall(command, Some(next), exec) else RunFlow(command, next, exec))
    ensures Title !in logger ==> log == [] && outcome == Err(NotCallable())
  {
    log, outcome := RunAt(IntendedCommandLevel(gen), gen, command, options, processEnv, logger, binPath, delimiter, exec);
  }

  /** Whatever `run` hands on runs asynchronously exactly when `async` was truthy, with stdio defaulted. */
  lemma RunDispatch(gen: Generation, command: string, options: RunOptions, env: map<string, string>, exec: Launch -> ExecOutcome)
    ensures var next := Normalised(options, env);
            var r := if gen == Ts then ShellCall(command, Some(next), exec) else RunFlow(command, next, exec);
            && (r.Started? <==> options.async)
            && r.launch.stdio == StdioOr(options.stdio)
            && r.launch.env == Some(env)
            && (r.Finished? && r.result.Err? ==>
                  r.result.error.Raised? && r.result.error.message.Some? && '\n' !in r.result.error.message.value)
  {
  }

  // ---------------------------------------------------------------------------
  // Reading a task's `this`

  /** The `this` a task function sees: null, or an object that may carry `options`. */
  datatype TaskThis = NullThis | ThisObject(options: Option<map<string, JsValue>>)

  /** `options(thisObj)` of src/index.ts: `(thisObj && thisObj.options) || {}`. */
  function OptionsOf(t: TaskThis): (r: map<string, JsValue>)
    ensures t.ThisObject? && t.options.Some? ==> r == t.options.value
    ensures !(t.ThisObject? && t.options.Some?) ==> r == map[]
  {
    if t.ThisObject? && t.options.Some? then t.options.value else map[]
  }

  /** `option(thisObj, name)` of src/index.js: the stored value when truthy, null otherwise. */
  function OptionOf(t: TaskThis, name: string): (r: JsValue)
    ensures r == Null || Truthy(r)
    ensures Truthy(r) <==> t.ThisObject? && t.options.Some? && name in t.options.value && Truthy(t.options.value[name])
    ensures Truthy(r) ==> r == t.options.value[name]
  {
    if t.ThisObject? && t.options.Some? && name in t.options.value && Truthy(t.options.value[name])
    then t.options.value[name]
    else Null
  }

  /** `option` is `options` looked up, with every falsy or missing value read as null. */
  lemma OptionReadsOptions(t: TaskThis, name: string)
    ensures OptionOf(t, name) == if name in OptionsOf(t) && Truthy(OptionsOf(t)[name]) then OptionsOf(t)[name] else Null
  {
  }

  /** A falsy stored option (0, '', false) reads as null. */
  lemma FalsyOptionIsNull(t: TaskThis, name: string)
    requires t.ThisObject? && t.options.Some? && name in t.options.value
    requires t.options.value[name] in {Number(0), Str(""), Bool(false)}
    ensures OptionOf(t, name) == Null
  {
  }

  // ---------------------------------------------------------------------------
  // help

  /** A task function object; `help` is the property `help(fn, annotation)` sets. */
  class TaskFunction {
    var help: Help

    constructor ()
      ensures help == NoHelp
    {
      help := NoHelp;
    }
  }

  /** The first argument of `help`: a function, or any other value. */
  datatype HelpTarget = FunctionValue(f: TaskFunction) | NotAFunction

  /**
   * `help(func, annotation)`: sets `func.help` on a function; throws for anything else and
   * changes nothing.
   */
  method SetHelp(target: HelpTarget, annotation: Help) returns (thrown: Option<Exception>)
    modifies if target.FunctionValue? then {target.f} else {}
    ensures target.FunctionValue? ==> thrown.None? && target.f.help == annotation
    ensures target.NotAFunction? ==> thrown == Some(PlainError("first help() argument must be a function"))
  {
    if target.FunctionValue? {
      target.f.help := annotation;
      thrown := None;
    } else {
      thrown := Some(PlainError("first help() argument must be a function"));
    }
  }
}

/**
 * What the runner does that a caller can observe: logger calls, module requires and task
 * invocations, recorded in order. Colouring (chalk) is an opaque `paint` function.
 */
module Effects {
  import opened Js
  import opened Errors
  import opened Registry
  import opened ArgParser

  /** The logger methods: lib's debug/info/log/warning/error and src's title/log/warning/error. */
  datatype Level = Debug | Info | Log | Title | Warning | ErrorLevel

  /** chalk styles; `paint(c, s)` stands for `chalk.c(s)`. */
  datatype Color = Bold | Yellow | Blue | Gray | Red

  /** An argument of a logger call: a string, or a task's help value passed as it is. */
  datatype LogArg = Msg(s: string) | HelpValue(help: Help)

  /** The `this` a task runs with. */
  datatype Context =
    | ParsedOptions(flags: map<string, FlagValue>)   // `{options}` from lib's parseArgs
    | CliOptions(values: map<string, string>)         // `{options}` from microcli
    | NoThis                                         // `apply(null, …)`

  datatype Effect =
    | Print(level: Level, args: seq<LogArg>)
    | Require(path: string)
    | Invoke(task: nat, receiver: Context, params: seq<string>)
    | CliHelp(help: Help)        // microcli printing a task's help instead of running it
    | Running(key: string)     // a wrapper's 'Running "t"...' line
    | Finished(key: string)    // a wrapper's 'Finished "t" in … sec' line

  /** How a `call` ends: it returns the task, returns undefined (Unresolved), or throws. */
  datatype Outcome = Returned(task: Entry) | Unresolved | Threw(error: Exception)

  datatype CallResult = CallResult(effects: seq<Effect>, outcome: Outcome)

  /** A one-string logger call. */
  function Line(level: Level, s: string): Effect {
    Print(level, [Msg(s)])
  }

  /** The argument lists of the calls made at `level`, in order: what a mocked logger method records. */
  function CallsAt(effects: seq<Effect>, level: Level): (r: seq<seq<LogArg>>)
    ensures |r| <= |effects|
  {
    if effects == [] then []
    else
      var last := effects[|effects| - 1];
      CallsAt(effects[..|effects| - 1], level) + (if last.Print? && last.level == level then [last.args] else [])
  }

  lemma {:induction false} CallsAtAppend(a: seq<Effect>, b: seq<Effect>, level: Level)
    ensures CallsAt(a + b, level) == CallsAt(a, level) + CallsAt(b, level)
    decreases |b|
  {
    if b == [] {
      assert a + b == a;
    } else {
      assert (a + b)[..|a + b| - 1] == a + b[..|b| - 1];
      CallsAtAppend(a, b[..|b| - 1], level);
    }
  }

  /** One more logger call extends the record of its own level only. */
  lemma PrintStep(effects: seq<Effect>, k: nat, level: Level)
    requires k < |effects| && effects[k].Print?
    ensures CallsAt(effects[..k + 1], level)
            == CallsAt(effects[..k], level) + (if effects[k].level == level then [effects[k].args] else [])
  {
    assert effects[..k + 1][..k] == effects[..k];
  }

  /** The tasks invoked, in order. */
  function Invoked(effects: seq<Effect>): (r: seq<nat>)
    ensures |r| <= |effects|
  {
    if effects == [] then []
    else
      var last := effects[|effects| - 1];
      Invoked(effects[..|effects| - 1]) + (if last.Invoke? then [last.task] else [])
  }

  lemma {:induction false} InvokedAppend(a: seq<Effect>, b: seq<Effect>)
    ensures Invoked(a + b) == Invoked(a) + Invoked(b)
    decreases |b|
  {
    if b == [] {
      assert a + b == a;
    } else {
      assert (a + b)[..|a + b| - 1] == a + b[..|b| - 1];
      InvokedAppend(a, b[..|b| - 1]);
    }
  }

  /** An effect other than a task call invokes nothing. */
  lemma InvokesNothing(e: Effect)
    requires !e.Invoke?
    ensures Invoked([e]) == []
  {
    assert [e][..0] == [];
  }

  /** Logger calls invoke no task. */
  lemma {:induction false} PrintsInvokeNothing(effects: seq<Effect>)
    requires forall k :: 0 <= k < |effects| ==> effects[k].Print?
    ensures Invoked(effects) == []
  {
    if effects != [] {
      PrintsInvokeNothing(effects[..|effects| - 1]);
    }
  }

  /** The module paths required, in order. */
  function Required(effects: seq<Effect>): (r: seq<string>)
    ensures |r| <= |effects|
  {
    if effects == [] then []
    else
      var last := effects[|effects| - 1];
      Required(effects[..|effects| - 1]) + (if last.Require? then [last.path] else [])
  }

  lemma {:induction false} RequiredAppend(a: seq<Effect>, b: seq<Effect>)
    ensures Required(a + b) == Required(a) + Required(b)
    decreases |b|
  {
    if b == [] {
      assert a + b == a;
    } else {
      assert (a + b)[..|a + b| - 1] == a + b[..|b| - 1];
      RequiredAppend(a, b[..|b| - 1]);
    }
  }
}

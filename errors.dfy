/**
 * The runner's error values: RunJSError (lib/common.js, src/common.js), TasksfileError
 * (src/common.ts), ShellError (src/shell.ts) and the plain errors thrown beside them.
 * Every custom constructor keeps only the first line of its message.
 */
module Errors {
  import opened Js

  datatype ErrorClass = RunJSError | TasksfileError | ShellError | Error | TypeError | CliError

  /**
   * A thrown value. `name` and `message` are the properties a catcher reads; a message of
   * None is `undefined`. `script.js` throws a bare string, and an exception raised inside
   * a library the model does not interpret is Foreign.
   */
  datatype Exception =
    | Raised(cls: ErrorClass, name: string, message: Option<string>)
    | ThrownString(text: string)
    | Foreign

  /** `message && message.split('\n')[0]`: falsy messages pass through untouched. */
  function Truncate(message: Option<string>): (r: Option<string>)
    ensures r.None? <==> message.None?
    ensures r.Some? ==> r.value <= message.value && '\n' !in r.value
    ensures r.Some? && |r.value| < |message.value| ==> message.value[|r.value|] == '\n'
  {
    match message
    case None => None
    case Some(m) => if m == "" then Some("") else Some(FirstLine(m))
  }

  /** A message that is already one line is kept as it is. */
  lemma TruncateKeepsSingleLine(message: string)
    requires '\n' !in message
    ensures Truncate(Some(message)) == Some(message)
  {
    FirstLineUnique(message, message);
  }

  lemma TruncateKeeps(message: Option<string>)
    ensures message.Some? && '\n' !in message.value ==> Truncate(message) == message
  {
    if message.Some? && '\n' !in message.value {
      TruncateKeepsSingleLine(message.value);
    }
  }

  /** Truncating twice is truncating once. */
  lemma TruncateIdempotent(message: Option<string>)
    ensures Truncate(Truncate(message)) == Truncate(message)
  {
    if message.Some? {
      TruncateKeepsSingleLine(Truncate(message).value);
    }
  }

  /**
   * lib/common.js: an ES5 constructor that sets `name` to 'RunJSError' and assigns the
   * truncated message as an own property, so an undefined message stays undefined.
   */
  function LibRunJSError(message: Option<string>): (e: Exception)
    ensures e.Raised? && e.name == "RunJSError" && e.message == Truncate(message)
    ensures InstanceOf(e, "RunJSError") && InstanceOf(e, "Error")
  {
    Raised(RunJSError, "RunJSError", Truncate(message))
  }

  /**
   * `class X extends Error` whose constructor truncates before calling `super`. The class
   * sets no `name`, so `name` is Error.prototype's 'Error'; `super(undefined)` creates no
   * own message, so `message` reads Error.prototype's empty string.
   */
  function ClassError(cls: ErrorClass, message: Option<string>): Exception {
    Raised(cls, "Error", Some(Truncate(message).GetOr("")))
  }

  /** src/common.ts `new TasksfileError(message)`. */
  function TasksfileErrorOf(message: Option<string>): (e: Exception)
    ensures e.Raised? && e.cls == TasksfileError && e.name == "Error"
    ensures e.message.Some? && '\n' !in e.message.value
    ensures message.Some? ==> e.message.value <= message.value
    ensures message.Some? && '\n' !in message.value ==> e.message == message
    ensures message.None? ==> e.message == Some("")
  {
    TruncateKeeps(message);
    ClassError(TasksfileError, message)
  }

  /** src/common.js `new RunJSError(message)`. */
  function RunJSErrorOf(message: Option<string>): (e: Exception)
    ensures e.Raised? && e.cls == RunJSError && e.name == "Error"
    ensures e.message.Some? && '\n' !in e.message.value
    ensures message.Some? ==> e.message.value <= message.value
    ensures message.Some? && '\n' !in message.value ==> e.message == message
    ensures message.None? ==> e.message == Some("")
  {
    TruncateKeeps(message);
    ClassError(RunJSError, message)
  }

  /** src/shell.ts `new ShellError(message)`. */
  function ShellErrorOf(message: Option<string>): (e: Exception)
    ensures e.Raised? && e.cls == ShellError && e.name == "Error"
    ensures e.message.Some? && '\n' !in e.message.value
    ensures message.Some? ==> e.message.value <= message.value
    ensures message.Some? && '\n' !in message.value ==> e.message == message
    ensures message.None? ==> e.message == Some("")
  {
    TruncateKeeps(message);
    ClassError(ShellError, message)
  }

  /** `new Error(message)`: no truncation. */
  function PlainError(message: string): Exception {
    Raised(Error, "Error", Some(message))
  }

  /** Calling a value that is not a function, such as a missing method (its message is not modelled). */
  function NotCallable(): Exception {
    Raised(TypeError, "TypeError", None)
  }

  /** The constructors on the prototype chain, innermost first. */
  function Prototypes(e: Exception): seq<string> {
    match e
    case Raised(cls, _, _) =>
      (match cls
       case RunJSError => ["RunJSError"]
       case TasksfileError => ["TasksfileError"]
       case ShellError => ["ShellError"]
       case TypeError => ["TypeError"]
       case CliError => ["CliError"]
       case Error => [])
      + ["Error", "Object"]
    case ThrownString(_) => []
    case Foreign => ["Error", "Object"]
  }

  /** `e instanceof C`. */
  predicate InstanceOf(e: Exception, ctor: string) {
    ctor in Prototypes(e)
  }
}

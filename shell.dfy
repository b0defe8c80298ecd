/**
 * Running shell commands: `shell`, `shellSync` and `shellAsync` of src/shell.ts, and the
 * `runSync`/`runAsync` pair of src/index.js. The child process is abstract: `execSync` is a
 * function from the launch to its outcome, and an asynchronous child is the sequence of
 * events it delivers to the handlers the runner installs.
 */
module Shell {
  import opened Js
  import opened Errors

  /** src/shell.ts, or `runSync`/`runAsync` of the Flow-typed src/index.js. */
  datatype Generation = Ts | Flow

  /** The `stdio` option; only 'pipe' and 'inherit' are inspected, other settings pass through. */
  datatype Stdio = Inherit | Pipe | Ignore | OtherStdio(id: nat)

  /** The child_process function a launch goes through. */
  datatype Api = ExecSync | Spawn | Exec

  /** A child_process call: the command and the options object it receives. */
  datatype Launch = Launch(api: Api, command: string, stdio: Stdio, shell: bool,
                           cwd: Option<string>, env: Option<map<string, string>>, timeout: Option<int>)

  /** The options `shell` receives (IShellOptions); `async` is its truthiness. */
  datatype ShellOptions = ShellOptions(async: bool, cwd: Option<string>, env: Option<map<string, string>>,
                                       stdio: Option<Stdio>, timeout: Option<int>)

  /**
   * What `execSync` returns or throws: no captured output (null), a Buffer (an object, so
   * truthy even when empty), a string (falsy when empty), or an error with its message.
   */
  datatype ExecOutcome = NoOutput | Bytes(bytes: string) | Chars(chars: string) | ExecFailed(message: Option<string>)

  /** `options.stdio || 'inherit'`. */
  function StdioOr(stdio: Option<Stdio>): Stdio {
    if stdio.Some? then stdio.value else Inherit
  }

  /** A timeout sets the timer when it is truthy: present and non-zero. */
  predicate Timed(timeout: Option<int>) {
    timeout.Some? && timeout.value != 0
  }

  // ---------------------------------------------------------------------------
  // Synchronous runs

  /**
   * `shellSync` (Ts) and `runSync` (Flow): a truthy result becomes its text; a falsy one
   * is null in src/shell.ts and returned as it is (null or '') in src/index.js; a thrown
   * error becomes a ShellError or a RunJSError with the first line of its message.
   */
  function SyncResult(gen: Generation, outcome: ExecOutcome): (r: Result<Option<string>, Exception>)
    ensures r.Err? <==> outcome.ExecFailed?
    ensures r.Err? ==> r.error == (if gen == Ts then ShellErrorOf(outcome.message) else RunJSErrorOf(outcome.message))
    ensures outcome.Bytes? ==> r == Ok(Some(outcome.bytes))
    ensures outcome.Chars? && outcome.chars != "" ==> r == Ok(Some(outcome.chars))
    ensures outcome.NoOutput? ==> r == Ok(None)
    ensures outcome == Chars("") ==> r == Ok(if gen == Ts then None else Some(""))
  {
    match outcome
    case NoOutput => Ok(None)
    case Bytes(text) => Ok(Some(text))
    case Chars(text) => if text != "" then Ok(Some(text)) else if gen == Ts then Ok(None) else Ok(Some(text))
    case ExecFailed(message) => Err(if gen == Ts then ShellErrorOf(message) else RunJSErrorOf(message))
  }

  /** The error message of a failed synchronous run is its first line, for either generation. */
  lemma SyncErrorFirstLine(gen: Generation, message: string)
    ensures var r := SyncResult(gen, ExecFailed(Some(message)));
            r.Err? && r.error.Raised? && r.error.message == Some(FirstLine(message))
  {
    TruncateKeeps(Some(message));
  }

  // ---------------------------------------------------------------------------
  // Asynchronous runs: the promise settled once by competing handlers

  /** What an asynchronous child can deliver: a stdout chunk, `close`, `error`, or the timer. */
  datatype Event = Data(chunk: string) | Close(code: Option<int>) | SpawnError(text: string) | TimerFired

  datatype Settlement = Pending | Fulfilled(output: Option<string>) | Rejected(error: Exception)

  /** The handlers installed for one command: whether stdout is listened to and a timer set. */
  datatype Wiring = Wiring(gen: Generation, command: string, piped: bool, timed: bool)

  /** The promise's state with the captured `output` and whether the timer killed the child. */
  datatype Machine = Machine(output: Option<string>, settlement: Settlement, killed: bool)

  function Initial(): Machine {
    Machine(None, Pending, false)
  }

  /** src/shell.ts rejects with a ShellError, src/index.js with a plain Error. */
  function Failure(gen: Generation, message: string): Exception {
    if gen == Ts then ShellErrorOf(Some(message)) else PlainError(message)
  }

  /** `${exitCode}`: a number, or 'null' when the child was ended by a signal. */
  function CodeText(code: Option<int>): string {
    if code.Some? then IntToString(code.value) else "null"
  }

  /** `resolve`/`reject`: only the first call settles the promise. */
  function Settle(m: Machine, s: Settlement): (r: Machine)
    ensures r.output == m.output && r.killed == m.killed
    ensures r.settlement == (if m.settlement.Pending? then s else m.settlement)
  {
    if m.settlement.Pending? then m.(settlement := s) else m
  }

  /** How the event settles the promise when it is the first to do so (Pending: it does not). */
  function Verdict(w: Wiring, output: Option<string>, e: Event): Settlement {
    match e
    case Data(_) => Pending
    case Close(code) =>
      if code == Some(0) then Fulfilled(output)
      else Rejected(Failure(w.gen, "Command failed: " + w.command + " with exit code " + CodeText(code)))
    case SpawnError(text) => Rejected(Failure(w.gen, "Failed to start command: " + w.command + "; " + text))
    case TimerFired => if w.timed then Rejected(Failure(w.gen, "Command timeout: " + w.command)) else Pending
  }

  /**
   * One handler run: a chunk replaces the output when stdout is piped; `close`, `error` and
   * the timer try to settle; the timer also kills the child, settled or not, since it is
   * never cleared. Without a listener or a timer the event changes nothing.
   */
  function Step(w: Wiring, m: Machine, e: Event): (r: Machine)
    ensures !m.settlement.Pending? ==> r.settlement == m.settlement
    ensures e.Data? && w.piped ==> r.output == Some(e.chunk)
    ensures !(e.Data? && w.piped) ==> r.output == m.output
    ensures r.killed <==> m.killed || (e.TimerFired? && w.timed)
    ensures m.settlement.Pending? ==> r.settlement == Verdict(w, m.output, e)
  {
    match e
    case Data(chunk) => if w.piped then m.(output := Some(chunk)) else m
    case TimerFired => if w.timed then Settle(m.(killed := true), Verdict(w, m.output, e)) else m
    case _ => Settle(m, Verdict(w, m.output, e))
  }

  /** The machine after the events, delivered in order. */
  function RunFrom(w: Wiring, m: Machine, events: seq<Event>): Machine
    decreases |events|
  {
    if events == [] then m else RunFrom(w, Step(w, m, events[0]), events[1..])
  }

  /** The settlement decided by the first settling event, independently of the machine. */
  function FirstVerdict(w: Wiring, output: Option<string>, events: seq<Event>): (r: Settlement)
    decreases |events|
  {
    if events == [] then Pending
    else
      var v := Verdict(w, output, events[0]);
      if !v.Pending? then v
      else FirstVerdict(w, if events[0].Data? && w.piped then Some(events[0].chunk) else output, events[1..])
  }

  /** A settled promise stays settled, whatever the child delivers afterwards. */
  lemma {:induction false} SettledStays(w: Wiring, m: Machine, events: seq<Event>)
    requires !m.settlement.Pending?
    ensures RunFrom(w, m, events).settlement == m.settlement
    decreases |events|
  {
    if events != [] {
      SettledStays(w, Step(w, m, events[0]), events[1..]);
    }
  }

  /** The first of `close`, `error` and the timer to fire decides the outcome. */
  lemma {:induction false} FirstSettlerDecides(w: Wiring, m: Machine, events: seq<Event>)
    requires m.settlement.Pending?
    ensures RunFrom(w, m, events).settlement == FirstVerdict(w, m.output, events)
    decreases |events|
  {
    if events != [] {
      var next := Step(w, m, events[0]);
      if next.settlement.Pending? {
        FirstSettlerDecides(w, next, events[1..]);
      } else {
        SettledStays(w, next, events[1..]);
      }
    }
  }

  /** The last chunk delivered, when stdout is piped. */
  function LastChunk(w: Wiring, output: Option<string>, events: seq<Event>): Option<string>
    decreases |events|
  {
    if events == [] then output
    else LastChunk(w, if events[0].Data? && w.piped then Some(events[0].chunk) else output, events[1..])
  }

  predicate Quiet(w: Wiring, events: seq<Event>) {
    forall k :: 0 <= k < |events| ==> Verdict(w, None, events[k]).Pending?
  }

  /**
   * A run ending in `close` with code 0 resolves with the last chunk captured, or with null
   * when stdout is not piped (output is never captured with 'inherit').
   */
  lemma {:induction false} CloseResolvesLastChunk(w: Wiring, output: Option<string>, events: seq<Event>)
    requires Quiet(w, events)
    ensures FirstVerdict(w, output, events + [Close(Some(0))]) == Fulfilled(LastChunk(w, output, events))
    ensures !w.piped ==> LastChunk(w, output, events) == output
    decreases |events|
  {
    if events != [] {
      assert Verdict(w, output, events[0]).Pending? by {
        assert Verdict(w, None, events[0]).Pending?;
      }
      assert (events + [Close(Some(0))])[1..] == events[1..] + [Close(Some(0))];
      assert Quiet(w, events[1..]) by {
        forall k | 0 <= k < |events[1..]|
          ensures Verdict(w, None, events[1..][k]).Pending?
        {
          assert events[1..][k] == events[k + 1];
        }
      }
      CloseResolvesLastChunk(w, if events[0].Data? && w.piped then Some(events[0].chunk) else output, events[1..]);
    }
  }

  /**
   * The timer is never cleared: after `close` settled the promise, the timer still kills the
   * child, and the settlement stays what `close` decided.
   */
  lemma TimerFiresAfterClose(w: Wiring, output: Option<string>)
    requires w.timed
    ensures var m := RunFrom(w, Machine(output, Pending, false), [Close(Some(0)), TimerFired]);
            m.killed && m.settlement == Fulfilled(output)
  {
    var m1 := Step(w, Machine(output, Pending, false), Close(Some(0)));
    assert [Close(Some(0)), TimerFired][1..] == [TimerFired];
    assert RunFrom(w, m1, [TimerFired]) == RunFrom(w, Step(w, m1, TimerFired), []);
  }

  /** Without a timeout no timer is set, so the child is never killed. */
  lemma {:induction false} UntimedNeverKills(w: Wiring, m: Machine, events: seq<Event>)
    requires !w.timed && !m.killed
    ensures !RunFrom(w, m, events).killed
    decreases |events|
  {
    if events != [] {
      UntimedNeverKills(w, Step(w, m, events[0]), events[1..]);
    }
  }

  /**
   * The promise of one asynchronous command, its handlers, and the `output` variable they
   * share. Each method is one handler; the runtime calls them in delivery order.
   */
  class AsyncCommand {
    const wiring: Wiring
    var output: Option<string>
    var settlement: Settlement
    var killed: bool

    function State(): Machine
      reads this
    {
      Machine(output, settlement, killed)
    }

    constructor (w: Wiring)
      ensures wiring == w && State() == Initial()
    {
      wiring := w;
      output := None;
      settlement := Pending;
      killed := false;
    }

    method Resolve(value: Option<string>)
      modifies this
      ensures State() == Settle(old(State()), Fulfilled(value))
    {
      if settlement.Pending? {
        settlement := Fulfilled(value);
      }
    }

    method Reject(error: Exception)
      modifies this
      ensures State() == Settle(old(State()), Rejected(error))
    {
      if settlement.Pending? {
        settlement := Rejected(error);
      }
    }

    /** `asyncProcess.stdout.on('data', …)`, installed only for 'pipe'. */
    method OnData(chunk: string)
      modifies this
      ensures State() == Step(wiring, old(State()), Data(chunk))
    {
      if wiring.piped {
        output := Some(chunk);
      }
    }

    /** `asyncProcess.on('close', …)`. */
    method OnClose(code: Option<int>)
      modifies this
      ensures State() == Step(wiring, old(State()), Close(code))
    {
      if code == Some(0) {
        Resolve(output);
      } else {
        Reject(Failure(wiring.gen, "Command failed: " + wiring.command + " with exit code " + CodeText(code)));
      }
    }

    /** `asyncProcess.on('error', …)`. */
    method OnError(text: string)
      modifies this
      ensures State() == Step(wiring, old(State()), SpawnError(text))
    {
      Reject(Failure(wiring.gen, "Failed to start command: " + wiring.command + "; " + text));
    }

    /** The `setTimeout` callback, set only for a truthy timeout. */
    method OnTimeout()
      modifies this
      ensures State() == Step(wiring, old(State()), TimerFired)
    {
      if wiring.timed {
        killed := true;
        Reject(Failure(wiring.gen, "Command timeout: " + wiring.command));
      }
    }

    method Deliver(e: Event)
      modifies this
      ensures State() == Step(wiring, old(State()), e)
    {
      match e {
        case Data(chunk) => OnData(chunk);
        case Close(code) => OnClose(code);
        case SpawnError(text) => OnError(text);
        case TimerFired => OnTimeout();
      }
    }

    /** Delivering the events in order yields the machine's run. */
    method DeliverAll(events: seq<Event>)
      modifies this
      ensures State() == RunFrom(wiring, old(State()), events)
    {
      var i := 0;
      while i < |events|
        invariant 0 <= i <= |events|
        invariant RunFrom(wiring, old(State()), events) == RunFrom(wiring, State(), events[i..])
      {
        assert events[i..][1..] == events[i + 1..];
        Deliver(events[i]);
        i := i + 1;
      }
    }
  }

  // ---------------------------------------------------------------------------
  // Dispatch

  /** What a call to `shell` (or `run`) returns: a finished synchronous run, or a started child. */
  datatype Outcome = Finished(launch: Launch, result: Result<Option<string>, Exception>) | Started(launch: Launch, wiring: Wiring)

  /** The wiring `shellAsync`/`runAsync` installs for a launch. */
  function WiringOf(gen: Generation, launch: Launch): Wiring {
    Wiring(gen, launch.command, launch.stdio == Pipe, Timed(launch.timeout))
  }

  /**
   * `shell(command, options)` of src/shell.ts: asynchronous exactly when options are given
   * with a truthy `async`; both paths pass the options on with `stdio` defaulting to
   * 'inherit', and only the asynchronous one adds `shell: true`.
   */
  function ShellCall(command: string, options: Option<ShellOptions>, exec: Launch -> ExecOutcome): (r: Outcome)
    ensures r.Started? <==> options.Some? && options.value.async
    ensures r.launch.command == command
    ensures r.launch.stdio == StdioOr(if options.Some? then options.value.stdio else None)
    ensures r.launch.shell <==> r.Started?
    ensures options.Some? ==> r.launch.cwd == options.value.cwd && r.launch.env == options.value.env
                               && r.launch.timeout == options.value.timeout
    ensures r.Started? ==> r.launch.api == Spawn && r.wiring == WiringOf(Ts, r.launch)
    ensures r.Finished? ==> r.launch.api == ExecSync && r.result == SyncResult(Ts, exec(r.launch))
  {
    match options
    case None =>
      var launch := Launch(ExecSync, command, Inherit, false, None, None, None);
      Finished(launch, SyncResult(Ts, exec(launch)))
    case Some(o) =>
      if o.async then
        var launch := Launch(Spawn, command, StdioOr(o.stdio), true, o.cwd, o.env, o.timeout);
        Started(launch, WiringOf(Ts, launch))
      else
        var launch := Launch(ExecSync, command, StdioOr(o.stdio), false, o.cwd, o.env, o.timeout);
        Finished(launch, SyncResult(Ts, exec(launch)))
  }

  /**
   * src/index.js after `run` has normalised the options: `runAsync` when `async`, else
   * `runSync`, each with the options as they are (`shell: true` included).
   */
  function RunFlow(command: string, options: ShellOptions, exec: Launch -> ExecOutcome): (r: Outcome)
    ensures r.Started? <==> options.async
    ensures r.launch == Launch(if options.async then Spawn else ExecSync, command, StdioOr(options.stdio), true,
                               options.cwd, options.env, options.timeout)
    ensures r.Started? ==> r.wiring == WiringOf(Flow, r.launch)
    ensures r.Finished? ==> r.result == SyncResult(Flow, exec(r.launch))
  {
    var launch := Launch(if options.async then Spawn else ExecSync, command, StdioOr(options.stdio), true,
                         options.cwd, options.env, options.timeout);
    if options.async then Started(launch, WiringOf(Flow, launch))
    else Finished(launch, SyncResult(Flow, exec(launch)))
  }
}

/**
 * The flat dispatchers of the oldest generations: `call` of lib/index.js and index.js,
 * which wrap every entry of the task object in place before the lookup, and `runTask` of
 * script.js; and the `run` helpers of lib/index.js and index.js, which write their defaults
 * into the caller's options object.
 */
module Flat {
  import opened Js
  import opened Errors
  import opened Effects
  import opened Shell
  import opened SrcIndex

  /**
   * A property value of a task object: a task function (with the exception its body
   * throws, if it throws), a wrapper `call` installed
   * around the previous value under a key, a primitive, or a nested object.
   */
  datatype Value = Fn(id: nat, throws: Option<Exception>) | Wrapped(key: string, inner: Value) | Primitive(truthy: bool) | Table(t: TaskTable)

  predicate Truthy(v: Value) {
    !v.Primitive? || v.truthy
  }

  /** A task object: its own keys in insertion order with their values. */
  class TaskTable {
    var entries: seq<(string, Value)>

    constructor (entries: seq<(string, Value)>)
      ensures this.entries == entries
    {
      this.entries := entries;
    }

    /** `Object.keys(obj)`. */
    function Keys(): (r: seq<string>)
      reads this
      ensures |r| == |entries| && forall k :: 0 <= k < |r| ==> r[k] == entries[k].0
    {
      seq(|entries|, k reads this requires 0 <= k < |entries| => entries[k].0)
    }

    /** `obj[key]`, when it is an own key. */
    function Lookup(key: string): (r: Option<Value>)
      reads this
      ensures r.Some? <==> key in Keys()
      ensures r.Some? ==> exists k :: 0 <= k < |entries| && entries[k] == (key, r.value)
    {
      FirstValue(entries, key)
    }
  }

  function FirstValue(entries: seq<(string, Value)>, key: string): (r: Option<Value>)
    ensures r.Some? <==> exists k :: 0 <= k < |entries| && entries[k].0 == key
    ensures r.Some? ==> exists k :: 0 <= k < |entries| && entries[k] == (key, r.value)
  {
    if entries == [] then None
    else if entries[0].0 == key then Some(entries[0].1)
    else
      var r := FirstValue(entries[1..], key);
      assert r.Some? ==> exists k :: 0 <= k < |entries| && entries[k] == (key, r.value) by {
        if r.Some? {
          var k :| 0 <= k < |entries[1..]| && entries[1..][k] == (key, r.value);
          assert entries[k + 1] == (key, r.value);
        }
      }
      assert (exists k :: 0 <= k < |entries| && entries[k].0 == key) ==> r.Some? by {
        if exists k :: 0 <= k < |entries| && entries[k].0 == key {
          var k :| 0 <= k < |entries| && entries[k].0 == key;
          assert entries[1..][k - 1].0 == key;
        }
      }
      r
  }

  /** Every entry replaced by a wrapper around its previous value, keys and order kept. */
  function WrapEntries(entries: seq<(string, Value)>): (r: seq<(string, Value)>)
    ensures |r| == |entries|
    ensures forall k :: 0 <= k < |r| ==> r[k] == (entries[k].0, Wrapped(entries[k].0, entries[k].1))
  {
    if entries == [] then [] else [(entries[0].0, Wrapped(entries[0].0, entries[0].1))] + WrapEntries(entries[1..])
  }

  /** After wrapping, every own key holds a wrapper, which is truthy, around what it held before. */
  lemma WrappedLookup(entries: seq<(string, Value)>, key: string)
    ensures var before := FirstValue(entries, key);
            var after := FirstValue(WrapEntries(entries), key);
            && (after.Some? <==> before.Some?)
            && (after.Some? ==> after.value == Wrapped(key, before.value) && Truthy(after.value))
  {
    if entries != [] {
      assert WrapEntries(entries)[1..] == WrapEntries(entries[1..]);
      WrappedLookup(entries[1..], key);
    }
  }

  /**
   * Calling a value with `apply(null, args)`: a task function runs and returns or throws; a wrapper logs
   * 'Running', calls what it wraps and logs 'Finished' unless that threw; anything else
   * is not callable and throws a TypeError.
   */
  function Apply(v: Value, args: seq<string>): (r: (seq<Effect>, Option<Exception>))
    ensures v.Fn? ==> r == ([Invoke(v.id, NoThis, args)], v.throws)
    ensures (v.Primitive? || v.Table?) ==> r == ([], Some(NotCallable()))
    ensures v.Wrapped? ==> r.0 != [] && r.0[0] == Running(v.key)
    ensures v.Wrapped? ==> r.1 == Apply(v.inner, args).1
  {
    match v
    case Fn(id, throws) => ([Invoke(id, NoThis, args)], throws)
    case Wrapped(key, inner) =>
      var (effects, thrown) := Apply(inner, args);
      if thrown.Some? then ([Running(key)] + effects, thrown)
      else ([Running(key)] + effects + [Effect.Finished(key)], None)
    case _ => ([], Some(NotCallable()))
  }

  /** A wrapper around a task function runs it once, between its two log lines. */
  lemma WrapperRunsTask(key: string, id: nat, args: seq<string>)
    ensures Apply(Wrapped(key, Fn(id, None)), args) == ([Running(key), Invoke(id, NoThis, args), Effect.Finished(key)], None)
  {
    assert [Running(key)] + [Invoke(id, NoThis, args)] + [Effect.Finished(key)]
        == [Running(key), Invoke(id, NoThis, args), Effect.Finished(key)];
  }

  /** A task that throws skips the wrapper's 'Finished' line, and its exception propagates out of the wrapper. */
  lemma WrapperSkipsFinished(key: string, id: nat, e: Exception, args: seq<string>)
    ensures Apply(Wrapped(key, Fn(id, Some(e))), args) == ([Running(key), Invoke(id, NoThis, args)], Some(e))
  {
    assert [Running(key)] + [Invoke(id, NoThis, args)] == [Running(key), Invoke(id, NoThis, args)];
  }

  /** The tasks invoked through a value are those invoked through what it wraps, with no extra call. */
  lemma {:induction false} WrappingKeepsInvocations(v: Value, key: string, args: seq<string>)
    ensures Invoked(Apply(Wrapped(key, v), args).0) == Invoked(Apply(v, args).0)
    ensures Apply(Wrapped(key, v), args).1 == Apply(v, args).1
  {
    var r := Apply(v, args);
    assert Apply(Wrapped(key, v), args)
        == if r.1.Some? then ([Running(key)] + r.0, r.1) else ([Running(key)] + r.0 + [Effect.Finished(key)], None);
    InvokesNothing(Running(key));
    InvokedAppend([Running(key)], r.0);
    if r.1.None? {
      InvokesNothing(Effect.Finished(key));
      InvokedAppend([Running(key)] + r.0, [Effect.Finished(key)]);
    }
  }

  /** Which flat dispatcher: lib/index.js `call`, index.js `call`, or script.js `runTask`. */
  datatype Dispatcher = LibIndex | RootIndex | RootScript

  /** Where the task name sits in `args`, and where the task's own arguments start. */
  function NameIndex(d: Dispatcher): nat {
    if d == LibIndex then 0 else 1
  }

  /** The listing printed when no task name is given. */
  function KeyLines(keys: seq<string>): (r: seq<Effect>)
    ensures |r| == |keys| && forall k :: 0 <= k < |r| ==> r[k] == Line(Log, keys[k])
  {
    if keys == [] then [] else KeyLines(keys[..|keys| - 1]) + [Line(Log, keys[|keys| - 1])]
  }

  /** The printed 'Available tasks:' header and one line per key, in order. */
  method ListTasks(table: TaskTable) returns (effects: seq<Effect>)
    ensures effects == [Line(Log, "Available tasks:")] + KeyLines(table.Keys())
  {
    effects := [Line(Log, "Available tasks:")];
    var keys := table.Keys();
    var i := 0;
    while i < |keys|
      invariant 0 <= i <= |keys|
      invariant effects == [Line(Log, "Available tasks:")] + KeyLines(keys[..i])
    {
      assert keys[..i + 1][..i] == keys[..i];
      effects := effects + [Line(Log, keys[i])];
      i := i + 1;
    }
    assert keys[..i] == keys;
  }

  /** Replaces every entry of the table by a wrapper around its previous value, in place. */
  method WrapAll(table: TaskTable)
    modifies table
    ensures table.entries == WrapEntries(old(table.entries))
  {
    var i := 0;
    while i < |table.entries|
      invariant 0 <= i <= |table.entries| == |old(table.entries)|
      invariant table.entries[..i] == WrapEntries(old(table.entries))[..i]
      invariant table.entries[i..] == old(table.entries)[i..]
    {
      var (t, task) := table.entries[i];
      table.entries := table.entries[i := (t, Wrapped(t, task))];
      i := i + 1;
    }
  }

  /** lib/index.js uses `obj.default` when that is truthy; the other dispatchers use `obj`. */
  function TargetOf(d: Dispatcher, obj: TaskTable): (r: Option<TaskTable>)
    reads obj
    ensures r.None? ==> d == LibIndex
    ensures d != LibIndex ==> r == Some(obj)
    ensures d == LibIndex && obj.Lookup("default").Some? && obj.Lookup("default").value.Table?
            ==> r == Some(obj.Lookup("default").value.t)
    ensures d == LibIndex && (obj.Lookup("default").None? || !Truthy(obj.Lookup("default").value)) ==> r == Some(obj)
    ensures (d == LibIndex && obj.Lookup("default").Some? && Truthy(obj.Lookup("default").value)
             && !obj.Lookup("default").value.Table?) ==> r.None?
  {
    var dflt := obj.Lookup("default");
    if d == LibIndex && dflt.Some? && Truthy(dflt.value) then
      if dflt.value.Table? then Some(dflt.value.t) else None
    else Some(obj)
  }

  /**
   * `call(obj, args)` of lib/index.js and index.js and `runTask(tasks, args)` of script.js.
   * A falsy name lists the keys. Otherwise the two `call`s wrap every entry in place and
   * run the entry under the name, or log that it is not found; `runTask` runs it when it
   * is truthy and throws the string 'Task X not found' otherwise. A truthy `default` that
   * is not an object (a function, a primitive) is read as an object without keys.
   */
  method Call(d: Dispatcher, obj: TaskTable, args: seq<string>, paint: (Color, string) -> string)
    returns (effects: seq<Effect>, thrown: Option<Exception>)
    modifies if TargetOf(d, obj).Some? then {TargetOf(d, obj).value} else {}
    ensures var target := old(TargetOf(d, obj));
            var name := if |args| > NameIndex(d) then args[NameIndex(d)] else "";
            var rest := if |args| > NameIndex(d) then args[NameIndex(d) + 1..] else [];
            && (name == "" ==> thrown.None? && effects == [Line(Log, "Available tasks:")]
                                + KeyLines(if target.Some? then old(target.value.Keys()) else []))
            && (target.Some? && (name == "" || d == RootScript) ==> target.value.entries == old(target.value.entries))
            && (target.Some? && name != "" && d != RootScript ==> target.value.entries == WrapEntries(old(target.value.entries)))
            && (name != "" ==> var found := if target.Some? then old(target.value.Lookup(name)) else None;
                  if d == RootScript then
                    if found.Some? && Truthy(found.value) then (effects, thrown) == Apply(found.value, rest)
                    else effects == [] && thrown == Some(ThrownString("Task " + name + " not found"))
                  else if found.Some? then (effects, thrown) == Apply(Wrapped(name, found.value), rest)
                  else thrown.None? && effects == [Line(Log, paint(Red, "Task " + name + " not found"))])
  {
    var target := TargetOf(d, obj);
    var name := if |args| > NameIndex(d) then args[NameIndex(d)] else "";
    var rest := if |args| > NameIndex(d) then args[NameIndex(d) + 1..] else [];
    thrown := None;
    if name == "" {
      if target.Some? {
        effects := ListTasks(target.value);
      } else {
        effects := [Line(Log, "Available tasks:")];
        assert KeyLines([]) == [];
      }
      return;
    }
    if target.None? {
      effects := [Line(Log, paint(Red, "Task " + name + " not found"))];
      return;
    }
    var table := target.value;
    if d == RootScript {
      var task := table.Lookup(name);
      if task.Some? && Truthy(task.value) {
        var r := Apply(task.value, rest);
      effects, thrown := r.0, r.1;
      } else {
        effects := [];
        thrown := Some(ThrownString("Task " + name + " not found"));
      }
      return;
    }
    ghost var before := table.entries;
    WrapAll(table);
    WrappedLookup(before, name);
    var task := table.Lookup(name);
    if task.Some? && Truthy(task.value) {
      var r := Apply(task.value, rest);
      effects, thrown := r.0, r.1;
    } else {
      effects := [Line(Log, paint(Red, "Task " + name + " not found"))];
    }
  }

  /**
   * After wrapping, `if (task)` can no longer tell a falsy entry from a task: a key that
   * holds a falsy value is still called, logs 'Running' and throws a TypeError, where
   * script.js reports it as not found.
   */
  lemma FalsyEntryStillCalled(key: string, args: seq<string>)
    ensures Apply(Wrapped(key, Primitive(false)), args) == ([Running(key)], Some(NotCallable()))
  {
    assert [Running(key)] + [] == [Running(key)];
  }

  // ---------------------------------------------------------------------------
  // run

  /** A caller's options object, which both `run`s update in place. */
  class CallerOptions {
    var env: Option<Env>
    var stdio: Option<Stdio>
    var shell: bool
    var async: bool
    var cwd: Option<string>
    var timeout: Option<int>

    constructor ()
      ensures env.None? && stdio.None? && !shell && !async && cwd.None? && timeout.None?
    {
      env, stdio, shell, async, cwd, timeout := None, None, false, false, None, None;
    }
  }

  /** `options.env || process.env`. */
  function EnvTarget(options: CallerOptions, processEnv: Env): Env
    reads options
  {
    if options.env.Some? then options.env.value else processEnv
  }

  /** lib/index.js's bin directory: the working directory's node_modules/.bin/. */
  function BinDir(cwd: string): string {
    cwd + "/node_modules/.bin/"
  }

  /**
   * `run(cmd, options)` of lib/index.js: `env` defaults to `process.env` and gets the bin
   * directory in front of its PATH, `stdio` defaults to 'inherit' and `shell` is set, all
   * on the caller's object; the bold command is logged, then `spawn` (async) or `execSync`
   * receives the command and that object.
   */
  method LibRun(cmd: string, options: CallerOptions, processEnv: Env, cwd: string, delimiter: string,
                paint: (Color, string) -> string) returns (log: seq<Effect>, launch: Launch)
    modifies options, EnvTarget(options, processEnv)
    ensures options.env == Some(old(EnvTarget(options, processEnv)))
    ensures options.env.value.vars
            == old(EnvTarget(options, processEnv).vars)["PATH" := AugmentedPath(BinDir(cwd), delimiter, old(EnvTarget(options, processEnv).vars), old(processEnv.vars))]
    ensures options.stdio == Some(StdioOr(old(options.stdio))) && options.shell
    ensures options.async == old(options.async) && options.cwd == old(options.cwd) && options.timeout == old(options.timeout)
    ensures log == [Line(Log, paint(Bold, cmd))]
    ensures launch == Launch(if options.async then Spawn else ExecSync, cmd, StdioOr(old(options.stdio)), true,
                             options.cwd, Some(options.env.value.vars), options.timeout)
  {
    if options.env.None? {
      options.env := Some(processEnv);
    }
    var env := options.env.value;
    var envPath := if Var(env.vars, "PATH") != "" then env.vars["PATH"] else Var(processEnv.vars, "PATH");
    env.vars := env.vars["PATH" := BinDir(cwd) + delimiter + envPath];
    options.stdio := Some(StdioOr(options.stdio));
    options.shell := true;
    log := [Line(Log, paint(Bold, cmd))];
    launch := Launch(if options.async then Spawn else ExecSync, cmd, options.stdio.value, options.shell,
                     options.cwd, Some(env.vars), options.timeout);
  }

  /** The command index.js hands to the shell: the bin directory appended to PATH first. */
  function PrefixedCommand(cwd: string, cmd: string): (r: string)
    ensures |r| >= |cmd| && r[|r| - |cmd|..] == cmd && "PATH=$PATH:" <= r
  {
    "PATH=$PATH:" + cwd + "/node_modules/.bin/ " + cmd
  }

  /**
   * `run(cmd, options)` of index.js: `stdio` defaults to 'inherit' on the caller's object
   * (a fresh one when none is given); the original command is logged in bold; `exec` (async)
   * or `execSync` receives the command behind a PATH assignment.
   */
  method RootRun(cmd: string, options: Option<CallerOptions>, cwd: string, paint: (Color, string) -> string)
    returns (log: seq<Effect>, launch: Launch)
    modifies if options.Some? then {options.value} else {}
    ensures options.Some? ==> options.value.stdio == Some(StdioOr(old(options.value.stdio)))
                               && options.value.env == old(options.value.env)
                               && options.value.shell == old(options.value.shell)
                               && options.value.async == old(options.value.async)
                               && options.value.cwd == old(options.value.cwd)
                               && options.value.timeout == old(options.value.timeout)
    ensures log == [Line(Log, paint(Bold, cmd))]
    ensures launch.command == PrefixedCommand(cwd, cmd)
    ensures options.None? ==> launch == Launch(ExecSync, PrefixedCommand(cwd, cmd), Inherit, false, None, None, None)
    ensures options.Some? ==>
              launch == Launch(if options.value.async then Exec else ExecSync, PrefixedCommand(cwd, cmd),
                               StdioOr(old(options.value.stdio)), options.value.shell, options.value.cwd,
                               if options.value.env.Some? then Some(options.value.env.value.vars) else None,
                               options.value.timeout)
  {
    var o: CallerOptions;
    if options.Some? {
      o := options.value;
    } else {
      o := new CallerOptions();
    }
    o.stdio := Some(StdioOr(o.stdio));
    log := [Line(Log, paint(Bold, cmd))];
    var command := "PATH=$PATH:" + cwd + "/node_modules/.bin/ " + cmd;
    launch := Launch(if o.async then Exec else ExecSync, command, o.stdio.value, o.shell, o.cwd,
                     if o.env.Some? then Some(o.env.value.vars) else None, o.timeout);
  }
}

/**
 * `load(config, logger, requirer, access)` of lib/script.js, src/script.js and
 * src/script.ts: require the configured modules in order, check that the tasks file is
 * accessible, require it and prefer its default export.
 */
module Loader {
  import opened Js
  import opened Errors
  import opened Registry
  import opened Effects

  /** lib/script.js, src/script.js (Flow) or src/script.ts. */
  datatype Variant = Lib | Flow | Ts

  /**
   * The configuration read from package.json: the tasks file path (`runfile` or
   * `tasksfile`; '' when missing or empty) and `requires` (here `preload`), when it is an array.
   */
  datatype Config = Config(path: string, preload: Option<seq<string>>)

  function DefaultPath(v: Variant): string {
    if v == Ts then "./tasksfile.js" else "./runfile.js"
  }

  /** `config.runfile || DEFAULT_RUNFILE_PATH`. */
  function TasksFilePath(v: Variant, config: Config): (p: string)
    ensures p != ""
    ensures config.path != "" ==> p == config.path
  {
    if config.path != "" then config.path else DefaultPath(v)
  }

  /** lib logs plain text; both src versions wrap it in `chalk.gray`. */
  function Progress(v: Variant, paint: (Color, string) -> string, s: string): Effect {
    Line(Log, if v == Lib then s else paint(Gray, s))
  }

  /** The error for a tasks file `access` rejects. */
  function NoFile(v: Variant, path: string, cwd: string): (e: Exception)
    ensures e.Raised? && e.cls == (if v == Ts then TasksfileError else RunJSError)
    ensures '\n' !in path + cwd ==> e.message == Some("No " + path + " defined in " + cwd)
  {
    var message := "No " + path + " defined in " + cwd;
    match v
    case Lib => TruncateKeeps(Some(message)); LibRunJSError(Some(message))
    case Flow => RunJSErrorOf(Some(message))
    case Ts => TasksfileErrorOf(Some(message))
  }

  /** `module.default` when truthy, the module itself otherwise. */
  function DefaultExport(m: Entry): (r: Entry)
    ensures r == m <==> Get(m, "default").None? || !EntryTruthy(Get(m, "default").value) || Get(m, "default").value == m
    ensures r != m ==> m.Namespace? && r < m
  {
    var d := Get(m, "default");
    if d.Some? && EntryTruthy(d.value) then d.value else m
  }

  /**
   * Requiring `paths` in order, each announced first; a module that fails to load (None)
   * throws out of the loop. Returns the effects and whether every module loaded.
   */
  function RequireAll(v: Variant, paint: (Color, string) -> string, paths: seq<string>, modules: string -> Option<Entry>): (seq<Effect>, bool)
  {
    if paths == [] then ([], true)
    else
      var (before, ok) := RequireAll(v, paint, paths[..|paths| - 1], modules);
      var last := paths[|paths| - 1];
      if !ok then (before, false)
      else (before + [Progress(v, paint, "Requiring " + last + "..."), Require(last)], modules(last).Some?)
  }

  predicate AllLoad(paths: seq<string>, modules: string -> Option<Entry>) {
    forall k :: 0 <= k < |paths| ==> modules(paths[k]).Some?
  }

  /** Once a module has failed, the modules after it are not required. */
  lemma {:induction false} RequireAllStopsAtFailure(v: Variant, paint: (Color, string) -> string, paths: seq<string>, j: nat, modules: string -> Option<Entry>)
    requires j <= |paths| && !RequireAll(v, paint, paths[..j], modules).1
    ensures RequireAll(v, paint, paths, modules) == RequireAll(v, paint, paths[..j], modules)
    decreases |paths|
  {
    if j < |paths| {
      assert paths[..|paths| - 1][..j] == paths[..j];
      RequireAllStopsAtFailure(v, paint, paths[..|paths| - 1], j, modules);
    } else {
      assert paths[..j] == paths;
    }
  }

  /**
   * The modules are required in the configured order, up to and including the first that
   * fails; the loop completes exactly when every module loads.
   */
  lemma {:induction false} RequireAllInOrder(v: Variant, paint: (Color, string) -> string, paths: seq<string>, modules: string -> Option<Entry>)
    ensures var (effects, ok) := RequireAll(v, paint, paths, modules);
            var req := Required(effects);
            && req <= paths
            && (ok <==> AllLoad(paths, modules))
            && (ok ==> req == paths)
            && (!ok ==> req != [] && modules(req[|req| - 1]).None? && AllLoad(req[..|req| - 1], modules))
    decreases |paths|
  {
    if paths != [] {
      var init := paths[..|paths| - 1];
      RequireAllInOrder(v, paint, init, modules);
      var (before, ok) := RequireAll(v, paint, init, modules);
      if ok {
        RequireLast(v, paint, paths, modules);
      } else {
        var req := Required(before);
        assert req <= init;
        assert init <= paths;
        assert !AllLoad(paths, modules) by {
          assert paths[|req| - 1] == init[|req| - 1] == req[|req| - 1];
        }
      }
    }
  }

  /** The step of RequireAllInOrder where every module before the last has loaded. */
  lemma RequireLast(v: Variant, paint: (Color, string) -> string, paths: seq<string>, modules: string -> Option<Entry>)
    requires paths != []
    requires var init := paths[..|paths| - 1];
             RequireAll(v, paint, init, modules).1 && AllLoad(init, modules) && Required(RequireAll(v, paint, init, modules).0) == init
    ensures var (effects, ok) := RequireAll(v, paint, paths, modules);
            var req := Required(effects);
            && req == paths
            && (ok <==> AllLoad(paths, modules))
            && (!ok ==> modules(req[|req| - 1]).None? && AllLoad(req[..|req| - 1], modules))
  {
    var init := paths[..|paths| - 1];
    var last := paths[|paths| - 1];
    var before := RequireAll(v, paint, init, modules).0;
    var step := [Progress(v, paint, "Requiring " + last + "..."), Require(last)];
    assert Required(step) == [last] by {
      assert step[..1] == [step[0]];
      assert Required(step[..1]) == [];
    }
    RequiredAppend(before, step);
    assert init + [last] == paths;
  }

  /** What `load` does: its logger calls, requires and file checks, and its result or exception. */
  function LoadSpec(v: Variant, config: Config, cwd: string, access: string -> bool, modules: string -> Option<Entry>,
                    paint: (Color, string) -> string): (seq<Effect>, Result<Entry, Exception>)
  {
    var (pre, ok) := if config.preload.Some? then RequireAll(v, paint, config.preload.value, modules) else ([], true);
    if !ok then (pre, Err(Foreign))
    else
      var path := TasksFilePath(v, config);
      var processed := pre + [Progress(v, paint, "Processing " + path + "...")];
      if !access(path) then (processed, Err(NoFile(v, path, cwd)))
      else if modules(path).None? then (processed + [Require(path)], Err(Foreign))
      else (processed + [Require(path)], Ok(DefaultExport(modules(path).value)))
  }

  /**
   * `load` step by step, with the requires loop and the early exits where an exception
   * leaves it. `access` stands for the access check (false where it throws), `modules`
   * for `requirer` (None where it throws).
   */
  method Load(v: Variant, config: Config, cwd: string, access: string -> bool, modules: string -> Option<Entry>,
              paint: (Color, string) -> string) returns (effects: seq<Effect>, result: Result<Entry, Exception>)
    ensures (effects, result) == LoadSpec(v, config, cwd, access, modules, paint)
  {
    effects := [];
    if config.preload.Some? {
      var paths := config.preload.value;
      var i := 0;
      while i < |paths|
        invariant 0 <= i <= |paths|
        invariant RequireAll(v, paint, paths[..i], modules) == (effects, true)
      {
        var modulePath := paths[i];
        assert paths[..i + 1][..i] == paths[..i];
        effects := effects + [Progress(v, paint, "Requiring " + modulePath + "..."), Require(modulePath)];
        if modules(modulePath).None? {
          RequireAllStopsAtFailure(v, paint, paths, i + 1, modules);
          result := Err(Foreign);
          return;
        }
        i := i + 1;
      }
      assert paths[..i] == paths;
    }
    var path := if config.path != "" then config.path else DefaultPath(v);
    effects := effects + [Progress(v, paint, "Processing " + path + "...")];
    if !access(path) {
      result := Err(NoFile(v, path, cwd));
      return;
    }
    effects := effects + [Require(path)];
    var tasksfile := modules(path);
    if tasksfile.None? {
      result := Err(Foreign);
      return;
    }
    result := Ok(DefaultExport(tasksfile.value));
  }

  /**
   * The whole load: `load` returns exactly when every configured module and the tasks file
   * load and the file is accessible; it then returns the file's default export or the file,
   * having required the configured modules in order and the tasks file last.
   */
  lemma LoadOutcome(v: Variant, config: Config, cwd: string, access: string -> bool, modules: string -> Option<Entry>,
                    paint: (Color, string) -> string)
    ensures var (effects, result) := LoadSpec(v, config, cwd, access, modules, paint);
            var reqs := config.preload.GetOr([]);
            var path := TasksFilePath(v, config);
            && (result.Ok? <==> AllLoad(reqs, modules) && access(path) && modules(path).Some?)
            && (result.Ok? ==> result.value == DefaultExport(modules(path).value) && Required(effects) == reqs + [path])
            && (AllLoad(reqs, modules) && !access(path) ==> result == Err(NoFile(v, path, cwd)) && Required(effects) == reqs)
            && (!AllLoad(reqs, modules) ==> result == Err(Foreign) && Required(effects) <= reqs)
  {
    var reqs := config.preload.GetOr([]);
    var path := TasksFilePath(v, config);
    var (pre, ok) := if config.preload.Some? then RequireAll(v, paint, reqs, modules) else ([], true);
    RequireAllInOrder(v, paint, reqs, modules);
    var processed := pre + [Progress(v, paint, "Processing " + path + "...")];
    RequiredAppend(pre, [Progress(v, paint, "Processing " + path + "...")]);
    RequiredAppend(processed, [Require(path)]);
  }
}

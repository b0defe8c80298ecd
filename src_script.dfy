/**
 * src/script.ts and src/script.js: name-spaced dispatch that hands the command line to
 * microcli, and the task listing with padded one-line descriptions. The two files differ
 * in the error class, the footer's command name and whether parameters are listed.
 */
module SrcScript {
  import opened Js
  import opened Errors
  import opened Registry
  import opened Effects

  /** src/script.ts or its Flow-typed predecessor src/script.js. */
  datatype Generation = Ts | Flow

  /** `new TasksfileError(...)` in src/script.ts, `new RunJSError(...)` in src/script.js. */
  function NotFound(gen: Generation, name: string): (e: Exception)
    ensures e.Raised? && e.name == "Error" && e.cls == (if gen == Ts then TasksfileError else RunJSError)
    ensures '\n' !in name ==> e.message == Some("Task " + name + " not found")
  {
    var message := "Task " + name + " not found";
    if gen == Ts then TasksfileErrorOf(Some(message)) else RunJSErrorOf(Some(message))
  }

  /**
   * What microcli does with `args.slice(1)` and the task's help: run the callback with
   * parsed options and parameters, print the task's help instead, or throw a CliError.
   */
  datatype CliOutcome =
    | CliParsed(options: map<string, string>, params: seq<string>)
    | CliShowedHelp
    | CliRejected(message: string)

  predicate IsRejection(e: Exception) {
    e.Raised? && e.cls == CliError
  }

  /** The resolved branch of `call`: microcli parses the command line and runs or documents the task. */
  function Dispatch(task: Entry, args: seq<string>, cli: (seq<string>, Help) -> CliOutcome): (r: CallResult)
    requires task.Task? && |args| > 0
    ensures r.outcome == Returned(task) <==> !cli(args[1..], task.help).CliRejected?
    ensures r.outcome.Threw? ==> IsRejection(r.outcome.error)
    ensures cli(args[1..], task.help).CliParsed? ==>
              r.effects == [Invoke(task.id, CliOptions(cli(args[1..], task.help).options), cli(args[1..], task.help).params)]
    ensures !cli(args[1..], task.help).CliParsed? ==> forall e :: e in r.effects ==> !e.Invoke?
  {
    match cli(args[1..], task.help)
    case CliParsed(options, params) => CallResult([Invoke(task.id, CliOptions(options), params)], Returned(task))
    case CliShowedHelp => CallResult([CliHelp(task.help)], Returned(task))
    case CliRejected(message) => CallResult([], Threw(Raised(CliError, "Error", Some(message))))
  }

  /**
   * `call(obj, args, logger, subtaskName)` as written: the looked-up name is
   * `subtaskName || args[2]`, so a remaining name of '' falls back to the full command-line
   * name, and every level without a (truthy) subtask name throws when nothing resolved.
   */
  function Call(gen: Generation, obj: Entry, args: seq<string>, subtask: string, cli: (seq<string>, Help) -> CliOutcome): (r: CallResult)
    requires |args| > 2
    ensures subtask == "" ==> !r.outcome.Unresolved?
    ensures r.outcome.Threw? ==> r.outcome.error == NotFound(gen, args[2]) || IsRejection(r.outcome.error)
    ensures r.outcome.Returned? ==> r.outcome.task.Task?
    decreases obj
  {
    var name := if subtask != "" then subtask else args[2];
    var direct := Get(obj, name);
    if direct.Some? && direct.value.Task? then Dispatch(direct.value, args, cli)
    else
      var (root, next) := SplitFirst(name, ':');
      var child := Get(obj, root);
      var inner :=
        if child.Some? && EntryTruthy(child.value) then Call(gen, child.value, args, next, cli)
        else CallResult([], Unresolved);
      if !inner.outcome.Unresolved? then inner
      else if subtask == "" then CallResult(inner.effects, Threw(NotFound(gen, name)))
      else inner
  }

  /**
   * Every listed task is what `call` dispatches for its listed name: from the top with
   * the name in `args[2]`, and at any level with the rest of the name as subtask name.
   */
  lemma {:induction false} CallFindsListed(gen: Generation, obj: Entry, name: string, t: Entry, args: seq<string>, cli: (seq<string>, Help) -> CliOutcome)
    requires obj.Namespace? && WellKeyed(obj) && (name, t) in Listing(obj, "") && |args| > 2
    requires name == args[2] || name != ""
    ensures t.Task? && Call(gen, obj, args, name, cli) == Dispatch(t, args, cli)
    decreases obj
  {
    WellKeyedHasNonEmptyKeys(obj);
    ListingHoldsTasks(obj, "");
    var i, r := ListedNameShape(obj, name, t);
    var (key, child) := obj.members[i];
    GetMember(obj, i);
    if !(obj.members[i] == (name, t) && t.Task?) {
      ListedNamesNonEmpty(child, r, t);
      CallFindsListed(gen, child, r, t, args, cli);
      CallThroughMember(gen, obj, i, r, args, cli);
    }
  }

  /** Resolving `key:r` is resolving `r` inside member `key`, whenever that resolves. */
  lemma CallThroughMember(gen: Generation, obj: Entry, i: nat, r: string, args: seq<string>, cli: (seq<string>, Help) -> CliOutcome)
    requires obj.Namespace? && WellKeyed(obj) && i < |obj.members| && obj.members[i].1.Namespace? && |args| > 2
    requires !Call(gen, obj.members[i].1, args, r, cli).outcome.Unresolved?
    ensures Call(gen, obj, args, obj.members[i].0 + ":" + r, cli) == Call(gen, obj.members[i].1, args, r, cli)
  {
    var (key, child) := obj.members[i];
    var name := key + ":" + r;
    assert name == key + [':'] + r;
    assert name[|key|] == ':';
    ColonNameIsNoKey(obj, name);
    SplitFirstOfJoin(key, ':', r);
    GetMember(obj, i);
  }

  /** From the top: the name on the command line runs the task listed under it. */
  lemma CallFromTop(gen: Generation, obj: Entry, t: Entry, args: seq<string>, cli: (seq<string>, Help) -> CliOutcome)
    requires obj.Namespace? && WellKeyed(obj) && |args| > 2 && (args[2], t) in Listing(obj, "")
    ensures t.Task?
    ensures Call(gen, obj, args, "", cli) == Dispatch(t, args, cli)
  {
    WellKeyedHasNonEmptyKeys(obj);
    ListedNamesNonEmpty(obj, args[2], t);
    CallFindsListed(gen, obj, args[2], t, args, cli);
  }

  /**
   * The fallback at work: in `{b: {b: fn}}` the name 'b' is not listed (only 'b:b' is),
   * yet `call` runs `b:b`, because the exhausted subtask name '' falls back to 'b' inside
   * the member.
   */
  lemma FallbackRunsUnlistedName(gen: Generation, t: Entry, cli: (seq<string>, Help) -> CliOutcome)
    requires t.Task?
    ensures var obj := Namespace([("b", Namespace([("b", t)]))]);
            var args := ["node", "tasksfile.js", "b"];
            && (forall u :: ("b", u) !in Listing(obj, ""))
            && Listing(obj, "") == [("b:b", t)]
            && Call(gen, obj, args, "", cli) == Dispatch(t, args, cli)
  {
    var inner := Namespace([("b", t)]);
    var obj := Namespace([("b", inner)]);
    var args := ["node", "tasksfile.js", "b"];
    assert SplitFirst("b", ':') == ("b", "") by {
      assert "b"[1..] == "";
    }
    assert Qualify("b", "b") == "b:b";
    assert ListingUpTo(inner, 1, "b") == ListingUpTo(inner, 0, "b") + Listing(t, "b:b");
    assert Listing(inner, "b") == [("b:b", t)];
    assert ListingUpTo(obj, 1, "") == ListingUpTo(obj, 0, "") + Listing(inner, Qualify("", "b"));
    assert Listing(obj, "") == [("b:b", t)];
    assert Call(gen, inner, args, "", cli) == Dispatch(t, args, cli);
  }

  /**
   * `call` with the fallback applied only where no subtask name was passed, as the
   * recursion evidently intends: an exhausted name is looked up as '' and misses.
   */
  function CallCorrected(gen: Generation, obj: Entry, args: seq<string>, subtask: Option<string>, cli: (seq<string>, Help) -> CliOutcome): (r: CallResult)
    requires |args| > 2
    ensures subtask.None? ==> !r.outcome.Unresolved?
    ensures r.outcome.Threw? ==> (subtask.None? && r.outcome.error == NotFound(gen, args[2])) || IsRejection(r.outcome.error)
    ensures r.outcome.Returned? ==> r.outcome.task.Task?
    decreases obj
  {
    var name := if subtask.Some? then subtask.value else args[2];
    var direct := Get(obj, name);
    if direct.Some? && direct.value.Task? then Dispatch(direct.value, args, cli)
    else
      var (root, next) := SplitFirst(name, ':');
      var child := Get(obj, root);
      var inner :=
        if child.Some? && EntryTruthy(child.value) then CallCorrected(gen, child.value, args, Some(next), cli)
        else CallResult([], Unresolved);
      if !inner.outcome.Unresolved? then inner
      else if subtask.None? then CallResult(inner.effects, Threw(NotFound(gen, name)))
      else inner
  }

  /** A name nobody resolved: the not-found error at the top, undefined below it. */
  function Miss(gen: Generation, name: string, top: bool): (r: CallResult)
    ensures r.effects == [] && (r.outcome.Unresolved? <==> !top)
  {
    if top then CallResult([], Threw(NotFound(gen, name))) else CallResult([], Unresolved)
  }

  function SubtaskFor(top: bool, name: string): Option<string> {
    if top then None else Some(name)
  }

  /**
   * With the correction, `call` dispatches only listed tasks (sound): the lemma returns
   * the listed task it dispatches, and any other name misses.
   */
  lemma {:induction false} CorrectedRunsOnlyListed(gen: Generation, obj: Entry, name: string, args: seq<string>, top: bool,
                                                   cli: (seq<string>, Help) -> CliOutcome) returns (t: Option<Entry>)
    requires obj.Namespace? && WellKeyed(obj) && |args| > 2 && (top ==> name == args[2])
    ensures t.Some? ==> t.value.Task? && (name, t.value) in Listing(obj, "")
                        && CallCorrected(gen, obj, args, SubtaskFor(top, name), cli) == Dispatch(t.value, args, cli)
    ensures t.None? ==> CallCorrected(gen, obj, args, SubtaskFor(top, name), cli) == Miss(gen, name, top)
    decreases obj
  {
    var (root, next) := SplitFirst(name, ':');
    var child := Get(obj, root);
    if Descends(obj, name) {
      var inner := CorrectedRunsOnlyListed(gen, child.value, next, args, false, cli);
      t := CorrectedDescentIsListed(gen, obj, name, args, top, cli, root, next, child.value, inner);
    } else {
      t := CorrectedStays(gen, obj, name, args, top, cli);
    }
  }

  /** `call` goes down into a member namespace: the whole name is no task key, its first segment names a namespace. */
  predicate Descends(obj: Entry, name: string) {
    var direct := Get(obj, name);
    var child := Get(obj, SplitFirst(name, ':').0);
    (direct.None? || !direct.value.Task?) && child.Some? && child.value.Namespace?
  }

  lemma CorrectedStays(gen: Generation, obj: Entry, name: string, args: seq<string>, top: bool,
                       cli: (seq<string>, Help) -> CliOutcome) returns (t: Option<Entry>)
    requires obj.Namespace? && |args| > 2 && (top ==> name == args[2]) && !Descends(obj, name)
    ensures t.Some? ==> t.value.Task? && (name, t.value) in Listing(obj, "")
                        && CallCorrected(gen, obj, args, SubtaskFor(top, name), cli) == Dispatch(t.value, args, cli)
    ensures t.None? ==> CallCorrected(gen, obj, args, SubtaskFor(top, name), cli) == Miss(gen, name, top)
  {
    var direct := Get(obj, name);
    if direct.Some? && direct.value.Task? {
      t := direct;
      var j :| 0 <= j < |obj.members| && obj.members[j] == (name, t.value);
      MemberListed(obj, j, "");
      assert (name, t.value) in Listing(t.value, name);
    } else {
      t := None;
      var (root, next) := SplitFirst(name, ':');
      var child := Get(obj, root);
      if child.Some? && EntryTruthy(child.value) {
        assert CallCorrected(gen, child.value, args, Some(next), cli) == CallResult([], Unresolved);
      }
    }
  }

  lemma CorrectedDescend(gen: Generation, obj: Entry, name: string, args: seq<string>, top: bool, cli: (seq<string>, Help) -> CliOutcome,
                         root: string, next: string, c: Entry)
    requires |args| > 2 && (top ==> name == args[2])
    requires Get(obj, name).None? || !Get(obj, name).value.Task?
    requires SplitFirst(name, ':') == (root, next) && Get(obj, root) == Some(c) && EntryTruthy(c)
    ensures var inner := CallCorrected(gen, c, args, Some(next), cli);
            CallCorrected(gen, obj, args, SubtaskFor(top, name), cli) ==
              if !inner.outcome.Unresolved? then inner
              else if top then CallResult(inner.effects, Threw(NotFound(gen, name)))
              else inner
  {
  }

  lemma CorrectedDescentIsListed(gen: Generation, obj: Entry, name: string, args: seq<string>, top: bool, cli: (seq<string>, Help) -> CliOutcome,
                                 root: string, next: string, c: Entry, inner: Option<Entry>) returns (t: Option<Entry>)
    requires obj.Namespace? && WellKeyed(obj) && |args| > 2 && (top ==> name == args[2])
    requires Get(obj, name).None? || !Get(obj, name).value.Task?
    requires SplitFirst(name, ':') == (root, next) && Get(obj, root) == Some(c) && c.Namespace?
    requires inner.Some? ==> inner.value.Task? && (next, inner.value) in Listing(c, "")
                             && CallCorrected(gen, c, args, Some(next), cli) == Dispatch(inner.value, args, cli)
    requires inner.None? ==> CallCorrected(gen, c, args, Some(next), cli) == Miss(gen, next, false)
    ensures t.Some? ==> t.value.Task? && (name, t.value) in Listing(obj, "")
                        && CallCorrected(gen, obj, args, SubtaskFor(top, name), cli) == Dispatch(t.value, args, cli)
    ensures t.None? ==> CallCorrected(gen, obj, args, SubtaskFor(top, name), cli) == Miss(gen, name, top)
  {
    t := inner;
    CorrectedDescend(gen, obj, name, args, top, cli, root, next, c);
    if inner.Some? {
      DescentListed(obj, name, root, next, c, inner.value);
    }
  }

  /** ... and every listed task is still dispatched for its listed name (complete). */
  lemma {:induction false} CorrectedFindsListed(gen: Generation, obj: Entry, name: string, t: Entry, args: seq<string>, top: bool, cli: (seq<string>, Help) -> CliOutcome)
    requires obj.Namespace? && WellKeyed(obj) && (name, t) in Listing(obj, "") && |args| > 2 && (top ==> name == args[2])
    ensures t.Task? && CallCorrected(gen, obj, args, SubtaskFor(top, name), cli) == Dispatch(t, args, cli)
    decreases obj
  {
    WellKeyedHasNonEmptyKeys(obj);
    ListingHoldsTasks(obj, "");
    var i, r := ListedNameShape(obj, name, t);
    var (key, child) := obj.members[i];
    GetMember(obj, i);
    if !(obj.members[i] == (name, t) && t.Task?) {
      CorrectedFindsListed(gen, child, r, t, args, false, cli);
      CorrectedThroughMember(gen, obj, i, r, args, top, cli);
    }
  }

  /** Resolving `key:r` from a well-keyed namespace is resolving `r` inside member `key`. */
  lemma CorrectedThroughMember(gen: Generation, obj: Entry, i: nat, r: string, args: seq<string>, top: bool, cli: (seq<string>, Help) -> CliOutcome)
    requires obj.Namespace? && WellKeyed(obj) && i < |obj.members| && obj.members[i].1.Namespace? && |args| > 2
    requires var name := obj.members[i].0 + ":" + r; top ==> name == args[2]
    requires !CallCorrected(gen, obj.members[i].1, args, Some(r), cli).outcome.Unresolved?
    ensures CallCorrected(gen, obj, args, SubtaskFor(top, obj.members[i].0 + ":" + r), cli)
            == CallCorrected(gen, obj.members[i].1, args, Some(r), cli)
  {
    var (key, child) := obj.members[i];
    var name := key + ":" + r;
    GetMember(obj, i);
    assert name == key + [':'] + r;
    assert name[|key|] == ':';
    ColonNameIsNoKey(obj, name);
    SplitFirstOfJoin(key, ':', r);
    CorrectedDescend(gen, obj, name, args, top, cli, key, r, child);
  }

  /** With the correction the name 'b' in `{b: {b: fn}}` is reported as not found. */
  lemma CorrectedRejectsUnlistedName(gen: Generation, t: Entry, cli: (seq<string>, Help) -> CliOutcome)
    requires t.Task?
    ensures var obj := Namespace([("b", Namespace([("b", t)]))]);
            var args := ["node", "tasksfile.js", "b"];
            CallCorrected(gen, obj, args, None, cli) == CallResult([], Threw(NotFound(gen, "b")))
  {
    var inner := Namespace([("b", t)]);
    var obj := Namespace([("b", inner)]);
    var args := ["node", "tasksfile.js", "b"];
    assert SplitFirst("b", ':') == ("b", "") by {
      assert "b"[1..] == "";
    }
    assert SplitFirst("", ':') == ("", "");
    assert CallCorrected(gen, inner, args, Some(""), cli) == CallResult([], Unresolved);
  }

  // ---------------------------------------------------------------------------
  // describe

  /** `help && (help.description || typeof help === 'string')` and then `help.description || help`. */
  function Description(h: Help): (r: Option<string>)
    ensures r.Some? ==> r.value != ""
    ensures r.None? <==> !(h.Text? && h.text != "") && !(h.Record? && h.description != "")
    ensures h.Text? && h.text != "" ==> r == Some(h.text)
    ensures h.Record? && h.description != "" ==> r == Some(h.description)
  {
    match h
    case NoHelp => None
    case Text(s) => if s != "" then Some(s) else None
    case Record(d, _) => if d != "" then Some(d) else None
  }

  /** `help && help.params`, when it is a non-empty array. */
  function ListedParams(h: Help): (r: Option<seq<string>>)
    ensures r.Some? <==> h.Record? && h.params.Some? && h.params.value != []
  {
    if h.Record? && h.params.Some? && h.params.value != [] then h.params else None
  }

  /**
   * The one logger call for a task: its bold name, ` [p1 p2]` when listed (src/script.ts
   * only), and, when there is a description, the name field padded to 40 characters followed
   * by '-' and the description's first line.
   */
  function TaskLine(gen: Generation, paint: (Color, string) -> string, name: string, task: Entry): (r: seq<Effect>)
    ensures !task.Task? ==> r == []
    ensures task.Task? ==> |r| == 1 && r[0].Print? && r[0].level == Log && r[0].args != [] && r[0].args[0].Msg?
    ensures task.Task? ==>
              var head := paint(Bold, name) + (if gen == Ts && ListedParams(task.help).Some?
                                               then " [" + Join(ListedParams(task.help).value, " ") + "]" else "");
              && (Description(task.help).None? ==> r[0].args == [Msg(head)])
              && (Description(task.help).Some? ==>
                    r[0].args == [Msg(PadEnd(head, 40)), Msg("-"), Msg(FirstLine(Description(task.help).value))])
  {
    if !task.Task? then []
    else
      var params := if gen == Ts then ListedParams(task.help) else None;
      var head := paint(Bold, name) + (if params.Some? then " [" + Join(params.value, " ") + "]" else "");
      match Description(task.help)
      case None => [Print(Log, [Msg(head)])]
      case Some(d) => [Print(Log, [Msg(PadEnd(head, 40)), Msg("-"), Msg(FirstLine(d))])]
  }

  function Block(gen: Generation, paint: (Color, string) -> string): (string, Entry) -> seq<Effect> {
    (name, task) => TaskLine(gen, paint, name, task)
  }

  function Header(paint: (Color, string) -> string): seq<Effect> {
    [Line(Log, paint(Yellow, "Available tasks:"))]
  }

  /** The hint printed last: `task` for src/script.ts, `run` for src/script.js. */
  function Footer(gen: Generation, paint: (Color, string) -> string): seq<Effect> {
    var command := if gen == Ts then "task" else "run";
    [Line(Log, "\n" + paint(Blue, "Type \"" + command + " [taskname] --help\" to get more info if available."))]
  }

  /** The `logArgs` array `describe` builds for one task, step by step. */
  method LogArgs(gen: Generation, paint: (Color, string) -> string, name: string, task: Entry) returns (logArgs: seq<LogArg>)
    requires task.Task?
    ensures [Print(Log, logArgs)] == TaskLine(gen, paint, name, task)
  {
    var params := if gen == Ts then ListedParams(task.help) else None;
    ghost var head := paint(Bold, name) + (if params.Some? then " [" + Join(params.value, " ") + "]" else "");
    logArgs := [Msg(paint(Bold, name))];
    if gen == Ts {
      var funcParams := task.help;
      if funcParams.Record? && funcParams.params.Some? && |funcParams.params.value| > 0 {
        assert params == funcParams.params;
        logArgs := [Msg(logArgs[0].s + (" [" + Join(funcParams.params.value, " ") + "]"))];
      } else {
        assert params == None;
      }
    }
    if params.None? {
      assert paint(Bold, name) + "" == paint(Bold, name);
    }
    assert logArgs == [Msg(head)];
    var description := Description(task.help);
    if description.Some? {
      logArgs := [Msg(PadEnd(logArgs[0].s, 40))];
      logArgs := logArgs + [Msg("-"), Msg(FirstLine(description.value))];
      assert logArgs == [Msg(PadEnd(head, 40)), Msg("-"), Msg(FirstLine(description.value))];
    }
  }

  /**
   * `describe(obj, logger, namespace)`: for each key in order, a function gets one line,
   * built in `logArgs` as the source builds it, an object is described under the
   * qualified name, anything else is skipped; header and footer frame the top level only.
   */
  method Describe(gen: Generation, obj: Entry, namespace: string, paint: (Color, string) -> string) returns (out: seq<Effect>)
    requires obj.Namespace?
    ensures out == Outline(obj, namespace, Block(gen, paint), Header(paint), Footer(gen, paint))
    ensures NonEmptyKeys(obj) ==>
              out == (if namespace == "" then Header(paint) else [])
                     + Blocks(Listing(obj, namespace), Block(gen, paint))
                     + (if namespace == "" then Footer(gen, paint) else [])
    decreases obj, 1
  {
    var block, header, footer := Block(gen, paint), Header(paint), Footer(gen, paint);
    var body := [];
    var i := 0;
    while i < |obj.members|
      invariant 0 <= i <= |obj.members|
      invariant body == OutlineUpTo(obj, i, namespace, block, header, footer)
    {
      var piece := DescribeMember(gen, obj, i, namespace, paint);
      body := body + piece;
      i := i + 1;
    }
    out := (if namespace == "" then header else []) + body + (if namespace == "" then footer else []);
    if NonEmptyKeys(obj) {
      OutlineIsListing(obj, namespace, Block(gen, paint), Header(paint), Footer(gen, paint));
    }
  }

  /** One turn of `describe`'s loop: the line of a task, the listing of a nested object, or nothing. */
  method DescribeMember(gen: Generation, obj: Entry, i: nat, namespace: string, paint: (Color, string) -> string) returns (piece: seq<Effect>)
    requires obj.Namespace? && i < |obj.members|
    ensures piece == OutlineMember(obj, i, namespace, Block(gen, paint), Header(paint), Footer(gen, paint))
    decreases obj, 0
  {
    var (key, value) := obj.members[i];
    var nextNamespace := if namespace != "" then namespace + ":" + key else key;
    piece := [];
    if value.Task? {
      var logArgs := LogArgs(gen, paint, nextNamespace, value);
      piece := [Print(Log, logArgs)];
    } else if value.Namespace? {
      piece := Describe(gen, value, nextNamespace, paint);
    }
  }
}

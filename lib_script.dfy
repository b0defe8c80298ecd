/**
 * lib/script.js: name-spaced task dispatch with its own flag parser, the per-task help
 * page, and the task listing.
 */
module LibScript {
  import opened Js
  import opened Errors
  import opened Registry
  import opened ArgParser
  import opened Effects

  /** The error raised at the top level for a name no level resolves. */
  function NotFound(name: string): Exception {
    LibRunJSError(Some("Task " + name + " not found"))
  }

  /** `[p1 p2]`, or '' when there are no parameters. */
  function ParamsDoc(params: seq<string>): (r: string)
    ensures params == [] <==> r == ""
  {
    if |params| > 0 then "[" + Join(params, " ") + "]" else ""
  }

  /**
   * `help(task, logger)`: the ARGUMENTS and DESCRIPTION page. Reading the parameter names
   * is not guarded here, so a task whose names cannot be read throws after the first two lines.
   */
  function HelpPage(task: Entry): (r: CallResult)
    requires task.Task?
    ensures task.formals.None? ==> r == CallResult([Line(Log, " "), Line(Info, "ARGUMENTS")], Threw(Foreign))
    ensures task.formals.Some? ==> r.outcome == Returned(task) && |r.effects| == 7 && r.effects[..2] == [Line(Log, " "), Line(Info, "ARGUMENTS")]
  {
    var opening := [Line(Log, " "), Line(Info, "ARGUMENTS")];
    match task.formals
    case None => CallResult(opening, Threw(Foreign))
    case Some(params) =>
      CallResult(PageLines(if |params| > 0 then ParamsDoc(params) else "None",
                           if HelpTruthy(task.help) then HelpValue(task.help) else Msg("None")), Returned(task))
  }

  /**
   * The help page as a mocked logger records it: `info` gets the two headings, `log` gets
   * the spacers, `[p1 p2]` or 'None', and the help text or 'None'; nothing is invoked.
   */
  lemma HelpPageCalls(task: Entry)
    requires task.Task? && task.formals.Some?
    ensures CallsAt(HelpPage(task).effects, Info) == [[Msg("ARGUMENTS")], [Msg("DESCRIPTION")]]
    ensures CallsAt(HelpPage(task).effects, Log) ==
              [[Msg(" ")],
               [Msg(if task.formals.value != [] then ParamsDoc(task.formals.value) else "None")],
               [Msg(" ")],
               [if HelpTruthy(task.help) then HelpValue(task.help) else Msg("None")],
               [Msg(" ")]]
    ensures Invoked(HelpPage(task).effects) == []
  {
    var argsText := if task.formals.value != [] then ParamsDoc(task.formals.value) else "None";
    var helpLine := if HelpTruthy(task.help) then HelpValue(task.help) else Msg("None");
    assert HelpPage(task).effects == PageLines(argsText, helpLine);
    PageLinesInfo(argsText, helpLine);
    PageLinesLog(argsText, helpLine);
    PrintsInvokeNothing(PageLines(argsText, helpLine));
  }

  /** The seven logger calls of a help page, around its parameter line and its help line. */
  function PageLines(argsText: string, helpLine: LogArg): (r: seq<Effect>)
    ensures |r| == 7 && forall k :: 0 <= k < |r| ==> r[k].Print?
  {
    [Line(Log, " "), Line(Info, "ARGUMENTS"), Line(Log, argsText), Line(Log, " "),
     Line(Info, "DESCRIPTION"), Print(Log, [helpLine]), Line(Log, " ")]
  }

  lemma PageLinesInfo(argsText: string, helpLine: LogArg)
    ensures CallsAt(PageLines(argsText, helpLine), Info) == [[Msg("ARGUMENTS")], [Msg("DESCRIPTION")]]
  {
    var e := PageLines(argsText, helpLine);
    assert e[..0] == [];
    PrintStep(e, 0, Info);
    PrintStep(e, 1, Info);
    PrintStep(e, 2, Info);
    PrintStep(e, 3, Info);
    PrintStep(e, 4, Info);
    PrintStep(e, 5, Info);
    PrintStep(e, 6, Info);
    assert e[..7] == e;
  }

  lemma PageLinesLog(argsText: string, helpLine: LogArg)
    ensures CallsAt(PageLines(argsText, helpLine), Log) == [[Msg(" ")], [Msg(argsText)], [Msg(" ")], [helpLine], [Msg(" ")]]
  {
    var e := PageLines(argsText, helpLine);
    assert e[..0] == [];
    PrintStep(e, 0, Log);
    PrintStep(e, 1, Log);
    PrintStep(e, 2, Log);
    PrintStep(e, 3, Log);
    PrintStep(e, 4, Log);
    PrintStep(e, 5, Log);
    PrintStep(e, 6, Log);
    assert e[..7] == e;
  }

  /**
   * What `call` does with a resolved task and the tokens after the name: parse them, then
   * show the help page when `options.help` is set and run the task with `this = {options}`
   * and the positional arguments otherwise.
   */
  function Run(task: Entry, rest: seq<string>, nonzero: string -> bool): (r: CallResult)
    requires task.Task?
    ensures r.outcome == Returned(task) ||
            (r.outcome == Threw(Foreign) && "help" in Parse(rest, nonzero).options && task.formals.None?)
    ensures "help" in Parse(rest, nonzero).options ==> r == HelpPage(task)
    ensures "help" !in Parse(rest, nonzero).options ==>
              r.effects == [Invoke(task.id, ParsedOptions(Parse(rest, nonzero).options), Parse(rest, nonzero).positionals)]
  {
    var p := Parse(rest, nonzero);
    if "help" in p.options then HelpPage(task)
    else CallResult([Invoke(task.id, ParsedOptions(p.options), p.positionals)], Returned(task))
  }

  /**
   * `call(obj, args, logger, depth)`. A function stored under the whole name wins; otherwise
   * the name is split at its first ':' and the rest of the name is looked up in the member
   * named by the first segment. Only the outermost level reports a name nobody resolved.
   */
  function Call(obj: Entry, args: seq<string>, depth: nat, nonzero: string -> bool): (r: CallResult)
    requires |args| > 0
    ensures depth == 0 ==> !r.outcome.Unresolved?
    ensures r.outcome.Threw? ==> r.outcome.error == Foreign || (depth == 0 && r.outcome.error == NotFound(args[0]))
    ensures r.outcome.Returned? ==> r.outcome.task.Task?
    decreases obj
  {
    var name := args[0];
    var direct := Get(obj, name);
    if direct.Some? && direct.value.Task? then Run(direct.value, args[1..], nonzero)
    else
      var (root, nextName) := SplitFirst(name, ':');
      var child := Get(obj, root);
      var inner :=
        if child.Some? && EntryTruthy(child.value) then Call(child.value, [nextName] + args[1..], depth + 1, nonzero)
        else CallResult([], Unresolved);
      if !inner.outcome.Unresolved? then inner
      else if depth == 0 then CallResult(inner.effects, Threw(NotFound(name)))
      else inner
  }

  /** Below a non-namespace nothing resolves. */
  lemma CallOnLeaf(e: Entry, args: seq<string>, depth: nat, nonzero: string -> bool)
    requires !e.Namespace? && |args| > 0 && depth > 0
    ensures Call(e, args, depth, nonzero) == CallResult([], Unresolved)
  {
  }

  /** One level of `call` when the whole name is a task key. */
  lemma CallDirect(obj: Entry, args: seq<string>, depth: nat, nonzero: string -> bool, t: Entry)
    requires |args| > 0 && Get(obj, args[0]) == Some(t) && t.Task?
    ensures Call(obj, args, depth, nonzero) == Run(t, args[1..], nonzero)
  {
  }

  /** One level of `call` that descends into the member named by the first segment. */
  lemma CallDescend(obj: Entry, args: seq<string>, depth: nat, nonzero: string -> bool, root: string, next: string, c: Entry)
    requires |args| > 0 && (Get(obj, args[0]).None? || !Get(obj, args[0]).value.Task?)
    requires SplitFirst(args[0], ':') == (root, next) && Get(obj, root) == Some(c) && EntryTruthy(c)
    ensures var inner := Call(c, [next] + args[1..], depth + 1, nonzero);
            Call(obj, args, depth, nonzero) ==
              if !inner.outcome.Unresolved? then inner
              else if depth == 0 then CallResult(inner.effects, Threw(NotFound(args[0])))
              else inner
  {
  }

  /**
   * Every listed task is what `call` runs for its listed name, at any depth, in a
   * registry whose keys are unique, non-empty and free of ':'.
   */
  lemma {:induction false} CallFindsListed(obj: Entry, name: string, t: Entry, rest: seq<string>, depth: nat, nonzero: string -> bool)
    requires obj.Namespace? && WellKeyed(obj) && (name, t) in Listing(obj, "")
    ensures t.Task? && Call(obj, [name] + rest, depth, nonzero) == Run(t, rest, nonzero)
    decreases obj
  {
    WellKeyedHasNonEmptyKeys(obj);
    ListingHoldsTasks(obj, "");
    var i, r := ListedNameShape(obj, name, t);
    var (key, child) := obj.members[i];
    GetMember(obj, i);
    if obj.members[i] == (name, t) && t.Task? {
      var args := [name] + rest;
      assert args[0] == name && args[1..] == rest;
      CallDirect(obj, args, depth, nonzero, t);
    } else {
      CallFindsListed(child, r, t, rest, depth + 1, nonzero);
      CallThroughMember(obj, i, r, rest, depth, nonzero);
    }
  }

  /** Resolving `key:r` from a well-keyed namespace is resolving `r` inside member `key`. */
  lemma CallThroughMember(obj: Entry, i: nat, r: string, rest: seq<string>, depth: nat, nonzero: string -> bool)
    requires obj.Namespace? && WellKeyed(obj) && i < |obj.members| && obj.members[i].1.Namespace?
    requires !Call(obj.members[i].1, [r] + rest, depth + 1, nonzero).outcome.Unresolved?
    ensures Call(obj, [obj.members[i].0 + ":" + r] + rest, depth, nonzero) == Call(obj.members[i].1, [r] + rest, depth + 1, nonzero)
  {
    var (key, child) := obj.members[i];
    var name := key + ":" + r;
    var args := [name] + rest;
    assert args[0] == name && args[1..] == rest;
    assert name == key + [':'] + r;
    assert name[|key|] == ':';
    ColonNameIsNoKey(obj, name);
    SplitFirstOfJoin(key, ':', r);
    GetMember(obj, i);
    CallDescend(obj, args, depth, nonzero, key, r, child);
  }

  /** A name nobody resolved: the not-found error at the top, undefined below it. */
  function Miss(name: string, depth: nat): (r: CallResult)
    ensures r.effects == [] && (r.outcome.Unresolved? <==> depth > 0)
  {
    if depth == 0 then CallResult([], Threw(NotFound(name))) else CallResult([], Unresolved)
  }

  /**
   * Conversely, whatever `call` runs is a listed task under the name it was given (the
   * lemma returns it): any other name misses.
   */
  lemma {:induction false} CallRunsOnlyListed(obj: Entry, args: seq<string>, depth: nat, nonzero: string -> bool) returns (t: Option<Entry>)
    requires obj.Namespace? && WellKeyed(obj) && |args| > 0
    ensures t.Some? ==> t.value.Task? && (args[0], t.value) in Listing(obj, "") && Call(obj, args, depth, nonzero) == Run(t.value, args[1..], nonzero)
    ensures t.None? ==> Call(obj, args, depth, nonzero) == Miss(args[0], depth)
    decreases obj
  {
    var (root, next) := SplitFirst(args[0], ':');
    var child := Get(obj, root);
    if Descends(obj, args[0]) {
      var inner := CallRunsOnlyListed(child.value, [next] + args[1..], depth + 1, nonzero);
      t := DescentIsListed(obj, args, depth, nonzero, root, next, child.value, inner);
    } else {
      t := StaysRunsListed(obj, args, depth, nonzero);
    }
  }

  /** `call` goes down into a member namespace: the whole name is no task key, its first segment names a namespace. */
  predicate Descends(obj: Entry, name: string) {
    var direct := Get(obj, name);
    var child := Get(obj, SplitFirst(name, ':').0);
    (direct.None? || !direct.value.Task?) && child.Some? && child.value.Namespace?
  }

  lemma StaysRunsListed(obj: Entry, args: seq<string>, depth: nat, nonzero: string -> bool) returns (t: Option<Entry>)
    requires obj.Namespace? && |args| > 0 && !Descends(obj, args[0])
    ensures t.Some? ==> t.value.Task? && (args[0], t.value) in Listing(obj, "") && Call(obj, args, depth, nonzero) == Run(t.value, args[1..], nonzero)
    ensures t.None? ==> Call(obj, args, depth, nonzero) == Miss(args[0], depth)
  {
    var direct := Get(obj, args[0]);
    if direct.Some? && direct.value.Task? {
      t := direct;
      var j :| 0 <= j < |obj.members| && obj.members[j] == (args[0], t.value);
      MemberListed(obj, j, "");
      assert (args[0], t.value) in Listing(t.value, args[0]);
      CallDirect(obj, args, depth, nonzero, t.value);
    } else {
      t := None;
      var (root, next) := SplitFirst(args[0], ':');
      var child := Get(obj, root);
      if child.Some? && EntryTruthy(child.value) {
        CallOnLeaf(child.value, [next] + args[1..], depth + 1, nonzero);
        CallDescend(obj, args, depth, nonzero, root, next, child.value);
      }
    }
  }

  lemma DescentIsListed(obj: Entry, args: seq<string>, depth: nat, nonzero: string -> bool,
                        root: string, next: string, c: Entry, inner: Option<Entry>) returns (t: Option<Entry>)
    requires obj.Namespace? && WellKeyed(obj) && |args| > 0
    requires Get(obj, args[0]).None? || !Get(obj, args[0]).value.Task?
    requires SplitFirst(args[0], ':') == (root, next) && Get(obj, root) == Some(c) && c.Namespace?
    requires inner.Some? ==> inner.value.Task? && (next, inner.value) in Listing(c, "")
                             && Call(c, [next] + args[1..], depth + 1, nonzero) == Run(inner.value, args[1..], nonzero)
    requires inner.None? ==> Call(c, [next] + args[1..], depth + 1, nonzero) == Miss(next, depth + 1)
    ensures t.Some? ==> t.value.Task? && (args[0], t.value) in Listing(obj, "") && Call(obj, args, depth, nonzero) == Run(t.value, args[1..], nonzero)
    ensures t.None? ==> Call(obj, args, depth, nonzero) == Miss(args[0], depth)
  {
    t := inner;
    CallDescend(obj, args, depth, nonzero, root, next, c);
    if inner.Some? {
      DescentListed(obj, args[0], root, next, c, inner.value);
    }
  }

  /** A name that is not listed is reported as not found. */
  lemma UnlistedNameNotFound(obj: Entry, name: string, rest: seq<string>, nonzero: string -> bool)
    requires obj.Namespace? && WellKeyed(obj)
    requires forall t :: (name, t) !in Listing(obj, "")
    ensures Call(obj, [name] + rest, 0, nonzero).outcome == Threw(NotFound(name))
  {
    var args := [name] + rest;
    var t := CallRunsOnlyListed(obj, args, 0, nonzero);
    assert args[0] == name;
  }

  /** A function stored under the flat key 'f:g:h' is run before any namespace 'f' is consulted. */
  lemma FlatKeyWins(flat: Entry, nested: Entry, rest: seq<string>, nonzero: string -> bool)
    requires flat.Task? && nested.Task?
    ensures var obj := Namespace([("f:g:h", flat), ("f", Namespace([("g", Namespace([("h", nested)]))]))]);
            Call(obj, ["f:g:h"] + rest, 0, nonzero) == Run(flat, rest, nonzero)
  {
    var args := ["f:g:h"] + rest;
    assert args[0] == "f:g:h" && args[1..] == rest;
  }

  /** The listing block for one task: name and `[params]`, its help when truthy, then a spacer. */
  function TaskBlock(name: string, task: Entry): (r: seq<Effect>)
    ensures task.Task? ==> |r| == (if HelpTruthy(task.help) then 3 else 2)
    ensures task.Task? ==> r[0] == Print(Info, [Msg(name), Msg(ParamsDoc(task.formals.GetOr([])))])
    ensures task.Task? ==> r[|r| - 1] == Line(Info, " ")
    ensures task.Task? && HelpTruthy(task.help) ==> r[1] == Print(Log, [HelpValue(task.help)])
  {
    if !task.Task? then []
    else
      [Print(Info, [Msg(name), Msg(ParamsDoc(task.formals.GetOr([])))])]
      + (if HelpTruthy(task.help) then [Print(Log, [HelpValue(task.help)])] else [])
      + [Line(Info, " ")]
  }

  function Header(): seq<Effect> {
    [Line(Debug, "Available tasks:\n")]
  }

  /**
   * `describe(obj, logger, namespace)`: the header at the top level, then the object's
   * keys in order, a block per function, a nested listing per object, nothing otherwise.
   */
  method Describe(obj: Entry, namespace: string) returns (out: seq<Effect>)
    requires obj.Namespace?
    ensures out == Outline(obj, namespace, TaskBlock, Header(), [])
    ensures NonEmptyKeys(obj) ==>
              out == (if namespace == "" then Header() else []) + Blocks(Listing(obj, namespace), TaskBlock)
    decreases obj, 1
  {
    var body := [];
    var i := 0;
    while i < |obj.members|
      invariant 0 <= i <= |obj.members|
      invariant body == OutlineUpTo(obj, i, namespace, TaskBlock, Header(), [])
    {
      var piece := DescribeMember(obj, i, namespace);
      body := body + piece;
      i := i + 1;
    }
    out := (if namespace == "" then Header() else []) + body;
    if NonEmptyKeys(obj) {
      OutlineIsListing(obj, namespace, TaskBlock, Header(), []);
    }
  }

  /** One turn of `describe`'s loop: the block of a task, the listing of a nested object, or nothing. */
  method DescribeMember(obj: Entry, i: nat, namespace: string) returns (piece: seq<Effect>)
    requires obj.Namespace? && i < |obj.members|
    ensures piece == OutlineMember(obj, i, namespace, TaskBlock, Header(), [])
    decreases obj, 0
  {
    var (key, value) := obj.members[i];
    var nextNamespace := if namespace != "" then namespace + ":" + key else key;
    piece := [];
    if value.Task? {
      piece := TaskBlock(nextNamespace, value);
    } else if value.Namespace? {
      piece := Describe(value, nextNamespace);
    }
  }
}

/**
 * The task tree a tasksfile exports: plain objects whose keys map to task functions,
 * nested namespace objects or other values, in insertion order.
 */
module Registry {
  import opened Js

  /** The `help` property a task function carries (set through `help(fn, annotation)`). */
  datatype Help =
    | NoHelp                                                   // undefined
    | Text(text: string)                                       // a string
    | Record(description: string, params: Option<seq<string>>) // an object; "" stands for a missing description,
                                                               // params is Some when `params` is an array

  predicate HelpTruthy(h: Help) {
    match h
    case NoHelp => false
    case Text(s) => s != ""
    case Record(_, _) => true
  }

  /**
   * A value in the task tree. A Task is a function: `formals` are the parameter names that
   * introspection reports (None when introspection throws). A Namespace is an object with
   * its own keys in insertion order. Value is any other non-null value, with its truthiness.
   */
  datatype Entry =
    | Task(id: nat, formals: Option<seq<string>>, help: Help)
    | Namespace(members: seq<(string, Entry)>)
    | Value(truthy: bool)

  predicate EntryTruthy(e: Entry) {
    match e
    case Value(t) => t
    case _ => true
  }

  /** The first member of `members` with key `key`, searching from index `i`. */
  function Find(members: seq<(string, Entry)>, key: string, i: nat): (r: Option<Entry>)
    requires i <= |members|
    ensures r.Some? ==> exists j :: i <= j < |members| && members[j] == (key, r.value)
                                    && forall l :: i <= l < j ==> members[l].0 != key
    ensures r.None? ==> forall j :: i <= j < |members| ==> members[j].0 != key
    decreases |members| - i
  {
    if i == |members| then None
    else if members[i].0 == key then Some(members[i].1)
    else Find(members, key, i + 1)
  }

  /** `obj[key]` on an own key; functions and primitives have no keys in this model. */
  function Get(e: Entry, key: string): (r: Option<Entry>)
    ensures r.Some? ==> e.Namespace? && r.value < e
    ensures r.Some? ==> exists j :: 0 <= j < |e.members| && e.members[j] == (key, r.value)
                                    && forall l :: 0 <= l < j ==> e.members[l].0 != key
    ensures r.None? && e.Namespace? ==> forall j :: 0 <= j < |e.members| ==> e.members[j].0 != key
  {
    if e.Namespace? then Find(e.members, key, 0) else None
  }

  /** `namespace ? namespace + ':' + key : key`. */
  function Qualify(namespace: string, key: string): string {
    if namespace == "" then key else namespace + ":" + key
  }

  /**
   * JavaScript objects have unique keys; the runner's name resolution is unambiguous when,
   * in addition, no key is empty or contains the separator ':'.
   */
  predicate WellKeyed(e: Entry)
    decreases e
  {
    match e
    case Namespace(ms) =>
      && (forall i :: 0 <= i < |ms| ==> ms[i].0 != "" && ':' !in ms[i].0 && WellKeyed(ms[i].1))
      && (forall i, j :: 0 <= i < j < |ms| ==> ms[i].0 != ms[j].0)
    case _ => true
  }

  /** In a well-keyed namespace the member at index i is the one `Get` finds. */
  lemma GetMember(e: Entry, i: nat)
    requires e.Namespace? && WellKeyed(e) && i < |e.members|
    ensures Get(e, e.members[i].0) == Some(e.members[i].1)
  {
  }

  /** No key is empty, at any depth. */
  predicate NonEmptyKeys(e: Entry)
    decreases e
  {
    match e
    case Namespace(ms) => forall i :: 0 <= i < |ms| ==> ms[i].0 != "" && NonEmptyKeys(ms[i].1)
    case _ => true
  }

  lemma WellKeyedHasNonEmptyKeys(e: Entry)
    requires WellKeyed(e)
    ensures NonEmptyKeys(e)
  {
    if e.Namespace? {
      forall i | 0 <= i < |e.members|
        ensures NonEmptyKeys(e.members[i].1)
      {
        WellKeyedHasNonEmptyKeys(e.members[i].1);
      }
    }
  }

  /**
   * Every task reachable from `e`, named by its colon-joined path below `name`, in key
   * order; a task entry lists itself. This is the reference against which listing and
   * dispatch are proved.
   */
  function Listing(e: Entry, name: string): seq<(string, Entry)>
    decreases e, 1
  {
    match e
    case Task(_, _, _) => [(name, e)]
    case Namespace(ms) => ListingUpTo(e, |ms|, name)
    case Value(_) => []
  }

  function ListingUpTo(ns: Entry, i: nat, prefix: string): seq<(string, Entry)>
    requires ns.Namespace? && i <= |ns.members|
    decreases ns, 0, i
  {
    if i == 0 then []
    else ListingUpTo(ns, i - 1, prefix) + Listing(ns.members[i - 1].1, Qualify(prefix, ns.members[i - 1].0))
  }

  /** Prefixes every listed name with `p` and a colon. */
  function PrefixAll(p: string, l: seq<(string, Entry)>): (r: seq<(string, Entry)>)
    ensures |r| == |l|
    ensures forall k :: 0 <= k < |l| ==> r[k] == (p + ":" + l[k].0, l[k].1)
  {
    if l == [] then [] else [(p + ":" + l[0].0, l[0].1)] + PrefixAll(p, l[1..])
  }

  lemma PrefixAllAppend(p: string, a: seq<(string, Entry)>, b: seq<(string, Entry)>)
    ensures PrefixAll(p, a + b) == PrefixAll(p, a) + PrefixAll(p, b)
  {
  }

  /** Listing below a qualified name is listing below the shorter name, prefixed. */
  lemma {:induction false} ListingShift(e: Entry, p: string, q: string)
    requires q != ""
    ensures Listing(e, p + ":" + q) == PrefixAll(p, Listing(e, q))
    decreases e, 1
  {
    if e.Namespace? {
      ListingUpToShift(e, |e.members|, p, q);
    }
  }

  lemma {:induction false} ListingUpToShift(ns: Entry, i: nat, p: string, q: string)
    requires ns.Namespace? && i <= |ns.members| && q != ""
    ensures ListingUpTo(ns, i, p + ":" + q) == PrefixAll(p, ListingUpTo(ns, i, q))
    decreases ns, 0, i
  {
    if i > 0 {
      var (key, child) := ns.members[i - 1];
      ListingUpToShift(ns, i - 1, p, q);
      assert Qualify(p + ":" + q, key) == p + ":" + (q + ":" + key);
      ListingShift(child, p, q + ":" + key);
      PrefixAllAppend(p, ListingUpTo(ns, i - 1, q), Listing(child, Qualify(q, key)));
    }
  }

  /** A namespace listed below a non-empty key is its top-level listing prefixed with that key. */
  lemma {:induction false} ListingBelowKey(ns: Entry, key: string)
    requires ns.Namespace? && key != "" && NonEmptyKeys(ns)
    ensures Listing(ns, key) == PrefixAll(key, Listing(ns, ""))
  {
    ListingUpToBelowKey(ns, |ns.members|, key);
  }

  lemma {:induction false} ListingUpToBelowKey(ns: Entry, i: nat, key: string)
    requires ns.Namespace? && i <= |ns.members| && key != "" && NonEmptyKeys(ns)
    ensures ListingUpTo(ns, i, key) == PrefixAll(key, ListingUpTo(ns, i, ""))
    decreases i
  {
    if i > 0 {
      var (k, child) := ns.members[i - 1];
      ListingUpToBelowKey(ns, i - 1, key);
      ListingShift(child, key, k);
      PrefixAllAppend(key, ListingUpTo(ns, i - 1, ""), Listing(child, k));
    }
  }

  /** Every listed entry is a task. */
  lemma {:induction false} ListingHoldsTasks(e: Entry, name: string)
    ensures forall p :: p in Listing(e, name) ==> p.1.Task?
    decreases e, 1
  {
    if e.Namespace? {
      ListingUpToHoldsTasks(e, |e.members|, name);
    }
  }

  lemma {:induction false} ListingUpToHoldsTasks(ns: Entry, i: nat, prefix: string)
    requires ns.Namespace? && i <= |ns.members|
    ensures forall p :: p in ListingUpTo(ns, i, prefix) ==> p.1.Task?
    decreases ns, 0, i
  {
    if i > 0 {
      ListingUpToHoldsTasks(ns, i - 1, prefix);
      ListingHoldsTasks(ns.members[i - 1].1, Qualify(prefix, ns.members[i - 1].0));
    }
  }

  /** The two ways a task is listed from a namespace's top level. */
  predicate ListedVia(ns: Entry, name: string, t: Entry, i: nat, rest: string)
    requires ns.Namespace?
  {
    && i < |ns.members|
    && (|| (ns.members[i] == (name, t) && t.Task?)
        || (ns.members[i].1.Namespace? && name == ns.members[i].0 + ":" + rest && (rest, t) in Listing(ns.members[i].1, "")))
  }

  /**
   * A listed name below a namespace's top level is either a member key holding the task,
   * or a member key, a colon and a name listed inside that member namespace.
   */
  lemma ListedNameShape(ns: Entry, name: string, t: Entry) returns (i: nat, rest: string)
    requires ns.Namespace? && NonEmptyKeys(ns) && (name, t) in Listing(ns, "")
    ensures ListedVia(ns, name, t, i, rest)
  {
    i, rest := ListedNameShapeUpTo(ns, |ns.members|, name, t);
  }

  lemma {:induction false} ListedNameShapeUpTo(ns: Entry, n: nat, name: string, t: Entry) returns (i: nat, rest: string)
    requires ns.Namespace? && n <= |ns.members| && NonEmptyKeys(ns) && (name, t) in ListingUpTo(ns, n, "")
    ensures i < n && ListedVia(ns, name, t, i, rest)
    decreases n
  {
    var (key, child) := ns.members[n - 1];
    if (name, t) in ListingUpTo(ns, n - 1, "") {
      i, rest := ListedNameShapeUpTo(ns, n - 1, name, t);
    } else {
      i := n - 1;
      assert (name, t) in Listing(child, key);
      if child.Namespace? {
        ListingBelowKey(child, key);
        var k :| 0 <= k < |Listing(child, "")| && PrefixAll(key, Listing(child, ""))[k] == (name, t);
        rest := Listing(child, "")[k].0;
        assert (rest, t) in Listing(child, "");
      } else {
        rest := "";
        assert ns.members[n - 1] == (name, t);
      }
    }
  }

  /**
   * The describe traversal shared by every generation: a header and a footer at the top
   * level only (an empty namespace string), a `block` per task under its qualified name,
   * recursion into namespace objects, and nothing for any other value.
   */
  function Outline<L>(e: Entry, ns: string, block: (string, Entry) -> seq<L>, header: seq<L>, footer: seq<L>): seq<L>
    requires e.Namespace?
    decreases e, 1
  {
    (if ns == "" then header else []) + OutlineUpTo(e, |e.members|, ns, block, header, footer) + (if ns == "" then footer else [])
  }

  function OutlineUpTo<L>(e: Entry, i: nat, ns: string, block: (string, Entry) -> seq<L>, header: seq<L>, footer: seq<L>): seq<L>
    requires e.Namespace? && i <= |e.members|
    decreases e, 0, i, 1
  {
    if i == 0 then []
    else OutlineUpTo(e, i - 1, ns, block, header, footer) + OutlineMember(e, i - 1, ns, block, header, footer)
  }

  /** What the traversal emits for the member at index `i`. */
  function OutlineMember<L>(e: Entry, i: nat, ns: string, block: (string, Entry) -> seq<L>, header: seq<L>, footer: seq<L>): seq<L>
    requires e.Namespace? && i < |e.members|
    decreases e, 0, i, 0
  {
    var (key, value) := e.members[i];
    match value
    case Task(_, _, _) => block(Qualify(ns, key), value)
    case Namespace(_) => Outline(value, Qualify(ns, key), block, header, footer)
    case Value(_) => []
  }

  /** The blocks of a listing, concatenated in order. */
  function Blocks<L>(l: seq<(string, Entry)>, block: (string, Entry) -> seq<L>): seq<L> {
    if l == [] then [] else Blocks(l[..|l| - 1], block) + block(l[|l| - 1].0, l[|l| - 1].1)
  }

  lemma {:induction false} BlocksAppend<L>(a: seq<(string, Entry)>, b: seq<(string, Entry)>, block: (string, Entry) -> seq<L>)
    ensures Blocks(a + b, block) == Blocks(a, block) + Blocks(b, block)
    decreases |b|
  {
    if b != [] {
      assert (a + b)[..|a + b| - 1] == a + b[..|b| - 1];
      BlocksAppend(a, b[..|b| - 1], block);
    } else {
      assert a + b == a;
    }
  }

  /**
   * With no empty keys the traversal prints the header and footer once, at the top, and
   * in between one block per listed task, in listing order.
   */
  lemma {:induction false} OutlineIsListing<L>(e: Entry, ns: string, block: (string, Entry) -> seq<L>, header: seq<L>, footer: seq<L>)
    requires e.Namespace? && NonEmptyKeys(e)
    ensures Outline(e, ns, block, header, footer)
         == (if ns == "" then header else []) + Blocks(Listing(e, ns), block) + (if ns == "" then footer else [])
    decreases e, 1
  {
    OutlineUpToIsListing(e, |e.members|, ns, block, header, footer);
  }

  lemma {:induction false} OutlineUpToIsListing<L>(e: Entry, i: nat, ns: string, block: (string, Entry) -> seq<L>, header: seq<L>, footer: seq<L>)
    requires e.Namespace? && i <= |e.members| && NonEmptyKeys(e)
    ensures OutlineUpTo(e, i, ns, block, header, footer) == Blocks(ListingUpTo(e, i, ns), block)
    decreases e, 0, i, 1
  {
    if i > 0 {
      OutlineUpToIsListing(e, i - 1, ns, block, header, footer);
      OutlineMemberIsListing(e, i - 1, ns, block, header, footer);
      OutlineStep(e, i, ns, block, header, footer);
    }
  }

  /** One member further: the traversal and the blocks of the listing grow by the same piece. */
  lemma OutlineStep<L>(e: Entry, i: nat, ns: string, block: (string, Entry) -> seq<L>, header: seq<L>, footer: seq<L>)
    requires e.Namespace? && 0 < i <= |e.members|
    requires OutlineUpTo(e, i - 1, ns, block, header, footer) == Blocks(ListingUpTo(e, i - 1, ns), block)
    requires OutlineMember(e, i - 1, ns, block, header, footer)
             == Blocks(Listing(e.members[i - 1].1, Qualify(ns, e.members[i - 1].0)), block)
    ensures OutlineUpTo(e, i, ns, block, header, footer) == Blocks(ListingUpTo(e, i, ns), block)
  {
    BlocksAppend(ListingUpTo(e, i - 1, ns), Listing(e.members[i - 1].1, Qualify(ns, e.members[i - 1].0)), block);
  }

  lemma {:induction false} OutlineMemberIsListing<L>(e: Entry, i: nat, ns: string, block: (string, Entry) -> seq<L>, header: seq<L>, footer: seq<L>)
    requires e.Namespace? && i < |e.members| && NonEmptyKeys(e)
    ensures OutlineMember(e, i, ns, block, header, footer) == Blocks(Listing(e.members[i].1, Qualify(ns, e.members[i].0)), block)
    decreases e, 0, i, 0
  {
    var (key, value) := e.members[i];
    var q := Qualify(ns, key);
    match value
    case Task(_, _, _) =>
      assert Listing(value, q) == [(q, value)];
      assert Blocks([(q, value)], block) == Blocks([], block) + block(q, value);
    case Namespace(_) =>
      OutlineIsListing(value, q, block, header, footer);
    case Value(_) =>
  }

  /** In a well-keyed namespace no key contains ':'. */
  lemma ColonNameIsNoKey(obj: Entry, name: string)
    requires obj.Namespace? && WellKeyed(obj) && ':' in name
    ensures Get(obj, name) == None
  {
  }

  /** A member task or a task listed inside a member namespace is listed from the top. */
  lemma {:induction false} MemberListed(ns: Entry, j: nat, prefix: string)
    requires ns.Namespace? && j < |ns.members|
    ensures forall p :: p in Listing(ns.members[j].1, Qualify(prefix, ns.members[j].0)) ==> p in Listing(ns, prefix)
  {
    MemberListedUpTo(ns, |ns.members|, j, prefix);
  }

  lemma {:induction false} MemberListedUpTo(ns: Entry, i: nat, j: nat, prefix: string)
    requires ns.Namespace? && j < i <= |ns.members|
    ensures forall p :: p in Listing(ns.members[j].1, Qualify(prefix, ns.members[j].0)) ==> p in ListingUpTo(ns, i, prefix)
    decreases i
  {
    if j < i - 1 {
      MemberListedUpTo(ns, i - 1, j, prefix);
    }
  }

  /** A task listed inside member namespace j is listed from the top under `key:name`. */
  lemma NestedListed(ns: Entry, j: nat, name: string, t: Entry)
    requires ns.Namespace? && NonEmptyKeys(ns) && j < |ns.members| && ns.members[j].1.Namespace?
    requires (name, t) in Listing(ns.members[j].1, "")
    ensures (ns.members[j].0 + ":" + name, t) in Listing(ns, "")
  {
    var (key, c) := ns.members[j];
    ListingBelowKey(c, key);
    var k :| 0 <= k < |Listing(c, "")| && Listing(c, "")[k] == (name, t);
    assert PrefixAll(key, Listing(c, ""))[k] == (key + ":" + name, t);
    MemberListed(ns, j, "");
  }

  /** A task listed as `next` inside the member `root` is listed from the top as the name that splits into them. */
  lemma DescentListed(obj: Entry, name: string, root: string, next: string, c: Entry, t: Entry)
    requires obj.Namespace? && WellKeyed(obj) && SplitFirst(name, ':') == (root, next) && Get(obj, root) == Some(c) && c.Namespace?
    requires (next, t) in Listing(c, "")
    ensures (name, t) in Listing(obj, "")
  {
    WellKeyedHasNonEmptyKeys(obj);
    var j :| 0 <= j < |obj.members| && obj.members[j] == (root, c);
    ListedNamesNonEmpty(c, next, t);
    assert name == root + ":" + next;
    NestedListed(obj, j, next, t);
  }

  /** Names listed from a namespace with non-empty keys are not empty. */
  lemma ListedNamesNonEmpty(ns: Entry, name: string, t: Entry)
    requires ns.Namespace? && NonEmptyKeys(ns) && (name, t) in Listing(ns, "")
    ensures name != ""
  {
    var i, rest := ListedNameShape(ns, name, t);
  }
}

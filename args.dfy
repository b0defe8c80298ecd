/**
 * The flag parser of lib/script.js (`parseArgs`): every token is either a flag, recorded
 * in the options object, or a positional argument kept in order.
 */
module ArgParser {
  import opened Js

  /** `[\w-.]`: an ASCII letter, a digit, '_', '-' or '.'. */
  predicate IsWordChar(c: char) {
    ('a' <= c <= 'z') || ('A' <= c <= 'Z') || ('0' <= c <= '9') || c == '_' || c == '-' || c == '.'
  }

  predicate AllWord(s: string) {
    forall i :: 0 <= i < |s| ==> IsWordChar(s[i])
  }

  /** How one token is classified: `-c`, `-c=v`, `--name`, `--name=v`, or a positional argument. */
  datatype Token =
    | Positional(text: string)
    | Flag(long: bool, name: string, value: Option<string>)

  /**
   * The two single-dash patterns are tried before the double-dash ones; a single-dash
   * flag has exactly one name character, which is not '-'.
   */
  function Classify(t: string): (r: Token)
    ensures r.Flag? ==> Wellformed(r)
  {
    if |t| >= 2 && t[0] == '-' && t[1] != '-' && IsWordChar(t[1]) && (|t| == 2 || (t[2] == '=' && AllWord(t[3..]))) then
      Flag(false, [t[1]], if |t| == 2 then None else Some(t[3..]))
    else if |t| >= 3 && t[0] == '-' && t[1] == '-' then
      var body := t[2..];
      var (name, value) := SplitFirst(body, '=');
      if '=' in body && name != "" && AllWord(name) && AllWord(value) then Flag(true, name, Some(value))
      else if '=' !in body && AllWord(body) then Flag(true, body, None)
      else Positional(t)
    else Positional(t)
  }

  /** The flags the two patterns can produce. */
  predicate Wellformed(f: Token) {
    && f.Flag?
    && f.name != "" && AllWord(f.name)
    && (!f.long ==> |f.name| == 1 && f.name[0] != '-')
    && (f.value.Some? ==> AllWord(f.value.value))
  }

  /** The text of a token. */
  function Render(f: Token): string {
    match f
    case Positional(t) => t
    case Flag(long, name, value) =>
      (if long then "--" else "-") + name + (if value.Some? then "=" + value.value else "")
  }

  /** Classification reads a flag off its own text: rendering it gives the token back. */
  lemma RenderClassify(t: string)
    ensures Render(Classify(t)) == t
  {
    var r := Classify(t);
    if r.Flag? {
      if !r.long {
        if |t| > 2 {
          assert t == "-" + [t[1]] + "=" + t[3..];
        } else {
          assert t == "-" + [t[1]];
        }
      } else {
        var body := t[2..];
        assert t == "--" + body;
      }
    }
  }

  /** Every well-formed flag is recognised as itself, so the patterns recognise exactly these shapes. */
  lemma ClassifyRender(f: Token)
    requires Wellformed(f)
    ensures Classify(Render(f)) == f
  {
    var t := Render(f);
    if f.long {
      var body := t[2..];
      if f.value.Some? {
        assert body == f.name + ['='] + f.value.value;
        SplitFirstOfJoin(f.name, '=', f.value.value);
        assert f.name[0] in body;
      } else {
        assert body == f.name;
        assert '=' !in body by {
          assert forall i :: 0 <= i < |body| ==> IsWordChar(body[i]);
        }
      }
    } else {
      assert t[1] == f.name[0];
      if f.value.Some? {
        assert t[3..] == f.value.value;
      }
      assert [t[1]] == f.name;
    }
  }

  /** A token is a flag exactly when it is the text of a well-formed flag. */
  lemma FlagShapes(t: string)
    ensures Classify(t).Flag? <==> exists f :: Wellformed(f) && Render(f) == t
  {
    if Classify(t).Flag? {
      RenderClassify(t);
    }
    if exists f :: Wellformed(f) && Render(f) == t {
      var f :| Wellformed(f) && Render(f) == t;
      ClassifyRender(f);
    }
  }

  /** An option's value: `Number(v) || v || true`. */
  datatype FlagValue =
    | Integer(n: int)      // Number(v) for a non-zero decimal integer
    | NumberOf(text: string) // Number(v) for another numeral whose value is non-zero
    | Text(s: string)      // v itself, when Number(v) is zero or NaN and v is not empty
    | Present              // true: no value, or an empty one

  predicate IsDigit(c: char) { '0' <= c <= '9' }

  predicate AllDigits(s: string) {
    forall i :: 0 <= i < |s| ==> IsDigit(s[i])
  }

  /** An optional '-' followed by one or more decimal digits. */
  predicate IsDecimal(s: string) {
    (|s| >= 1 && s[0] != '-' && AllDigits(s)) || (|s| >= 2 && s[0] == '-' && AllDigits(s[1..]))
  }

  function DigitsValue(s: string): nat
    requires AllDigits(s)
  {
    if s == [] then 0 else 10 * DigitsValue(s[..|s| - 1]) + (s[|s| - 1] as int - '0' as int)
  }

  function DecimalValue(s: string): int
    requires IsDecimal(s)
  {
    if s[0] == '-' then -(DigitsValue(s[1..]) as int) else DigitsValue(s)
  }

  /**
   * A text that Number() could read as something other than NaN beyond the decimal
   * integers: it starts like a numeral ('.', a digit, or 'I' of Infinity), possibly after '-'.
   */
  predicate NumeralLike(s: string) {
    (|s| >= 1 && (IsDigit(s[0]) || s[0] == '.' || s[0] == 'I'))
    || (|s| >= 2 && s[0] == '-' && (IsDigit(s[1]) || s[1] == '.' || s[1] == 'I'))
  }

  /**
   * `Number(v) || v || true`. Decimal integers are evaluated here; for any other
   * numeral-like text `nonzero(v)` says whether Number(v) is a non-zero number (a
   * floating-point, hexadecimal or exponent reading the model leaves to its caller).
   */
  function Coerce(value: Option<string>, nonzero: string -> bool): (r: FlagValue)
    ensures value.None? || value == Some("") <==> r == Present
    ensures r.Text? ==> value == Some(r.s)
    ensures r.NumberOf? ==> value == Some(r.text) && !IsDecimal(r.text)
    ensures r.Integer? ==> value.Some? && IsDecimal(value.value) && r.n == DecimalValue(value.value) != 0
    ensures value.Some? && IsDecimal(value.value) && DecimalValue(value.value) != 0 ==> r == Integer(DecimalValue(value.value))
    ensures value.Some? && IsDecimal(value.value) && DecimalValue(value.value) == 0 ==> r == Text(value.value)
    ensures value.Some? && !IsDecimal(value.value) && NumeralLike(value.value) && nonzero(value.value) ==> r == NumberOf(value.value)
    ensures value.Some? && value.value != "" && !IsDecimal(value.value) && !(NumeralLike(value.value) && nonzero(value.value))
            ==> r == Text(value.value)
  {
    match value
    case None => Present
    case Some(v) =>
      if v == "" then Present
      else if IsDecimal(v) then (if DecimalValue(v) != 0 then Integer(DecimalValue(v)) else Text(v))
      else if NumeralLike(v) && nonzero(v) then NumberOf(v)
      else Text(v)
  }

  /** Every stored value is truthy, so `options.help` is set exactly when a help flag was given. */
  predicate Truthy(v: FlagValue, nonzero: string -> bool) {
    match v
    case Integer(n) => n != 0
    case NumberOf(t) => nonzero(t)
    case Text(s) => s != ""
    case Present => true
  }

  lemma CoerceTruthy(value: Option<string>, nonzero: string -> bool)
    ensures Truthy(Coerce(value, nonzero), nonzero)
  {
  }

  lemma DigitCharValue(d: nat)
    requires d < 10
    ensures DigitChar(d) as int - '0' as int == d
  {
  }

  lemma {:induction false} DigitsOfNat(n: nat)
    ensures AllDigits(NatToString(n)) && DigitsValue(NatToString(n)) == n
  {
    var s := NatToString(n);
    if n < 10 {
      DigitCharValue(n);
      assert s[..0] == [];
    } else {
      DigitsOfNat(n / 10);
      DigitCharValue(n % 10);
      assert s[..|s| - 1] == NatToString(n / 10);
    }
  }

  /** A non-zero integer given as `-k=<n>` comes back as that number. */
  lemma CoerceInteger(n: int, nonzero: string -> bool)
    requires n != 0
    ensures Coerce(Some(IntToString(n)), nonzero) == Integer(n)
  {
    var s := IntToString(n);
    if n < 0 {
      var digits := NatToString(-n);
      DigitsOfNat(-n);
      assert s == "-" + digits;
      assert s[1..] == digits;
      assert IsDecimal(s) && DecimalValue(s) == n;
    } else {
      DigitsOfNat(n);
      assert s[0] != '-';
      assert IsDecimal(s) && DecimalValue(s) == n;
    }
  }

  /** What `parseArgs` returns: the kept tokens (`nextArgs`) and the options object. */
  datatype Parsed = Parsed(positionals: seq<string>, options: map<string, FlagValue>)

  /** The result of filtering `args`, stated token by token from the last one. */
  function Parse(args: seq<string>, nonzero: string -> bool): Parsed {
    if args == [] then Parsed([], map[])
    else
      var p := Parse(args[..|args| - 1], nonzero);
      var t := args[|args| - 1];
      match Classify(t)
      case Positional(_) => Parsed(p.positionals + [t], p.options)
      case Flag(_, name, value) => Parsed(p.positionals, p.options[name := Coerce(value, nonzero)])
  }

  /** `parseArgs(args)`: the `filter` callback writes each flag into `options` and keeps the rest. */
  method ParseArgs(args: seq<string>, nonzero: string -> bool) returns (nextArgs: seq<string>, options: map<string, FlagValue>)
    ensures Parsed(nextArgs, options) == Parse(args, nonzero)
  {
    nextArgs, options := [], map[];
    var i := 0;
    while i < |args|
      invariant 0 <= i <= |args|
      invariant Parsed(nextArgs, options) == Parse(args[..i], nonzero)
    {
      var arg := args[i];
      assert args[..i + 1][..i] == args[..i];
      match Classify(arg) {
        case Flag(_, name, value) =>
          options := options[name := Coerce(value, nonzero)];
        case Positional(_) =>
          nextArgs := nextArgs + [arg];
      }
      i := i + 1;
    }
    assert args[..i] == args;
  }

  /** The tokens recorded as flags, in input order. */
  function FlagTokens(args: seq<string>): seq<string> {
    if args == [] then []
    else FlagTokens(args[..|args| - 1]) + (if Classify(args[|args| - 1]).Flag? then [args[|args| - 1]] else [])
  }

  /**
   * Every token is classified exactly once: the kept tokens are the positional ones in
   * input order, and with the flag tokens they make up the input.
   */
  lemma {:induction false} ParseClassifiesOnce(args: seq<string>, nonzero: string -> bool)
    ensures multiset(Parse(args, nonzero).positionals) + multiset(FlagTokens(args)) == multiset(args)
    ensures forall t :: t in Parse(args, nonzero).positionals ==> Classify(t).Positional?
    ensures forall t :: t in FlagTokens(args) ==> Classify(t).Flag?
  {
    ParsePartitions(args, nonzero);
    ParseKinds(args, nonzero);
  }

  lemma {:induction false} ParsePartitions(args: seq<string>, nonzero: string -> bool)
    ensures multiset(Parse(args, nonzero).positionals) + multiset(FlagTokens(args)) == multiset(args)
  {
    if args != [] {
      var init := args[..|args| - 1];
      var t := args[|args| - 1];
      ParsePartitions(init, nonzero);
      ParseLastToken(args, nonzero);
      assert args == init + [t];
      PartitionStep(Parse(init, nonzero).positionals, FlagTokens(init), init, t, Parse(args, nonzero).positionals, FlagTokens(args));
    }
  }

  /** Adding a token to one side of a split of `init` splits `init + [t]`. */
  lemma PartitionStep(kept: seq<string>, flags: seq<string>, init: seq<string>, t: string, kept': seq<string>, flags': seq<string>)
    requires multiset(kept) + multiset(flags) == multiset(init)
    requires (kept' == kept + [t] && flags' == flags) || (kept' == kept && flags' == flags + [t])
    ensures multiset(kept') + multiset(flags') == multiset(init + [t])
  {
  }

  lemma {:induction false} ParseKinds(args: seq<string>, nonzero: string -> bool)
    ensures forall t :: t in Parse(args, nonzero).positionals ==> Classify(t).Positional?
    ensures forall t :: t in FlagTokens(args) ==> Classify(t).Flag?
  {
    if args != [] {
      ParseKinds(args[..|args| - 1], nonzero);
      ParseLastToken(args, nonzero);
    }
  }

  /** Where the last token goes: onto the positionals or onto the flag tokens. */
  lemma ParseLastToken(args: seq<string>, nonzero: string -> bool)
    requires args != []
    ensures var init := args[..|args| - 1];
            var t := args[|args| - 1];
            if Classify(t).Positional? then
              Parse(args, nonzero).positionals == Parse(init, nonzero).positionals + [t] && FlagTokens(args) == FlagTokens(init)
            else
              Parse(args, nonzero).positionals == Parse(init, nonzero).positionals && FlagTokens(args) == FlagTokens(init) + [t]
  {
  }

  /** Parsing a concatenation: positionals concatenate, and the later tokens' options win. */
  lemma {:induction false} ParseAppend(a: seq<string>, b: seq<string>, nonzero: string -> bool)
    ensures Parse(a + b, nonzero).positionals == Parse(a, nonzero).positionals + Parse(b, nonzero).positionals
    ensures Parse(a + b, nonzero).options == Parse(a, nonzero).options + Parse(b, nonzero).options
    decreases |b|
  {
    if b == [] {
      assert a + b == a;
    } else {
      var b' := b[..|b| - 1];
      var t := b[|b| - 1];
      assert (a + b)[..|a + b| - 1] == a + b';
      assert (a + b)[|a + b| - 1] == t;
      ParseAppend(a, b', nonzero);
      var whole, pa, pb := Parse(a + b', nonzero), Parse(a, nonzero), Parse(b', nonzero);
      match Classify(t)
      case Positional(_) =>
        assert Parse(a + b, nonzero).positionals == whole.positionals + [t];
        assert Parse(b, nonzero).positionals == pb.positionals + [t];
      case Flag(_, name, value) =>
        var v := Coerce(value, nonzero);
        assert Parse(a + b, nonzero).options == whole.options[name := v];
        assert Parse(b, nonzero).options == pb.options[name := v];
        assert (pa.options + pb.options)[name := v] == pa.options + pb.options[name := v];
    }
  }

  /** A token that is a flag of the given name. */
  predicate FlagNamed(t: string, name: string) {
    Classify(t).Flag? && Classify(t).name == name
  }

  /** An option is set exactly when some token is a flag of that name. */
  lemma {:induction false} ParseOptionKeys(args: seq<string>, nonzero: string -> bool, name: string)
    ensures name in Parse(args, nonzero).options <==> exists i :: 0 <= i < |args| && FlagNamed(args[i], name)
  {
    if args != [] {
      var init := args[..|args| - 1];
      ParseOptionKeys(init, nonzero, name);
      ParseLastOption(args, nonzero, name);
      if exists i :: 0 <= i < |init| && FlagNamed(init[i], name) {
        var i :| 0 <= i < |init| && FlagNamed(init[i], name);
        assert args[i] == init[i];
      }
      if exists i :: 0 <= i < |args| && FlagNamed(args[i], name) {
        var i :| 0 <= i < |args| && FlagNamed(args[i], name);
        if i < |init| {
          assert init[i] == args[i];
        }
      }
    }
  }

  /** The last token sets the option `name` exactly when it is a flag of that name. */
  lemma ParseLastOption(args: seq<string>, nonzero: string -> bool, name: string)
    requires args != []
    ensures name in Parse(args, nonzero).options
            <==> name in Parse(args[..|args| - 1], nonzero).options || FlagNamed(args[|args| - 1], name)
  {
  }

  /** A later duplicate overwrites: the stored value comes from the last flag of that name. */
  lemma {:induction false} ParseLastWins(args: seq<string>, nonzero: string -> bool, i: nat)
    requires i < |args| && Classify(args[i]).Flag?
    requires forall j :: i < j < |args| ==> !(Classify(args[j]).Flag? && Classify(args[j]).name == Classify(args[i]).name)
    ensures Classify(args[i]).name in Parse(args, nonzero).options
    ensures Parse(args, nonzero).options[Classify(args[i]).name] == Coerce(Classify(args[i]).value, nonzero)
  {
    var init := args[..|args| - 1];
    if i < |init| {
      assert forall j :: i < j < |init| ==> init[j] == args[j];
      ParseLastWins(init, nonzero, i);
    }
  }

  /** `options.help` is truthy exactly when a `-help`-style flag named help was given. */
  lemma ParseHelpOption(args: seq<string>, nonzero: string -> bool)
    ensures "help" in Parse(args, nonzero).options ==> Truthy(Parse(args, nonzero).options["help"], nonzero)
  {
    if "help" in Parse(args, nonzero).options {
      ParseHelpOptionValue(args, nonzero);
    }
  }

  lemma {:induction false} ParseHelpOptionValue(args: seq<string>, nonzero: string -> bool)
    ensures forall k :: k in Parse(args, nonzero).options ==> Truthy(Parse(args, nonzero).options[k], nonzero)
  {
    if args != [] {
      ParseHelpOptionValue(args[..|args| - 1], nonzero);
      var t := args[|args| - 1];
      if Classify(t).Flag? {
        CoerceTruthy(Classify(t).value, nonzero);
      }
    }
  }

  /** `-abc` is neither a single-dash flag (three characters) nor a double-dash one. */
  lemma ShortFlagHasOneCharacter()
    ensures Classify("-abc") == Positional("-abc")
  {
    var t := "-abc";
    assert t[2] == 'b';
    assert t[1] == 'a';
  }

  /** A double-dash token whose value has a character outside `[\w-.]` stays positional. */
  lemma LongFlagNeedsWordValue(name: string, value: string)
    requires '=' !in name && !AllWord(value)
    ensures Classify("--" + name + "=" + value).Positional?
  {
    var t := "--" + name + "=" + value;
    assert t[0] == '-' && t[1] == '-';
    assert t[2..] == name + ['='] + value;
    SplitFirstOfJoin(name, '=', value);
  }

  /** `--host=http://x/` is positional: ':' and '/' are not word characters. */
  lemma UrlValueStaysPositional()
    ensures Classify("--host=http://x/").Positional?
  {
    var value := "http://x/";
    assert "--host=http://x/" == "--" + "host" + "=" + value;
    assert !AllWord(value) by { assert value[4] == ':'; }
    LongFlagNeedsWordValue("host", value);
  }

  lemma DigitsValue123()
    ensures AllDigits("123") && DigitsValue("123") == 123
  {
    assert "123"[..2] == "12" && "12"[..1] == "1" && "1"[..0] == "";
  }

  /** `-a=123` stores the number 123. */
  lemma IntegerValueExample(nonzero: string -> bool)
    ensures Classify("-a=123") == Flag(false, "a", Some("123"))
    ensures Coerce(Some("123"), nonzero) == Integer(123)
  {
    var t := "-a=123";
    assert t[1] == 'a' && t[2] == '=' && t[3..] == "123";
    assert [t[1]] == "a";
    DigitsValue123();
  }

  /** `--abc=test` is a long flag with a value. */
  lemma LongValueExample()
    ensures Classify("--abc=test") == Flag(true, "abc", Some("test"))
  {
    var f := Flag(true, "abc", Some("test"));
    assert AllWord("abc") && AllWord("test");
    assert Render(f) == "--abc=test";
    ClassifyRender(f);
  }

  /** ... and stores the text, since Number("test") is NaN. */
  lemma TextValueExample(nonzero: string -> bool)
    ensures Coerce(Some("test"), nonzero) == Text("test")
  {
    assert "test"[0] == 't';
  }

  /** `-a` and `-a=` store true; `-a=0` stores the text "0", since Number("0") is falsy. */
  lemma PresentAndZeroExamples(nonzero: string -> bool)
    ensures Classify("-a") == Flag(false, "a", None)
    ensures Classify("-a=") == Flag(false, "a", Some(""))
    ensures Classify("-a=0") == Flag(false, "a", Some("0"))
    ensures Coerce(None, nonzero) == Present && Coerce(Some(""), nonzero) == Present
    ensures Coerce(Some("0"), nonzero) == Text("0")
  {
    assert "-a"[1] == 'a' && ["-a"[1]] == "a";
    assert "-a="[2] == '=' && "-a="[3..] == "";
    assert "-a=0"[2] == '=' && "-a=0"[3..] == "0";
    assert DigitsValue("0") == 0 by { assert "0"[..0] == ""; }
  }
}

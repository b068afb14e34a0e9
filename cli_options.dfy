/** The command line of the program: the options record of include/CliOptions.hpp with its
    defaults, std::stoi as a plain decimal reader, and the left-to-right scan of
    src/CliOptions.cpp, which fails with the first error it meets. */
module Cli {
  import opened Outcomes
  import opened CType

  const IntMin := -0x8000_0000
  const IntMax := 0x7FFF_FFFF

  /** A value of C++ int. */
  predicate InInt(n: int)
  {
    IntMin <= n <= IntMax
  }

  datatype CliOptions = CliOptions(
    topic: string,
    topicSet: bool,
    model: string,
    rounds: int,
    stream: bool,
    help: bool,
    localOnly: bool,
    gpuLayers: int,
    gpuLayersAuto: bool,
    loadPath: string,
    savePath: string)

  /** The default member initialisers of the record. */
  const Defaults := CliOptions(
    topic := "",
    topicSet := false,
    model := "deepseek-reasoner",
    rounds := 1,
    stream := true,
    help := false,
    localOnly := true,
    gpuLayers := 0,
    gpuLayersAuto := false,
    loadPath := "",
    savePath := "")

  /** The defaults stream to a local backend, one round, with no topic and no GPU layers. */
  lemma DefaultsAre()
    ensures Defaults.rounds == 1 && Defaults.rounds > 0
    ensures Defaults.stream && Defaults.localOnly && !Defaults.help && !Defaults.topicSet
    ensures Defaults.gpuLayers == 0 && !Defaults.gpuLayersAuto
    ensures Defaults.model == "deepseek-reasoner"
    ensures Defaults.topic == "" && Defaults.loadPath == "" && Defaults.savePath == ""
  {
  }

  function DigitValue(c: char): (d: nat)
    requires IsDigit(c)
    ensures d < 10
  {
    c as int - '0' as int
  }

  /** The number a run of decimal digits spells, most significant first. */
  function DigitsValue(ds: string): nat
    requires forall k :: 0 <= k < |ds| ==> IsDigit(ds[k])
  {
    if ds == [] then 0 else DigitsValue(ds[..|ds| - 1]) * 10 + DigitValue(ds[|ds| - 1])
  }

  /** std::stoi in base 10: leading whitespace is skipped, one optional sign is read, then
      at least one digit; whatever follows the digits is ignored. No digits, or a value
      outside int, is the exception stoi throws, here None. */
  function Stoi(s: string): Option<int>
  {
    Signed(s[LeadingSpaces(s)..])
  }

  /** stoi after the whitespace: an optional sign, then the digits. */
  function Signed(t: string): Option<int>
  {
    if |t| > 0 && t[0] == '-' then Magnitude(t[1..], true)
    else if |t| > 0 && t[0] == '+' then Magnitude(t[1..], false)
    else Magnitude(t, false)
  }

  /** stoi after the sign: the leading digits, negated after a minus, if any and in range. */
  function Magnitude(u: string, negative: bool): Option<int>
  {
    var n := LeadingDigits(u);
    if n == 0 then None
    else
      var magnitude: int := DigitsValue(u[..n]);
      var v := if negative then -magnitude else magnitude;
      if InInt(v) then Some(v) else None
  }

  /** The digits of n, most significant first, without leading zeros (just "0" for 0). */
  function Digits(n: nat): (ds: string)
    ensures |ds| > 0 && forall k :: 0 <= k < |ds| ==> IsDigit(ds[k])
  {
    var d := ['0' + (n % 10) as char];
    if n < 10 then d else Digits(n / 10) + d
  }

  /** The decimal text of n, as std::to_string writes an int. */
  function Decimal(n: int): string
  {
    if n < 0 then "-" + Digits(-n) else Digits(n)
  }

  /** Digits reads back as the number it was written from. */
  lemma {:induction false} DigitsValueOfDigits(n: nat)
    ensures DigitsValue(Digits(n)) == n
  {
    var d := ['0' + (n % 10) as char];
    if n >= 10 {
      DigitsValueOfDigits(n / 10);
      var ds := Digits(n / 10) + d;
      assert ds[..|ds| - 1] == Digits(n / 10);
    }
  }

  /** stoi reads a number written in decimal after any whitespace and before anything
      that is not a digit: the number itself when it fits in int, the out_of_range
      exception otherwise. */
  lemma StoiReads(spaces: string, n: int, rest: string)
    requires forall k :: 0 <= k < |spaces| ==> IsSpace(spaces[k])
    requires rest == [] || !IsDigit(rest[0])
    ensures Stoi(spaces + Decimal(n) + rest) == if InInt(n) then Some(n) else None
  {
    var d := Decimal(n);
    var s := spaces + d + rest;
    DecimalStart(n);
    assert s[|spaces|] == d[0];
    assert forall k :: 0 <= k < |spaces| ==> s[k] == spaces[k];
    LeadingSpacesIs(s, |spaces|);
    assert s[|spaces|..] == d + rest;
    SignedReads(n, rest);
  }

  /** Decimal text starts with a minus sign or a digit, never with whitespace. */
  lemma DecimalStart(n: int)
    ensures |Decimal(n)| > 0 && !IsSpace(Decimal(n)[0])
  {
  }

  /** The decimal text of a number, followed by a non-digit, reads back as that number. */
  lemma SignedReads(n: int, rest: string)
    requires rest == [] || !IsDigit(rest[0])
    ensures Signed(Decimal(n) + rest) == if InInt(n) then Some(n) else None
  {
    var magnitude := if n < 0 then -n else n;
    var t := Decimal(n) + rest;
    if n < 0 {
      assert t[0] == '-' && t[1..] == Digits(magnitude) + rest;
      assert Signed(t) == Magnitude(Digits(magnitude) + rest, true);
    } else {
      assert t == Digits(magnitude) + rest && IsDigit(t[0]);
      assert Signed(t) == Magnitude(t, false);
    }
    MagnitudeReads(magnitude, n < 0, rest);
  }

  /** The digits of a number followed by a non-digit read back as that number. */
  lemma MagnitudeReads(magnitude: nat, negative: bool, rest: string)
    requires rest == [] || !IsDigit(rest[0])
    ensures var v: int := if negative then 0 - magnitude else magnitude;
      Magnitude(Digits(magnitude) + rest, negative) == if InInt(v) then Some(v) else None
  {
    var ds := Digits(magnitude);
    DigitsValueOfDigits(magnitude);
    LeadingDigitsIs(ds + rest, |ds|);
    assert (ds + rest)[..|ds|] == ds;
  }

  /** stoi reads back every int from its decimal text. */
  lemma StoiDecimal(n: int)
    requires InInt(n)
    ensures Stoi(Decimal(n)) == Some(n)
  {
    StoiReads("", n, "");
    assert "" + Decimal(n) + "" == Decimal(n);
  }

  /** Text with no digit after the leading whitespace and the optional sign is rejected, as
      is a bare sign. */
  lemma StoiRejectsNonNumbers(s: string)
    requires var t := s[LeadingSpaces(s)..];
      && (t == [] || t[0] !in "+-" ==> t == [] || !IsDigit(t[0]))
      && (|t| > 0 && t[0] in "+-" ==> |t| == 1 || !IsDigit(t[1]))
    ensures Stoi(s) == None
  {
  }

  /** Examples: surrounding text is ignored, and a value just beyond int is out of range. */
  lemma StoiExamples()
    ensures Stoi(" 12x") == Some(12)
    ensures Stoi(Decimal(IntMax + 1)) == None
  {
    assert Decimal(12) == "12";
    StoiReads(" ", 12, "x");
    assert " " + "12" + "x" == " 12x";
    StoiReads("", IntMax + 1, "");
    assert "" + Decimal(IntMax + 1) + "" == Decimal(IntMax + 1);
  }

  /** Examples: a lone sign and text without digits are rejected, also after whitespace. */
  lemma StoiRejectExamples()
    ensures Stoi("-") == None
    ensures Stoi("abc") == None
    ensures Stoi("  x") == None
  {
    LeadingSpacesIs("-", 0);
    StoiRejectsNonNumbers("-");
    LeadingSpacesIs("abc", 0);
    StoiRejectsNonNumbers("abc");
    LeadingSpacesIs("  x", 2);
    StoiRejectsNonNumbers("  x");
  }

  /** The flags that take the next argument as their value. */
  predicate TakesValue(arg: string)
  {
    arg == "--topic" || arg == "--model" || arg == "--rounds" || arg == "--gpu-layers"
    || arg == "--n-gpu-layers" || arg == "--load" || arg == "--save"
  }

  /** The effect of a value flag with its value on the options, or the error it reports. */
  function SetValue(opts: CliOptions, arg: string, value: string): Result<CliOptions>
    requires TakesValue(arg)
  {
    if arg == "--topic" then Ok(opts.(topic := value, topicSet := true))
    else if arg == "--model" then Ok(opts.(model := value))
    else if arg == "--gpu-layers" || arg == "--n-gpu-layers" then
      if value == "auto" then Ok(opts.(gpuLayersAuto := true, gpuLayers := 0))
      else
        match Stoi(value)
        case None => Err("Invalid gpu-layers value: " + value)
        case Some(n) => if n < 0 then Err("gpu-layers must be >= 0") else Ok(opts.(gpuLayers := n))
    else if arg == "--load" then Ok(opts.(loadPath := value))
    else if arg == "--save" then Ok(opts.(savePath := value))
    else
      match Stoi(value)
      case None => Err("Invalid rounds value: " + value)
      case Some(n) => if n <= 0 then Err("Rounds must be > 0") else Ok(opts.(rounds := n))
  }

  /** The flags that set or clear a switch. */
  predicate IsSwitch(arg: string)
  {
    arg == "--stream" || arg == "--no-stream" || arg == "--local-only" || arg == "--remote"
  }

  /** The effect of a switch on the options. */
  function Toggle(opts: CliOptions, arg: string): CliOptions
    requires IsSwitch(arg)
  {
    if arg == "--stream" then opts.(stream := true)
    else if arg == "--no-stream" then opts.(stream := false)
    else if arg == "--local-only" then opts.(localOnly := true)
    else opts.(localOnly := false)
  }

  /** The reference scan of the arguments after the program name, from the options opts:
      "--help" stops the scan and succeeds at once, a switch sets its field, a value flag
      consumes the next argument whatever it is, and anything else is an error. */
  function Scan(opts: CliOptions, args: seq<string>): Result<CliOptions>
    decreases |args|
  {
    if args == [] then Ok(opts)
    else
      var arg := args[0];
      if arg == "--help" then Ok(opts.(help := true))
      else if IsSwitch(arg) then Scan(Toggle(opts, arg), args[1..])
      else if TakesValue(arg) then
        if |args| < 2 then Err("Missing value for " + arg)
        else
          match SetValue(opts, arg, args[1])
          case Err(e) => Err(e)
          case Ok(next) => Scan(next, args[2..])
      else Err("Unknown option: " + arg)
  }

  /** What ParseCli gives for argv, whose first element is the program name. */
  function Parse(argv: seq<string>): Result<CliOptions>
  {
    Scan(Defaults, if argv == [] then [] else argv[1..])
  }

  /** The arguments from position i on. */
  function From(argv: seq<string>, i: nat): seq<string>
  {
    if i < |argv| then argv[i..] else []
  }

  /** The arguments from i on are argument i followed by those from i + 1 on. */
  lemma FromStep(argv: seq<string>, i: nat)
    requires i < |argv|
    ensures From(argv, i) == [argv[i]] + From(argv, i + 1)
  {
    assert argv[i..] == [argv[i]] + argv[i + 1..];
  }

  /** The scan from argument i on, case by case on argument i. */
  lemma ScanAt(opts: CliOptions, argv: seq<string>, i: nat)
    requires i < |argv|
    ensures var arg := argv[i];
      && (arg == "--help" ==> Scan(opts, From(argv, i)) == Ok(opts.(help := true)))
      && (arg != "--help" && IsSwitch(arg) ==>
            Scan(opts, From(argv, i)) == Scan(Toggle(opts, arg), From(argv, i + 1)))
      && (TakesValue(arg) && i + 1 == |argv| ==> Scan(opts, From(argv, i)) == Err("Missing value for " + arg))
      && (TakesValue(arg) && i + 1 < |argv| ==>
            var stored := SetValue(opts, arg, argv[i + 1]);
            Scan(opts, From(argv, i)) == if stored.Err? then Err(stored.error) else Scan(stored.value, From(argv, i + 2)))
      && (arg != "--help" && !IsSwitch(arg) && !TakesValue(arg) ==>
            Scan(opts, From(argv, i)) == Err("Unknown option: " + arg))
  {
    FromStep(argv, i);
    if i + 1 < |argv| {
      FromStep(argv, i + 1);
      assert From(argv, i) == [argv[i], argv[i + 1]] + From(argv, i + 2);
    }
  }

  /** ParseCli: the scan written as the source's loop over argv, which returns as soon as an
      argument fails or "--help" is seen. */
  method ParseCli(argv: seq<string>) returns (r: Result<CliOptions>)
    ensures r == Parse(argv)
  {
    var opts := Defaults;
    var i := 1;
    while i < |argv|
      invariant i >= 1
      invariant Parse(argv) == Scan(opts, From(argv, i))
      decreases |argv| - i
    {
      var arg := argv[i];
      ScanAt(opts, argv, i);
      if arg == "--help" {
        opts := opts.(help := true);
        return Ok(opts);
      }
      if arg == "--stream" {
        opts := opts.(stream := true);
      } else if arg == "--no-stream" {
        opts := opts.(stream := false);
      } else if arg == "--local-only" {
        opts := opts.(localOnly := true);
      } else if arg == "--remote" {
        opts := opts.(localOnly := false);
      } else if TakesValue(arg) {
        if i + 1 >= |argv| {
          return Err("Missing value for " + arg);
        }
        i := i + 1;
        var value := argv[i];
        var applied := ApplyValue(opts, arg, value);
        if applied.Err? {
          return Err(applied.error);
        }
        opts := applied.value;
      } else {
        return Err("Unknown option: " + arg);
      }
      i := i + 1;
    }
    return Ok(opts);
  }

  /** The branch of ParseCli that stores a flag's value, checking numbers as it goes. It
      takes the branches of SetValue one by one; where SetValue builds a new record, this
      method updates the loop's options field by field, as the source assigns them in place. */
  method ApplyValue(opts: CliOptions, arg: string, value: string) returns (r: Result<CliOptions>)
    requires TakesValue(arg)
    ensures r == SetValue(opts, arg, value)
  {
    var next := opts;
    if arg == "--topic" {
      next := next.(topic := value, topicSet := true);
    } else if arg == "--model" {
      next := next.(model := value);
    } else if arg == "--gpu-layers" || arg == "--n-gpu-layers" {
      if value == "auto" {
        next := next.(gpuLayersAuto := true, gpuLayers := 0);
      } else {
        var n := Stoi(value);
        if n.None? {
          return Err("Invalid gpu-layers value: " + value);
        }
        next := next.(gpuLayers := n.value);
        if next.gpuLayers < 0 {
          return Err("gpu-layers must be >= 0");
        }
      }
    } else if arg == "--load" {
      next := next.(loadPath := value);
    } else if arg == "--save" {
      next := next.(savePath := value);
    } else {
      var n := Stoi(value);
      if n.None? {
        return Err("Invalid rounds value: " + value);
      }
      next := next.(rounds := n.value);
      if next.rounds <= 0 {
        return Err("Rounds must be > 0");
      }
    }
    return Ok(next);
  }

  /** Without arguments every option keeps its default. */
  lemma NoArguments(program: string)
    ensures Parse([program]) == Ok(Defaults)
  {
  }

  /** "--help" succeeds at once with help set and everything before it kept; whatever
      follows, even an unknown option or a flag without its value, is not looked at. */
  lemma HelpShortCircuits(opts: CliOptions, rest: seq<string>)
    ensures Scan(opts, ["--help"] + rest) == Ok(opts.(help := true))
  {
  }

  /** A switch sets its field and the scan goes on with the next argument. */
  lemma ScanSwitch(opts: CliOptions, arg: string, rest: seq<string>)
    requires IsSwitch(arg)
    ensures Scan(opts, [arg] + rest) == Scan(Toggle(opts, arg), rest)
  {
    assert ([arg] + rest)[1..] == rest;
  }

  /** A value flag takes the next argument verbatim, even one that looks like a flag, and
      the scan goes on after it unless the value is refused. */
  lemma ScanValue(opts: CliOptions, flag: string, value: string, rest: seq<string>)
    requires TakesValue(flag)
    ensures var stored := SetValue(opts, flag, value);
      Scan(opts, [flag, value] + rest) == if stored.Err? then Err(stored.error) else Scan(stored.value, rest)
  {
    assert ([flag, value] + rest)[2..] == rest;
  }

  /** A value flag in last position fails, naming the flag. */
  lemma MissingValue(opts: CliOptions, flag: string)
    requires TakesValue(flag)
    ensures Scan(opts, [flag]) == Err("Missing value for " + flag)
  {
  }

  /** Anything that is not a flag fails, naming the argument. */
  lemma UnknownOption(opts: CliOptions, arg: string, rest: seq<string>)
    requires !TakesValue(arg) && !IsSwitch(arg) && arg != "--help"
    ensures Scan(opts, [arg] + rest) == Err("Unknown option: " + arg)
  {
  }

  /** Scanning a + b is scanning a, then b from where a left the options, as long as a
      parsed without stopping at "--help". */
  lemma {:induction false} ScanAppend(opts: CliOptions, a: seq<string>, b: seq<string>)
    requires !opts.help
    requires Scan(opts, a).Ok? && !Scan(opts, a).value.help
    ensures Scan(opts, a + b) == Scan(Scan(opts, a).value, b)
    decreases |a|
  {
    if a == [] {
      assert a + b == b;
    } else {
      var arg := a[0];
      assert (a + b)[0] == arg;
      if IsSwitch(arg) {
        assert (a + b)[1..] == a[1..] + b;
        ScanAppend(Toggle(opts, arg), a[1..], b);
      } else {
        assert (a + b)[1] == a[1];
        assert (a + b)[2..] == a[2..] + b;
        ScanAppend(SetValue(opts, arg, a[1]).value, a[2..], b);
      }
    }
  }

  /** The switches that set or clear streaming. */
  predicate SetsStream(arg: string)
  {
    arg == "--stream" || arg == "--no-stream"
  }

  /** The switches that set or clear local-only mode. */
  predicate SetsLocalOnly(arg: string)
  {
    arg == "--local-only" || arg == "--remote"
  }

  /** A stored value leaves both switch fields as they were. */
  lemma SetValueKeepsSwitches(opts: CliOptions, arg: string, value: string)
    requires TakesValue(arg) && SetValue(opts, arg, value).Ok?
    ensures SetValue(opts, arg, value).value.stream == opts.stream
    ensures SetValue(opts, arg, value).value.localOnly == opts.localOnly
  {
  }

  /** Arguments without --stream or --no-stream leave streaming as it was. */
  lemma {:induction false} ScanKeepsStream(opts: CliOptions, rest: seq<string>)
    requires Scan(opts, rest).Ok?
    requires forall k :: 0 <= k < |rest| ==> !SetsStream(rest[k])
    ensures Scan(opts, rest).value.stream == opts.stream
    decreases |rest|
  {
    if rest != [] && rest[0] != "--help" {
      var arg := rest[0];
      if IsSwitch(arg) {
        assert Scan(opts, rest) == Scan(Toggle(opts, arg), rest[1..]);
        ScanKeepsStream(Toggle(opts, arg), rest[1..]);
      } else {
        SetValueKeepsSwitches(opts, arg, rest[1]);
        assert Scan(opts, rest) == Scan(SetValue(opts, arg, rest[1]).value, rest[2..]);
        ScanKeepsStream(SetValue(opts, arg, rest[1]).value, rest[2..]);
      }
    }
  }

  /** Arguments without --local-only or --remote leave local-only mode as it was. */
  lemma {:induction false} ScanKeepsLocalOnly(opts: CliOptions, rest: seq<string>)
    requires Scan(opts, rest).Ok?
    requires forall k :: 0 <= k < |rest| ==> !SetsLocalOnly(rest[k])
    ensures Scan(opts, rest).value.localOnly == opts.localOnly
    decreases |rest|
  {
    if rest != [] && rest[0] != "--help" {
      var arg := rest[0];
      if IsSwitch(arg) {
        assert Scan(opts, rest) == Scan(Toggle(opts, arg), rest[1..]);
        ScanKeepsLocalOnly(Toggle(opts, arg), rest[1..]);
      } else {
        SetValueKeepsSwitches(opts, arg, rest[1]);
        assert Scan(opts, rest) == Scan(SetValue(opts, arg, rest[1]).value, rest[2..]);
        ScanKeepsLocalOnly(SetValue(opts, arg, rest[1]).value, rest[2..]);
      }
    }
  }

  /** The last of --stream and --no-stream wins, and so does the last of --local-only and
      --remote: after the switch, arguments without a switch of its pair keep its setting. */
  lemma LastSwitchWins(opts: CliOptions, args: seq<string>, flag: string, rest: seq<string>)
    requires !opts.help
    requires Scan(opts, args).Ok? && !Scan(opts, args).value.help
    requires IsSwitch(flag)
    requires SetsStream(flag) ==> forall k :: 0 <= k < |rest| ==> !SetsStream(rest[k])
    requires SetsLocalOnly(flag) ==> forall k :: 0 <= k < |rest| ==> !SetsLocalOnly(rest[k])
    ensures var r := Scan(opts, args + [flag] + rest);
      && (rest == [] ==> r.Ok?)
      && (r.Ok? ==>
        && (flag == "--stream" ==> r.value.stream)
        && (flag == "--no-stream" ==> !r.value.stream)
        && (flag == "--local-only" ==> r.value.localOnly)
        && (flag == "--remote" ==> !r.value.localOnly))
  {
    var before := Scan(opts, args).value;
    assert args + [flag] + rest == args + ([flag] + rest);
    ScanAppend(opts, args, [flag] + rest);
    ScanSwitch(before, flag, rest);
    if Scan(Toggle(before, flag), rest).Ok? {
      if SetsStream(flag) {
        ScanKeepsStream(Toggle(before, flag), rest);
      } else {
        ScanKeepsLocalOnly(Toggle(before, flag), rest);
      }
    }
  }

  /** A stored value keeps rounds positive, GPU layers non-negative, "auto" set once set,
      and help untouched. */
  lemma SetValueKeepsRanges(opts: CliOptions, arg: string, value: string)
    requires TakesValue(arg)
    requires opts.rounds > 0 && opts.gpuLayers >= 0
    requires SetValue(opts, arg, value).Ok?
    ensures var next := SetValue(opts, arg, value).value;
      && next.rounds > 0 && next.gpuLayers >= 0 && next.help == opts.help
      && (opts.gpuLayersAuto ==> next.gpuLayersAuto)
  {
    var next := SetValue(opts, arg, value).value;
    if arg == "--gpu-layers" || arg == "--n-gpu-layers" {
      if value != "auto" {
        var n := Stoi(value);
        assert n.Some? && n.value >= 0 && next == opts.(gpuLayers := n.value);
      }
    } else if arg == "--rounds" {
      var n := Stoi(value);
      assert n.Some? && n.value > 0 && next == opts.(rounds := n.value);
    }
  }

  /** Every successful scan from options with positive rounds and non-negative GPU layers
      keeps both so, and "auto" once set is never cleared by a later number. */
  lemma {:induction false} ScanKeepsRanges(opts: CliOptions, args: seq<string>)
    requires opts.rounds > 0 && opts.gpuLayers >= 0
    requires Scan(opts, args).Ok?
    ensures Scan(opts, args).value.rounds > 0
    ensures Scan(opts, args).value.gpuLayers >= 0
    ensures opts.gpuLayersAuto ==> Scan(opts, args).value.gpuLayersAuto
    decreases |args|
  {
    if args != [] && args[0] != "--help" {
      var arg := args[0];
      if IsSwitch(arg) {
        ScanKeepsRanges(Toggle(opts, arg), args[1..]);
      } else {
        SetValueKeepsRanges(opts, arg, args[1]);
        ScanKeepsRanges(SetValue(opts, arg, args[1]).value, args[2..]);
      }
    }
  }

  /** Every successful parse has positive rounds and non-negative GPU layers. */
  lemma ParsedInRange(argv: seq<string>)
    requires Parse(argv).Ok?
    ensures Parse(argv).value.rounds > 0 && Parse(argv).value.gpuLayers >= 0
  {
    ScanKeepsRanges(Defaults, if argv == [] then [] else argv[1..]);
  }

  /** The gpu-layers value "auto" sets the auto flag and zero layers. */
  lemma GpuLayersAuto(opts: CliOptions, flag: string, rest: seq<string>)
    requires flag == "--gpu-layers" || flag == "--n-gpu-layers"
    ensures Scan(opts, [flag, "auto"] + rest) == Scan(opts.(gpuLayersAuto := true, gpuLayers := 0), rest)
  {
    ScanValue(opts, flag, "auto", rest);
  }

  /** A rounds value that stoi reads as zero or less fails, and so does one stoi refuses. */
  lemma RoundsMustBePositive(opts: CliOptions, value: string, rest: seq<string>)
    requires Stoi(value).Some? ==> Stoi(value).value <= 0
    ensures Scan(opts, ["--rounds", value] + rest)
         == if Stoi(value).None? then Err("Invalid rounds value: " + value) else Err("Rounds must be > 0")
  {
    ScanValue(opts, "--rounds", value, rest);
  }

  /** A negative gpu-layers value fails, and so does one stoi refuses. */
  lemma GpuLayersMustBeNonNegative(opts: CliOptions, flag: string, value: string, rest: seq<string>)
    requires flag == "--gpu-layers" || flag == "--n-gpu-layers"
    requires value != "auto"
    requires Stoi(value).Some? ==> Stoi(value).value < 0
    ensures Scan(opts, [flag, value] + rest)
         == if Stoi(value).None? then Err("Invalid gpu-layers value: " + value) else Err("gpu-layers must be >= 0")
  {
    ScanValue(opts, flag, value, rest);
  }

  /** The unit tests of the parser, as facts about Parse. */
  lemma ParsesValuesTest()
    ensures Parse(["CppDeepSeek", "--topic", "T", "--model", "M", "--rounds", "3",
                   "--gpu-layers", "12", "--no-stream", "--load", "in.json", "--save",
                   "out.json"])
         == Ok(Defaults.(topic := "T", topicSet := true, model := "M", rounds := 3,
                         gpuLayers := 12, stream := false, loadPath := "in.json",
                         savePath := "out.json"))
  {
    var argv := ["CppDeepSeek", "--topic", "T", "--model", "M", "--rounds", "3",
                 "--gpu-layers", "12", "--no-stream", "--load", "in.json", "--save",
                 "out.json"];
    var a6 := ["--save", "out.json"] + [];
    var a5 := ["--load", "in.json"] + a6;
    var a4 := ["--no-stream"] + a5;
    var a3 := ["--gpu-layers", "12"] + a4;
    var a2 := ["--rounds", "3"] + a3;
    var a1 := ["--model", "M"] + a2;
    var a0 := ["--topic", "T"] + a1;
    assert argv[1..] == a0;
    var o1 := Defaults.(topic := "T", topicSet := true);
    var o2 := o1.(model := "M");
    var o3 := o2.(rounds := 3);
    var o4 := o3.(gpuLayers := 12);
    var o5 := o4.(stream := false);
    var o6 := o5.(loadPath := "in.json");
    var o7 := o6.(savePath := "out.json");
    StoiThree();
    StoiTwelve();
    ScanValue(Defaults, "--topic", "T", a1);
    ScanValue(o1, "--model", "M", a2);
    ScanValue(o2, "--rounds", "3", a3);
    ScanValue(o3, "--gpu-layers", "12", a4);
    ScanSwitch(o4, "--no-stream", a5);
    ScanValue(o5, "--load", "in.json", a6);
    ScanValue(o6, "--save", "out.json", []);
  }

  lemma StoiThree()
    ensures Stoi("3") == Some(3)
  {
    StoiDecimal(3);
    assert Decimal(3) == "3";
  }

  lemma StoiTwelve()
    ensures Stoi("12") == Some(12)
  {
    StoiDecimal(12);
    assert Decimal(12) == "12";
  }

  lemma RejectsInvalidRoundsTest()
    ensures Parse(["CppDeepSeek", "--rounds", "0"]) == Err("Rounds must be > 0")
  {
    StoiDecimal(0);
    assert Decimal(0) == "0";
    RoundsMustBePositive(Defaults, "0", []);
    assert ["CppDeepSeek", "--rounds", "0"][1..] == ["--rounds", "0"] + [];
  }

  lemma RemoteFlagDisablesLocalOnlyTest()
    ensures Parse(["CppDeepSeek", "--remote"]) == Ok(Defaults.(localOnly := false))
  {
    ScanSwitch(Defaults, "--remote", []);
    assert ["CppDeepSeek", "--remote"][1..] == ["--remote"] + [];
  }

  lemma RejectsInvalidGpuLayersTest()
    ensures Parse(["CppDeepSeek", "--gpu-layers", "-1"]) == Err("gpu-layers must be >= 0")
  {
    StoiDecimal(-1);
    assert Decimal(-1) == "-1";
    GpuLayersMustBeNonNegative(Defaults, "--gpu-layers", "-1", []);
    assert ["CppDeepSeek", "--gpu-layers", "-1"][1..] == ["--gpu-layers", "-1"] + [];
  }

  lemma ParsesAutoGpuLayersTest()
    ensures Parse(["CppDeepSeek", "--gpu-layers", "auto"])
         == Ok(Defaults.(gpuLayersAuto := true, gpuLayers := 0))
  {
    GpuLayersAuto(Defaults, "--gpu-layers", []);
    assert ["CppDeepSeek", "--gpu-layers", "auto"][1..] == ["--gpu-layers", "auto"] + [];
  }
}

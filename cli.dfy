/**
 * The start-up choices of `main`: the transport flag, the port and the URI
 * prefix, taken from the command-line arguments (`process.argv`) and the
 * environment (`process.env`), together with the string built-ins they use
 * (`find`, `startsWith`, `split` and `parseInt`).
 */
module Cli {
  import opened Common

  const SseFlag := "--sse"
  const PortFlag := "--port="
  const PrefixFlag := "--prefix="
  const FallbackPort := 3000

  /** The position of the first argument starting with `prefix`, or `|argv|`. */
  function FindIndex(argv: seq<string>, prefix: string): (k: nat)
    ensures k <= |argv|
    ensures forall j :: 0 <= j < k ==> !StartsWith(argv[j], prefix)
    ensures k < |argv| ==> StartsWith(argv[k], prefix)
  {
    if argv == [] then 0
    else if StartsWith(argv[0], prefix) then 0
    else
      var k := FindIndex(argv[1..], prefix);
      assert forall j :: 1 <= j < |argv| ==> argv[j] == argv[1..][j - 1];
      1 + k
  }

  /** The first matching position is determined by any position that matches after
      a run of non-matching ones. */
  lemma FindIndexAt(argv: seq<string>, prefix: string, i: nat)
    requires i <= |argv|
    requires forall j :: 0 <= j < i ==> !StartsWith(argv[j], prefix)
    requires i < |argv| ==> StartsWith(argv[i], prefix)
    ensures FindIndex(argv, prefix) == i
  {
  }

  /** `argv.find(arg => arg.startsWith(prefix))`: the first argument with that
      prefix, or `undefined`. */
  function FindFirst(argv: seq<string>, prefix: string): (r: Option<string>)
    ensures r.None? <==> forall i :: 0 <= i < |argv| ==> !StartsWith(argv[i], prefix)
    ensures r.Some? ==> StartsWith(r.value, prefix)
    ensures r.Some? ==> r == Some(argv[FindIndex(argv, prefix)])
  {
    var k := FindIndex(argv, prefix);
    if k < |argv| then Some(argv[k]) else None
  }

  /** `s.split(c)` for a one-character separator: the pieces between separators,
      in order; there is always at least one, and more than one exactly when the
      separator occurs. The first piece is the text before the first separator. */
  function Split(s: string, c: char): (parts: seq<string>)
    ensures |parts| >= 1
    ensures |parts| == 1 <==> c !in s
    ensures forall i :: 0 <= i < |parts| ==> c !in parts[i]
    ensures StartsWith(s, parts[0]) && (|parts[0]| == |s| || s[|parts[0]|] == c)
  {
    if s == [] then [""]
    else
      var rest := Split(s[1..], c);
      if s[0] == c then [""] + rest
      else [[s[0]] + rest[0]] + rest[1..]
  }

  /** `parts.join(c)`. */
  function Join(parts: seq<string>, c: char): string
    requires |parts| >= 1
  {
    if |parts| == 1 then parts[0] else parts[0] + [c] + Join(parts[1..], c)
  }

  /** Joining the pieces of a split gives back the original string. */
  lemma {:induction false} JoinSplit(s: string, c: char)
    ensures Join(Split(s, c), c) == s
  {
    if s != [] {
      var rest := Split(s[1..], c);
      JoinSplit(s[1..], c);
      if s[0] == c {
        assert ([""] + rest)[1..] == rest;
      } else {
        var parts := [[s[0]] + rest[0]] + rest[1..];
        if |rest| > 1 {
          assert parts[1..] == rest[1..];
          assert s == [s[0]] + s[1..];
        }
      }
    }
  }

  /** Splitting a joined list of separator-free pieces gives back the pieces. */
  lemma {:induction false} SplitJoin(parts: seq<string>, c: char)
    requires |parts| >= 1
    requires forall i :: 0 <= i < |parts| ==> c !in parts[i]
    ensures Split(Join(parts, c), c) == parts
  {
    if |parts| > 1 {
      var tail := Join(parts[1..], c);
      assert Join(parts, c) == parts[0] + [c] + tail;
      SplitJoin(parts[1..], c);
      SplitAfter(parts[0], tail, c);
      assert [parts[0]] + parts[1..] == parts;
    } else {
      var pieces := Split(parts[0], c);
      assert |pieces| == 1 && pieces[0] == parts[0];
    }
  }

  /** A separator-free piece followed by the separator splits off as the first piece. */
  lemma {:induction false} SplitAfter(p: string, t: string, c: char)
    requires c !in p
    ensures Split(p + [c] + t, c) == [p] + Split(t, c)
  {
    if p == [] {
      assert ([c] + t)[1..] == t;
    } else {
      SplitAfter(p[1..], t, c);
      assert (p + [c] + t)[1..] == p[1..] + [c] + t;
      assert [p[0]] + p[1..] == p;
    }
  }

  /** `arg.split("=")[1]`: the text between the first and the second `=`, or up to
      the end when there is no second one. */
  function FlagValue(arg: string): (v: string)
    requires '=' in arg
    ensures '=' !in v
  {
    Split(arg, '=')[1]
  }

  /** For a flag name without `=`, the value of `name=rest` is the longest prefix of
      `rest` that has no `=`; a further `=` and whatever follows it are dropped. */
  lemma FlagValueOf(name: string, rest: string)
    requires '=' !in name
    ensures '=' in name + "=" + rest
    ensures var v := FlagValue(name + "=" + rest);
      && '=' !in v && StartsWith(rest, v) && (|v| == |rest| || rest[|v|] == '=')
  {
    assert (name + "=" + rest)[|name|] == '=';
    SplitAfter(name, rest, '=');
  }

  /** A value holding a second `=` keeps only the text before it: `--prefix=a=b`
      gives `a`. */
  lemma SecondEqualsDropped(name: string, a: string, b: string)
    requires '=' !in name && '=' !in a
    ensures '=' in name + "=" + a + "=" + b
    ensures FlagValue(name + "=" + a + "=" + b) == a
  {
    assert name + "=" + a + "=" + b == name + "=" + (a + "=" + b);
    assert (name + "=" + a + "=" + b)[|name|] == '=';
    SplitAfter(name, a + "=" + b, '=');
    SplitAfter(a, b, '=');
  }

  /** A flag with nothing after its `=` has the empty value. */
  lemma EmptyFlagValue(name: string)
    requires '=' !in name
    ensures '=' in name + "=" && FlagValue(name + "=") == ""
  {
    assert (name + "=")[|name|] == '=';
    SplitAfter(name, "", '=');
    assert name + "=" + "" == name + "=";
  }

  /** The characters `parseInt` skips first: the white space and line terminator
      characters of ECMAScript (section 12.2 and 12.3 of ECMA-262). */
  predicate IsJsSpace(ch: char) {
    || ch == '\t' || ch == '\n' || ch == '\U{0B}' || ch == '\U{0C}' || ch == '\r' || ch == ' '
    || ch == '\U{A0}' || ch == '\U{1680}' || ('\U{2000}' <= ch <= '\U{200A}')
    || ch == '\U{2028}' || ch == '\U{2029}' || ch == '\U{202F}' || ch == '\U{205F}'
    || ch == '\U{3000}' || ch == '\U{FEFF}'
  }

  predicate IsDigit(ch: char) {
    '0' <= ch <= '9'
  }

  predicate AllDigits(s: string) {
    forall i :: 0 <= i < |s| ==> IsDigit(s[i])
  }

  /** `s` without its leading white space. */
  function TrimStart(s: string): (r: string)
    ensures |r| <= |s| && r == s[|s| - |r|..]
    ensures forall i :: 0 <= i < |s| - |r| ==> IsJsSpace(s[i])
    ensures r == [] || !IsJsSpace(r[0])
  {
    if s != [] && IsJsSpace(s[0]) then TrimStart(s[1..]) else s
  }

  /** The longest prefix of `s` made of decimal digits. */
  function DigitPrefix(s: string): (d: string)
    ensures StartsWith(s, d) && AllDigits(d)
    ensures |d| == |s| || !IsDigit(s[|d|])
  {
    if s != [] && IsDigit(s[0]) then [s[0]] + DigitPrefix(s[1..]) else []
  }

  /** The number a string of decimal digits denotes. */
  function DecimalValue(d: string): nat
    requires AllDigits(d)
  {
    if d == [] then 0 else DecimalValue(d[..|d| - 1]) * 10 + (d[|d| - 1] as int - '0' as int)
  }

  /** `parseInt(s, 10)`: skip leading white space, take an optional sign, then the
      longest run of decimal digits; no digits at all gives `NaN` (here `None`). */
  function ParseInt(s: string): (r: Option<int>)
    ensures r.None? <==> var t := TrimStart(s);
      var body := if t != [] && (t[0] == '-' || t[0] == '+') then t[1..] else t;
      body == [] || !IsDigit(body[0])
  {
    ParseTrimmed(TrimStart(s))
  }

  /** What `parseInt` reads once the white space is skipped: an optional sign and
      the longest run of digits. */
  function ParseTrimmed(t: string): Option<int> {
    var negative := t != [] && t[0] == '-';
    var body := if t != [] && (t[0] == '-' || t[0] == '+') then t[1..] else t;
    var d := DigitPrefix(body);
    if d == [] then None
    else
      var value: int := DecimalValue(d);
      if negative then Some(-value) else Some(value)
  }

  /** The decimal rendering of a natural number, without leading zeros. */
  function NatToString(n: nat): (s: string)
    ensures |s| >= 1 && AllDigits(s)
  {
    if n < 10 then [('0' as int + n) as char]
    else NatToString(n / 10) + [('0' as int + n % 10) as char]
  }

  /** Reading back a decimal rendering gives the number. */
  lemma {:induction false} DecimalValueOfNatToString(n: nat)
    ensures DecimalValue(NatToString(n)) == n
  {
    if n >= 10 {
      DecimalValueOfNatToString(n / 10);
      var s := NatToString(n);
      assert s[..|s| - 1] == NatToString(n / 10);
    }
  }

  /** The digit run of digits followed by a non-digit (or nothing) is those digits. */
  lemma {:induction false} DigitPrefixOf(d: string, tail: string)
    requires AllDigits(d)
    requires tail == [] || !IsDigit(tail[0])
    ensures DigitPrefix(d + tail) == d
  {
    if d != [] {
      DigitPrefixOf(d[1..], tail);
      assert (d + tail)[1..] == d[1..] + tail;
      assert [d[0]] + d[1..] == d;
    } else {
      assert d + tail == tail;
    }
  }

  /** `parseInt` of a run of digits followed by a non-digit (or nothing) is the
      number the digits denote. */
  lemma ParseIntOfDigits(d: string, tail: string)
    requires d != [] && AllDigits(d)
    requires tail == [] || !IsDigit(tail[0])
    ensures ParseInt(d + tail) == Some(DecimalValue(d))
  {
    var s := d + tail;
    assert s[0] == d[0] && IsDigit(s[0]);
    assert !IsJsSpace(s[0]) && s[0] != '-' && s[0] != '+';
    assert TrimStart(s) == s;
    DigitPrefixOf(d, tail);
  }

  /** `TrimStart` skips a run of white space in front of a non-space character. */
  lemma {:induction false} TrimStartSkips(ws: string, rest: string)
    requires forall i :: 0 <= i < |ws| ==> IsJsSpace(ws[i])
    requires rest == [] || !IsJsSpace(rest[0])
    ensures TrimStart(ws + rest) == rest
  {
    if ws == [] {
      assert ws + rest == rest;
    } else {
      assert (ws + rest)[0] == ws[0];
      assert (ws + rest)[1..] == ws[1..] + rest;
      TrimStartSkips(ws[1..], rest);
    }
  }

  /** Leading white space does not change what `parseInt` reads. */
  lemma ParseIntSkipsSpace(ws: string, rest: string)
    requires forall i :: 0 <= i < |ws| ==> IsJsSpace(ws[i])
    requires rest == [] || !IsJsSpace(rest[0])
    ensures ParseInt(ws + rest) == ParseTrimmed(rest)
  {
    TrimStartSkips(ws, rest);
  }

  /** An unsigned run of digits followed by a non-digit (or nothing) reads as its value. */
  lemma ParseTrimmedDigits(d: string, tail: string)
    requires d != [] && AllDigits(d)
    requires tail == [] || !IsDigit(tail[0])
    ensures ParseTrimmed(d + tail) == Some(DecimalValue(d))
  {
    assert (d + tail)[0] == d[0] && IsDigit(d[0]);
    DigitPrefixOf(d, tail);
  }

  /** After a `-` or `+`, `parseInt` reads the digits that follow, negated after `-`. */
  lemma ParseTrimmedAfterSign(c: char, d: string, tail: string)
    requires c == '-' || c == '+'
    requires d != [] && AllDigits(d)
    requires tail == [] || !IsDigit(tail[0])
    ensures var v: int := DecimalValue(d);
      ParseTrimmed([c] + (d + tail)) == Some(if c == '-' then -v else v)
  {
    var u := d + tail;
    var t := [c] + u;
    assert t[0] == c;
    assert t[1..] == u;
    assert DigitPrefix(u) == d by {
      DigitPrefixOf(d, tail);
    }
  }

  /** A sign, a run of digits and a tail that does not start with a digit give
      the signed value of the digits. */
  lemma ParseTrimmedSigned(sign: string, d: string, tail: string)
    requires |sign| <= 1 && (sign != [] ==> sign[0] == '-' || sign[0] == '+')
    requires d != [] && AllDigits(d)
    requires tail == [] || !IsDigit(tail[0])
    ensures var v: int := DecimalValue(d);
      ParseTrimmed(sign + d + tail) == Some(if sign != [] && sign[0] == '-' then -v else v)
  {
    assert IsDigit(d[0]);
    if sign == [] {
      assert sign + d + tail == d + tail by {
        assert sign + d == d;
      }
      ParseTrimmedDigits(d, tail);
    } else {
      assert sign + d + tail == [sign[0]] + (d + tail) by {
        assert sign == [sign[0]];
      }
      ParseTrimmedAfterSign(sign[0], d, tail);
    }
  }

  /** The whole of `parseInt(s, 10)` on a number: leading white space, an optional
      sign, a run of digits and a tail that does not start with a digit give the
      signed value of the digits. */
  lemma ParseIntValue(ws: string, sign: string, d: string, tail: string)
    requires forall i :: 0 <= i < |ws| ==> IsJsSpace(ws[i])
    requires |sign| <= 1 && (sign != [] ==> sign[0] == '-' || sign[0] == '+')
    requires d != [] && AllDigits(d)
    requires tail == [] || !IsDigit(tail[0])
    ensures var v: int := DecimalValue(d);
      ParseInt(ws + sign + d + tail) == Some(if sign != [] && sign[0] == '-' then -v else v)
  {
    assert ws + sign + d + tail == ws + (sign + d + tail);
    assert !IsJsSpace((sign + d + tail)[0]) by {
      assert (sign + d + tail)[0] == if sign == [] then d[0] else sign[0];
      assert IsDigit(d[0]);
    }
    ParseTrimmedSigned(sign, d, tail);
    ParseIntSkipsSpace(ws, sign + d + tail);
  }

  /** `parseInt` reads back a rendered port number, whatever non-digit text follows it. */
  lemma ParseIntOfNatToString(n: nat, tail: string)
    requires tail == [] || !IsDigit(tail[0])
    ensures ParseInt(NatToString(n) + tail) == Some(n)
  {
    ParseIntOfDigits(NatToString(n), tail);
    DecimalValueOfNatToString(n);
  }

  /** What `main` decides before starting a transport. `None` as the port is `NaN`. */
  datatype LaunchConfig = LaunchConfig(useSse: bool, port: Option<int>, uriPrefix: string)

  /** `process.env.PORT ? parseInt(process.env.PORT, 10) : 3000`. */
  function EnvPort(env: map<string, string>): (p: Option<int>)
    ensures ("PORT" !in env || env["PORT"] == "") ==> p == Some(3000)
    ensures ("PORT" in env && env["PORT"] != "") ==> p == ParseInt(env["PORT"])
  {
    if Truthy(Lookup(env, "PORT")) then ParseInt(env["PORT"]) else Some(FallbackPort)
  }

  /** A found `--port=` or `--prefix=` argument holds an `=`, so its value exists. */
  lemma FlagHasEquals(arg: string, flag: string)
    requires flag == PortFlag || flag == PrefixFlag
    requires StartsWith(arg, flag)
    ensures '=' in arg
  {
    assert arg[|flag| - 1] == flag[|flag| - 1] == '=';
  }

  /** The port: the first `--port=` argument, else `PORT`, else 3000. */
  function SelectPort(argv: seq<string>, env: map<string, string>): (p: Option<int>)
    ensures var k := FindIndex(argv, PortFlag);
      && (k == |argv| ==> p == EnvPort(env))
      && (k < |argv| ==> '=' in argv[k] && p == ParseInt(FlagValue(argv[k])))
  {
    match FindFirst(argv, PortFlag)
    case None => EnvPort(env)
    case Some(arg) => FlagHasEquals(arg, PortFlag); ParseInt(FlagValue(arg))
  }

  /** The URI prefix: the first `--prefix=` argument, else a non-empty `URI_PREFIX`, else "". */
  function SelectPrefix(argv: seq<string>, env: map<string, string>): (prefix: string)
    ensures var k := FindIndex(argv, PrefixFlag);
      && (k == |argv| ==> prefix == if Truthy(Lookup(env, "URI_PREFIX")) then env["URI_PREFIX"] else "")
      && (k < |argv| ==> '=' in argv[k] && prefix == FlagValue(argv[k]))
  {
    match FindFirst(argv, PrefixFlag)
    case None => Or(Lookup(env, "URI_PREFIX"), Some("")).value
    case Some(arg) => FlagHasEquals(arg, PrefixFlag); FlagValue(arg)
  }

  /** The selection logic of `main`. */
  function SelectLaunchConfig(argv: seq<string>, env: map<string, string>): (c: LaunchConfig)
    ensures c.useSse <==> exists i :: 0 <= i < |argv| && argv[i] == "--sse"
    ensures (forall i :: 0 <= i < |argv| ==> !StartsWith(argv[i], PortFlag)) ==>
      c.port == if "PORT" in env && env["PORT"] != "" then ParseInt(env["PORT"]) else Some(3000)
    ensures (forall i :: 0 <= i < |argv| ==> !StartsWith(argv[i], PrefixFlag)) ==>
      c.uriPrefix == if "URI_PREFIX" in env && env["URI_PREFIX"] != "" then env["URI_PREFIX"] else ""
  {
    LaunchConfig(SseFlag in argv, SelectPort(argv, env), SelectPrefix(argv, env))
  }

  /** The first `--port=` and `--prefix=` arguments decide: their values are the
      port (after `parseInt`) and the prefix, whatever the environment says. */
  lemma FirstFlagDecides(argv: seq<string>, env: map<string, string>, i: nat, flag: string)
    requires flag == PortFlag || flag == PrefixFlag
    requires i < |argv| && StartsWith(argv[i], flag)
    requires forall j :: 0 <= j < i ==> !StartsWith(argv[j], flag)
    ensures '=' in argv[i]
    ensures flag == PortFlag ==> SelectLaunchConfig(argv, env).port == ParseInt(FlagValue(argv[i]))
    ensures flag == PrefixFlag ==> SelectLaunchConfig(argv, env).uriPrefix == FlagValue(argv[i])
  {
    FlagHasEquals(argv[i], flag);
    FindIndexAt(argv, flag, i);
  }

  /** Only the first `--prefix=` and `--port=` arguments count: arguments appended
      after one of them change neither choice. */
  lemma LaterFlagsIgnored(argv: seq<string>, extra: seq<string>, env: map<string, string>)
    ensures (exists i :: 0 <= i < |argv| && StartsWith(argv[i], PrefixFlag)) ==>
      SelectLaunchConfig(argv + extra, env).uriPrefix == SelectLaunchConfig(argv, env).uriPrefix
    ensures (exists i :: 0 <= i < |argv| && StartsWith(argv[i], PortFlag)) ==>
      SelectLaunchConfig(argv + extra, env).port == SelectLaunchConfig(argv, env).port
  {
    var all := argv + extra;
    var k := FindIndex(argv, PrefixFlag);
    if k < |argv| {
      FindIndexAt(all, PrefixFlag, k);
    }
    var m := FindIndex(argv, PortFlag);
    if m < |argv| {
      FindIndexAt(all, PortFlag, m);
    }
  }

  /** A bare `--prefix=` selects the empty prefix even when `URI_PREFIX` is set. */
  lemma BarePrefixOverridesEnv(argv: seq<string>, env: map<string, string>, i: nat)
    requires i < |argv| && argv[i] == PrefixFlag
    requires forall j :: 0 <= j < i ==> !StartsWith(argv[j], PrefixFlag)
    ensures SelectLaunchConfig(argv, env).uriPrefix == ""
  {
    assert StartsWith(argv[i], PrefixFlag);
    FirstFlagDecides(argv, env, i, PrefixFlag);
    PrefixFlagValue();
  }

  /** The value of the bare prefix flag is empty. */
  lemma PrefixFlagValue()
    ensures '=' in PrefixFlag && FlagValue(PrefixFlag) == ""
  {
    assert PrefixFlag == "--prefix" + "=";
    EmptyFlagValue("--prefix");
  }
}

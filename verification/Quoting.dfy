/** Windows argument quoting (`process.cpp`) against the rules by which a process takes its command line apart again:
  Microsoft's documented rules for `CommandLineToArgvW`. */
module Quoting {

  // ── the parser, from the documentation ──

  /** Arguments are separated by spaces or tabs. */
  predicate Blank(c: char) { c == ' ' || c == '\t' }

  function Slashes(n: nat): (s: string)
    ensures |s| == n
  {
    if n == 0 then "" else ['\\'] + Slashes(n - 1)
  }

  /** The rest of one argument, after n backslashes, and what follows it. 2n backslashes before a quote are n
      backslashes, and the quote opens or closes a quoted part; 2n+1 are n backslashes and a literal quote;
      backslashes before anything else are themselves. */
  function Arg(s: string, quoted: bool, n: nat): (r: (string, string))
    ensures |r.1| <= |s|
    ensures s != "" && (quoted || !Blank(s[0])) ==> |r.1| < |s|
    decreases |s|
  {
    if s == "" || (!quoted && Blank(s[0])) then (Slashes(n), s)
    else if s[0] == '\\' then Arg(s[1..], quoted, n + 1)
    else if s[0] == '"' && n % 2 == 0 then
      var r := Arg(s[1..], !quoted, 0);
      (Slashes(n / 2) + r.0, r.1)
    else
      var r := Arg(s[1..], quoted, 0);
      (Slashes(if s[0] == '"' then n / 2 else n) + ([s[0]] + r.0), r.1)
  }

  function SkipBlanks(s: string): (t: string)
    ensures |t| <= |s| && (t != "" ==> !Blank(t[0]))
  {
    if s != "" && Blank(s[0]) then SkipBlanks(s[1..]) else s
  }

  /** All the arguments of a line. */
  function Args(s: string): seq<string>
    decreases |s|
  {
    var t := SkipBlanks(s);
    if t == "" then []
    else
      var r := Arg(t, false, 0);
      [r.0] + Args(r.1)
  }

  function AfterQuote(s: string): string {
    if s == "" then "" else if s[0] == '"' then s[1..] else AfterQuote(s[1..])
  }

  function AfterWord(s: string): string {
    if s == "" || Blank(s[0]) then s else AfterWord(s[1..])
  }

  /** What follows the program name, which has rules of its own: from a quote to the next quote, or to a blank. */
  function AfterProgram(s: string): string {
    if s != "" && s[0] == '"' then AfterQuote(s[1..]) else AfterWord(s)
  }

  // ── the quoting ──

  /** Characters for which an argument is wrapped. */
  predicate Special(c: char) { c == ' ' || c == '\t' || c == '\n' || c == '\U{000B}' || c == '"' }

  predicate Needs(arg: string) { arg == "" || exists i :: 0 <= i < |arg| && Special(arg[i]) }

  /** The inside of a wrapped argument and its closing quote, with n backslashes still to be written, and then t. */
  function Body(arg: string, n: nat, t: string): string {
    if arg == "" then Slashes(2 * n) + (['"'] + t)
    else if arg[0] == '\\' then Body(arg[1..], n + 1, t)
    else Slashes(if arg[0] == '"' then 2 * n + 1 else n) + ([arg[0]] + Body(arg[1..], 0, t))
  }

  /** An argument, quoted where it has to be, and then t. */
  function Quote(arg: string, t: string): string { if Needs(arg) then ['"'] + Body(arg, 0, t) else arg + t }

  /** A blank and then the arguments, if there are any. */
  function Tail(args: seq<string>): string
    decreases |args|, 1
  { if args == [] then "" else [' '] + Join(args) }

  /** The command line. */
  function Join(args: seq<string>): string
    decreases |args|, 0
  { if args == [] then "" else Quote(args[0], Tail(args[1..])) }

  // ── the loops that compute it ──

  lemma {:induction false} BodyThen(arg: string, n: nat, t: string)
    ensures Body(arg, n, t) == Body(arg, n, "") + t
    decreases |arg|
  {
    if arg == "" {
      assert ['"'] + t == (['"'] + "") + t;
    } else if arg[0] == '\\' {
      BodyThen(arg[1..], n + 1, t);
    } else {
      BodyThen(arg[1..], 0, t);
      var b := Body(arg[1..], 0, "");
      assert [arg[0]] + (b + t) == ([arg[0]] + b) + t;
    }
  }

  lemma QuoteThen(arg: string, t: string)
    ensures Quote(arg, t) == Quote(arg, "") + t
  {
    BodyThen(arg, 0, t);
    assert arg + "" == arg;
  }

  lemma Assoc(a: string, b: string, c: string)
    ensures a + (b + c) == (a + b) + c
  {
  }

  method NeedsQuotes(arg: string) returns (needs: bool)
    ensures needs <==> Needs(arg)
  {
    needs := arg == "";
    for i := 0 to |arg|
      invariant needs <==> arg == "" || exists k :: 0 <= k < i && Special(arg[k])
    {
      if Special(arg[i]) { needs := true; }
    }
  }

  /** The loop of quote_arg(), from out = `"` on. */
  method Wrap(arg: string) returns (out: string)
    ensures out == ['"'] + Body(arg, 0, "")
  {
    out := ['"'];
    var backslashes := 0;
    var i := 0;
    assert arg[0..] == arg;
    while i < |arg|
      invariant 0 <= i <= |arg|
      invariant out + Body(arg[i..], backslashes, "") == ['"'] + Body(arg, 0, "")
    {
      var c := arg[i];
      ghost var rest := arg[i + 1..];
      assert arg[i..][0] == c && arg[i..][1..] == rest;
      i := i + 1;
      if c == '\\' { backslashes := backslashes + 1; continue; }
      ghost var slashes := Slashes(if c == '"' then 2 * backslashes + 1 else backslashes);
      Assoc(slashes, [c], Body(rest, 0, ""));
      Assoc(out, slashes + [c], Body(rest, 0, ""));
      if c == '"' {
        out := out + (Slashes(backslashes * 2 + 1) + ['"']);
      } else {
        out := out + (Slashes(backslashes) + [c]);
      }
      backslashes := 0;
    }
    out := out + (Slashes(backslashes * 2) + ['"']);
  }

  /** quote_arg() */
  method QuoteArg(arg: string) returns (out: string)
    ensures out == Quote(arg, "")
  {
    var needs := NeedsQuotes(arg);
    if needs { out := Wrap(arg); } else { out := arg; }
  }

  lemma {:induction false} JoinMore(args: seq<string>, a: string)
    requires args != []
    ensures Join(args + [a]) == Join(args) + ([' '] + Quote(a, ""))
  {
    var more := args + [a];
    assert more[1..] == args[1..] + [a];
    var end := [' '] + Quote(a, "");
    if |args| > 1 {
      JoinMore(args[1..], a);
      Assoc([' '], Join(args[1..]), end);
    } else {
      assert more[1..] == [a] && [a][1..] == [];
    }
    assert Tail(more[1..]) == Tail(args[1..]) + end;
    QuoteThen(args[0], Tail(more[1..]));
    QuoteThen(args[0], Tail(args[1..]));
    Assoc(Quote(args[0], ""), Tail(args[1..]), end);
  }

  /** join_command_line() */
  method JoinCommandLine(argv: seq<string>) returns (out: string)
    ensures out == Join(argv)
  {
    out := "";
    var i := 0;
    while i < |argv|
      invariant 0 <= i <= |argv| && out == Join(argv[..i])
    {
      if i != 0 { out := out + [' ']; }
      var q := QuoteArg(argv[i]);
      out := out + q;
      assert argv[..i + 1] == argv[..i] + [argv[i]];
      if i != 0 {
        JoinMore(argv[..i], argv[i]);
        Assoc(Join(argv[..i]), [' '], q);
      } else {
        assert argv[..1] == [argv[0]] && [argv[0]][1..] == [];
      }
      i := i + 1;
    }
    assert argv[..i] == argv;
  }

  // ── the parser, one step at a time ──

  lemma Cons(c: char, t: string)
    ensures ([c] + t)[0] == c && ([c] + t)[1..] == t && [c] + t != ""
  {
  }

  /** A run of backslashes is read into the count. */
  lemma {:induction false} ReadSlashes(k: nat, t: string, quoted: bool, n: nat)
    ensures Arg(Slashes(k) + t, quoted, n) == Arg(t, quoted, n + k)
    decreases k
  {
    if k == 0 {
      assert Slashes(0) + t == t;
    } else {
      Assoc(['\\'], Slashes(k - 1), t);
      Cons('\\', Slashes(k - 1) + t);
      assert Arg(Slashes(k) + t, quoted, n) == Arg(Slashes(k - 1) + t, quoted, n + 1);
      ReadSlashes(k - 1, t, quoted, n + 1);
    }
  }

  predicate Ends(t: string) { t == "" || Blank(t[0]) }

  lemma {:induction false} BodyParses(arg: string, n: nat, t: string)
    requires Ends(t)
    ensures Arg(Body(arg, n, t), true, 0) == (Slashes(n) + arg, t)
    decreases |arg|
  {
    if arg == "" {
      ReadSlashes(2 * n, ['"'] + t, true, 0);
      Cons('"', t);
      assert Slashes(n) + Slashes(0) == Slashes(n) + arg;
    } else if arg[0] == '\\' {
      BodyParses(arg[1..], n + 1, t);
      SlashFirst(n, arg);
    } else {
      var k := if arg[0] == '"' then 2 * n + 1 else n;
      var rest := Body(arg[1..], 0, t);
      BodyParses(arg[1..], 0, t);
      ReadSlashes(k, [arg[0]] + rest, true, 0);
      Cons(arg[0], rest);
      assert Slashes(0) + arg[1..] == arg[1..] && [arg[0]] + arg[1..] == arg;
    }
  }

  /** One backslash more in front of the rest is the argument itself. */
  lemma SlashFirst(n: nat, arg: string)
    requires arg != "" && arg[0] == '\\'
    ensures Slashes(n + 1) + arg[1..] == Slashes(n) + arg
  {
    SlashLast(n);
    assert ['\\'] + arg[1..] == arg;
    Assoc(Slashes(n), ['\\'], arg[1..]);
  }

  lemma {:induction false} SlashLast(n: nat)
    ensures Slashes(n + 1) == Slashes(n) + ['\\']
  {
    if n > 0 {
      SlashLast(n - 1);
      Assoc(['\\'], Slashes(n - 1), ['\\']);
    } else {
      assert Slashes(1) == ['\\'] + "" && Slashes(0) + ['\\'] == ['\\'];
    }
  }

  /** An argument that is not wrapped. */
  lemma {:induction false} PlainParses(arg: string, n: nat, t: string)
    requires Ends(t) && forall i :: 0 <= i < |arg| ==> !Special(arg[i])
    ensures Arg(arg + t, false, n) == (Slashes(n) + arg, t)
    decreases |arg|
  {
    if arg == "" {
      assert arg + t == t && Slashes(n) + arg == Slashes(n);
    } else {
      var c, rest := arg[0], arg[1..];
      assert arg == [c] + rest && !Special(c);
      Assoc([c], rest, t);
      Cons(c, rest + t);
      if c == '\\' {
        PlainParses(rest, n + 1, t);
        SlashFirst(n, arg);
      } else {
        PlainParses(rest, 0, t);
        assert Slashes(0) + rest == rest;
      }
    }
  }

  lemma QuoteParses(arg: string, t: string)
    requires Ends(t)
    ensures Quote(arg, t) != "" && !Blank(Quote(arg, t)[0]) && Arg(Quote(arg, t), false, 0) == (arg, t)
  {
    assert Slashes(0) + arg == arg;
    if Needs(arg) {
      BodyParses(arg, 0, t);
      Cons('"', Body(arg, 0, t));
      assert Slashes(0) + arg == arg;
    } else {
      PlainParses(arg, 0, t);
      assert (arg + t)[0] == arg[0] && !Special(arg[0]);
    }
  }

  lemma ArgsStep(s: string)
    requires s != "" && !Blank(s[0])
    ensures Args(s) == [Arg(s, false, 0).0] + Args(Arg(s, false, 0).1)
  {
  }

  lemma ArgsSkip(c: char, s: string)
    requires Blank(c)
    ensures Args([c] + s) == Args(s)
  {
    Cons(c, s);
  }

  lemma ArgsOfTail(args: seq<string>)
    ensures Args(Tail(args)) == Args(Join(args))
  {
    if args != [] { ArgsSkip(' ', Join(args)); }
  }

  lemma TailEnds(args: seq<string>)
    ensures Ends(Tail(args))
  {
  }

  /** Taking the joined line apart gives back every argument, for every list of arguments. */
  lemma {:induction false} RoundTrip(args: seq<string>)
    ensures Args(Join(args)) == args
    decreases |args|
  {
    if args != [] {
      TailEnds(args[1..]);
      QuoteParses(args[0], Tail(args[1..]));
      ArgsStep(Join(args));
      ArgsOfTail(args[1..]);
      RoundTrip(args[1..]);
    }
  }

  // ── the program name ──

  lemma {:induction false} AfterSlashes(n: nat, t: string)
    ensures AfterQuote(Slashes(n) + t) == AfterQuote(t)
  {
    if n == 0 {
      assert Slashes(0) + t == t;
    } else {
      Assoc(['\\'], Slashes(n - 1), t);
      Cons('\\', Slashes(n - 1) + t);
      AfterSlashes(n - 1, t);
    }
  }

  /** The program's part of the line is taken off exactly where it holds no quote, and else cut at its first quote. */
  lemma {:induction false} AfterBody(arg: string, n: nat, t: string)
    ensures AfterQuote(Body(arg, n, t)) == if '"' in arg then Body(AfterQuote(arg), 0, t) else t
    decreases |arg|
  {
    if arg == "" {
      AfterSlashes(2 * n, ['"'] + t);
      Cons('"', t);
    } else {
      assert '"' in arg <==> arg[0] == '"' || '"' in arg[1..] by { assert arg == [arg[0]] + arg[1..]; }
      if arg[0] == '\\' {
        AfterBody(arg[1..], n + 1, t);
      } else {
        var rest := Body(arg[1..], 0, t);
        AfterBody(arg[1..], 0, t);
        AfterSlashes(if arg[0] == '"' then 2 * n + 1 else n, [arg[0]] + rest);
        Cons(arg[0], rest);
      }
    }
  }

  lemma {:induction false} AfterPlain(arg: string, t: string)
    requires Ends(t) && forall i :: 0 <= i < |arg| ==> !Special(arg[i])
    ensures AfterWord(arg + t) == t
  {
    if arg == "" {
      assert arg + t == t;
    } else {
      assert (arg + t)[1..] == arg[1..] + t && !Special(arg[0]);
      AfterPlain(arg[1..], t);
    }
  }

  // ── counting what is not blank, whatever is quoted ──

  function Dark(s: string): nat { if s == "" then 0 else (if Blank(s[0]) then 0 else 1) + Dark(s[1..]) }

  function DarkAll(args: seq<string>): nat { if args == [] then 0 else Dark(args[0]) + DarkAll(args[1..]) }

  lemma {:induction false} DarkAfter(n: nat, s: string)
    ensures Dark(Slashes(n) + s) == n + Dark(s)
  {
    if n == 0 {
      assert Slashes(0) + s == s;
    } else {
      Assoc(['\\'], Slashes(n - 1), s);
      Cons('\\', Slashes(n - 1) + s);
      DarkAfter(n - 1, s);
    }
  }

  /** How many characters that are not blank the parser makes of a line, after n backslashes. */
  function Ink(s: string, n: nat): nat
    decreases |s|
  {
    if s == "" then n
    else if s[0] == '\\' then Ink(s[1..], n + 1)
    else if s[0] == '"' then n / 2 + n % 2 + Ink(s[1..], 0)
    else n + (if Blank(s[0]) then 0 else 1) + Ink(s[1..], 0)
  }

  lemma {:induction false} ArgInk(s: string, quoted: bool, n: nat)
    ensures Dark(Arg(s, quoted, n).0) + Ink(Arg(s, quoted, n).1, 0) == Ink(s, n)
    decreases |s|
  {
    if s == "" || (!quoted && Blank(s[0])) {
      DarkAfter(n, "");
      assert Slashes(n) + "" == Slashes(n);
    } else if s[0] == '\\' {
      ArgInk(s[1..], quoted, n + 1);
    } else if s[0] == '"' && n % 2 == 0 {
      ArgInk(s[1..], !quoted, 0);
      DarkAfter(n / 2, Arg(s[1..], !quoted, 0).0);
    } else {
      var r := Arg(s[1..], quoted, 0);
      ArgInk(s[1..], quoted, 0);
      DarkAfter(if s[0] == '"' then n / 2 else n, [s[0]] + r.0);
      Cons(s[0], r.0);
    }
  }

  lemma {:induction false} SkipInk(s: string)
    ensures Ink(SkipBlanks(s), 0) == Ink(s, 0)
  {
    if s != "" && Blank(s[0]) { SkipInk(s[1..]); }
  }

  lemma {:induction false} ArgsInk(s: string)
    ensures DarkAll(Args(s)) == Ink(s, 0)
    decreases |s|
  {
    SkipInk(s);
    var t := SkipBlanks(s);
    if t != "" {
      ArgInk(t, false, 0);
      ArgsInk(Arg(t, false, 0).1);
      assert Args(s)[1..] == Args(Arg(t, false, 0).1);
    }
  }

  lemma {:induction false} InkSlashes(k: nat, t: string, n: nat)
    ensures Ink(Slashes(k) + t, n) == Ink(t, n + k)
    decreases k
  {
    if k == 0 {
      assert Slashes(0) + t == t;
    } else {
      Assoc(['\\'], Slashes(k - 1), t);
      Cons('\\', Slashes(k - 1) + t);
      InkSlashes(k - 1, t, n + 1);
    }
  }

  lemma {:induction false} BodyInk(arg: string, n: nat, t: string)
    ensures Ink(Body(arg, n, t), 0) == n + Dark(arg) + Ink(t, 0)
    decreases |arg|
  {
    if arg == "" {
      InkSlashes(2 * n, ['"'] + t, 0);
      Cons('"', t);
    } else if arg[0] == '\\' {
      BodyInk(arg[1..], n + 1, t);
    } else {
      var rest := Body(arg[1..], 0, t);
      BodyInk(arg[1..], 0, t);
      InkSlashes(if arg[0] == '"' then 2 * n + 1 else n, [arg[0]] + rest, 0);
      Cons(arg[0], rest);
    }
  }

  // ── exactly when the arguments after the program survive ──

  lemma QuoteBlank(arg: string, t: string)
    requires arg != "" && arg[0] == ' '
    ensures Quote(arg, t) == ['"'] + ([' '] + Body(arg[1..], 0, t))
  {
    assert Special(arg[0]);
    assert Slashes(0) + ([' '] + Body(arg[1..], 0, t)) == [' '] + Body(arg[1..], 0, t);
  }

  lemma CloseAtBlank(b: string)
    ensures Arg(['"'] + ([' '] + b), true, 0) == ("", [' '] + b)
  {
    Cons('"', [' '] + b);
    assert Arg([' '] + b, false, 0) == (Slashes(0), [' '] + b);
    assert Slashes(0 / 2) + Slashes(0) == "";
  }

  /** The first argument read after an open quote and a blank, if it is the line's own first argument. */
  lemma OpenFirst(args: seq<string>)
    requires args != [] && args[0] == [' '] + Arg(Join(args), true, 0).0
    ensures args[0] == [' '] && Arg(Join(args), true, 0) == ("", [' '] + (['"'] + Tail(args[1..])))
  {
    var t := Tail(args[1..]);
    QuoteBlank(args[0], t);
    CloseAtBlank(Body(args[0][1..], 0, t));
    assert args[0] == [' '] + "" && args[0][1..] == "";
    assert Slashes(0) + (['"'] + t) == ['"'] + t;
  }

  lemma OpenArg(s: string)
    ensures Args(['"'] + ([' '] + s)) == [[' '] + Arg(s, true, 0).0] + Args(Arg(s, true, 0).1)
  {
    var u := [' '] + s;
    Cons('"', u);
    Cons(' ', s);
    var r := Arg(s, true, 0);
    assert Slashes(0) + ([' '] + r.0) == [' '] + r.0;
    assert Arg(u, true, 0) == ([' '] + r.0, r.1);
    assert Slashes(0) + ([' '] + r.0) == [' '] + r.0;
    ArgsStep(['"'] + u);
  }

  /** A line that begins inside an open quote never parses to its own arguments. */
  lemma {:induction false} OpenQuote(args: seq<string>)
    ensures Args(['"'] + Tail(args)) != args
    decreases |args|
  {
    if args == [] {
      Cons('"', "");
      ArgsStep(['"'] + "");
    } else {
      OpenArg(Join(args));
      if args[0] == [' '] + Arg(Join(args), true, 0).0 {
        OpenFirst(args);
        ArgsSkip(' ', ['"'] + Tail(args[1..]));
        OpenQuote(args[1..]);
      }
    }
  }

  lemma {:induction false} AllBlank(z: string, t: string)
    requires Dark(z) == 0
    ensures Args(Body(z, 0, t)) == Args(['"'] + t)
  {
    if z == "" {
      assert Slashes(0) + (['"'] + t) == ['"'] + t;
    } else {
      AllBlank(z[1..], t);
      assert Slashes(0) + ([z[0]] + Body(z[1..], 0, t)) == [z[0]] + Body(z[1..], 0, t);
      ArgsSkip(z[0], Body(z[1..], 0, t));
    }
  }

  /** What is left of a program name that was cut at a quote spoils the arguments. */
  lemma CutSpoils(z: string, args: seq<string>)
    ensures Args(Body(z, 0, Tail(args))) != args
  {
    var t := Tail(args);
    ArgsInk(Body(z, 0, t));
    BodyInk(z, 0, t);
    ArgsInk(t);
    ArgsOfTail(args);
    RoundTrip(args);
    if Dark(z) == 0 {
      AllBlank(z, t);
      OpenQuote(args);
    }
  }

  /** Taking the whole line apart, the program name by its own rule, gives back every argument after the program if
      and only if the program name holds no quote. */
  lemma AfterProgramIff(args: seq<string>)
    requires args != []
    ensures Args(AfterProgram(Join(args))) == args[1..] <==> '"' !in args[0]
  {
    var arg, t := args[0], Tail(args[1..]);
    if Needs(arg) {
      Cons('"', Body(arg, 0, t));
      AfterBody(arg, 0, t);
      CutSpoils(AfterQuote(arg), args[1..]);
    } else {
      assert forall i :: 0 <= i < |arg| ==> !Special(arg[i]);
      assert (arg + t)[0] == arg[0];
      TailEnds(args[1..]);
      AfterPlain(arg, t);
    }
    ArgsOfTail(args[1..]);
    RoundTrip(args[1..]);
  }

  /** The smallest spoiled line: the program `"` without arguments gains one. */
  lemma LoneQuote()
    ensures Args(AfterProgram(Join([['"']]))) == [""]
  {
    var q := ['"'];
    assert Special(q[0]) && q[1..] == "";
    Cons('"', Body(q, 0, ""));
    AfterBody(q, 0, "");
    assert Body("", 0, "") == ['"'] by { assert Slashes(0) + (['"'] + "") == ['"']; }
    ArgsStep(['"']);
    assert ['"'][1..] == "" && Slashes(0) + Slashes(0) == "";
  }
}

/** The interpreter in silas.py: its preprocessing pass, the instructions that
    differ from vm.py (`pop`'s key, `if_goto`, `call`), the dispatcher loop,
    the interpreter object whose methods update the globals in place, and the
    properties of all of these. */
module Silas {
  import opened Py
  import opened Runtime
  import opened Symbols

  // ----- preprocessing (main, lines 237-263) -----

  /** Whether a raw line survives the first filter: not blank, and not a
      lone `>!`. */
  predicate Survives(line: string) {
    Strip(line) != "" && Strip(line) != ">!"
  }

  /** `[line.lstrip() for line in lines if line.strip() and line.strip() != ">!"]`. */
  function Clean(raw: seq<string>): seq<string> {
    if raw == [] then []
    else
      var l := raw[|raw| - 1];
      Clean(raw[..|raw| - 1]) + (if Survives(l) then [LStrip(l)] else [])
  }

  /** The name a directive line defines: `## name` is a label, `# name` a
      function entry (its name is stripped twice, which changes nothing). */
  function Directive(line: string): Option<string> {
    if StartsWith(line, "## ") then Some(Strip(line[3..]))
    else if StartsWith(line, "# ") then Some(Strip(Strip(line[2..])))
    else None
  }

  /** Every line that survives the filter is a left-stripped, non-blank line
      other than `>!`. */
  lemma {:induction false} CleanFacts(raw: seq<string>)
    ensures var r := Clean(raw);
            && |r| <= |raw|
            && forall i :: 0 <= i < |r| ==> Survives(r[i]) && (r[i] == [] || !IsSpace(r[i][0]))
  {
    if raw != [] {
      var l := raw[|raw| - 1];
      CleanFacts(raw[..|raw| - 1]);
      StripOfLStrip(l);
      LStripFacts(l);
    }
  }

  /** The filter treats each line on its own and keeps the order: filtering
      two pieces of a file and joining the results is filtering the file. */
  lemma {:induction false} CleanAppend(a: seq<string>, b: seq<string>)
    ensures Clean(a + b) == Clean(a) + Clean(b)
  {
    if b != [] {
      var ab := a + b;
      var l := b[|b| - 1];
      var tail := if Survives(l) then [LStrip(l)] else [];
      assert ab[..|ab| - 1] == a + b[..|b| - 1] && ab[|ab| - 1] == l;
      assert Clean(ab) == Clean(a + b[..|b| - 1]) + tail;
      CleanAppend(a, b[..|b| - 1]);
      assert Clean(b) == Clean(b[..|b| - 1]) + tail;
    } else {
      assert a + b == a;
    }
  }

  /** The preprocessing pass of `main`: filter and left-strip the raw lines,
      then walk them with `i` and `remaining_lines`, popping each directive
      line in place and recording its name at the current `i`. */
  method Load(raw: seq<string>) returns (p: Program)
    ensures p.lines == Kept(Directive, Clean(raw))
    ensures p.symbols == SymbolsOf(Directive, Clean(raw))
  {
    var lines := Clean(raw);
    ghost var cleaned := lines;
    var symbols: map<string, int> := map[];
    var i := 0;
    var remaining := |lines|;
    ghost var j := 0;  // how many of the cleaned lines the loop has looked at
    while remaining > 0
      invariant 0 <= j <= |cleaned| && remaining == |cleaned| - j
      invariant i + remaining == |lines|
      invariant i == |Kept(Directive, cleaned[..j])|
      invariant lines == Kept(Directive, cleaned[..j]) + cleaned[j..]
      invariant symbols == SymbolsOf(Directive, cleaned[..j])
    {
      WalkStep(Directive, cleaned, j, lines, i);
      remaining := remaining - 1;
      if StartsWith(lines[i], "## ") {
        var labelName := Strip(lines[i][3..]);
        assert Directive(cleaned[j]) == Some(labelName);
        symbols := symbols[labelName := i];
        lines := lines[..i] + lines[i + 1..];
        j := j + 1;
        continue;
      }
      if StartsWith(lines[i], "# ") {
        var name := Strip(lines[i][2..]);
        name := Strip(name);
        assert Directive(cleaned[j]) == Some(name);
        symbols := symbols[name := i];
        lines := lines[..i] + lines[i + 1..];
        j := j + 1;
        continue;
      }
      assert Directive(cleaned[j]).None?;
      i := i + 1;
      j := j + 1;
    }
    assert cleaned[..j] == cleaned;
    p := Program(lines, symbols);
  }

  // ----- the instructions of silas.py that differ from vm.py -----

  /** `if_goto(symbol)`: always pops the top element; `"True\n"` jumps like
      `goto` (a missing name raises `KeyError` after the pop), `"False\n"`
      falls through, anything else fails the assertion. */
  function AfterIfGoto(symbols: map<string, int>, s: State, name: string): Result {
    if |s.stack| == 0 then Fail(IndexError, s)
    else
      var top := s.stack[|s.stack| - 1];
      var t := s.(stack := s.stack[..|s.stack| - 1]);
      if top == Text("True\n") then AfterGoto(symbols, t, name)
      else if top == Text("False\n") then Ok(t)
      else Fail(AssertionError, t)
  }

  /** Where the arguments begin: `stack[-nargs:]` when `nargs > 0`, and no
      arguments at all otherwise. */
  function ArgStart(s: State, n: int): (k: nat)
    ensures k <= |s.stack|
  {
    if n > 0 then TailStart(|s.stack|, n) else |s.stack|
  }

  /** `call(fct, nargs)`: the stripped count must be `*` or a digit string
      (else `AssertionError`); then the arguments come off the stack and the
      frame is pushed as `Invoke` describes. */
  function AfterCall(p: Program, prims: Prims, s: State, fct: string, nargs: string): Result {
    var t := Strip(nargs);
    if !CountOk(t) then Fail(AssertionError, s)
    else Invoke(p.symbols, prims, s, fct, ArgStart(s, NArgs(s, t)))
  }

  /** `if_goto` always takes exactly one element off the stack (an empty
      stack raises `IndexError`); `"True\n"` then jumps as `goto` would,
      `"False\n"` leaves `pc` alone, and anything else is an assertion
      failure. */
  lemma IfGotoFacts(symbols: map<string, int>, s: State, name: string)
    ensures var r := AfterIfGoto(symbols, s, name);
            && (|s.stack| == 0 <==> r == Fail(IndexError, s))
            && (|s.stack| > 0 ==>
                  var top := s.stack[|s.stack| - 1];
                  var t := s.(stack := s.stack[..|s.stack| - 1]);
                  && r.st.stack == t.stack && r.st.sp == s.sp && r.st.lcl == s.lcl && r.st.dicts == s.dicts
                  && (top == Text("True\n") ==> r == AfterGoto(symbols, t, name))
                  && (top == Text("False\n") ==> r == Ok(t))
                  && (top != Text("True\n") && top != Text("False\n") ==> r == Fail(AssertionError, t)))
  {
    if |s.stack| > 0 {
      GotoFacts(symbols, s.(stack := s.stack[..|s.stack| - 1]), name);
    }
  }

  /** How many arguments `call` takes: a count string other than `*` or
      digits is an assertion failure; a count `n` with `0 < n <= len(stack)`
      takes the top `n` entries; a count of 0 takes none; `*` takes
      everything above the current frame. */
  lemma CallCount(p: Program, prims: Prims, s: State, fct: string, nargs: string)
    ensures var r := AfterCall(p, prims, s, fct, nargs);
            (r.Fail? && r.kind == AssertionError) <==> !CountOk(Strip(nargs))
    ensures var t := Strip(nargs);
            CountOk(t) ==>
              && AfterCall(p, prims, s, fct, nargs) == Invoke(p.symbols, prims, s, fct, ArgStart(s, NArgs(s, t)))
              && (IsDigit(t) && 0 < DigitsValue(t) <= |s.stack| ==> ArgStart(s, NArgs(s, t)) == |s.stack| - DigitsValue(t))
              && (IsDigit(t) && DigitsValue(t) == 0 ==> ArgStart(s, NArgs(s, t)) == |s.stack|)
              && (t == "*" && s.sp < |s.stack| ==> ArgStart(s, NArgs(s, t)) == s.sp + 1)
  {
    var t := Strip(nargs);
    if CountOk(t) {
      var k := ArgStart(s, NArgs(s, t));
      var r := Invoke(p.symbols, prims, s, fct, k);
      if fct in prims.names {
        PrimitiveNet(p.symbols, prims, s, fct, k);
      } else {
        CallFrame(p.symbols, prims, s, fct, k);
      }
      assert !(r.Fail? && r.kind == AssertionError);
    }
  }

  // ----- the dispatcher (main, lines 275-318) -----

  /** The case of `match cmd` a command selects. */
  function Command(cmd: string): Op {
    if cmd == ">" then PushOp
    else if cmd == "pop" then PopOp
    else if cmd == "dup" then DupOp
    else if cmd == "goto" then GotoOp
    else if cmd == "if-goto" then IfGotoOp
    else if cmd == "call" then CallOp
    else if cmd == "return" then ReturnOp
    else if cmd == "exit" then ExitOp
    else OtherOp
  }

  /** How the dispatcher reads a line: `cmd, arg = line.split(" ", 1)` (a
      line without a space is the command alone), then `match cmd`. `>!f n`
      is shorthand for `call f n` (`>!f` alone passes `"0"`); a command that
      matches no case is called as a function with `arg` as its count. */
  function Decode(line: string): Instr {
    var (cmd, arg) := CmdArg(line);
    match Command(cmd)
    case PushOp =>
      if StartsWith(arg, "!") then
        (match SplitOnce(arg[1..])
         case None => CallFn(Strip(arg[1..]), "0")
         case Some((f, n)) => CallFn(f, n))
      else PushText(arg)
    case PopOp =>
      (match SplitOnce(arg)
       case Some((x, n)) => PopInto(x, Str(n))
       case None => PopInto(arg, Int(1)))
    case DupOp => DupTop(Str(arg))
    case GotoOp => GotoLabel(arg)
    case IfGotoOp => IfGotoLabel(arg)
    case CallOp =>
      (match SplitOnce(arg)
       case None => BadCall
       case Some((f, n)) => CallFn(f, n))
    case ReturnOp => ReturnFn
    case ExitOp => ExitProgram
    case OtherOp => CallFn(cmd, arg)
  }

  /** Running one decoded line: `pc` moves on by one unless the instruction
      raised or was `exit`, which sets `pc` to -1. */
  function Execute(p: Program, prims: Prims, s: State, ins: Instr): Step {
    match ins
    case PushText(x) => Next(AfterPush(s, Text(x)).(pc := s.pc + 1))
    case PopInto(x, n) => Advance(AfterPop(s, Strip(x), n))
    case DupTop(n) => Advance(AfterDup(s, n))
    case GotoLabel(name) => Advance(AfterGoto(p.symbols, s, name))
    case IfGotoLabel(name) => Advance(AfterIfGoto(p.symbols, s, name))
    case CallFn(f, n) => Advance(AfterCall(p, prims, s, f, n))
    case ReturnFn => Advance(AfterReturn(s))
    case ExitProgram => Halted(s.(pc := -1))
    case BadCall => Crashed(ValueError, s)
  }

  /** Every line of the program decoded. The dispatcher splits `lines[pc]`
      afresh on each pass; decoding is a function of the line alone, so each
      pass sees the instruction at `pc` in this sequence. */
  function DecodeAll(lines: seq<string>): seq<Instr> {
    seq(|lines|, i requires 0 <= i < |lines| => Decode(lines[i]))
  }

  /** `code` is the decoded form of `lines`. */
  ghost predicate Decodes(code: seq<Instr>, lines: seq<string>) {
    |code| == |lines| && forall i {:trigger Decode(lines[i])} :: 0 <= i < |lines| ==> code[i] == Decode(lines[i])
  }

  /** One pass of the `while pc >= 0` loop: fetch `lines[pc]` (outside the
      list this raises `IndexError`), run what it decodes to, and, when the
      loop goes on, `print_stack`, which reads `stack[-1]` and so raises
      `IndexError` on an empty stack. */
  function AfterStep(code: seq<Instr>, p: Program, prims: Prims, s: State): Step {
    match ListIndex(|code|, s.pc)
    case None => Crashed(IndexError, s)
    case Some(at) =>
      var r := Execute(p, prims, s, code[at]);
      if r.Next? && |r.st.stack| == 0 then Crashed(IndexError, r.st) else r
  }

  /** The body of the dispatcher loop, as the step of `AfterRun`. */
  function Dispatch(code: seq<Instr>, p: Program, prims: Prims): State -> Step {
    s => AfterStep(code, p, prims, s)
  }

  // ----- properties of the dispatcher -----

  /** `> text` pushes the raw text, newline included, unless the text starts
      with `!`. */
  lemma DecodePush(x: string)
    requires !StartsWith(x, "!")
    ensures Decode("> " + x) == PushText(x)
  {
    SplitOnceOf(">", x);
    assert "> " + x == ">" + " " + x;
  }

  /** `> !f n` is shorthand for `call f n`, and `> !f` for `call f 0`. */
  lemma DecodeShorthand(f: string, n: string)
    requires ' ' !in f
    ensures Decode("> !" + f + " " + n) == CallFn(f, n)
    ensures Decode("> !" + f) == CallFn(Strip(f), "0")
  {
    var arg := "!" + f + " " + n;
    SplitOnceOf(">", arg);
    assert "> !" + f + " " + n == ">" + " " + arg;
    assert StartsWith(arg, "!");
    assert arg[1..] == f + " " + n;
    SplitOnceOf(f, n);
    var bare := "!" + f;
    SplitOnceOf(">", bare);
    assert "> !" + f == ">" + " " + bare;
    assert StartsWith(bare, "!") && bare[1..] == f;
    SplitOnceFacts(f);
  }

  /** `call f n` calls `f` with count text `n`; a `call` whose argument has
      no space cannot be unpacked into a name and a count. */
  lemma DecodeCall(f: string, n: string)
    requires ' ' !in f
    ensures Decode("call " + f + " " + n) == CallFn(f, n)
    ensures Decode("call " + f) == BadCall
  {
    var arg := f + " " + n;
    SplitOnceOf("call", arg);
    assert "call " + f + " " + n == "call" + " " + arg;
    SplitOnceOf(f, n);
    SplitOnceOf("call", f);
    assert "call " + f == "call" + " " + f;
    SplitOnceFacts(f);
  }

  /** `pop x n` passes the count as text; `pop x` uses the default count 1. */
  lemma DecodePop(x: string, n: string)
    requires ' ' !in x
    ensures Decode("pop " + x + " " + n) == PopInto(x, Str(n))
    ensures Decode("pop " + x) == PopInto(x, Int(1))
  {
    var arg := x + " " + n;
    SplitOnceOf("pop", arg);
    assert "pop " + x + " " + n == "pop" + " " + arg;
    SplitOnceOf(x, n);
    SplitOnceOf("pop", x);
    assert "pop " + x == "pop" + " " + x;
    SplitOnceFacts(x);
  }

  /** A first word that is no keyword is called as a function, with the rest
      of the line as its count text. */
  lemma DecodeOther(cmd: string, arg: string)
    requires ' ' !in cmd && Command(cmd) == OtherOp
    ensures Decode(cmd + " " + arg) == CallFn(cmd, arg)
  {
    SplitOnceOf(cmd, arg);
  }

  /** A line without a space is its stripped self as the command with an
      empty argument; as a function call that empty count fails the
      `isdigit` assertion. */
  lemma BareLine(p: Program, prims: Prims, s: State, line: string)
    requires ' ' !in line && Command(Strip(line)) == OtherOp
    ensures Decode(line) == CallFn(Strip(line), "")
    ensures Execute(p, prims, s, Decode(line)) == Crashed(AssertionError, s)
  {
    SplitOnceFacts(line);
    assert Strip("") == "" by {
      assert LStrip("") == "";
    }
  }

  /** A `dup` line always passes its argument as text, so only `dup *` with
      nothing after the `*` (not even a newline) succeeds. */
  lemma DupLine(p: Program, prims: Prims, s: State, a: string)
    ensures Decode("dup " + a) == DupTop(Str(a))
    ensures Execute(p, prims, s, DupTop(Str(a))).Crashed? <==> a != "*"
  {
    SplitOnceOf("dup", a);
    assert "dup " + a == "dup" + " " + a;
  }

  /** A `pop` line with a count succeeds only for the count `*`: a digit
      string passes the assertion but is never converted to a number. */
  lemma PopWithCount(p: Program, prims: Prims, s: State, x: string, n: string)
    ensures Execute(p, prims, s, PopInto(x, Str(n))).Crashed? <==> Strip(n) != "*"
    ensures Strip(n) != "*" ==>
              Execute(p, prims, s, PopInto(x, Str(n)))
              == Crashed(if IsDigit(Strip(n)) then TypeError else AssertionError, s)
  {
    PopFacts(s, Strip(x), Str(n));
  }

  /** Instructions that do not jump move `pc` on by exactly one when they
      complete, and leave it alone when they raise; a primitive call counts
      among them, since its frame is gone again before the step ends. */
  lemma NonJumpingAdvance(p: Program, prims: Prims, s: State, ins: Instr)
    requires || ins.PushText? || ins.PopInto? || ins.DupTop?
             || (ins.CallFn? && ins.fct in prims.names)
             || (ins.IfGotoLabel? && |s.stack| > 0 && s.stack[|s.stack| - 1] != Text("True\n"))
    ensures var r := Execute(p, prims, s, ins);
            && (r.Next? ==> r.st.pc == s.pc + 1)
            && (r.Crashed? ==> r.st.pc == s.pc)
            && !r.Halted?
  {
    match ins
    case PushText(x) => PushFacts(s, Text(x));
    case PopInto(x, n) => PopFacts(s, Strip(x), n);
    case DupTop(n) => DupFacts(s, n);
    case CallFn(f, n) =>
      var t := Strip(n);
      if CountOk(t) {
        PrimitiveNet(p.symbols, prims, s, f, ArgStart(s, NArgs(s, t)));
      }
    case IfGotoLabel(name) => IfGotoFacts(p.symbols, s, name);
  }

  /** `exit` sets `pc` to -1 and ends the run with everything else as it was. */
  lemma ExitStops(code: seq<Instr>, p: Program, prims: Prims, s: State, fuel: nat)
    requires 0 <= s.pc < |code| && code[s.pc] == ExitProgram && fuel > 0
    ensures AfterStep(code, p, prims, s) == Halted(s.(pc := -1))
    ensures AfterRun(Dispatch(code, p, prims), s, fuel) == Run(Exited, s.(pc := -1))
  {
  }

  /** Calling a function whose first line is `return`: two passes of the
      loop bring back the caller's globals, with `pc` on the line after the
      call (when the caller's stack is not empty, which `print_stack` needs). */
  lemma CallReturnRoundTrip(code: seq<Instr>, p: Program, prims: Prims, s: State)
    requires 0 <= s.pc < |code| && code[s.pc].CallFn? && |s.stack| > 0
    requires var f := code[s.pc].fct;
             && CountOk(Strip(code[s.pc].nargs)) && f !in prims.names && Strip(f) in p.symbols
             && 0 <= p.symbols[Strip(f)] < |code| && code[p.symbols[Strip(f)]] == ReturnFn
    ensures AfterStep(code, p, prims, s).Next?
    ensures AfterStep(code, p, prims, AfterStep(code, p, prims, s).st)
            == Next(s.(pc := s.pc + 1, lcl := |s.dicts|, dicts := s.dicts + [Live(s), map[]]))
    ensures Live(AfterStep(code, p, prims, AfterStep(code, p, prims, s).st).st) == Live(s)
  {
    var f, n := code[s.pc].fct, code[s.pc].nargs;
    var k := ArgStart(s, NArgs(s, Strip(n)));
    CallThenReturn(p.symbols, prims, s, f, k);
    var c := Invoke(p.symbols, prims, s, f, k).st;
    assert AfterStep(code, p, prims, s) == Next(c.(pc := c.pc + 1));
    CallFrame(p.symbols, prims, s, f, k);
    assert AfterReturn(c.(pc := c.pc + 1)) == AfterReturn(c);
  }

  /** The interpreter's globals at start-up: an empty stack, `sp == 0`,
      `pc == 0`, and `lcl` the one, empty, dictionary. */
  const Initial := State([], 0, 0, 0, [map[]])

  // ----- the interpreter: the module's globals, updated in place -----

  class Interpreter {
    var stack: seq<Entry>
    var sp: nat
    var pc: int
    var lcl: Ref
    var dicts: seq<Locals>
    const program: Program
    const prims: Prims
    /** The program's lines as the dispatcher decodes them. */
    ghost const code: seq<Instr>
    /** One pass of the dispatcher loop over this program. */
    ghost const step: State -> Step

    /** `code` decodes the program, and `step` is one pass of the dispatcher
        loop over it. */
    ghost predicate Valid() {
      && Decodes(code, program.lines)
      && forall s {:trigger AfterStep(code, program, prims, s)} :: step(s) == AfterStep(code, program, prims, s)
    }

    function Globals(): State
      reads this
    {
      State(stack, sp, pc, lcl, dicts)
    }

    constructor (program: Program, prims: Prims)
      ensures Globals() == Initial
      ensures this.program == program && this.prims == prims
      ensures Valid() && step == Dispatch(code, program, prims)
    {
      stack, sp, pc, lcl, dicts := [], 0, 0, 0, [map[]];
      this.program := program;
      this.prims := prims;
      code := DecodeAll(program.lines);
      step := Dispatch(DecodeAll(program.lines), program, prims);
    }

    method Push(x: Entry)
      modifies this
      ensures Globals() == AfterPush(old(Globals()), x)
    {
      if x.Frame? {
        stack := stack + [x];
        return;
      }
      var key := Strip(x.s);
      var locals := Dict(dicts, lcl);
      if key in locals {
        stack := stack + locals[key];
        return;
      }
      stack := stack + [x];
    }

    method Pop(x: string, n: Count) returns (raised: Option<ErrorKind>)
      modifies this
      ensures Globals() == AfterPop(old(Globals()), Strip(x), n).st
      ensures raised == Raised(AfterPop(old(Globals()), Strip(x), n))
    {
      var key := Strip(x);
      var count := if n.Str? then Str(Strip(n.s)) else n;
      var k: int;
      if count == Str("*") {
        k := |stack| - (sp + 1);
      } else if count.Str? {
        if !IsDigit(count.s) {
          return Some(AssertionError);
        }
        return Some(TypeError);  // the digit string is never converted: -n fails
      } else {
        k := count.n;
      }
      var start := TailStart(|stack|, k);
      var popped := stack[start..];
      stack := stack[..start];
      dicts := Assign(dicts, lcl, Dict(dicts, lcl)[key := popped]);
      raised := None;
    }

    method Dup(n: Count) returns (raised: Option<ErrorKind>)
      modifies this
      ensures Globals() == AfterDup(old(Globals()), n).st
      ensures raised == Raised(AfterDup(old(Globals()), n))
    {
      var k: int;
      if n == Str("*") {
        k := |stack| - 1 - sp;
      } else if n.Str? {
        return Some(TypeError);
      } else {
        k := n.n;
      }
      stack := stack + stack[TailStart(|stack|, k)..];
      raised := None;
    }

    method Goto(name: string) returns (raised: Option<ErrorKind>)
      modifies this
      ensures Globals() == AfterGoto(program.symbols, old(Globals()), name).st
      ensures raised == Raised(AfterGoto(program.symbols, old(Globals()), name))
    {
      var key := Strip(name);
      if key !in program.symbols {
        return Some(KeyError);
      }
      pc := program.symbols[key] - 1;
      raised := None;
    }

    method IfGoto(name: string) returns (raised: Option<ErrorKind>)
      modifies this
      ensures Globals() == AfterIfGoto(program.symbols, old(Globals()), name).st
      ensures raised == Raised(AfterIfGoto(program.symbols, old(Globals()), name))
    {
      if |stack| == 0 {
        return Some(IndexError);
      }
      var doJump := stack[|stack| - 1];
      stack := stack[..|stack| - 1];
      if doJump == Text("True\n") {
        raised := Goto(name);
      } else if doJump == Text("False\n") {
        raised := None;
      } else {
        raised := Some(AssertionError);
      }
    }

    method Return() returns (raised: Option<ErrorKind>)
      modifies this
      ensures Globals() == AfterReturn(old(Globals())).st
      ensures raised == Raised(AfterReturn(old(Globals())))
    {
      if sp >= |stack| {
        return Some(IndexError);
      }
      var e := stack[sp];
      stack := stack[..sp] + stack[sp + 1..];
      match e {
        case Frame(_, fsp, fpc, flcl) =>
          sp, pc, lcl := fsp, fpc, flcl;
          raised := None;
        case Text(t) =>
          raised := Some(if |t| == 4 then TypeError else ValueError);
      }
    }

    method Call(fct: string, nargs: string) returns (raised: Option<ErrorKind>)
      modifies this
      ensures Globals() == AfterCall(program, prims, old(Globals()), fct, nargs).st
      ensures raised == Raised(AfterCall(program, prims, old(Globals()), fct, nargs))
    {
      ghost var s := Globals();
      var t := Strip(nargs);
      var n: int;
      if t == "*" {
        n := |stack| - (sp + 1);
      } else {
        if !IsDigit(t) {
          return Some(AssertionError);
        }
        n := DigitsValue(t);
      }
      var arg: seq<Entry> := [];
      if n > 0 {
        var k := TailStart(|stack|, n);
        arg := stack[k..];
        stack := stack[..k];
      }
      ghost var k := ArgStart(s, n);
      var copy := |dicts|;
      dicts := dicts + [Dict(dicts, lcl)];  // lcl.copy()
      ghost var framed := s.stack[..k] + [Frame(fct, s.sp, s.pc, copy)];
      assert n == NArgs(s, t);
      assert stack == s.stack[..k] && arg == s.stack[k..];
      Push(Frame(fct, sp, pc, copy));
      sp := |stack| - 1;
      assert Globals() == State(framed, k, s.pc, s.lcl, s.dicts + [Live(s)]);
      if fct in prims.names {
        var result := prims.apply(fct, arg);
        match result {
          case Many(items) => stack := stack + items;
          case One(e) => stack := stack + [e];
        }
        assert Globals() == State(framed + Spread(result), k, s.pc, s.lcl, s.dicts + [Live(s)]);
        raised := Return();
        return;
      }
      stack := stack + arg;
      lcl := |dicts|;  // lcl = {}
      dicts := dicts + [map[]];
      assert Globals() == State(framed + arg, k, s.pc, copy + 1, s.dicts + [Live(s), map[]]);
      raised := Goto(fct);
    }

    /** One pass of the dispatcher loop. */
    method Step() returns (signal: Signal)
      requires Valid()
      modifies this
      ensures Globals() == step(old(Globals())).st
      ensures signal == SignalOf(step(old(Globals())))
    {
      assert step(Globals()) == AfterStep(code, program, prims, Globals());
      var at := ListIndex(|program.lines|, pc);
      if at.None? {
        return Raise(IndexError);
      }
      ghost var s := Globals();
      var ins := Decode(program.lines[at.value]);
      assert ins == code[at.value];
      var raised: Option<ErrorKind> := None;
      match ins {
        case PushText(x) => Push(Text(x));
        case PopInto(x, n) => raised := Pop(x, n);
        case DupTop(n) => raised := Dup(n);
        case GotoLabel(name) => raised := Goto(name);
        case IfGotoLabel(name) => raised := IfGoto(name);
        case CallFn(f, n) => raised := Call(f, n);
        case ReturnFn => raised := Return();
        case ExitProgram =>
          pc := -1;
          return Exit;
        case BadCall => return Raise(ValueError);
      }
      if raised.Some? {
        return Raise(raised.value);
      }
      pc := pc + 1;
      if |stack| == 0 {
        return Raise(IndexError);  // print_stack reads stack[-1]
      }
      signal := Continue;
    }

    /** The dispatcher loop, for at most `fuel` passes. */
    method Run(fuel: nat) returns (how: Halt)
      requires Valid()
      modifies this
      ensures Globals() == AfterRun(step, old(Globals()), fuel).st
      ensures how == AfterRun(step, old(Globals()), fuel).how
    {
      var left := fuel;
      while pc >= 0
        invariant AfterRun(step, Globals(), left) == AfterRun(step, old(Globals()), fuel)
        decreases left
      {
        if left == 0 {
          return OutOfFuel;
        }
        RunStep(step, Globals(), left);
        var signal := Step();
        match signal {
          case Exit => return Exited;
          case Raise(k) => return Stopped(k);
          case Continue =>
        }
        left := left - 1;
      }
      how := Exited;
    }
  }
}

/** The interpreter in vm.py: its preprocessing pass (`label` and `function`
    directives), the instructions that differ from silas.py (`pop` keeps its
    key as written, `if_goto` tests a character, `call` has no zero guard),
    the dispatcher loop, the interpreter object whose methods update the
    globals in place, and the properties of all of these. */
module Vm {
  import opened Py
  import opened Runtime
  import opened Symbols

  // ----- preprocessing (main, lines 197 and 206-224) -----

  /** `[line.lstrip() for line in lines if line.strip()]`. */
  function Clean(raw: seq<string>): seq<string> {
    if raw == [] then []
    else
      var l := raw[|raw| - 1];
      Clean(raw[..|raw| - 1]) + (if Strip(l) != "" then [LStrip(l)] else [])
  }

  /** Every line that survives the filter is non-blank and left-stripped. */
  lemma {:induction false} CleanFacts(raw: seq<string>)
    ensures var r := Clean(raw);
            && |r| <= |raw|
            && forall i :: 0 <= i < |r| ==> Strip(r[i]) != "" && (r[i] == [] || !IsSpace(r[i][0]))
  {
    if raw != [] {
      var l := raw[|raw| - 1];
      CleanFacts(raw[..|raw| - 1]);
      StripOfLStrip(l);
      LStripFacts(l);
    }
  }

  /** What the directive loop makes of a line: code it keeps, a directive
      naming a symbol, or a `label` line without a space, whose
      `split(" ", 1)[1]` raises `IndexError`. */
  datatype Role = Code | Names(name: string) | Unsplittable

  /** A line starting with `label` names the stripped text after its first
      space; one starting with `function` names the stripped text from index
      9 on (the keyword and the character after it dropped). */
  function Classify(line: string): Role {
    if StartsWith(line, "label") then
      match SplitOnce(line)
      case None => Unsplittable
      case Some((_, rest)) => Names(Strip(rest))
    else if StartsWith(line, "function") then Names(Strip(Drop(line, 9)))
    else Code
  }

  /** The branches of the directive loop, one by one. */
  lemma ClassifyCases(line: string)
    ensures StartsWith(line, "label") && SplitOnce(line).None? ==> Classify(line).Unsplittable?
    ensures StartsWith(line, "label") && SplitOnce(line).Some? ==>
              !Classify(line).Unsplittable? && Directive(line) == Some(Strip(SplitOnce(line).value.1))
    ensures !StartsWith(line, "label") && StartsWith(line, "function") ==>
              !Classify(line).Unsplittable? && Directive(line) == Some(Strip(Drop(line, 9)))
    ensures !StartsWith(line, "label") && !StartsWith(line, "function") ==>
              !Classify(line).Unsplittable? && Directive(line).None?
  {
  }

  /** The recogniser the shared symbol pass uses. */
  function Directive(line: string): Option<string> {
    match Classify(line)
    case Names(name) => Some(name)
    case _ => None
  }

  /** A line is a directive exactly when it starts with `label` and has a
      space, or starts with `function`: every other line, a `label` line
      without a space included, is left in the program as code. */
  lemma DirectiveIff(line: string)
    ensures Directive(line).Some? <==>
              (StartsWith(line, "label") && ' ' in line) || (!StartsWith(line, "label") && StartsWith(line, "function"))
    ensures StartsWith(line, "label") && ' ' in line ==>
              Directive(line) == Some(Strip(SplitOnce(line).value.1))
    ensures !StartsWith(line, "label") && StartsWith(line, "function") ==>
              Directive(line) == Some(Strip(Drop(line, 9)))
  {
    SplitOnceFacts(line);
  }

  /** No line is a `label` line without a space, checked line by line in
      the order the directive loop meets them. */
  predicate Splittable(ls: seq<string>) {
    ls == [] || (Splittable(ls[..|ls| - 1]) && !Classify(ls[|ls| - 1]).Unsplittable?)
  }

  /** The lines pass the check exactly when none of them is a `label` line
      without a space. */
  lemma {:induction false} SplittableIff(ls: seq<string>)
    ensures Splittable(ls) <==> forall i :: 0 <= i < |ls| ==> !Classify(ls[i]).Unsplittable?
  {
    if ls != [] {
      var init := ls[..|ls| - 1];
      SplittableIff(init);
      assert forall i :: 0 <= i < |init| ==> init[i] == ls[i];
    }
  }

  /** One more line checked by the directive loop. */
  lemma SplittableStep(ls: seq<string>, j: nat)
    requires j < |ls| && Splittable(ls[..j]) && !Classify(ls[j]).Unsplittable?
    ensures Splittable(ls[..j + 1])
  {
    assert ls[..j + 1][..j] == ls[..j];
  }

  /** A `label` line without a space anywhere fails the check. */
  lemma UnsplittableAt(ls: seq<string>, j: nat)
    requires j < |ls| && Classify(ls[j]).Unsplittable?
    ensures !Splittable(ls)
  {
    SplittableIff(ls);
  }

  /** The preprocessing pass of `main`: filter and left-strip the raw lines,
      then walk them with `i` and `remaining_lines`, left-stripping each line
      again, popping each directive line in place and recording its name at
      the current `i`. A `label` line without a space ends the program with
      `IndexError`: then there is no program to run. */
  method Load(raw: seq<string>) returns (p: Option<Program>)
    ensures p.None? <==> !Splittable(Clean(raw))
    ensures p.Some? ==> p.value == Program(Kept(Directive, Clean(raw)), SymbolsOf(Directive, Clean(raw)))
  {
    var lines := Clean(raw);
    ghost var cleaned := lines;
    var symbols: map<string, int> := map[];
    var i := 0;
    var remaining := |lines|;
    ghost var j := 0;  // how many of the cleaned lines the loop has looked at
    while remaining > 0
      invariant 0 <= j <= |cleaned| && remaining == |cleaned| - j
      invariant i + remaining == |lines|
      invariant i == |Kept(Directive, cleaned[..j])|
      invariant lines == Kept(Directive, cleaned[..j]) + cleaned[j..]
      invariant symbols == SymbolsOf(Directive, cleaned[..j])
      invariant Splittable(cleaned[..j])
    {
      WalkStep(Directive, cleaned, j, lines, i);
      assert lines[i] == [] || !IsSpace(lines[i][0]) by {
        CleanFacts(raw);
      }
      LStripNoSpace(lines[i]);
      ghost var unstripped := lines;
      lines := lines[i := LStrip(lines[i])];
      assert lines == unstripped;
      remaining := remaining - 1;
      ClassifyCases(cleaned[j]);
      if StartsWith(lines[i], "label") {
        var parts := SplitOnce(lines[i]);
        if parts.None? {
          UnsplittableAt(cleaned, j);
          return None;
        }
        var labelName := Strip(parts.value.1);
        SplittableStep(cleaned, j);
        symbols := symbols[labelName := i];
        lines := lines[..i] + lines[i + 1..];
        j := j + 1;
        continue;
      }
      if StartsWith(lines[i], "function") {
        var name := Drop(lines[i], 9);
        name := Strip(name);
        SplittableStep(cleaned, j);
        symbols := symbols[name := i];
        lines := lines[..i] + lines[i + 1..];
        j := j + 1;
        continue;
      }
      SplittableStep(cleaned, j);
      i := i + 1;
      j := j + 1;
    }
    assert cleaned[..j] == cleaned;
    p := Some(Program(lines, symbols));
  }

  /** `label` directives: the name is the stripped text after the first
      space, so any word starting with `label` introduces a label; a `label`
      line without any space cannot be split. */
  lemma LabelLine(w: string, rest: string)
    requires StartsWith(w, "label") && ' ' !in w
    ensures Classify(w + " " + rest) == Names(Strip(rest))
    ensures Classify(w) == Unsplittable
  {
    var line := w + " " + rest;
    assert line[..5] == w[..5];
    SplitOnceOf(w, rest);
    SplitOnceFacts(w);
  }

  /** `function` directives: the name is the stripped text after the keyword
      and one more character. */
  lemma FunctionLine(name: string)
    ensures Classify("function " + name) == Names(Strip(name))
  {
    var line := "function " + name;
    assert line[..5] == "funct";
    assert line[..8] == "function";
    assert line[9..] == name;
  }

  // ----- the instructions of vm.py that differ from silas.py -----

  /** `if_goto(symbol)`: pops the top element and takes its character at
      index 1 (a frame cannot be indexed: `TypeError`; a text shorter than
      two characters: `IndexError`); it jumps like `goto` to the stripped
      name exactly when that character does not strip away, and otherwise
      leaves `pc` alone. */
  function AfterIfGoto(symbols: map<string, int>, s: State, name: string): Result {
    if |s.stack| == 0 then Fail(IndexError, s)
    else
      var t := s.(stack := s.stack[..|s.stack| - 1]);
      match s.stack[|s.stack| - 1]
      case Frame(_, _, _, _) => Fail(TypeError, t)
      case Text(x) =>
        if |x| < 2 then Fail(IndexError, t)
        else if Strip([x[1]]) != "" then AfterGoto(symbols, t, Strip(name))
        else Ok(t)
  }

  /** `call(fct, nargs)`: the stripped count must be `*` or a digit string
      (else `AssertionError`); then `stack[-nargs:]` comes off the stack,
      which for a count of 0 is the whole stack, and the frame is pushed as
      `Invoke` describes. */
  function AfterCall(p: Program, prims: Prims, s: State, fct: string, nargs: string): Result {
    var t := Strip(nargs);
    if !CountOk(t) then Fail(AssertionError, s)
    else Invoke(p.symbols, prims, s, fct, TailStart(|s.stack|, NArgs(s, t)))
  }

  /** `if_goto` always takes exactly one element off a non-empty stack; it
      jumps as `goto` does to the stripped name exactly when the popped text
      has a second character that is not whitespace; otherwise it completes
      without moving `pc` or raises. */
  lemma IfGotoFacts(symbols: map<string, int>, s: State, name: string)
    ensures var r := AfterIfGoto(symbols, s, name);
            && (|s.stack| == 0 <==> r == Fail(IndexError, s))
            && (|s.stack| > 0 ==>
                  var top := s.stack[|s.stack| - 1];
                  var t := s.(stack := s.stack[..|s.stack| - 1]);
                  && r.st.stack == t.stack && r.st.sp == s.sp && r.st.lcl == s.lcl && r.st.dicts == s.dicts
                  && (top.Frame? ==> r == Fail(TypeError, t))
                  && (top.Text? && |top.s| < 2 ==> r == Fail(IndexError, t))
                  && (top.Text? && |top.s| >= 2 && !IsSpace(top.s[1]) ==> r == AfterGoto(symbols, t, name))
                  && (top.Text? && |top.s| >= 2 && IsSpace(top.s[1]) ==> r == Ok(t)))
  {
    if |s.stack| > 0 {
      var top := s.stack[|s.stack| - 1];
      StripIdempotent(name);
      if top.Text? && |top.s| >= 2 {
        JumpIffSecondNotSpace(top.s[1]);
      }
    }
  }

  /** A one-character string strips to nothing exactly when it is whitespace. */
  lemma JumpIffSecondNotSpace(c: char)
    ensures Strip([c]) != "" <==> !IsSpace(c)
  {
    if IsSpace(c) {
      assert LStrip([c]) == LStrip([]);
    } else {
      LStripNoSpace([c]);
      RStripNoSpace([c]);
    }
  }

  /** `if-goto` jumps on `"True\n"` and on `"False\n"` alike: both have a
      letter at index 1. */
  lemma IfGotoJumpsOnBoth(symbols: map<string, int>, s: State, name: string)
    requires |s.stack| > 0 && s.stack[|s.stack| - 1] in {Text("True\n"), Text("False\n")}
    ensures AfterIfGoto(symbols, s, name) == AfterGoto(symbols, s.(stack := s.stack[..|s.stack| - 1]), name)
  {
    IfGotoFacts(symbols, s, name);
    assert !IsSpace('r') && !IsSpace('a');
  }

  /** How many arguments `call` takes: a count string other than `*` or
      digits is an assertion failure; a count `n` with `0 < n <= len(stack)`
      takes the top `n` entries; `*` takes everything above the current
      frame, but when nothing is above the frame that count is 0; and a
      count of 0 takes the whole stack, frame or base included. */
  lemma CallCount(p: Program, prims: Prims, s: State, fct: string, nargs: string)
    ensures var r := AfterCall(p, prims, s, fct, nargs);
            (r.Fail? && r.kind == AssertionError) <==> !CountOk(Strip(nargs))
    ensures var t := Strip(nargs);
            var k := TailStart(|s.stack|, if CountOk(t) then NArgs(s, t) else 0);
            CountOk(t) ==>
              && AfterCall(p, prims, s, fct, nargs) == Invoke(p.symbols, prims, s, fct, k)
              && (IsDigit(t) && 0 < DigitsValue(t) <= |s.stack| ==> k == |s.stack| - DigitsValue(t))
              && (IsDigit(t) && DigitsValue(t) == 0 ==> k == 0)
              && (t == "*" && s.sp + 1 < |s.stack| ==> k == s.sp + 1)
              && (t == "*" && s.sp + 1 == |s.stack| ==> k == 0)
  {
    var t := Strip(nargs);
    if CountOk(t) {
      var k := TailStart(|s.stack|, NArgs(s, t));
      var r := Invoke(p.symbols, prims, s, fct, k);
      if fct in prims.names {
        PrimitiveNet(p.symbols, prims, s, fct, k);
      } else {
        CallFrame(p.symbols, prims, s, fct, k);
      }
      assert !(r.Fail? && r.kind == AssertionError);
    }
  }

  /** `call f 0` does not call `f` with no arguments: `stack[-0:]` is the
      whole stack, so every entry, base included, is passed to `f` and the
      caller's frame ends up at the bottom. */
  lemma CallZeroTakesWholeStack(p: Program, prims: Prims, s: State, fct: string, nargs: string)
    requires Strip(nargs) == "0"
    ensures AfterCall(p, prims, s, fct, nargs) == Invoke(p.symbols, prims, s, fct, 0)
    ensures fct !in prims.names ==>
              AfterCall(p, prims, s, fct, nargs).st.stack == [Frame(fct, s.sp, s.pc, |s.dicts|)] + s.stack
  {
    assert IsDigit("0") && DigitsValue("0") == 0 by {
      assert "0"[..0] == "";
    }
    if fct !in prims.names {
      CallFrame(p.symbols, prims, s, fct, 0);
    }
  }

  // ----- the dispatcher (main, lines 236-271) -----

  /** The case of `match cmd` a command selects. */
  function Command(cmd: string): Op {
    if cmd == "push" then PushOp
    else if cmd == "pop" then PopOp
    else if cmd == "dup" then DupOp
    else if cmd == "goto" then GotoOp
    else if cmd == "if-goto" then IfGotoOp
    else if cmd == "call" then CallOp
    else if cmd == "return" then ReturnOp
    else if cmd == "exit" then ExitOp
    else OtherOp
  }

  /** How the dispatcher reads a line: `cmd, arg = line.split(" ", 1)` (a
      line without a space is the command alone), then `match cmd`; a
      command that matches no case is called as a function with `arg` as its
      count. */
  function Decode(line: string): Instr {
    var (cmd, arg) := CmdArg(line);
    match Command(cmd)
    case PushOp => PushText(arg)
    case PopOp =>
      (match SplitOnce(arg)
       case Some((x, n)) => PopInto(x, Str(n))
       case None => PopInto(arg, Int(1)))
    case DupOp => DupTop(Str(arg))
    case GotoOp => GotoLabel(arg)
    case IfGotoOp => IfGotoLabel(arg)
    case CallOp =>
      (match SplitOnce(arg)
       case None => BadCall
       case Some((f, n)) => CallFn(f, n))
    case ReturnOp => ReturnFn
    case ExitOp => ExitProgram
    case OtherOp => CallFn(cmd, arg)
  }

  /** Running one decoded line: `pc` moves on by one unless the instruction
      raised or was `exit`, which sets `pc` to -1. The key of `pop` is used
      as written, without stripping. */
  function Execute(p: Program, prims: Prims, s: State, ins: Instr): Step {
    match ins
    case PushText(x) => Next(AfterPush(s, Text(x)).(pc := s.pc + 1))
    case PopInto(x, n) => Advance(AfterPop(s, x, n))
    case DupTop(n) => Advance(AfterDup(s, n))
    case GotoLabel(name) => Advance(AfterGoto(p.symbols, s, name))
    case IfGotoLabel(name) => Advance(AfterIfGoto(p.symbols, s, name))
    case CallFn(f, n) => Advance(AfterCall(p, prims, s, f, n))
    case ReturnFn => Advance(AfterReturn(s))
    case ExitProgram => Halted(s.(pc := -1))
    case BadCall => Crashed(ValueError, s)
  }

  /** Every line of the program decoded. The dispatcher splits `lines[pc]`
      afresh on each pass; decoding is a function of the line alone, so each
      pass sees the instruction at `pc` in this sequence. */
  function DecodeAll(lines: seq<string>): seq<Instr> {
    seq(|lines|, i requires 0 <= i < |lines| => Decode(lines[i]))
  }

  /** `code` is the decoded form of `lines`. */
  ghost predicate Decodes(code: seq<Instr>, lines: seq<string>) {
    |code| == |lines| && forall i {:trigger Decode(lines[i])} :: 0 <= i < |lines| ==> code[i] == Decode(lines[i])
  }

  /** One pass of the `while pc >= 0` loop: fetch `lines[pc]` (outside the
      list this raises `IndexError`) and run what it decodes to. */
  function AfterStep(code: seq<Instr>, p: Program, prims: Prims, s: State): Step {
    match ListIndex(|code|, s.pc)
    case None => Crashed(IndexError, s)
    case Some(at) => Execute(p, prims, s, code[at])
  }

  /** The body of the dispatcher loop, as the step of `AfterRun`. */
  function Dispatch(code: seq<Instr>, p: Program, prims: Prims): State -> Step {
    s => AfterStep(code, p, prims, s)
  }

  // ----- properties of the dispatcher -----

  /** `push text` pushes the raw text, newline included; `> text` is no
      push in this dialect but a call of a function named `>`. */
  lemma DecodePush(x: string)
    ensures Decode("push " + x) == PushText(x)
    ensures Decode("> " + x) == CallFn(">", x)
  {
    SplitOnceOf("push", x);
    assert "push " + x == "push" + " " + x;
    SplitOnceOf(">", x);
    assert "> " + x == ">" + " " + x;
  }

  /** `call f n` calls `f` with count text `n`; a `call` whose argument has
      no space cannot be unpacked into a name and a count. */
  lemma DecodeCall(f: string, n: string)
    requires ' ' !in f
    ensures Decode("call " + f + " " + n) == CallFn(f, n)
    ensures Decode("call " + f) == BadCall
  {
    var arg := f + " " + n;
    SplitOnceOf("call", arg);
    assert "call " + f + " " + n == "call" + " " + arg;
    SplitOnceOf(f, n);
    SplitOnceOf("call", f);
    assert "call " + f == "call" + " " + f;
    SplitOnceFacts(f);
  }

  /** `pop x n` passes the count as text; `pop x` uses the default count 1
      and keeps the whole rest of the line, newline included, as the key. */
  lemma DecodePop(x: string, n: string)
    requires ' ' !in x
    ensures Decode("pop " + x + " " + n) == PopInto(x, Str(n))
    ensures Decode("pop " + x) == PopInto(x, Int(1))
  {
    var arg := x + " " + n;
    SplitOnceOf("pop", arg);
    assert "pop " + x + " " + n == "pop" + " " + arg;
    SplitOnceOf(x, n);
    SplitOnceOf("pop", x);
    assert "pop " + x == "pop" + " " + x;
    SplitOnceFacts(x);
  }

  /** A first word that is no keyword is called as a function, with the rest
      of the line as its count text. */
  lemma DecodeOther(cmd: string, arg: string)
    requires ' ' !in cmd && Command(cmd) == OtherOp
    ensures Decode(cmd + " " + arg) == CallFn(cmd, arg)
  {
    SplitOnceOf(cmd, arg);
  }

  /** `pop x` on its own line stores under the key `x` followed by the
      newline, which `push x` never finds, since `push` strips the name it
      looks up: unless `x` was already a local, the text itself is pushed. */
  lemma PopThenPushMisses(s: State, x: string)
    requires NoSpace(x) && x !in Live(s)
    ensures Decode("pop " + x + "\n") == PopInto(x + "\n", Int(1))
    ensures var t := AfterPop(s, x + "\n", Int(1)).st;
            && x + "\n" in Live(t)
            && AfterPush(t, Text(x + "\n")) == t.(stack := t.stack + [Text(x + "\n")])
  {
    var key := x + "\n";
    assert ' ' !in key by {
      assert forall i :: 0 <= i < |x| ==> !IsSpace(x[i]);
    }
    SplitOnceFacts(key);
    assert "pop " + x + "\n" == "pop" + " " + key;
    SplitOnceOf("pop", key);
    StripLine(x);
    assert x != key by {
      assert |x| != |key|;
    }
  }

  /** Instructions that do not jump move `pc` on by exactly one when they
      complete, and leave it alone when they raise; a primitive call counts
      among them, since its frame is gone again before the step ends. */
  lemma NonJumpingAdvance(p: Program, prims: Prims, s: State, ins: Instr)
    requires || ins.PushText? || ins.PopInto? || ins.DupTop?
             || (ins.CallFn? && ins.fct in prims.names)
             || (ins.IfGotoLabel? && |s.stack| > 0 && s.stack[|s.stack| - 1].Text?
                 && |s.stack[|s.stack| - 1].s| >= 2 && IsSpace(s.stack[|s.stack| - 1].s[1]))
    ensures var r := Execute(p, prims, s, ins);
            && (r.Next? ==> r.st.pc == s.pc + 1)
            && (r.Crashed? ==> r.st.pc == s.pc)
            && !r.Halted?
  {
    match ins
    case PushText(x) => PushFacts(s, Text(x));
    case PopInto(x, n) => PopFacts(s, x, n);
    case DupTop(n) => DupFacts(s, n);
    case CallFn(f, n) =>
      var t := Strip(n);
      if CountOk(t) {
        PrimitiveNet(p.symbols, prims, s, f, TailStart(|s.stack|, NArgs(s, t)));
      }
    case IfGotoLabel(name) => IfGotoFacts(p.symbols, s, name);
  }

  /** `exit` sets `pc` to -1 and ends the run with everything else as it was. */
  lemma ExitStops(code: seq<Instr>, p: Program, prims: Prims, s: State, fuel: nat)
    requires 0 <= s.pc < |code| && code[s.pc] == ExitProgram && fuel > 0
    ensures AfterStep(code, p, prims, s) == Halted(s.(pc := -1))
    ensures AfterRun(Dispatch(code, p, prims), s, fuel) == Run(Exited, s.(pc := -1))
  {
  }

  /** Calling a function whose first line is `return`: two passes of the
      loop bring back the caller's globals, with `pc` on the line after the
      call. */
  lemma CallReturnRoundTrip(code: seq<Instr>, p: Program, prims: Prims, s: State)
    requires 0 <= s.pc < |code| && code[s.pc].CallFn?
    requires var f := code[s.pc].fct;
             && CountOk(Strip(code[s.pc].nargs)) && f !in prims.names && Strip(f) in p.symbols
             && 0 <= p.symbols[Strip(f)] < |code| && code[p.symbols[Strip(f)]] == ReturnFn
    ensures AfterStep(code, p, prims, s).Next?
    ensures AfterStep(code, p, prims, AfterStep(code, p, prims, s).st)
            == Next(s.(pc := s.pc + 1, lcl := |s.dicts|, dicts := s.dicts + [Live(s), map[]]))
    ensures Live(AfterStep(code, p, prims, AfterStep(code, p, prims, s).st).st) == Live(s)
  {
    var f, n := code[s.pc].fct, code[s.pc].nargs;
    var k := TailStart(|s.stack|, NArgs(s, Strip(n)));
    CallThenReturn(p.symbols, prims, s, f, k);
    var c := Invoke(p.symbols, prims, s, f, k).st;
    assert AfterStep(code, p, prims, s) == Next(c.(pc := c.pc + 1));
    CallFrame(p.symbols, prims, s, f, k);
    assert AfterReturn(c.(pc := c.pc + 1)) == AfterReturn(c);
  }

  /** The text at the bottom of the stack before the program starts. */
  const Base := "- BASE -------------------------------------------\n"

  /** The interpreter's globals at start-up: the stack holds only the base
      text, `sp == 0` points at it, `pc == 0`, and `lcl` the one, empty,
      dictionary. */
  const Initial := State([Text(Base)], 0, 0, 0, [map[]])

  /** The base is not a frame, so `return` at top level raises `ValueError`
      after removing it: the stack is left empty. */
  lemma TopLevelReturnFails()
    ensures AfterReturn(Initial) == Fail(ValueError, Initial.(stack := []))
  {
    assert |Base| != 4;
  }

  /** `pop x *` at top level takes everything above the base and leaves the
      base; with nothing above it, the count is 0 and `stack[-0:]` takes the
      whole stack, base included. */
  lemma PopStarAtTop(above: seq<Entry>, pc: int, lcl: Ref, dicts: seq<Locals>, key: string)
    ensures var s := State([Text(Base)] + above, 0, pc, lcl, dicts);
            var r := AfterPop(s, key, Str("*"));
            && r.Ok?
            && (above != [] ==> r.st.stack == [Text(Base)] && Live(r.st) == Live(s)[key := above])
            && (above == [] ==> r.st.stack == [] && Live(r.st) == Live(s)[key := [Text(Base)]])
  {
    assert Strip("*") == "*" by {
      StripNoSpace("*");
    }
    var st := [Text(Base)] + above;
    assert st[..1] == [Text(Base)] && st[1..] == above;
    if above == [] {
      assert st == [Text(Base)] && st[0..] == st;
    }
  }

  // ----- the interpreter: the module's globals, updated in place -----

  class Interpreter {
    var stack: seq<Entry>
    var sp: nat
    var pc: int
    var lcl: Ref
    var dicts: seq<Locals>
    const program: Program
    const prims: Prims
    /** The program's lines as the dispatcher decodes them. */
    ghost const code: seq<Instr>
    /** One pass of the dispatcher loop over this program. */
    ghost const step: State -> Step

    /** `code` decodes the program, and `step` is one pass of the dispatcher
        loop over it. */
    ghost predicate Valid() {
      && Decodes(code, program.lines)
      && forall s {:trigger AfterStep(code, program, prims, s)} :: step(s) == AfterStep(code, program, prims, s)
    }

    function Globals(): State
      reads this
    {
      State(stack, sp, pc, lcl, dicts)
    }

    constructor (program: Program, prims: Prims)
      ensures Globals() == Initial
      ensures this.program == program && this.prims == prims
      ensures Valid() && step == Dispatch(code, program, prims)
    {
      stack, sp, pc, lcl, dicts := [Text(Base)], 0, 0, 0, [map[]];
      this.program := program;
      this.prims := prims;
      code := DecodeAll(program.lines);
      step := Dispatch(DecodeAll(program.lines), program, prims);
    }

    method Push(x: Entry)
      modifies this
      ensures Globals() == AfterPush(old(Globals()), x)
    {
      if x.Frame? {
        stack := stack + [x];
        return;
      }
      var key := Strip(x.s);
      var locals := Dict(dicts, lcl);
      if key in locals {
        stack := stack + locals[key];
        return;
      }
      stack := stack + [x];
    }

    method Pop(x: string, n: Count) returns (raised: Option<ErrorKind>)
      modifies this
      ensures Globals() == AfterPop(old(Globals()), x, n).st
      ensures raised == Raised(AfterPop(old(Globals()), x, n))
    {
      var count := if n.Str? then Str(Strip(n.s)) else n;
      var k: int;
      if count == Str("*") {
        k := |stack| - (sp + 1);
      } else if count.Str? {
        if !IsDigit(count.s) {
          return Some(AssertionError);
        }
        return Some(TypeError);  // the digit string is never converted: -n fails
      } else {
        k := count.n;
      }
      var start := TailStart(|stack|, k);
      var popped := stack[start..];
      stack := stack[..start];
      dicts := Assign(dicts, lcl, Dict(dicts, lcl)[x := popped]);
      raised := None;
    }

    method Dup(n: Count) returns (raised: Option<ErrorKind>)
      modifies this
      ensures Globals() == AfterDup(old(Globals()), n).st
      ensures raised == Raised(AfterDup(old(Globals()), n))
    {
      var k: int;
      if n == Str("*") {
        k := |stack| - 1 - sp;
      } else if n.Str? {
        return Some(TypeError);
      } else {
        k := n.n;
      }
      stack := stack + stack[TailStart(|stack|, k)..];
      raised := None;
    }

    method Goto(name: string) returns (raised: Option<ErrorKind>)
      modifies this
      ensures Globals() == AfterGoto(program.symbols, old(Globals()), name).st
      ensures raised == Raised(AfterGoto(program.symbols, old(Globals()), name))
    {
      var key := Strip(name);
      if key !in program.symbols {
        return Some(KeyError);
      }
      pc := program.symbols[key] - 1;
      raised := None;
    }

    method IfGoto(name: string) returns (raised: Option<ErrorKind>)
      modifies this
      ensures Globals() == AfterIfGoto(program.symbols, old(Globals()), name).st
      ensures raised == Raised(AfterIfGoto(program.symbols, old(Globals()), name))
    {
      var symbol := Strip(name);
      if |stack| == 0 {
        return Some(IndexError);
      }
      var top := stack[|stack| - 1];
      stack := stack[..|stack| - 1];
      if top.Frame? {
        return Some(TypeError);
      }
      if |top.s| < 2 {
        return Some(IndexError);
      }
      if Strip([top.s[1]]) != "" {
        raised := Goto(symbol);
      } else {
        raised := None;
      }
    }

    method Return() returns (raised: Option<ErrorKind>)
      modifies this
      ensures Globals() == AfterReturn(old(Globals())).st
      ensures raised == Raised(AfterReturn(old(Globals())))
    {
      if sp >= |stack| {
        return Some(IndexError);
      }
      var e := stack[sp];
      stack := stack[..sp] + stack[sp + 1..];
      match e {
        case Frame(_, fsp, fpc, flcl) =>
          sp, pc, lcl := fsp, fpc, flcl;
          raised := None;
        case Text(t) =>
          raised := Some(if |t| == 4 then TypeError else ValueError);
      }
    }

    method Call(fct: string, nargs: string) returns (raised: Option<ErrorKind>)
      modifies this
      ensures Globals() == AfterCall(program, prims, old(Globals()), fct, nargs).st
      ensures raised == Raised(AfterCall(program, prims, old(Globals()), fct, nargs))
    {
      ghost var s := Globals();
      var t := Strip(nargs);
      var n: int;
      if t == "*" {
        n := |stack| - (sp + 1);
      } else {
        if !IsDigit(t) {
          return Some(AssertionError);
        }
        n := DigitsValue(t);
      }
      var k := TailStart(|stack|, n);
      var arg := stack[k..];
      stack := stack[..k];
      var copy := |dicts|;
      dicts := dicts + [Dict(dicts, lcl)];  // lcl.copy()
      ghost var framed := s.stack[..k] + [Frame(fct, s.sp, s.pc, copy)];
      assert n == NArgs(s, t);
      Push(Frame(fct, sp, pc, copy));
      sp := |stack| - 1;
      assert Globals() == State(framed, k, s.pc, s.lcl, s.dicts + [Live(s)]);
      if fct in prims.names {
        var result := prims.apply(fct, arg);
        match result {
          case Many(items) => stack := stack + items;
          case One(e) => stack := stack + [e];
        }
        assert Globals() == State(framed + Spread(result), k, s.pc, s.lcl, s.dicts + [Live(s)]);
        raised := Return();
        return;
      }
      stack := stack + arg;
      lcl := |dicts|;  // lcl = {}
      dicts := dicts + [map[]];
      assert Globals() == State(framed + arg, k, s.pc, copy + 1, s.dicts + [Live(s), map[]]);
      raised := Goto(fct);
    }

    /** One pass of the dispatcher loop. */
    method Step() returns (signal: Signal)
      requires Valid()
      modifies this
      ensures Globals() == step(old(Globals())).st
      ensures signal == SignalOf(step(old(Globals())))
    {
      assert step(Globals()) == AfterStep(code, program, prims, Globals());
      var at := ListIndex(|program.lines|, pc);
      if at.None? {
        return Raise(IndexError);
      }
      var ins := Decode(program.lines[at.value]);
      assert ins == code[at.value];
      var raised: Option<ErrorKind> := None;
      match ins {
        case PushText(x) => Push(Text(x));
        case PopInto(x, n) => raised := Pop(x, n);
        case DupTop(n) => raised := Dup(n);
        case GotoLabel(name) => raised := Goto(name);
        case IfGotoLabel(name) => raised := IfGoto(name);
        case CallFn(f, n) => raised := Call(f, n);
        case ReturnFn => raised := Return();
        case ExitProgram =>
          pc := -1;
          return Exit;
        case BadCall => return Raise(ValueError);
      }
      if raised.Some? {
        return Raise(raised.value);
      }
      pc := pc + 1;
      signal := Continue;
    }

    /** The dispatcher loop, for at most `fuel` passes. */
    method Run(fuel: nat) returns (how: Halt)
      requires Valid()
      modifies this
      ensures Globals() == AfterRun(step, old(Globals()), fuel).st
      ensures how == AfterRun(step, old(Globals()), fuel).how
    {
      var left := fuel;
      while pc >= 0
        invariant AfterRun(step, Globals(), left) == AfterRun(step, old(Globals()), fuel)
        decreases left
      {
        if left == 0 {
          return OutOfFuel;
        }
        RunStep(step, Globals(), left);
        var signal := Step();
        match signal {
          case Exit => return Exited;
          case Raise(k) => return Stopped(k);
          case Continue =>
        }
        left := left - 1;
      }
      how := Exited;
    }
  }
}

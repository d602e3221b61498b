/** What the two interpreters share: the objects on the value stack, the
    interpreter's global state, the outcome of one instruction, and the
    instructions whose code is the same in silas.py and vm.py (`push`, the
    body of `pop` after the key is chosen, `dup`, `goto`, `return_ctrl`, and
    the split of a line into command and argument). */
module Runtime {
  import opened Py

  /** An element of the value stack: a text line (usually with its `"\n"`) or
      a call `Frame(fct, sp, pc, lcl)` holding the caller's frame pointer,
      program counter and the dictionary `lcl.copy()` made at the call. */
  datatype Entry =
    | Text(s: string)
    | Frame(fct: string, sp: nat, pc: int, lcl: Ref)

  /** A dictionary of local variables: each name holds the list a `pop`
      stored under it (nothing else ever writes into a dictionary). */
  type Locals = map<string, seq<Entry>>

  /** Python dictionaries are objects: the globals `lcl` and every frame
      refer to one by its index in the store of all dictionaries the run has
      made, so a dictionary two places refer to is one dictionary. */
  type Ref = nat

  /** The dictionary `r` names; one the store does not hold yet is empty. */
  function Dict(dicts: seq<Locals>, r: Ref): Locals {
    if r < |dicts| then dicts[r] else map[]
  }

  /** `d[key] = v` done in place on dictionary `r`: every place that refers
      to `r` sees the new entry, and no other dictionary changes. */
  function Assign(dicts: seq<Locals>, r: Ref, m: Locals): seq<Locals> {
    if r < |dicts| then dicts[r := m]
    else dicts + seq(r - |dicts|, _ => map[]) + [m]
  }

  /** Writing one dictionary leaves every other as it was, and none is lost. */
  lemma AssignFacts(dicts: seq<Locals>, r: Ref, m: Locals)
    ensures |Assign(dicts, r, m)| >= |dicts| && r < |Assign(dicts, r, m)|
    ensures Dict(Assign(dicts, r, m), r) == m
    ensures forall q: Ref :: q != r ==> Dict(Assign(dicts, r, m), q) == Dict(dicts, q)
  {
    var d := Assign(dicts, r, m);
    if r >= |dicts| {
      assert |d| == r + 1;
      forall q: Ref | q != r
        ensures Dict(d, q) == Dict(dicts, q)
      {
        if |dicts| <= q < |d| {
          assert d[q] == seq(r - |dicts|, _ => map[])[q - |dicts|];
        } else if q < |dicts| {
          assert d[q] == dicts[q];
        }
      }
    }
  }

  /** What a primitive returns: a list (or tuple), spliced onto the stack, or
      a single object, appended. */
  datatype Val = Many(items: seq<Entry>) | One(item: Entry)

  /** What `stack += v` (for a list) or `stack.append(v)` adds. */
  function Spread(v: Val): seq<Entry> {
    match v
    case Many(items) => items
    case One(e) => [e]
  }

  /** The Python exceptions an instruction can raise. */
  datatype ErrorKind = KeyError | IndexError | TypeError | ValueError | AssertionError

  /** A count argument: Python passes either an `int` or a `str`. */
  datatype Count = Int(n: int) | Str(s: string)

  /** The globals an instruction updates: `stack`, `sp` (index of the current
      frame), `pc` and `lcl` (which dictionary is the current one), with the
      store of dictionaries. */
  datatype State = State(stack: seq<Entry>, sp: nat, pc: int, lcl: Ref, dicts: seq<Locals>)

  /** The current local variables, `lcl` itself. */
  function Live(s: State): Locals {
    Dict(s.dicts, s.lcl)
  }

  /** The globals fixed before the run: the program's lines and its symbol
      table (name -> line index). */
  datatype Program = Program(lines: seq<string>, symbols: map<string, int>)

  /** The primitive registry: the names it holds and what calling each one
      returns for an argument list. The functions themselves are not part of
      this model, so `apply` is any function at all. */
  datatype Prims = Prims(names: set<string>, apply: (string, seq<Entry>) -> Val)

  /** One instruction's effect: it completed, or it raised with the globals
      as the exception left them. */
  datatype Result = Ok(st: State) | Fail(kind: ErrorKind, st: State)

  function Raised(r: Result): Option<ErrorKind> {
    if r.Fail? then Some(r.kind) else None
  }

  /** One pass of the dispatcher loop: it goes on with the next `pc`, it
      executed `exit`, or it raised. */
  datatype Step = Next(st: State) | Halted(st: State) | Crashed(kind: ErrorKind, st: State)

  /** The signal a `Step` gives the loop, without the state. */
  datatype Signal = Continue | Exit | Raise(kind: ErrorKind)

  function SignalOf(r: Step): Signal {
    match r
    case Next(_) => Continue
    case Halted(_) => Exit
    case Crashed(k, _) => Raise(k)
  }

  /** How a bounded run ended: `pc` went negative (`exit`), an exception, or
      the step budget ran out while the loop was still going. */
  datatype Halt = Exited | Stopped(kind: ErrorKind) | OutOfFuel

  datatype Run = Run(how: Halt, st: State)

  /** The `pc += 1` after an instruction that completed. */
  function Advance(r: Result): (s: Step)
    ensures r.Ok? ==> s == Next(r.st.(pc := r.st.pc + 1))
    ensures r.Fail? ==> s == Crashed(r.kind, r.st)
  {
    match r
    case Ok(t) => Next(t.(pc := t.pc + 1))
    case Fail(k, t) => Crashed(k, t)
  }

  /** The cases of the dispatcher's `match cmd`: the push keyword (`>` in
      silas.py, `push` in vm.py), `pop`, `dup`, `goto`, `if-goto`, `call`,
      `return`, `exit`, and the fallback `case _`. */
  datatype Op = PushOp | PopOp | DupOp | GotoOp | IfGotoOp | CallOp | ReturnOp | ExitOp | OtherOp

  /** What a program line asks the dispatcher to do, with its operands as the
      dispatcher passes them on; `BadCall` is a `call` line whose argument
      has no space, so unpacking its split raises `ValueError`. */
  datatype Instr =
    | PushText(arg: string)
    | PopInto(key: string, count: Count)
    | DupTop(count: Count)
    | GotoLabel(name: string)
    | IfGotoLabel(name: string)
    | CallFn(fct: string, nargs: string)
    | ReturnFn
    | ExitProgram
    | BadCall

  /** `line.split(" ", 1)` in the dispatcher: the command before the first
      space and the rest of the line, or the whole line stripped and `""`. */
  function CmdArg(line: string): (string, string) {
    match SplitOnce(line)
    case None => (Strip(line), "")
    case Some((cmd, arg)) => (cmd, arg)
  }

  /** `push(x)`: a frame is appended as it is; a text whose stripped form
      names a local splices that local's list onto the stack, in order; any
      other text is appended raw, newline included. */
  function AfterPush(s: State, x: Entry): State {
    if x.Text? && Strip(x.s) in Live(s) then s.(stack := s.stack + Live(s)[Strip(x.s)])
    else s.(stack := s.stack + [x])
  }

  /** The body of `pop` once the destination key is chosen: a count string is
      stripped; `"*"` means everything above the current frame, that is
      `len(stack) - (sp + 1)`; any other string fails the `isdigit`
      assertion or, if it passes, the slice (a `str` cannot be negated); an
      integer `n` moves `stack[-n:]`, in order, into `lcl[key]` as a list. */
  function AfterPop(s: State, key: string, n: Count): Result {
    var n' := if n.Str? then Str(Strip(n.s)) else n;
    if n' == Str("*") then Ok(Move(s, key, |s.stack| - (s.sp + 1)))
    else if n'.Str? then Fail(if IsDigit(n'.s) then TypeError else AssertionError, s)
    else Ok(Move(s, key, n'.n))
  }

  /** `popped = stack[-n:]; del stack[-n:]; lcl[key] = popped`, the last
      step writing into the current dictionary itself. */
  function Move(s: State, key: string, n: int): State {
    var k := TailStart(|s.stack|, n);
    s.(stack := s.stack[..k], dicts := Assign(s.dicts, s.lcl, Live(s)[key := s.stack[k..]]))
  }

  /** `dup(n)`: `"*"` means everything above the current frame; any other
      string cannot be negated for the slice; an integer `n` appends a copy of
      `stack[-n:]` and leaves the originals in place. */
  function AfterDup(s: State, n: Count): Result {
    if n == Str("*") then Ok(Copy(s, |s.stack| - 1 - s.sp))
    else if n.Str? then Fail(TypeError, s)
    else Ok(Copy(s, n.n))
  }

  /** `stack += stack[-n:]`. */
  function Copy(s: State, n: int): State {
    s.(stack := s.stack + s.stack[TailStart(|s.stack|, n)..])
  }

  /** `goto(symbol)`: the stripped name must be in the symbol table (else
      `KeyError`); `pc` is set one line before its target, because the
      dispatcher increments `pc` after every instruction. */
  function AfterGoto(symbols: map<string, int>, s: State, name: string): Result {
    var key := Strip(name);
    if key in symbols then Ok(s.(pc := symbols[key] - 1)) else Fail(KeyError, s)
  }

  /** `_, sp, pc, lcl = stack.pop(sp)`: removes exactly the element at index
      `sp` and restores `sp`, `pc` and `lcl` from it; `lcl` becomes the
      frame's own dictionary, not a copy of it. An index past the end
      raises `IndexError`. A text in that place cannot be unpacked into four
      names (`ValueError`) unless it has exactly four characters, in which
      case the unpacking succeeds with characters and the following
      `pc += 1` raises `TypeError`; either way the run ends, and the model
      keeps `sp`, `pc` and `lcl` as they were. */
  function AfterReturn(s: State): Result {
    if s.sp >= |s.stack| then Fail(IndexError, s)
    else
      var rest := s.stack[..s.sp] + s.stack[s.sp + 1..];
      match s.stack[s.sp]
      case Frame(_, sp, pc, lcl) => Ok(State(rest, sp, pc, lcl, s.dicts))
      case Text(t) => Fail(if |t| == 4 then TypeError else ValueError, s.(stack := rest))
  }

  /** A call's stripped count is usable: `*` or a digit string (anything
      else fails the `isdigit` assertion). */
  predicate CountOk(t: string) {
    t == "*" || IsDigit(t)
  }

  /** The argument count of `call`: `*` is everything above the current frame
      (`len(stack) - (sp + 1)`), otherwise `int(nargs)`. */
  function NArgs(s: State, t: string): int
    requires CountOk(t)
  {
    if t == "*" then |s.stack| - (s.sp + 1) else DigitsValue(t)
  }

  /** The rest of `call` once the arguments `stack[k:]` are taken off: push
      `Frame(fct, sp, pc, lcl.copy())`, the copy a new dictionary at the end
      of the store, and make it the current frame (`sp = len(stack) - 1`,
      which is `k`). A primitive's result goes on top and `return_ctrl`
      removes the frame at once, so the copy becomes the current dictionary;
      otherwise the arguments go back above the frame, `lcl = {}` makes a
      second new, empty dictionary the current one, and control jumps to the
      function by `goto`, so an unknown name raises `KeyError`. */
  function Invoke(symbols: map<string, int>, prims: Prims, s: State, fct: string, k: nat): Result
    requires k <= |s.stack|
  {
    var arg := s.stack[k..];
    var copy := |s.dicts|;
    var framed := s.stack[..k] + [Frame(fct, s.sp, s.pc, copy)];
    var dicts := s.dicts + [Live(s)];
    if fct in prims.names then
      AfterReturn(State(framed + Spread(prims.apply(fct, arg)), k, s.pc, s.lcl, dicts))
    else
      AfterGoto(symbols, State(framed + arg, k, s.pc, copy + 1, dicts + [map[]]), fct)
  }

  /** The dispatcher loop `while pc >= 0`, for at most `fuel` passes, where
      `step` is one pass of its body: `exit` and an exception end the run,
      anything else goes round again. */
  function AfterRun(step: State -> Step, s: State, fuel: nat): Run
    decreases fuel
  {
    if s.pc < 0 then Run(Exited, s)
    else if fuel == 0 then Run(OutOfFuel, s)
    else match step(s)
      case Halted(t) => Run(Exited, t)
      case Crashed(k, t) => Run(Stopped(k), t)
      case Next(t) => AfterRun(step, t, fuel - 1)
  }

  /** One turn of the dispatcher loop, seen from the bounded run. */
  lemma RunStep(step: State -> Step, s: State, fuel: nat)
    requires s.pc >= 0 && fuel > 0
    ensures var r := step(s);
            && (r.Halted? ==> AfterRun(step, s, fuel) == Run(Exited, r.st))
            && (r.Crashed? ==> AfterRun(step, s, fuel) == Run(Stopped(r.kind), r.st))
            && (r.Next? ==> AfterRun(step, s, fuel) == AfterRun(step, r.st, fuel - 1))
  {
  }

  /** A run that has ended (by `exit` or an exception) within `fuel` passes
      ends the same way, in the same state, with any larger budget: the
      budget only cuts off runs that are still going. */
  lemma {:induction false} RunMoreFuel(step: State -> Step, s: State, fuel: nat, extra: nat)
    requires AfterRun(step, s, fuel).how != OutOfFuel
    ensures AfterRun(step, s, fuel + extra) == AfterRun(step, s, fuel)
    decreases fuel
  {
    if s.pc >= 0 && fuel > 0 && step(s).Next? {
      RunMoreFuel(step, step(s).st, fuel - 1, extra);
      assert fuel + extra - 1 == fuel - 1 + extra;
    }
  }

  // ----- properties of the shared instructions -----

  /** `push` only adds on top: the old stack is a prefix of the new one, the
      added entries are the local the text names or else the entry itself,
      and `sp`, `pc`, `lcl` and every dictionary do not change. */
  lemma PushFacts(s: State, x: Entry)
    ensures var r := AfterPush(s, x);
            && r.sp == s.sp && r.pc == s.pc && r.lcl == s.lcl && r.dicts == s.dicts
            && |s.stack| <= |r.stack| && r.stack[..|s.stack|] == s.stack
            && r.stack[|s.stack|..]
               == if x.Text? && Strip(x.s) in Live(s) then Live(s)[Strip(x.s)] else [x]
  {
    var r := AfterPush(s, x);
    assert r.stack[..|s.stack|] == s.stack;
  }

  /** `pop` loses nothing: what stays on the stack followed by the list stored
      under the key is the old stack. The list goes into the current
      dictionary, under the key and nowhere else, and no other dictionary
      changes. A count of `n` (with `0 < n <= len`) shrinks the stack by
      `n`; `*` leaves the stack up to and including the current frame; a
      count string other than `*` always raises. */
  lemma PopFacts(s: State, key: string, n: Count)
    ensures var r := AfterPop(s, key, n);
            && (r.Ok? <==> n.Int? || Strip(n.s) == "*")
            && (r.Fail? ==> r.st == s)
            && (r.Fail? ==> r.kind == if IsDigit(Strip(n.s)) then TypeError else AssertionError)
            && (r.Ok? ==> && key in Live(r.st)
                          && r.st.stack + Live(r.st)[key] == s.stack
                          && Live(r.st) == Live(s)[key := Live(r.st)[key]]
                          && r.st.sp == s.sp && r.st.pc == s.pc && r.st.lcl == s.lcl
                          && forall q: Ref :: q != s.lcl ==> Dict(r.st.dicts, q) == Dict(s.dicts, q))
            && (n.Int? && 0 < n.n <= |s.stack| ==> |r.st.stack| == |s.stack| - n.n)
            && (n.Str? && Strip(n.s) == "*" && s.sp + 1 < |s.stack| ==>
                  r.st.stack == s.stack[..s.sp + 1])
  {
    var r := AfterPop(s, key, n);
    if r.Ok? {
      var k := TailStart(|s.stack|, if n.Int? then n.n else |s.stack| - (s.sp + 1));
      AssignFacts(s.dicts, s.lcl, Live(s)[key := s.stack[k..]]);
      assert r.st.stack + Live(r.st)[key] == s.stack[..k] + s.stack[k..];
    }
  }

  /** `dup` appends a copy of a suffix of the stack and leaves the rest: with
      `0 < n <= len` that suffix has `n` entries, with `*` it is everything
      above the current frame; a count string other than `*` raises. */
  lemma DupFacts(s: State, n: Count)
    ensures var r := AfterDup(s, n);
            && (r.Ok? <==> n.Int? || n == Str("*"))
            && (r.Fail? ==> r == Fail(TypeError, s))
            && r.st.sp == s.sp && r.st.pc == s.pc && r.st.lcl == s.lcl && r.st.dicts == s.dicts
            && (r.Ok? ==> |s.stack| <= |r.st.stack| <= 2 * |s.stack|
                          && r.st.stack == s.stack + s.stack[2 * |s.stack| - |r.st.stack|..])
            && (n.Int? && 0 < n.n <= |s.stack| ==> |r.st.stack| == |s.stack| + n.n)
            && (n == Str("*") && s.sp + 1 < |s.stack| ==> r.st.stack == s.stack + s.stack[s.sp + 1..])
  {
  }

  /** `goto` changes only `pc`, to one before the target of the stripped
      name, and raises `KeyError` exactly when the name is not a symbol. */
  lemma GotoFacts(symbols: map<string, int>, s: State, name: string)
    ensures var r := AfterGoto(symbols, s, name);
            && (r.Ok? <==> Strip(name) in symbols)
            && (r.Fail? ==> r == Fail(KeyError, s))
            && (r.Ok? ==> r.st == s.(pc := symbols[Strip(name)] - 1))
  {
  }

  /** `return_ctrl` succeeds exactly when `sp` indexes a frame; it removes
      exactly the element at `sp` and restores `sp`, `pc` and `lcl` from it,
      `lcl` becoming the very dictionary the frame holds; no dictionary
      changes. */
  lemma ReturnFacts(s: State)
    ensures var r := AfterReturn(s);
            && (r.Ok? <==> s.sp < |s.stack| && s.stack[s.sp].Frame?)
            && (s.sp >= |s.stack| ==> r == Fail(IndexError, s))
            && (s.sp < |s.stack| ==> r.st.stack == s.stack[..s.sp] + s.stack[s.sp + 1..])
            && r.st.dicts == s.dicts
            && (r.Ok? ==> && r.st.sp == s.stack[s.sp].sp && r.st.pc == s.stack[s.sp].pc
                          && r.st.lcl == s.stack[s.sp].lcl
                          && Live(r.st) == Dict(s.dicts, s.stack[s.sp].lcl))
  {
  }

  /** Popping what a push put on the stack (`push x` then `pop y n` with `n`
      the number of entries it added) restores the stack and stores the same
      entries under `y`. */
  lemma {:induction false} PushThenPop(s: State, x: Entry, key: string)
    requires |AfterPush(s, x).stack| > |s.stack|
    ensures var t := AfterPush(s, x);
            var r := AfterPop(t, key, Int(|t.stack| - |s.stack|));
            && r.Ok? && r.st.stack == s.stack && r.st.lcl == s.lcl
            && Live(r.st) == Live(s)[key := t.stack[|s.stack|..]]
  {
    var t := AfterPush(s, x);
    PushFacts(s, x);
    var n := |t.stack| - |s.stack|;
    TailStartCounts(|t.stack|, n);
    assert TailStart(|t.stack|, n) == |s.stack|;
    var r := AfterPop(t, key, Int(n));
    assert r == Ok(Move(t, key, n));
    assert t.stack[..|s.stack|] == s.stack;
    AssignFacts(t.dicts, t.lcl, Live(t)[key := t.stack[|s.stack|..]]);
  }

  /** "The function becomes what it wants to return": whatever the callee
      left above its frame stays where the frame was, and the caller's `sp`,
      `pc` and `lcl` come back from the frame. */
  lemma {:induction false} ReturnLeavesResult(below: seq<Entry>, f: string, sp: nat, pc: int,
                                              lcl: Ref, body: seq<Entry>,
                                              calleePc: int, calleeLcl: Ref, dicts: seq<Locals>)
    ensures AfterReturn(State(below + [Frame(f, sp, pc, lcl)] + body, |below|, calleePc, calleeLcl, dicts))
            == Ok(State(below + body, sp, pc, lcl, dicts))
  {
    var st := below + [Frame(f, sp, pc, lcl)] + body;
    assert st[|below|] == Frame(f, sp, pc, lcl);
    assert st[..|below|] == below;
    assert st[|below| + 1..] == body;
  }

  /** A frame that is on the stack twice is one object: after returning
      through it, a `pop` writes into the frame's own dictionary, so a second
      return through the same frame finds the popped entry among the
      locals it restores. */
  lemma ReturnTwiceSeesPop(f: string, pc: int, r: Ref, x: Entry, key: string,
                           calleePc: int, calleeLcl: Ref, dicts: seq<Locals>)
    ensures var fr := Frame(f, 0, pc, r);
            var s1 := AfterReturn(State([fr, fr, x], 0, calleePc, calleeLcl, dicts));
            var s2 := AfterPop(s1.st, key, Int(1));
            var s3 := AfterReturn(s2.st);
            && s1.Ok? && s2.Ok? && s3.Ok?
            && s3.st == State([], 0, pc, r, Assign(dicts, r, Dict(dicts, r)[key := [x]]))
            && Live(s3.st) == Dict(dicts, r)[key := [x]]
  {
    var fr := Frame(f, 0, pc, r);
    var s0 := State([fr, fr, x], 0, calleePc, calleeLcl, dicts);
    assert s0.stack[..0] + s0.stack[1..] == [fr, x];
    var s1 := State([fr, x], 0, pc, r, dicts);
    assert AfterReturn(s0) == Ok(s1);
    assert TailStart(2, 1) == 1;
    var m := Dict(dicts, r)[key := [x]];
    assert AfterPop(s1, key, Int(1)) == Ok(State([fr], 0, pc, r, Assign(dicts, r, m)));
    AssignFacts(dicts, r, m);
  }

  /** A primitive call, net of its frame: the arguments `stack[k:]` are
      replaced by the primitive's result (a list spliced, a single object
      appended) and `sp` and `pc` end as they were, because `return_ctrl`
      removes the frame `call` has just pushed. The current dictionary is
      then the frame's copy of the caller's, with the same entries, and the
      dictionaries that existed before are untouched. */
  lemma PrimitiveNet(symbols: map<string, int>, prims: Prims, s: State, fct: string, k: nat)
    requires k <= |s.stack| && fct in prims.names
    ensures Invoke(symbols, prims, s, fct, k)
            == Ok(State(s.stack[..k] + Spread(prims.apply(fct, s.stack[k..])), s.sp, s.pc,
                        |s.dicts|, s.dicts + [Live(s)]))
    ensures var r := Invoke(symbols, prims, s, fct, k).st;
            Live(r) == Live(s) && r.dicts[..|s.dicts|] == s.dicts
  {
    ReturnLeavesResult(s.stack[..k], fct, s.sp, s.pc, |s.dicts|, Spread(prims.apply(fct, s.stack[k..])),
                       s.pc, s.lcl, s.dicts + [Live(s)]);
    var r := Invoke(symbols, prims, s, fct, k).st;
    assert r.dicts[..|s.dicts|] == s.dicts;
  }

  /** Calling a function that is not a primitive: the caller's frame sits at
      index `k`, where the arguments began, and becomes the current frame; it
      holds a new dictionary with the caller's locals; the arguments are back
      above it in their order; the current dictionary is another new one,
      empty; no dictionary that existed before changes; and control goes to
      one line before the function's address, or the call raises `KeyError`
      when the name is unknown. */
  lemma CallFrame(symbols: map<string, int>, prims: Prims, s: State, fct: string, k: nat)
    requires k <= |s.stack| && fct !in prims.names
    ensures var r := Invoke(symbols, prims, s, fct, k);
            && r.st.stack == s.stack[..k] + [Frame(fct, s.sp, s.pc, |s.dicts|)] + s.stack[k..]
            && r.st.sp == k && r.st.stack[k] == Frame(fct, s.sp, s.pc, |s.dicts|)
            && Dict(r.st.dicts, |s.dicts|) == Live(s)
            && r.st.lcl == |s.dicts| + 1 && Live(r.st) == map[]
            && r.st.dicts[..|s.dicts|] == s.dicts
            && (r.Ok? <==> Strip(fct) in symbols)
            && (r.Ok? ==> r.st.pc == symbols[Strip(fct)] - 1)
            && (r.Fail? ==> r.kind == KeyError && r.st.pc == s.pc)
  {
    var r := Invoke(symbols, prims, s, fct, k);
    assert r.st.dicts == s.dicts + [Live(s), map[]];
    assert r.st.dicts[..|s.dicts|] == s.dicts;
  }

  /** A function whose body is just `return` changes nothing the caller can
      see: returning straight after the call gives back the caller's stack,
      `sp` and `pc`, and as current dictionary the frame's copy, which holds
      the caller's locals. */
  lemma CallThenReturn(symbols: map<string, int>, prims: Prims, s: State, fct: string, k: nat)
    requires k <= |s.stack| && fct !in prims.names && Strip(fct) in symbols
    ensures Invoke(symbols, prims, s, fct, k).Ok?
    ensures AfterReturn(Invoke(symbols, prims, s, fct, k).st)
            == Ok(s.(lcl := |s.dicts|, dicts := s.dicts + [Live(s), map[]]))
    ensures Live(AfterReturn(Invoke(symbols, prims, s, fct, k).st).st) == Live(s)
  {
    var t := Invoke(symbols, prims, s, fct, k).st;
    ReturnLeavesResult(s.stack[..k], fct, s.sp, s.pc, |s.dicts|, s.stack[k..], t.pc, t.lcl, t.dicts);
    assert s.stack[..k] + s.stack[k..] == s.stack;
  }
}

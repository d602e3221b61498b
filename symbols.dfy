/** The symbol pass both interpreters run before executing: walk the cleaned
    lines, remove each directive line (a label or a function entry) in place
    and record its name at the index the next remaining line ends up at. The
    two interpreters recognise directives differently, so the recogniser is a
    parameter: `dir(line)` is the name the line defines, or `None` for a line
    of code. */
module Symbols {
  import opened Py

  /** The lines the directive loop leaves in place, in their order. */
  function Kept(dir: string -> Option<string>, ls: seq<string>): seq<string> {
    if ls == [] then []
    else
      var l := ls[|ls| - 1];
      Kept(dir, ls[..|ls| - 1]) + (if dir(l).None? then [l] else [])
  }

  /** The symbol table after the directive loop: each directive, in order,
      maps its name to the number of lines kept before it, which is the index
      the following kept line ends up at; a later directive overwrites. */
  function SymbolsOf(dir: string -> Option<string>, ls: seq<string>): map<string, int> {
    if ls == [] then map[]
    else
      var init := ls[..|ls| - 1];
      match dir(ls[|ls| - 1])
      case None => SymbolsOf(dir, init)
      case Some(name) => SymbolsOf(dir, init)[name := |Kept(dir, init)|]
  }

  /** No directive survives the loop, and every symbol indexes a kept line or
      the end of the program. */
  lemma {:induction false} KeptFacts(dir: string -> Option<string>, ls: seq<string>)
    ensures |Kept(dir, ls)| <= |ls|
    ensures forall i :: 0 <= i < |Kept(dir, ls)| ==> dir(Kept(dir, ls)[i]).None?
    ensures forall name :: name in SymbolsOf(dir, ls) ==> 0 <= SymbolsOf(dir, ls)[name] <= |Kept(dir, ls)|
  {
    if ls != [] {
      KeptFacts(dir, ls[..|ls| - 1]);
    }
  }

  /** Directive removal keeps the other lines in their order, piece by piece. */
  lemma {:induction false} KeptAppend(dir: string -> Option<string>, a: seq<string>, b: seq<string>)
    ensures Kept(dir, a + b) == Kept(dir, a) + Kept(dir, b)
  {
    if b != [] {
      var ab := a + b;
      assert ab[..|ab| - 1] == a + b[..|b| - 1];
      KeptAppend(dir, a, b[..|b| - 1]);
    } else {
      assert a + b == a;
    }
  }

  /** A name is in the symbol table exactly when some line is a directive
      for it. */
  lemma {:induction false} SymbolsDomain(dir: string -> Option<string>, ls: seq<string>, name: string)
    ensures name in SymbolsOf(dir, ls) <==> exists j :: 0 <= j < |ls| && dir(ls[j]) == Some(name)
  {
    if ls != [] {
      var init := ls[..|ls| - 1];
      SymbolsDomain(dir, init, name);
      if exists j :: 0 <= j < |init| && dir(init[j]) == Some(name) {
        var j :| 0 <= j < |init| && dir(init[j]) == Some(name);
        assert ls[j] == init[j];
      }
      if exists j :: 0 <= j < |ls| && dir(ls[j]) == Some(name) {
        var j :| 0 <= j < |ls| && dir(ls[j]) == Some(name);
        if j < |init| {
          assert init[j] == ls[j];
        }
      }
    }
  }

  /** The last directive for a name decides its entry: the number of lines
      kept before that directive. */
  lemma {:induction false} SymbolOfLast(dir: string -> Option<string>, ls: seq<string>, j: nat, name: string)
    requires j < |ls| && dir(ls[j]) == Some(name)
    requires forall m :: j < m < |ls| ==> dir(ls[m]) != Some(name)
    ensures name in SymbolsOf(dir, ls) && SymbolsOf(dir, ls)[name] == |Kept(dir, ls[..j])|
  {
    var init := ls[..|ls| - 1];
    if j < |ls| - 1 {
      assert init[j] == ls[j];
      forall m | j < m < |init|
        ensures dir(init[m]) != Some(name)
      {
        assert init[m] == ls[m];
      }
      SymbolOfLast(dir, init, j, name);
      assert init[..j] == ls[..j];
    } else {
      assert init == ls[..j];
    }
  }

  /** What one more line does to the kept lines and the symbol table. */
  lemma PrefixStep(dir: string -> Option<string>, ls: seq<string>, j: nat)
    requires j < |ls|
    ensures Kept(dir, ls[..j + 1]) == Kept(dir, ls[..j]) + (if dir(ls[j]).None? then [ls[j]] else [])
    ensures SymbolsOf(dir, ls[..j + 1]) == match dir(ls[j])
                                            case None => SymbolsOf(dir, ls[..j])
                                            case Some(name) => SymbolsOf(dir, ls[..j])[name := |Kept(dir, ls[..j])|]
  {
    assert ls[..j + 1][..j] == ls[..j];
  }

  /** Each directive name points at the line that followed its last
      directive: from that index on, the program is exactly the kept part of
      what came after the directive. */
  lemma SymbolTarget(dir: string -> Option<string>, ls: seq<string>, j: nat, name: string)
    requires j < |ls| && dir(ls[j]) == Some(name)
    requires forall m :: j < m < |ls| ==> dir(ls[m]) != Some(name)
    ensures && name in SymbolsOf(dir, ls)
            && 0 <= SymbolsOf(dir, ls)[name] <= |Kept(dir, ls)|
            && Kept(dir, ls)[SymbolsOf(dir, ls)[name]..] == Kept(dir, ls[j + 1..])
  {
    SymbolOfLast(dir, ls, j, name);
    var before := Kept(dir, ls[..j]);
    var a, b := ls[..j + 1], ls[j + 1..];
    assert Kept(dir, a) == before by {
      PrefixStep(dir, ls, j);
    }
    assert Kept(dir, ls) == before + Kept(dir, b) by {
      assert ls == a + b;
      KeptAppend(dir, a, b);
    }
    DropPrefix(before, Kept(dir, b));
  }

  /** Slicing a concatenation at the end of its first part gives the second. */
  lemma DropPrefix(x: seq<string>, y: seq<string>)
    ensures |x| <= |x + y| && (x + y)[|x|..] == y
  {
  }

  /** One turn of the directive loop. While it runs, the list holds the
      lines it kept from the first `j` input lines, with `i` their number,
      followed by the lines it has not looked at, the first of which is at
      index `i`. Popping that line when it is a directive, or stepping over
      it when it is code, gives the same picture for `j + 1`, and the symbol
      table grows by the directive's name at `i`. */
  lemma WalkStep(dir: string -> Option<string>, ls: seq<string>, j: nat, lines: seq<string>, i: int)
    requires j < |ls| && i == |Kept(dir, ls[..j])| && lines == Kept(dir, ls[..j]) + ls[j..]
    ensures 0 <= i < |lines| && lines[i] == ls[j]
    ensures dir(ls[j]).Some? ==>
              && lines[..i] + lines[i + 1..] == Kept(dir, ls[..j + 1]) + ls[j + 1..]
              && i == |Kept(dir, ls[..j + 1])|
              && SymbolsOf(dir, ls[..j + 1]) == SymbolsOf(dir, ls[..j])[dir(ls[j]).value := i]
    ensures dir(ls[j]).None? ==>
              && lines == Kept(dir, ls[..j + 1]) + ls[j + 1..]
              && i + 1 == |Kept(dir, ls[..j + 1])|
              && SymbolsOf(dir, ls[..j + 1]) == SymbolsOf(dir, ls[..j])
  {
    PrefixStep(dir, ls, j);
    var kept, rest := Kept(dir, ls[..j]), ls[j + 1..];
    assert ls[j..] == [ls[j]] + rest;
    assert lines == kept + [ls[j]] + rest;
    assert lines[..i] == kept && lines[i + 1..] == rest;
    assert kept + [ls[j]] + rest == (kept + [ls[j]]) + rest;
  }
}

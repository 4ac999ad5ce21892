/** `stream.timePattern()` of test/riffleLib.js: every invocation appends one letter per
    defined argument (`'a'` for port 0, `'b'` for port 1, ...) to the history `seen`,
    and the whole history is matched against the current pattern. A JavaScript string is
    a sequence of UTF-16 code units, so the history is a sequence of numbers below 65536
    (`String.fromCharCode` keeps the low 16 bits). */
module TimePattern {
  import opened JsValues
  import opened StreamSpec

  type Units = seq<nat>

  /** `String.fromCharCode(idx + 97)`. */
  function Symbol(idx: nat): (u: nat)
    ensures u < 65536 && (idx < 26 ==> u == 97 + idx)
  {
    (97 + idx) % 65536
  }

  /** What one invocation appends:
      `_.reduce(args, (memo, item, idx) => memo + (defined ? chr(idx + 97) : ''), seen)`. */
  function Symbols(args: Args): (u: Units)
    ensures |u| == CountDefined(args)
  {
    if args == [] then []
    else Symbols(args[..|args| - 1]) + (if args[|args| - 1] != Undefined then [Symbol(|args| - 1)] else [])
  }

  /** The symbols name exactly the defined arguments, in index order. */
  lemma {:induction false} SymbolsInOrder(args: Args, i: nat)
    requires i < |args| && args[i] != Undefined
    ensures CountDefined(args[..i]) < |Symbols(args)|
    ensures Symbols(args)[CountDefined(args[..i])] == Symbol(i)
  {
    var init := args[..|args| - 1];
    if i < |args| - 1 {
      assert init[..i] == args[..i];
      SymbolsInOrder(init, i);
    } else {
      assert args[..i] == init;
    }
  }

  /** A port delivery appends the letter of its port, or nothing for `undefined`. */
  lemma {:induction false} PortSymbols(idx: nat, x: Value)
    ensures Symbols(PortVector(idx, x)) == if x == Undefined then [] else [Symbol(idx)]
  {
    if x != Undefined {
      var v := PortVector(idx, x);
      assert v[..idx] == Repeat(Undefined, idx);
      NoSymbols(idx);
    }
  }

  lemma {:induction false} NoSymbols(n: nat)
    ensures Symbols(Repeat(Undefined, n)) == []
  {
    if n > 0 {
      assert Repeat(Undefined, n)[..n - 1] == Repeat(Undefined, n - 1);
      NoSymbols(n - 1);
    }
  }

  /** `new RegExp()`, which matches every string, or `new RegExp(r)`. */
  datatype Pattern = MatchAll | Source(r: Value)

  /** `matchRegex.test(seen)`, with `test` standing for the regular expression engine. */
  predicate Matches(p: Pattern, seen: Units, test: (Value, Units) -> bool)
  {
    match p
    case MatchAll => true
    case Source(r) => test(r, seen)
  }

  // ---------------------------------------------------------------- a concrete pattern

  /** Ends with one `'b'`-run that follows an `'a'`. */
  predicate BsThenA(u: Units)
  {
    |u| > 0 && (u[|u| - 1] == 97 || (u[|u| - 1] == 98 && BsThenA(u[..|u| - 1])))
  }

  /** What the regular expression `.*ab*c$` finds: the history ends with an `a`, any
      number of `b`s and a `c`. */
  predicate EndsABStarC(u: Units)
  {
    |u| > 0 && u[|u| - 1] == 99 && BsThenA(u[..|u| - 1])
  }

  /** The history of ports a, b, b, d, c, a, b, b, b, c matches `.*ab*c$` only after the
      last delivery, so the callback runs exactly once. */
  lemma SampleHistoryMatchesOnce()
    ensures var word: Units := [97, 98, 98, 100, 99, 97, 98, 98, 98, 99];
      forall k :: 1 <= k <= |word| ==> (EndsABStarC(word[..k]) <==> k == |word|)
  {
    var word: Units := [97, 98, 98, 100, 99, 97, 98, 98, 98, 99];
    var s6: Units := [97, 98, 98, 100, 99, 97];
    var s7: Units := s6 + [98];
    var s8: Units := s7 + [98];
    var s9: Units := s8 + [98];
    assert s7[..6] == s6 && s8[..7] == s7 && s9[..8] == s8;
    assert BsThenA(s6) && BsThenA(s7) && BsThenA(s8) && BsThenA(s9);
    assert word[..10][..9] == s9;
    assert word[..5][..4] == [97, 98, 98, 100];
    assert !EndsABStarC(word[..5]);
  }

  // ---------------------------------------------------------------- the object

  datatype Match = Match(tag: nat, seen: Units, raised: bool)

  class TimePatternNode {
    /** What `RegExp.prototype.test` answers for a pattern source and a history. */
    const test: (Value, Units) -> bool
    /** Whether `new RegExp(r)` accepts a pattern source. */
    const compiles: Value -> bool
    /** Whether the foreign function with a given tag throws. */
    const raises: nat -> bool
    var seen: Units
    var pattern: Pattern
    var matchFunc: Callable
    /** The calls of `matchFunc(output)`, with the history they were made on. */
    var matches: seq<Match>

    /** `stream.timePattern()`: empty history, a pattern that matches everything, no
        callback. */
    constructor(test: (Value, Units) -> bool, compiles: Value -> bool, raises: nat -> bool)
      ensures this.test == test && this.compiles == compiles && this.raises == raises
      ensures seen == [] && pattern == MatchAll && matchFunc == NotFn(Undefined) && matches == []
    {
      this.test := test;
      this.compiles := compiles;
      this.raises := raises;
      seen := [];
      pattern := MatchAll;
      matchFunc := NotFn(Undefined);
      matches := [];
    }

    /** The body of `p`: extend the history, then call `matchFunc` when the whole history
        matches and `matchFunc` is a function (what it throws is absorbed). */
    method Invoke(args: Args)
      modifies this
      ensures seen == old(seen) + Symbols(args)
      ensures pattern == old(pattern) && matchFunc == old(matchFunc)
      ensures matches == old(matches)
        + (if Matches(pattern, seen, test) && matchFunc.Fn? then [Match(matchFunc.tag, seen, raises(matchFunc.tag))] else [])
    {
      var i := 0;
      while i < |args|
        invariant 0 <= i <= |args|
        invariant seen == old(seen) + Symbols(args[..i])
        invariant pattern == old(pattern) && matchFunc == old(matchFunc) && matches == old(matches)
      {
        assert args[..i + 1][..i] == args[..i];
        if args[i] != Undefined {
          seen := seen + [Symbol(i)];
        }
        i := i + 1;
      }
      assert args[..i] == args;
      if Matches(pattern, seen, test) && matchFunc.Fn? {
        matches := matches + [Match(matchFunc.tag, seen, raises(matchFunc.tag))];
      }
    }

    /** `spot(r, f)`: a new pattern and callback; a source `RegExp` rejects throws before
        either is replaced. */
    method Spot(r: Value, f: Callable) returns (o: Outcome)
      modifies this
      ensures compiles(r) ==> o == Done && pattern == Source(r) && matchFunc == f
      ensures !compiles(r) ==> o == Threw(SyntaxError("Invalid regular expression")) && pattern == old(pattern) && matchFunc == old(matchFunc)
      ensures seen == old(seen) && matches == old(matches)
    {
      if !compiles(r) {
        return Threw(SyntaxError("Invalid regular expression"));
      }
      pattern := Source(r);
      matchFunc := f;
      o := Done;
    }

    /** `clear()`: the history starts again from the empty string. */
    method Clear()
      modifies this
      ensures seen == [] && pattern == old(pattern) && matchFunc == old(matchFunc) && matches == old(matches)
    {
      seen := [];
    }
  }
}

/** JavaScript values, argument vectors and the small collection helpers
    (`_.reject`, `_.each`, `_.reduce`, `indexOf`) that every engine file relies on. */
module JsValues {

  datatype Option<T> = None | Some(value: T)

  /** An exception thrown out of an operation: an `Error`, a `TypeError`, a
      `SyntaxError`, a thrown string, or whatever the foreign function with the given
      tag threw. */
  datatype JsError =
    | Error(msg: string)
    | TypeError(msg: string)
    | SyntaxError(msg: string)
    | Raised(msg: string)
    | Thrown(tag: nat)

  /** Returning normally, or throwing. */
  datatype Outcome = Done | Threw(error: JsError)

  /** A JavaScript value. An object is an opaque handle together with the names of its
      truthy properties, which is all that the capability checks (`isStream`,
      `isPromise`) look at. */
  datatype Value =
    | Undefined
    | Null
    | Bool(b: bool)
    | Num(n: int)
    | Str(s: string)
    | Obj(handle: nat, members: set<string>)

  /** The arguments of a call, holes of a sparse array read as `Undefined`. */
  type Args = seq<Value>

  /** An argument that the source expects to be a function: a foreign function is
      known by its tag; any other value makes `_.isFunction` false. */
  datatype Callable = Fn(tag: nat) | NotFn(v: Value)

  /** JavaScript truthiness of a possible function (every function is truthy). */
  predicate TruthyCallable(f: Callable)
  {
    f.Fn? || Truthy(f.v)
  }

  predicate Truthy(v: Value)
  {
    match v
    case Undefined => false
    case Null => false
    case Bool(b) => b
    case Num(n) => n != 0
    case Str(s) => s != ""
    case Obj(_, _) => true
  }

  /** `Math.max` of two naturals. */
  function Max(a: nat, b: nat): (r: nat)
    ensures r >= a && r >= b && (r == a || r == b)
  {
    if a < b then b else a
  }

  /** `args[i]`, or `undefined` past the end. */
  function ArgAt(args: Args, i: nat): Value
  {
    if i < |args| then args[i] else Undefined
  }

  /** Number of entries that are not `undefined` (the `_.reduce` counters of join). */
  function CountDefined(s: Args): (r: nat)
    ensures r <= |s|
  {
    if s == [] then 0 else CountDefined(s[..|s| - 1]) + (if s[|s| - 1] != Undefined then 1 else 0)
  }

  predicate AllDefined(s: Args)
  {
    forall i :: 0 <= i < |s| ==> s[i] != Undefined
  }

  lemma {:induction false} CountDefinedAll(s: Args)
    ensures CountDefined(s) == |s| <==> AllDefined(s)
  {
    if s != [] {
      var init := s[..|s| - 1];
      CountDefinedAll(init);
      if s[|s| - 1] == Undefined {
        assert !AllDefined(s);
      } else if AllDefined(init) {
        assert AllDefined(s) by {
          forall i | 0 <= i < |s| ensures s[i] != Undefined {
            if i < |s| - 1 { assert s[i] == init[i]; }
          }
        }
      } else {
        var j :| 0 <= j < |init| && init[j] == Undefined;
        assert s[j] == Undefined;
      }
    }
  }

  /** Occurrences of `x` in `s`. */
  function Count<T(==)>(s: seq<T>, x: T): nat
  {
    if s == [] then 0 else Count(s[..|s| - 1], x) + (if s[|s| - 1] == x then 1 else 0)
  }

  lemma {:induction false} CountAppend<T>(s: seq<T>, t: seq<T>, x: T)
    ensures Count(s + t, x) == Count(s, x) + Count(t, x)
  {
    if t != [] {
      assert (s + t)[..|s + t| - 1] == s + t[..|t| - 1];
      CountAppend(s, t[..|t| - 1], x);
    } else {
      assert s + t == s;
    }
  }

  lemma {:induction false} CountZero<T>(s: seq<T>, x: T)
    ensures Count(s, x) == 0 <==> x !in s
  {
    if s != [] {
      CountZero(s[..|s| - 1], x);
      assert s == s[..|s| - 1] + [s[|s| - 1]];
    }
  }

  lemma AppendAssoc<T>(a: seq<T>, b: seq<T>, c: seq<T>)
    ensures (a + b) + c == a + (b + c)
  {
  }

  /** `n` copies of `x`. */
  function Repeat<T>(x: T, n: nat): (r: seq<T>)
    ensures |r| == n && forall i :: 0 <= i < n ==> r[i] == x
  {
    if n == 0 then [] else Repeat(x, n - 1) + [x]
  }

  /** `_.reject(s, y => y === x)`: every occurrence of `x` removed, the rest in order. */
  function Remove<T(==)>(s: seq<T>, x: T): (r: seq<T>)
    ensures |r| <= |s|
  {
    if s == [] then [] else Remove(s[..|s| - 1], x) + (if s[|s| - 1] == x then [] else [s[|s| - 1]])
  }

  lemma {:induction false} RemoveAppend<T>(s: seq<T>, t: seq<T>, x: T)
    ensures Remove(s + t, x) == Remove(s, x) + Remove(t, x)
  {
    if t != [] {
      assert (s + t)[..|s + t| - 1] == s + t[..|t| - 1];
      RemoveAppend(s, t[..|t| - 1], x);
    } else {
      assert s + t == s;
    }
  }

  /** Removing every copy keeps every other element, with its multiplicity, and
      leaves no copy behind. */
  lemma {:induction false} RemoveCounts<T>(s: seq<T>, x: T)
    ensures x !in Remove(s, x)
    ensures forall y :: y != x ==> Count(Remove(s, x), y) == Count(s, y)
    ensures |Remove(s, x)| == |s| - Count(s, x)
  {
    if s != [] {
      var init := s[..|s| - 1];
      RemoveCounts(init, x);
      var tail := if s[|s| - 1] == x then [] else [s[|s| - 1]];
      forall y | y != x ensures Count(Remove(s, x), y) == Count(s, y) {
        CountAppend(Remove(init, x), tail, y);
        assert tail == [] ==> Count(tail, y) == 0;
        if tail != [] {
          assert [] + tail == tail;
          assert tail[..0] == [];
        }
      }
    }
  }

  lemma {:induction false} RemoveSubset<T>(s: seq<T>, x: T)
    ensures forall y :: y in Remove(s, x) ==> y in s && y != x
  {
    if s != [] {
      RemoveSubset(s[..|s| - 1], x);
      forall y | y in Remove(s, x) ensures y in s && y != x {
        if y in Remove(s[..|s| - 1], x) {
          assert y in s[..|s| - 1];
        }
      }
    }
  }

  lemma {:induction false} CountRepeat<T>(c: T, n: nat, d: T)
    ensures Count(Repeat(c, n), d) == if c == d then n else 0
  {
    if n > 0 {
      CountRepeat(c, n - 1, d);
      assert Repeat(c, n)[..n - 1] == Repeat(c, n - 1);
    }
  }

  lemma {:induction false} RemoveIdempotent<T>(s: seq<T>, x: T)
    ensures Remove(Remove(s, x), x) == Remove(s, x)
  {
    if s != [] {
      var init := s[..|s| - 1];
      RemoveIdempotent(init, x);
      var tail := if s[|s| - 1] == x then [] else [s[|s| - 1]];
      RemoveAppend(Remove(init, x), tail, x);
      if tail != [] {
        assert tail[..0] == [];
        assert Remove(tail, x) == Remove(tail[..0], x) + [tail[0]];
      }
    }
  }

  lemma {:induction false} RemoveAbsent<T>(s: seq<T>, x: T)
    requires x !in s
    ensures Remove(s, x) == s
  {
    if s != [] {
      var init := s[..|s| - 1];
      assert x !in init && s[|s| - 1] != x;
      RemoveAbsent(init, x);
      assert s == init + [s[|s| - 1]];
    }
  }

  /** `Array.prototype.indexOf`: the first index holding `x`, or -1. */
  function IndexOf<T(==)>(s: seq<T>, x: T): (r: int)
    ensures -1 <= r < |s|
    ensures r == -1 <==> x !in s
    ensures r >= 0 ==> s[r] == x && x !in s[..r]
  {
    if s == [] then -1
    else if s[0] == x then 0
    else
      var k := IndexOf(s[1..], x);
      assert s[1..] + [] == s[1..];
      if k == -1 then -1 else
        assert s[..k + 1] == [s[0]] + s[1..][..k];
        k + 1
  }

  /** `list.splice(idx, 1)`. */
  function RemoveAt<T>(s: seq<T>, i: nat): (r: seq<T>)
    requires i < |s|
    ensures |r| == |s| - 1
  {
    s[..i] + s[i + 1..]
  }

  /** Decimal rendering of a natural number, as `String(n)` does. */
  function NatToString(n: nat): (s: string)
    ensures 1 <= |s|
    ensures forall i :: 0 <= i < |s| ==> '0' <= s[i] <= '9'
  {
    if n < 10 then [Digit(n)] else NatToString(n / 10) + [Digit(n % 10)]
  }

  function Digit(d: nat): (c: char)
    requires d < 10
    ensures '0' <= c <= '9'
  {
    (48 + d) as char
  }

  lemma {:induction false} NatToStringInjective(a: nat, b: nat)
    ensures NatToString(a) == NatToString(b) ==> a == b
    decreases a + b
  {
    if NatToString(a) == NatToString(b) {
      if a < 10 && b < 10 {
        assert Digit(a) == NatToString(a)[0];
      } else if a >= 10 && b >= 10 {
        var sa, sb := NatToString(a), NatToString(b);
        assert Digit(a % 10) == sa[|sa| - 1] == sb[|sb| - 1] == Digit(b % 10);
        assert NatToString(a / 10) == sa[..|sa| - 1] == sb[..|sb| - 1] == NatToString(b / 10);
        NatToStringInjective(a / 10, b / 10);
      }
    }
  }
}

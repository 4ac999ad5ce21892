/** `o.pipe(vars, graph)` of lib/riffle.js: a graph string such as `"a > b:1 | c, d > e"`
    is cut into pipelines at commas and into stream names at `|` and `>`, each name is
    looked up in `vars` along its dotted path (`pave`), and every link of a pipeline is
    first split and then, for `>`, spliced again. */
module LibPipe {
  import opened JsValues
  import opened LibSupport
  import opened LibSpec
  import opened LibCore
  import opened LibChain

  // ---------------------------------------------------------------- string splitting

  /** The characters `\s` matches in a regular expression. */
  predicate IsSpace(c: char)
  {
    c == ' ' || c == '\t' || c == '\n' || c == '\r' || c == '\U{B}' || c == '\U{C}'
    || c == '\U{A0}' || c == '\U{1680}' || ('\U{2000}' <= c <= '\U{200A}')
    || c == '\U{2028}' || c == '\U{2029}' || c == '\U{202F}' || c == '\U{205F}'
    || c == '\U{3000}' || c == '\U{FEFF}'
  }

  /** The separator characters of `s`, in order: what `s.match(/[…]/g)` collects. */
  function SepsIn(s: string, seps: set<char>): (r: seq<char>)
    ensures forall i :: 0 <= i < |r| ==> r[i] in seps
    ensures |r| <= |s|
  {
    if s == [] then []
    else (if s[0] in seps then [s[0]] else []) + SepsIn(s[1..], seps)
  }

  /** `s.split(sep)` for single-character separators: the text between them, empty
      pieces included. */
  function RawSplit(s: string, seps: set<char>): (r: seq<string>)
    ensures |r| == |SepsIn(s, seps)| + 1
    ensures forall i, j :: 0 <= i < |r| && 0 <= j < |r[i]| ==> r[i][j] !in seps
  {
    if s == [] then [""]
    else
      var t := RawSplit(s[1..], seps);
      if s[0] in seps then [""] + t
      else
        assert forall j :: 0 <= j < |[s[0]] + t[0]| ==> ([s[0]] + t[0])[j] == s[0] || ([s[0]] + t[0])[j] == t[0][j - 1];
        [[s[0]] + t[0]] + t[1..]
  }

  /** The pieces put back together with the separators between them. */
  function Interleave(ps: seq<string>, ops: seq<char>): string
    requires |ps| == |ops| + 1
  {
    if ops == [] then ps[0] else ps[0] + [ops[0]] + Interleave(ps[1..], ops[1..])
  }

  lemma InterleaveCons(c: char, ps: seq<string>, ops: seq<char>)
    requires |ps| == |ops| + 1
    ensures Interleave([[c] + ps[0]] + ps[1..], ops) == [c] + Interleave(ps, ops)
  {
    var qs := [[c] + ps[0]] + ps[1..];
    assert qs[1..] == ps[1..];
  }

  /** Splitting loses nothing: the pieces and the separators give back the string. */
  lemma {:induction false} RawSplitRejoins(s: string, seps: set<char>)
    ensures Interleave(RawSplit(s, seps), SepsIn(s, seps)) == s
  {
    if s != [] {
      RawSplitRejoins(s[1..], seps);
      var t := RawSplit(s[1..], seps);
      if s[0] in seps {
        assert ([""] + t)[1..] == t;
        assert s == [s[0]] + s[1..];
      } else {
        assert SepsIn(s, seps) == SepsIn(s[1..], seps);
        assert RawSplit(s, seps) == [[s[0]] + t[0]] + t[1..];
        InterleaveCons(s[0], t, SepsIn(s[1..], seps));
        assert s == [s[0]] + s[1..];
      }
    }
  }

  /** The whitespace at the start removed. */
  function TrimLeft(s: string): (r: string)
    ensures |r| <= |s| && r == s[|s| - |r|..]
    ensures forall i :: 0 <= i < |s| - |r| ==> IsSpace(s[i])
    ensures r == [] || !IsSpace(r[0])
  {
    if s != [] && IsSpace(s[0]) then TrimLeft(s[1..]) else s
  }

  /** The whitespace at the end removed. */
  function TrimRight(s: string): (r: string)
    ensures |r| <= |s| && r == s[..|r|]
    ensures forall i :: |r| <= i < |s| ==> IsSpace(s[i])
    ensures r == [] || !IsSpace(r[|r| - 1])
  {
    if s != [] && IsSpace(s[|s| - 1]) then TrimRight(s[..|s| - 1]) else s
  }

  /** `s.split(/\s*[seps]\s*\/)`: the pieces of `RawSplit` with the whitespace next to a
      separator removed (the start of the first piece and the end of the last are
      kept). */
  function TrimSplit(s: string, seps: set<char>): (r: seq<string>)
    ensures |r| == |SepsIn(s, seps)| + 1
  {
    var p := RawSplit(s, seps);
    seq(|p|, i requires 0 <= i < |p| =>
      var a := if i > 0 then TrimLeft(p[i]) else p[i];
      if i < |p| - 1 then TrimRight(a) else a)
  }

  /** The trimmed pieces are what lies between the separators, less the whitespace that
      touches a separator. */
  lemma TrimSplitPieces(s: string, seps: set<char>, i: nat)
    requires i < |TrimSplit(s, seps)|
    ensures var r := TrimSplit(s, seps)[i];
      (forall j :: 0 <= j < |r| ==> r[j] !in seps)
      && (i > 0 && r != [] ==> !IsSpace(r[0]))
      && (i < |TrimSplit(s, seps)| - 1 && r != [] ==> !IsSpace(r[|r| - 1]))
  {
    hide TrimLeft, TrimRight, RawSplit, SepsIn;
    var p := RawSplit(s, seps);
    var a := if i > 0 then TrimLeft(p[i]) else p[i];
    var r := TrimSplit(s, seps)[i];
    assert r == if i < |p| - 1 then TrimRight(a) else a;
    assert |r| <= |a| && r == a[..|r|];
    assert forall j :: 0 <= j < |r| ==> r[j] !in seps by {
      PieceHasNoSeparator(p[i], a, seps);
      forall j | 0 <= j < |r| ensures r[j] !in seps {
        assert r[j] == a[j];
      }
    }
    if i > 0 && r != [] {
      assert r[0] == a[0];
    }
  }

  /** A suffix of a piece without separators has none either. */
  lemma PieceHasNoSeparator(piece: string, a: string, seps: set<char>)
    requires forall j :: 0 <= j < |piece| ==> piece[j] !in seps
    requires |a| <= |piece| && a == piece[|piece| - |a|..]
    ensures forall j :: 0 <= j < |a| ==> a[j] !in seps
  {
    forall j | 0 <= j < |a| ensures a[j] !in seps {
      assert a[j] == piece[|piece| - |a| + j];
    }
  }

  /** A string with no separator is one piece, itself. */
  lemma TrimSplitNoSeparator(s: string, seps: set<char>)
    requires forall j :: 0 <= j < |s| ==> s[j] !in seps
    ensures TrimSplit(s, seps) == [s]
  {
    NoSeparatorOnePiece(s, seps);
  }

  lemma {:induction false} NoSeparatorOnePiece(s: string, seps: set<char>)
    requires forall j :: 0 <= j < |s| ==> s[j] !in seps
    ensures RawSplit(s, seps) == [s]
  {
    if s != [] {
      NoSeparatorOnePiece(s[1..], seps);
      assert [s[0]] + s[1..] == s;
    }
  }

  // ---------------------------------------------------------------- parseInt

  predicate IsDigit(c: char)
  {
    '0' <= c <= '9'
  }

  /** The longest run of decimal digits at the start of `s`. */
  function LeadingDigits(s: string): (r: string)
    ensures |r| <= |s| && r == s[..|r|]
    ensures forall i :: 0 <= i < |r| ==> IsDigit(r[i])
    ensures |r| == |s| || !IsDigit(s[|r|])
  {
    if s != [] && IsDigit(s[0]) then [s[0]] + LeadingDigits(s[1..]) else []
  }

  /** The number a run of decimal digits denotes. */
  function DigitsValue(ds: string): nat
    requires forall i :: 0 <= i < |ds| ==> IsDigit(ds[i])
  {
    if ds == [] then 0
    else
      assert IsDigit(ds[|ds| - 1]);
      DigitsValue(ds[..|ds| - 1]) * 10 + (ds[|ds| - 1] as int - '0' as int)
  }

  /** The value of the leading digits of `v`, `None` when it does not start with one. */
  function ParseDigits(v: string): Option<nat>
  {
    var ds := LeadingDigits(v);
    if ds == [] then None else Some(DigitsValue(ds))
  }

  /** `parseInt(t, 10)`: leading whitespace skipped, an optional sign, then the leading
      digits; `None` (NaN) when there are none. */
  function ParseInt(t: string): (r: Option<int>)
    ensures var u := TrimLeft(t);
      var v := if u != [] && (u[0] == '-' || u[0] == '+') then u[1..] else u;
      r.None? <==> (v == [] || !IsDigit(v[0]))
    ensures r.Some? && r.value < 0 ==> TrimLeft(t) != [] && TrimLeft(t)[0] == '-'
  {
    var u := TrimLeft(t);
    if u != [] && u[0] == '-' then
      var d := ParseDigits(u[1..]);
      if d.None? then None else Some(-(d.value as int))
    else if u != [] && u[0] == '+' then
      var d := ParseDigits(u[1..]);
      if d.None? then None else Some(d.value)
    else
      var d := ParseDigits(u);
      if d.None? then None else Some(d.value)
  }

  /** The port of a `name:port` piece, `parseInt(s[1], 10)` read as `portIdx || 0`: no
      port text (`undefined`) and text without digits (NaN) both give port 0. */
  function PortNumber(t: Option<string>): (p: int)
    ensures t.None? ==> p == 0
    ensures p < 0 ==> t.Some? && '-' in t.value
  {
    if t.None? then 0
    else
      var v := ParseInt(t.value);
      assert v.Some? && v.value < 0 ==> t.value[|t.value| - |TrimLeft(t.value)|] == '-';
      if v.None? then 0 else v.value
  }

  lemma {:induction false} DigitsOfNat(n: nat)
    ensures forall i :: 0 <= i < |NatToString(n)| ==> IsDigit(NatToString(n)[i])
    ensures DigitsValue(NatToString(n)) == n
  {
    if n >= 10 {
      DigitsOfNat(n / 10);
      var s := NatToString(n);
      assert s[..|s| - 1] == NatToString(n / 10);
    }
  }

  lemma {:induction false} LeadingDigitsStop(ds: string, rest: string)
    requires forall i :: 0 <= i < |ds| ==> IsDigit(ds[i])
    requires rest == [] || !IsDigit(rest[0])
    ensures LeadingDigits(ds + rest) == ds
  {
    if ds != [] {
      assert (ds + rest)[1..] == ds[1..] + rest;
      LeadingDigitsStop(ds[1..], rest);
      assert [ds[0]] + ds[1..] == ds;
    } else {
      assert ds + rest == rest;
    }
  }

  lemma ParseDigitsStop(ds: string, rest: string)
    requires ds != [] && forall i :: 0 <= i < |ds| ==> IsDigit(ds[i])
    requires rest == [] || !IsDigit(rest[0])
    ensures ParseDigits(ds + rest) == Some(DigitsValue(ds))
  {
    LeadingDigitsStop(ds, rest);
  }

  lemma SignDropped(m: string)
    ensures (['-'] + m)[0] == '-' && (['-'] + m)[1..] == m
  {
  }

  lemma ParseIntNegated(m: string, v: nat)
    requires ParseDigits(m) == Some(v)
    ensures ParseInt(['-'] + m) == Some(-(v as int))
  {
    SignDropped(m);
    ParseIntMinus(['-'] + m, v);
  }

  lemma ParseIntUnsigned(m: string, v: nat)
    requires m != [] && IsDigit(m[0]) && ParseDigits(m) == Some(v)
    ensures ParseInt(m) == Some(v)
  {
    assert !IsSpace(m[0]);
    var u := TrimLeft(m);
    assert u == m;
    assert u[0] != '-' && u[0] != '+';
  }

  lemma ParseIntMinus(m: string, v: nat)
    requires m != [] && m[0] == '-' && ParseDigits(m[1..]) == Some(v)
    ensures ParseInt(m) == Some(-(v as int))
  {
    assert TrimLeft(m) == m;
  }

  /** `parseInt` reads back the decimal rendering of a number, and after a minus sign
      its negation, whatever non-digit text follows (`parseInt("12px") == 12`). */
  lemma ParseIntReadsNumber(n: nat, rest: string)
    requires rest == [] || !IsDigit(rest[0])
    ensures ParseInt(NatToString(n) + rest) == Some(n)
    ensures ParseInt(['-'] + (NatToString(n) + rest)) == Some(-(n as int))
  {
    var m := NatToString(n) + rest;
    ParseDigitsOfNat(n, rest);
    ParseIntUnsigned(m, n);
    ParseIntNegated(m, n);
  }

  lemma ParseDigitsOfNat(n: nat, rest: string)
    requires rest == [] || !IsDigit(rest[0])
    ensures NatToString(n) + rest != [] && IsDigit((NatToString(n) + rest)[0])
    ensures ParseDigits(NatToString(n) + rest) == Some(n)
  {
    var ds := NatToString(n);
    DigitsOfNat(n);
    ParseDigitsStop(ds, rest);
    assert (ds + rest)[0] == ds[0];
  }

  /** Text with no digit is NaN. */
  lemma ParseIntNoDigits(t: string)
    requires forall i :: 0 <= i < |t| ==> !IsDigit(t[i])
    ensures ParseInt(t) == None
  {
    hide ParseInt, TrimLeft, ParseDigits, LeadingDigits;
    var u := TrimLeft(t);
    var v := if u != [] && (u[0] == '-' || u[0] == '+') then u[1..] else u;
    if v != [] {
      assert v[0] == u[|u| - |v|] == t[|t| - |v|];
    }
  }

  // ---------------------------------------------------------------- pave

  /** What a dotted name can reach from `vars`: a stream, a plain object of named
      values, or any other value, of which only its truthiness matters (`VPrim(false)`
      stands for `null`, `undefined`, `0`, `''` and `false`). */
  datatype VarTree = VStream(n: NodeId) | VDict(fields: map<string, VarTree>) | VPrim(truthy: bool)

  const Null: VarTree := VPrim(false)

  predicate VTruthy(v: VarTree)
  {
    v != Null
  }

  /** Every stream reachable from `v` is one of the first `count`. */
  predicate VarsIn(v: VarTree, count: nat)
  {
    match v
    case VStream(n) => n < count
    case VDict(m) => forall k :: k in m ==> VarsIn(m[k], count)
    case VPrim(_) => true
  }

  /** One turn of `pave`'s loop, `obj = (part in (obj || {}) && obj[part]) || null`:
      a falsy `obj` gives `null`, the `in` operator throws on a truthy primitive, and a
      plain object gives its property when that is truthy. */
  function PaveStep(obj: VarTree, part: string): (r: Result<VarTree>)
    ensures r.Err? <==> obj == VPrim(true)
    ensures r.Ok? && VTruthy(r.value) <==> obj.VDict? && part in obj.fields && VTruthy(obj.fields[part])
    ensures r.Ok? && VTruthy(r.value) ==> r.value == obj.fields[part]
    ensures forall count :: VarsIn(obj, count) && r.Ok? ==> VarsIn(r.value, count)
  {
    match obj
    case VPrim(t) =>
      if t then Err(TypeError("Cannot use 'in' operator to search for '" + part + "'")) else Ok(Null)
    case VStream(_) => Ok(Null)
    case VDict(m) => if part in m && VTruthy(m[part]) then Ok(m[part]) else Ok(Null)
  }

  /** `pave` over the parts of an address, first part first. */
  function PaveSpec(obj: VarTree, parts: seq<string>): (r: Result<VarTree>)
    ensures forall count :: VarsIn(obj, count) && r.Ok? ==> VarsIn(r.value, count)
    decreases |parts|
  {
    if parts == [] then Ok(obj)
    else
      var t := PaveStep(obj, parts[0]);
      if t.Err? then t else PaveSpec(t.value, parts[1..])
  }

  /** `pave(obj, addr)`: `addr.split('.')` walked with `parts.shift()`. */
  method Pave(obj: VarTree, addr: string) returns (r: Result<VarTree>)
    ensures r == PaveSpec(obj, RawSplit(addr, {'.'}))
  {
    var parts := RawSplit(addr, {'.'});
    var cur := obj;
    while parts != []
      invariant PaveSpec(obj, RawSplit(addr, {'.'})) == PaveSpec(cur, parts)
      decreases |parts|
    {
      var part := parts[0];
      parts := parts[1..];
      var t := PaveStep(cur, part);
      if t.Err? {
        return t;
      }
      cur := t.value;
    }
    return Ok(cur);
  }

  /** Paving a longer address continues from where the shorter one ended. */
  lemma {:induction false} PaveAppend(obj: VarTree, p: seq<string>, q: seq<string>)
    ensures PaveSpec(obj, p + q) == (var r := PaveSpec(obj, p); if r.Err? then r else PaveSpec(r.value, q))
    decreases |p|
  {
    if p == [] {
      assert p + q == q;
    } else {
      assert (p + q)[0] == p[0] && (p + q)[1..] == p[1..] + q;
      var t := PaveStep(obj, p[0]);
      if t.Ok? {
        PaveAppend(t.value, p[1..], q);
      }
    }
  }

  /** Once the walk reaches `null` it stays there, whatever parts remain. */
  lemma {:induction false} PaveNullStaysNull(parts: seq<string>)
    ensures PaveSpec(Null, parts) == Ok(Null)
  {
    if parts != [] {
      PaveNullStaysNull(parts[1..]);
    }
  }

  /** `pave` throws exactly when some part is looked up in a truthy primitive. */
  lemma {:induction false} PaveThrowsOnPrimitive(obj: VarTree, parts: seq<string>)
    ensures PaveSpec(obj, parts).Err? <==> exists i :: 0 <= i < |parts| && PaveSpec(obj, parts[..i]) == Ok(VPrim(true))
    decreases |parts|
  {
    if parts != [] {
      var t := PaveStep(obj, parts[0]);
      assert parts[..0] == [];
      if t.Ok? {
        PaveThrowsOnPrimitive(t.value, parts[1..]);
        if PaveSpec(obj, parts).Err? {
          var i :| 0 <= i < |parts[1..]| && PaveSpec(t.value, parts[1..][..i]) == Ok(VPrim(true));
          assert parts[..i + 1] == [parts[0]] + parts[1..][..i];
          assert PaveSpec(obj, parts[..i + 1]) == PaveSpec(t.value, parts[1..][..i]);
        } else {
          forall i | 0 <= i < |parts|
            ensures PaveSpec(obj, parts[..i]) != Ok(VPrim(true))
          {
            if i > 0 {
              assert parts[..i] == [parts[0]] + parts[1..][..i - 1];
            }
          }
        }
      }
    }
  }

  /** A name without dots is one property of `vars`. */
  lemma PaveOneName(m: map<string, VarTree>, name: string)
    requires forall j :: 0 <= j < |name| ==> name[j] != '.'
    ensures PaveSpec(VDict(m), RawSplit(name, {'.'})) == if name in m && VTruthy(m[name]) then Ok(m[name]) else Ok(Null)
  {
    NoSeparatorOnePiece(name, {'.'});
    assert RawSplit(name, {'.'})[1..] == [];
  }

  // ---------------------------------------------------------------- links

  /** `xDef`, the stream a link starts from, as a chain element. */
  function XElem(v: VarTree): (e: ChainElem)
    ensures forall count :: VarsIn(v, count) ==> ElemIn(e, count)
    ensures !e.Pair? && (e.Node? <==> v.VStream?) && (e.Falsy? <==> v == VPrim(false))
  {
    match v
    case VStream(n) => Node(n)
    case VDict(_) => Junk
    case VPrim(t) => if t then Junk else Falsy
  }

  /** `sDef` after `if (s.length && sDef) sDef = [sDef, port]`: a truthy value becomes
      a pair, which only a stream in its first place can serve. */
  function SElem(v: VarTree, port: nat): (e: ChainElem)
    ensures forall count :: VarsIn(v, count) ==> ElemIn(e, count)
    ensures !e.Node? && (e.Pair? <==> v.VStream?) && (e.Pair? ==> e.port == port)
    ensures e.Falsy? <==> v == VPrim(false)
  {
    match v
    case VStream(n) => Pair(n, port)
    case VDict(_) => Junk
    case VPrim(t) => if t then Junk else Falsy
  }

  /** The pipelines of a graph string: `graph.split(/\s*,\s*\/)`. */
  function Pipelines(graph: string): (r: seq<string>)
    ensures |r| == |SepsIn(graph, {','})| + 1
  {
    TrimSplit(graph, {','})
  }

  /** The names of a pipeline: `pipeline.split(/\s*[|>]\s*\/)`. */
  function Names(pipeline: string): (r: seq<string>)
    ensures |r| == |SepsIn(pipeline, {'|', '>'})| + 1
  {
    TrimSplit(pipeline, {'|', '>'})
  }

  /** A name of a pipeline read: the dotted path of the text before its first `:`, and
      `parseInt` of the text after it read as a port. */
  datatype Name = Name(path: seq<string>, port: int)

  /** `s = s.split(/\s*:\s*\/)`: the path `s[0]` and the port `parseInt(s[1], 10)`. */
  function ParseName(piece: string): (r: Name)
    ensures |r.path| >= 1
    ensures forall i, j :: 0 <= i < |r.path| && 0 <= j < |r.path[i]| ==> r.path[i][j] != '.'
  {
    var s := TrimSplit(piece, {':'});
    Name(RawSplit(s[0], {'.'}), PortNumber(if |s| > 1 then Some(s[1]) else None))
  }

  /** The names of a pipeline, read. */
  function NamesOf(pipeline: string): (r: seq<Name>)
    ensures |r| == |SepsIn(pipeline, {'|', '>'})| + 1
  {
    var ns := Names(pipeline);
    seq(|ns|, i requires 0 <= i < |ns| => ParseName(ns[i]))
  }

  /** No name asks for a negative port. */
  predicate PortsUnsigned(names: seq<Name>)
  {
    forall j :: 0 <= j < |names| ==> names[j].port >= 0
  }

  predicate UnsignedPorts(graph: string)
  {
    forall i :: 0 <= i < |Pipelines(graph)| ==> PortsUnsigned(NamesOf(Pipelines(graph)[i]))
  }

  /** What one link asks of the chain operations: `o.split([x, s])`, and for `>` also
      `o.splice([x, s])`. */
  datatype Cmd = Cmd(x: ChainElem, s: ChainElem, splice: bool)

  predicate CmdsIn(cmds: seq<Cmd>, count: nat)
  {
    forall i :: 0 <= i < |cmds| ==> ElemIn(cmds[i].x, count) && ElemIn(cmds[i].s, count)
  }

  /** The links of a pipeline paved so far, and how paving ended. */
  datatype Plan = Plan(cmds: seq<Cmd>, stop: Outcome)

  /** Paving one link `x op s`: `s` first, then `x`; either may throw. */
  function LinkCmd(vars: VarTree, x: Name, s: Name, op: char): (r: Result<Cmd>)
    requires s.port >= 0
    ensures r.Ok? ==> r.value.splice == (op == '>')
  {
    var sDef := PaveSpec(vars, s.path);
    var xDef := PaveSpec(vars, x.path);
    if sDef.Err? then Err(sDef.error)
    else if xDef.Err? then Err(xDef.error)
    else Ok(Cmd(XElem(xDef.value), SElem(sDef.value, s.port), op == '>'))
  }

  /** Every link of a pipeline paved on its own. */
  function LinkCmdsOf(vars: VarTree, names: seq<Name>, ops: seq<char>): (rs: seq<Result<Cmd>>)
    requires |names| == |ops| + 1
    requires PortsUnsigned(names)
    ensures |rs| == |ops|
  {
    seq(|ops|, i requires 0 <= i < |ops| => LinkCmd(vars, names[i], names[i + 1], ops[i]))
  }

  lemma LinkCmdsOfAt(vars: VarTree, names: seq<Name>, ops: seq<char>, i: nat)
    requires |names| == |ops| + 1 && i < |ops|
    requires PortsUnsigned(names)
    ensures LinkCmdsOf(vars, names, ops)[i] == LinkCmd(vars, names[i], names[i + 1], ops[i])
  {
  }

  /** The first `k` links paved in order, up to the first that throws. */
  function Paved(rs: seq<Result<Cmd>>, k: nat): (p: Plan)
    requires k <= |rs|
    ensures |p.cmds| <= k && (p.stop == Done ==> |p.cmds| == k)
    ensures forall i :: 0 <= i < |p.cmds| ==> rs[i] == Ok(p.cmds[i])
  {
    if k == 0 then Plan([], Done)
    else
      var p := Paved(rs, k - 1);
      if p.stop.Threw? then p
      else if rs[k - 1].Err? then Plan(p.cmds, Threw(rs[k - 1].error))
      else Plan(p.cmds + [rs[k - 1].value], Done)
  }

  predicate ResultsIn(rs: seq<Result<Cmd>>, count: nat)
  {
    forall i :: 0 <= i < |rs| && rs[i].Ok? ==> ElemIn(rs[i].value.x, count) && ElemIn(rs[i].value.s, count)
  }

  lemma CmdsInAppend(cmds: seq<Cmd>, c: Cmd, count: nat)
    requires CmdsIn(cmds, count) && ElemIn(c.x, count) && ElemIn(c.s, count)
    ensures CmdsIn(cmds + [c], count)
  {
  }

  /** Paving reaches only the streams `vars` holds. */
  lemma LinkCmdIn(vars: VarTree, x: Name, s: Name, op: char, count: nat)
    requires s.port >= 0 && VarsIn(vars, count)
    ensures var r := LinkCmd(vars, x, s, op); r.Ok? ==> ElemIn(r.value.x, count) && ElemIn(r.value.s, count)
  {
  }

  lemma LinkCmdsOfIn(vars: VarTree, names: seq<Name>, ops: seq<char>, count: nat)
    requires |names| == |ops| + 1
    requires PortsUnsigned(names)
    requires VarsIn(vars, count)
    ensures ResultsIn(LinkCmdsOf(vars, names, ops), count)
  {
    var rs := LinkCmdsOf(vars, names, ops);
    forall i | 0 <= i < |rs| && rs[i].Ok?
      ensures ElemIn(rs[i].value.x, count) && ElemIn(rs[i].value.s, count)
    {
      LinkCmdIn(vars, names[i], names[i + 1], ops[i], count);
    }
  }

  lemma PavedIn(rs: seq<Result<Cmd>>, k: nat, count: nat)
    requires k <= |rs| && ResultsIn(rs, count)
    ensures CmdsIn(Paved(rs, k).cmds, count)
  {
    var p := Paved(rs, k);
    forall i | 0 <= i < |p.cmds|
      ensures ElemIn(p.cmds[i].x, count) && ElemIn(p.cmds[i].s, count)
    {
      assert rs[i] == Ok(p.cmds[i]);
    }
  }

  /** The operator check of a pipeline as written: with no operator `match` gives
      `null`, and reading its `length` throws a TypeError before the intended check. */
  function OperatorsAsWritten(pipeline: string): (r: Result<seq<char>>)
    ensures r.Ok? ==> r.value == SepsIn(pipeline, {'|', '>'}) && r.value != []
  {
    var ops := SepsIn(pipeline, {'|', '>'});
    if ops == [] then Err(TypeError("Cannot read properties of null (reading 'length')")) else Ok(ops)
  }

  /** The operator check as intended: a pipeline with no `|` or `>` throws a message
      naming it. */
  function Operators(pipeline: string): (r: Result<seq<char>>)
    ensures r.Ok? ==> r.value == SepsIn(pipeline, {'|', '>'}) && r.value != []
  {
    var ops := SepsIn(pipeline, {'|', '>'});
    if ops == [] then Err(Raised("No operators found in pipe: " + pipeline)) else Ok(ops)
  }

  /** One link on the stream system. */
  function ExecCmd(st: seq<LibNode>, g: GlobalHooks, raises: nat -> bool, rid: nat, gen: nat, c: Cmd): (r: ChainRun)
    requires ElemIn(c.x, |st|) && ElemIn(c.s, |st|)
    ensures |r.nodes| == |st|
  {
    var u := SplitAll(st, g, raises, rid, [c.x, c.s]);
    if u.outcome.Threw? || !c.splice then ChainRun(u.nodes, u.events, gen, u.outcome)
    else
      var j := SpliceAll(u.nodes, g, raises, rid, gen, [c.x, c.s]);
      ChainRun(j.nodes, u.events + j.events, j.closures, j.outcome)
  }

  /** Links run one after another until one throws. */
  function Exec(st: seq<LibNode>, g: GlobalHooks, raises: nat -> bool, rid: nat, gen: nat, cmds: seq<Cmd>): (r: ChainRun)
    requires CmdsIn(cmds, |st|)
    ensures |r.nodes| == |st|
  {
    if cmds == [] then ChainRun(st, [], gen, Done)
    else
      var w := Exec(st, g, raises, rid, gen, cmds[..|cmds| - 1]);
      if w.outcome.Threw? then w
      else
        var l := ExecCmd(w.nodes, g, raises, rid, w.closures, cmds[|cmds| - 1]);
        ChainRun(l.nodes, w.events + l.events, l.closures, l.outcome)
  }

  /** Paved links run on the stream system until one throws; if none throws, the run
      ends as paving ended. Paving reads only `vars`, so paving every link first gives
      what the source's interleaving of paving and running gives. */
  function RunPaved(st: seq<LibNode>, g: GlobalHooks, raises: nat -> bool, rid: nat, gen: nat, rs: seq<Result<Cmd>>): (r: ChainRun)
    requires ResultsIn(rs, |st|)
    ensures |r.nodes| == |st|
  {
    var p := Paved(rs, |rs|);
    PavedIn(rs, |rs|, |st|);
    var e := Exec(st, g, raises, rid, gen, p.cmds);
    if e.outcome.Threw? then e else ChainRun(e.nodes, e.events, e.closures, p.stop)
  }

  /** What paving makes of one pipeline: the operator check's error, or one paving
      result per link. It reads only `vars`. */
  function LinksOf(vars: VarTree, pipeline: string): (p: Result<seq<Result<Cmd>>>)
    requires PortsUnsigned(NamesOf(pipeline))
    ensures p.Err? <==> SepsIn(pipeline, {'|', '>'}) == []
    ensures p.Ok? ==> |p.value| == |SepsIn(pipeline, {'|', '>'})|
  {
    var ops := Operators(pipeline);
    if ops.Err? then Err(ops.error) else Ok(LinkCmdsOf(vars, NamesOf(pipeline), ops.value))
  }

  predicate LinksIn(p: Result<seq<Result<Cmd>>>, count: nat)
  {
    p.Ok? ==> ResultsIn(p.value, count)
  }

  lemma LinksOfIn(vars: VarTree, pipeline: string, count: nat)
    requires PortsUnsigned(NamesOf(pipeline)) && VarsIn(vars, count)
    ensures LinksIn(LinksOf(vars, pipeline), count)
  {
    var ops := Operators(pipeline);
    if ops.Ok? {
      LinkCmdsOfIn(vars, NamesOf(pipeline), ops.value, count);
    }
  }

  /** A paved pipeline on the stream system. */
  function RunLinksOf(st: seq<LibNode>, g: GlobalHooks, raises: nat -> bool, rid: nat, gen: nat, p: Result<seq<Result<Cmd>>>): (r: ChainRun)
    requires LinksIn(p, |st|)
    ensures |r.nodes| == |st|
  {
    if p.Err? then ChainRun(st, [], gen, Threw(p.error))
    else RunPaved(st, g, raises, rid, gen, p.value)
  }

  /** One pipeline on the stream system: the operator check, then its links. */
  function PipelineRun(st: seq<LibNode>, g: GlobalHooks, raises: nat -> bool, rid: nat, gen: nat, vars: VarTree, pipeline: string): (r: ChainRun)
    requires VarsIn(vars, |st|)
    requires PortsUnsigned(NamesOf(pipeline))
    ensures |r.nodes| == |st|
  {
    LinksOfIn(vars, pipeline, |st|);
    RunLinksOf(st, g, raises, rid, gen, LinksOf(vars, pipeline))
  }

  /** The first `k` paved pipelines. */
  function Pipes(st: seq<LibNode>, g: GlobalHooks, raises: nat -> bool, rid: nat, gen: nat, ls: seq<Result<seq<Result<Cmd>>>>, k: nat): (r: ChainRun)
    requires k <= |ls|
    requires forall i :: 0 <= i < |ls| ==> LinksIn(ls[i], |st|)
    ensures |r.nodes| == |st|
  {
    if k == 0 then ChainRun(st, [], gen, Done)
    else
      var w := Pipes(st, g, raises, rid, gen, ls, k - 1);
      if w.outcome.Threw? then w
      else
        var l := RunLinksOf(w.nodes, g, raises, rid, w.closures, ls[k - 1]);
        ChainRun(l.nodes, w.events + l.events, l.closures, l.outcome)
  }

  /** The pipelines of a graph, each paved. */
  function PipelinesPaved(vars: VarTree, graph: string): (ls: seq<Result<seq<Result<Cmd>>>>)
    requires UnsignedPorts(graph)
    ensures |ls| == |Pipelines(graph)|
  {
    var ps := Pipelines(graph);
    seq(|ps|, i requires 0 <= i < |ps| => LinksOf(vars, ps[i]))
  }

  lemma PipelinesPavedIn(vars: VarTree, graph: string, count: nat)
    requires UnsignedPorts(graph) && VarsIn(vars, count)
    ensures forall i :: 0 <= i < |Pipelines(graph)| ==> LinksIn(PipelinesPaved(vars, graph)[i], count)
  {
    var ps := Pipelines(graph);
    forall i | 0 <= i < |ps|
      ensures LinksIn(PipelinesPaved(vars, graph)[i], count)
    {
      LinksOfIn(vars, ps[i], count);
    }
  }

  /** `o.pipe(vars, graph)` as a function of the stream system: the comma-separated
      pipelines in turn, until one throws. */
  function PipeAll(st: seq<LibNode>, g: GlobalHooks, raises: nat -> bool, rid: nat, gen: nat, vars: VarTree, graph: string): (r: ChainRun)
    requires VarsIn(vars, |st|) && UnsignedPorts(graph)
    ensures |r.nodes| == |st|
  {
    PipelinesPavedIn(vars, graph, |st|);
    Pipes(st, g, raises, rid, gen, PipelinesPaved(vars, graph), |Pipelines(graph)|)
  }

  /** The first `k` pipelines of a graph. */
  function PipesOf(st: seq<LibNode>, g: GlobalHooks, raises: nat -> bool, rid: nat, gen: nat, vars: VarTree, graph: string, k: nat): (r: ChainRun)
    requires VarsIn(vars, |st|) && UnsignedPorts(graph) && k <= |Pipelines(graph)|
    ensures |r.nodes| == |st|
  {
    PipelinesPavedIn(vars, graph, |st|);
    Pipes(st, g, raises, rid, gen, PipelinesPaved(vars, graph), k)
  }

  lemma PipesOfNone(st: seq<LibNode>, g: GlobalHooks, raises: nat -> bool, rid: nat, gen: nat, vars: VarTree, graph: string)
    requires VarsIn(vars, |st|) && UnsignedPorts(graph)
    ensures PipesOf(st, g, raises, rid, gen, vars, graph, 0) == ChainRun(st, [], gen, Done)
  {
  }

  lemma PipesOfAll(st: seq<LibNode>, g: GlobalHooks, raises: nat -> bool, rid: nat, gen: nat, vars: VarTree, graph: string)
    requires VarsIn(vars, |st|) && UnsignedPorts(graph)
    ensures PipeAll(st, g, raises, rid, gen, vars, graph) == PipesOf(st, g, raises, rid, gen, vars, graph, |Pipelines(graph)|)
  {
  }

  lemma PipesOfStop(st: seq<LibNode>, g: GlobalHooks, raises: nat -> bool, rid: nat, gen: nat, vars: VarTree, graph: string, k: nat)
    requires VarsIn(vars, |st|) && UnsignedPorts(graph) && k <= |Pipelines(graph)|
    requires PipesOf(st, g, raises, rid, gen, vars, graph, k).outcome.Threw?
    ensures PipeAll(st, g, raises, rid, gen, vars, graph) == PipesOf(st, g, raises, rid, gen, vars, graph, k)
  {
    PipelinesPavedIn(vars, graph, |st|);
    PipesStop(st, g, raises, rid, gen, PipelinesPaved(vars, graph), k, |Pipelines(graph)|);
  }

  // ---------------------------------------------------------------- the loops

  /** After a link fails to pave, the later links are not paved. */
  lemma {:induction false} PavedStops(rs: seq<Result<Cmd>>, j: nat, k: nat)
    requires j <= k <= |rs| && Paved(rs, j).stop.Threw?
    ensures Paved(rs, k) == Paved(rs, j)
  {
    if k > j {
      PavedStops(rs, j, k - 1);
    }
  }

  /** Paving more links only adds commands at the end. */
  lemma {:induction false} PavedPrefix(rs: seq<Result<Cmd>>, j: nat, k: nat)
    requires j <= k <= |rs|
    ensures |Paved(rs, j).cmds| <= |Paved(rs, k).cmds|
    ensures Paved(rs, k).cmds[..|Paved(rs, j).cmds|] == Paved(rs, j).cmds
  {
    if k > j {
      PavedPrefix(rs, j, k - 1);
      var p := Paved(rs, k - 1);
      if !p.stop.Threw? && rs[k - 1].Ok? {
        assert (p.cmds + [rs[k - 1].value])[..|p.cmds|] == p.cmds;
      }
    }
  }

  /** A link that throws ends the run: the links after it are not run. */
  lemma {:induction false} ExecStops(st: seq<LibNode>, g: GlobalHooks, raises: nat -> bool, rid: nat, gen: nat, cmds: seq<Cmd>, j: nat)
    requires CmdsIn(cmds, |st|) && j <= |cmds|
    requires Exec(st, g, raises, rid, gen, cmds[..j]).outcome.Threw?
    ensures Exec(st, g, raises, rid, gen, cmds) == Exec(st, g, raises, rid, gen, cmds[..j])
    decreases |cmds|
  {
    if j < |cmds| {
      assert cmds[..|cmds| - 1][..j] == cmds[..j];
      ExecStops(st, g, raises, rid, gen, cmds[..|cmds| - 1], j);
    } else {
      assert cmds[..j] == cmds;
    }
  }

  /** Paving one link: `s` is split at `:` and paved, then `x`. */
  method PaveLink(vars: VarTree, x: string, s: string, op: char) returns (c: Result<Cmd>)
    requires ParseName(s).port >= 0
    ensures c == LinkCmd(vars, ParseName(x), ParseName(s), op)
  {
    var sParts := TrimSplit(s, {':'});
    var sDef := Pave(vars, sParts[0]);
    if sDef.Err? {
      return Err(sDef.error);
    }
    var xParts := TrimSplit(x, {':'});
    var xDef := Pave(vars, xParts[0]);
    if xDef.Err? {
      return Err(xDef.error);
    }
    var port := PortNumber(if |sParts| > 1 then Some(sParts[1]) else None);
    c := Ok(Cmd(XElem(xDef.value), SElem(sDef.value, port), op == '>'));
  }

  /** One link on the streams: `o.split([xDef, sDef])`, then `o.splice` for `>`. */
  method RunCmd(st: seq<LibNode>, g: GlobalHooks, raises: nat -> bool, rid: nat, gen: nat, c: Cmd) returns (r: ChainRun)
    requires ElemIn(c.x, |st|) && ElemIn(c.s, |st|)
    ensures r == ExecCmd(st, g, raises, rid, gen, c)
  {
    var u := RunSplit(st, g, raises, rid, [c.x, c.s]);
    r := ChainRun(u.nodes, u.events, gen, u.outcome);
    if u.outcome.Done? && c.splice {
      var j := RunSplice(u.nodes, g, raises, rid, gen, [c.x, c.s]);
      r := ChainRun(j.nodes, u.events + j.events, j.closures, j.outcome);
    }
  }

  /** Paving one more link after links that all paved. */
  lemma PavedNext(rs: seq<Result<Cmd>>, k: nat)
    requires k < |rs| && Paved(rs, k).stop == Done
    ensures Paved(rs, k + 1) == if rs[k].Err? then Plan(Paved(rs, k).cmds, Threw(rs[k].error)) else Plan(Paved(rs, k).cmds + [rs[k].value], Done)
  {
  }

  /** Running one more link after links that all ran. */
  lemma ExecNext(st: seq<LibNode>, g: GlobalHooks, raises: nat -> bool, rid: nat, gen: nat, cmds: seq<Cmd>, c: Cmd)
    requires CmdsIn(cmds, |st|) && ElemIn(c.x, |st|) && ElemIn(c.s, |st|)
    requires Exec(st, g, raises, rid, gen, cmds).outcome == Done
    ensures CmdsIn(cmds + [c], |st|)
    ensures var w := Exec(st, g, raises, rid, gen, cmds);
      var l := ExecCmd(w.nodes, g, raises, rid, w.closures, c);
      Exec(st, g, raises, rid, gen, cmds + [c]) == ChainRun(l.nodes, w.events + l.events, l.closures, l.outcome)
  {
    CmdsInAppend(cmds, c, |st|);
    assert (cmds + [c])[..|cmds|] == cmds;
  }

  /** A link that fails to pave ends the pipeline with its error, after the links
      before it ran. */
  lemma RunPavedPaveError(st: seq<LibNode>, g: GlobalHooks, raises: nat -> bool, rid: nat, gen: nat, rs: seq<Result<Cmd>>, k: nat)
    requires ResultsIn(rs, |st|) && k < |rs| && Paved(rs, k).stop == Done && rs[k].Err?
    requires CmdsIn(Paved(rs, k).cmds, |st|) && Exec(st, g, raises, rid, gen, Paved(rs, k).cmds).outcome == Done
    ensures var e := Exec(st, g, raises, rid, gen, Paved(rs, k).cmds);
      RunPaved(st, g, raises, rid, gen, rs) == ChainRun(e.nodes, e.events, e.closures, Threw(rs[k].error))
  {
    hide Exec, Paved;
    PavedNext(rs, k);
    PavedStops(rs, k + 1, |rs|);
  }

  /** A link that throws ends the pipeline. */
  lemma RunPavedThrows(st: seq<LibNode>, g: GlobalHooks, raises: nat -> bool, rid: nat, gen: nat, rs: seq<Result<Cmd>>, k: nat)
    requires ResultsIn(rs, |st|) && k < |rs| && Paved(rs, k).stop == Done && rs[k].Ok?
    requires CmdsIn(Paved(rs, k).cmds + [rs[k].value], |st|)
    requires Exec(st, g, raises, rid, gen, Paved(rs, k).cmds + [rs[k].value]).outcome.Threw?
    ensures RunPaved(st, g, raises, rid, gen, rs) == Exec(st, g, raises, rid, gen, Paved(rs, k).cmds + [rs[k].value])
  {
    PavedNext(rs, k);
    PavedPrefix(rs, k + 1, |rs|);
    PavedIn(rs, |rs|, |st|);
    ExecStops(st, g, raises, rid, gen, Paved(rs, |rs|).cmds, k + 1);
  }

  /** When every link paved, the pipeline's run is that of all its commands. */
  lemma RunPavedAllPaved(st: seq<LibNode>, g: GlobalHooks, raises: nat -> bool, rid: nat, gen: nat, rs: seq<Result<Cmd>>)
    requires ResultsIn(rs, |st|) && Paved(rs, |rs|).stop == Done && CmdsIn(Paved(rs, |rs|).cmds, |st|)
    ensures RunPaved(st, g, raises, rid, gen, rs) == Exec(st, g, raises, rid, gen, Paved(rs, |rs|).cmds)
  {
  }

  /** Link `idx` of a pipeline: pave it, then run it; a throw in either ends the
      pipeline. */
  method RunLinkAt(st: seq<LibNode>, g: GlobalHooks, raises: nat -> bool, rid: nat, gen: nat, vars: VarTree,
                   names: seq<string>, ops: seq<char>, ghost rs: seq<Result<Cmd>>, idx: nat, r0: ChainRun)
    returns (r: ChainRun)
    requires |names| == |ops| + 1 && |rs| == |ops| && ResultsIn(rs, |st|) && idx < |ops|
    requires forall i :: 1 <= i < |names| ==> ParseName(names[i]).port >= 0
    requires forall i :: 0 <= i < |ops| ==> rs[i] == LinkCmd(vars, ParseName(names[i]), ParseName(names[i + 1]), ops[i])
    requires Paved(rs, idx).stop == Done && CmdsIn(Paved(rs, idx).cmds, |st|)
    requires r0 == Exec(st, g, raises, rid, gen, Paved(rs, idx).cmds) && r0.outcome == Done
    ensures r.outcome.Threw? ==> r == RunPaved(st, g, raises, rid, gen, rs)
    ensures r.outcome.Done? ==>
      Paved(rs, idx + 1).stop == Done && CmdsIn(Paved(rs, idx + 1).cmds, |st|)
      && r == Exec(st, g, raises, rid, gen, Paved(rs, idx + 1).cmds)
  {
    var c := PaveLink(vars, names[idx], names[idx + 1], ops[idx]);
    ghost var cmds := Paved(rs, idx).cmds;
    PavedNext(rs, idx);
    PavedIn(rs, idx + 1, |st|);
    if c.Err? {
      RunPavedPaveError(st, g, raises, rid, gen, rs, idx);
      return ChainRun(r0.nodes, r0.events, r0.closures, Threw(c.error));
    }
    ExecNext(st, g, raises, rid, gen, cmds, c.value);
    var l := RunCmd(r0.nodes, g, raises, rid, r0.closures, c.value);
    r := ChainRun(l.nodes, r0.events + l.events, l.closures, l.outcome);
    if l.outcome.Threw? {
      RunPavedThrows(st, g, raises, rid, gen, rs, idx);
    }
  }

  /** The links of one pipeline from left to right, each link's `s` becoming the next
      one's `x`; a throw ends the pipeline. */
  method RunLinks(st: seq<LibNode>, g: GlobalHooks, raises: nat -> bool, rid: nat, gen: nat, vars: VarTree,
                  names: seq<string>, ops: seq<char>, ghost rs: seq<Result<Cmd>>)
    returns (r: ChainRun)
    requires |names| == |ops| + 1 && |rs| == |ops| && ResultsIn(rs, |st|)
    requires forall i :: 1 <= i < |names| ==> ParseName(names[i]).port >= 0
    requires forall i :: 0 <= i < |ops| ==> rs[i] == LinkCmd(vars, ParseName(names[i]), ParseName(names[i + 1]), ops[i])
    ensures r == RunPaved(st, g, raises, rid, gen, rs)
  {
    r := ChainRun(st, [], gen, Done);
    var idx := 0;
    while idx < |ops|
      invariant 0 <= idx <= |ops| && r.outcome == Done
      invariant Paved(rs, idx).stop == Done && CmdsIn(Paved(rs, idx).cmds, |st|)
      invariant r == Exec(st, g, raises, rid, gen, Paved(rs, idx).cmds)
    {
      r := RunLinkAt(st, g, raises, rid, gen, vars, names, ops, rs, idx, r);
      if r.outcome.Threw? {
        return;
      }
      idx := idx + 1;
    }
    RunPavedAllPaved(st, g, raises, rid, gen, rs);
  }

  /** One pipeline: the operator check, then its links. */
  method RunPipeline(st: seq<LibNode>, g: GlobalHooks, raises: nat -> bool, rid: nat, gen: nat, vars: VarTree, pipeline: string)
    returns (r: ChainRun)
    requires VarsIn(vars, |st|)
    requires PortsUnsigned(NamesOf(pipeline))
    ensures r == PipelineRun(st, g, raises, rid, gen, vars, pipeline)
  {
    var ops := Operators(pipeline);
    if ops.Err? {
      return ChainRun(st, [], gen, Threw(ops.error));
    }
    var names := Names(pipeline);
    ghost var ns := NamesOf(pipeline);
    ghost var rs := LinkCmdsOf(vars, ns, ops.value);
    LinkCmdsOfIn(vars, ns, ops.value, |st|);
    forall i | 0 <= i < |names|
      ensures ns[i] == ParseName(names[i])
    {
    }
    forall i | 0 <= i < |ops.value|
      ensures rs[i] == LinkCmd(vars, ParseName(names[i]), ParseName(names[i + 1]), ops.value[i])
    {
      LinkCmdsOfAt(vars, ns, ops.value, i);
    }
    r := RunLinks(st, g, raises, rid, gen, vars, names, ops.value, rs);
  }

  /** A pipeline after a throw is not run. */
  lemma PipesThrewNext(st: seq<LibNode>, g: GlobalHooks, raises: nat -> bool, rid: nat, gen: nat, ls: seq<Result<seq<Result<Cmd>>>>, k: nat)
    requires 0 < k <= |ls|
    requires forall i :: 0 <= i < |ls| ==> LinksIn(ls[i], |st|)
    requires Pipes(st, g, raises, rid, gen, ls, k - 1).outcome.Threw?
    ensures Pipes(st, g, raises, rid, gen, ls, k) == Pipes(st, g, raises, rid, gen, ls, k - 1)
  {
  }

  /** After a pipeline throws, the later pipelines are not run. */
  lemma {:induction false} PipesStop(st: seq<LibNode>, g: GlobalHooks, raises: nat -> bool, rid: nat, gen: nat, ls: seq<Result<seq<Result<Cmd>>>>, j: nat, k: nat)
    requires j <= k <= |ls|
    requires forall i :: 0 <= i < |ls| ==> LinksIn(ls[i], |st|)
    requires Pipes(st, g, raises, rid, gen, ls, j).outcome.Threw?
    ensures Pipes(st, g, raises, rid, gen, ls, k) == Pipes(st, g, raises, rid, gen, ls, j)
  {
    // Each step is PipesThrewNext; the runs' definitions are not needed here.
    hide *;
    if k > j {
      PipesStop(st, g, raises, rid, gen, ls, j, k - 1);
      PipesThrewNext(st, g, raises, rid, gen, ls, k);
    }
  }

  /** Pipeline `i` of a graph, after the ones before it ran without a throw. */
  method RunPipeAt(st: seq<LibNode>, g: GlobalHooks, raises: nat -> bool, rid: nat, gen: nat, vars: VarTree,
                   graph: string, pipeline: string, i: nat, r0: ChainRun)
    returns (r: ChainRun)
    requires VarsIn(vars, |st|) && UnsignedPorts(graph)
    requires i < |Pipelines(graph)| && pipeline == Pipelines(graph)[i]
    requires r0 == PipesOf(st, g, raises, rid, gen, vars, graph, i) && r0.outcome == Done
    ensures r == PipesOf(st, g, raises, rid, gen, vars, graph, i + 1)
  {
    PipelinesPavedIn(vars, graph, |st|);
    var l := RunPipeline(r0.nodes, g, raises, rid, r0.closures, vars, pipeline);
    r := ChainRun(l.nodes, r0.events + l.events, l.closures, l.outcome);
  }

  /** The comma-separated pipelines of a graph, one after another. */
  method RunPipes(st: seq<LibNode>, g: GlobalHooks, raises: nat -> bool, rid: nat, gen: nat, vars: VarTree, graph: string)
    returns (r: ChainRun)
    requires VarsIn(vars, |st|) && UnsignedPorts(graph)
    ensures r == PipeAll(st, g, raises, rid, gen, vars, graph)
  {
    // The proof needs only the lemmas' contracts; the runs' definitions would only
    // slow the solver down.
    hide *;
    var ps := Pipelines(graph);
    PipesOfNone(st, g, raises, rid, gen, vars, graph);
    r := ChainRun(st, [], gen, Done);
    var i := 0;
    while i < |ps|
      invariant 0 <= i <= |ps| && r.outcome == Done
      invariant r == PipesOf(st, g, raises, rid, gen, vars, graph, i)
    {
      r := RunPipeAt(st, g, raises, rid, gen, vars, graph, ps[i], i, r);
      i := i + 1;
      if r.outcome.Threw? {
        PipesOfStop(st, g, raises, rid, gen, vars, graph, i);
        return;
      }
    }
    PipesOfAll(st, g, raises, rid, gen, vars, graph);
  }

  // ---------------------------------------------------------------- health

  /** A link keeps the stream system healthy. */
  lemma ExecCmdKeepsHealthy(st: seq<LibNode>, g: GlobalHooks, raises: nat -> bool, rid: nat, gen: nat, c: Cmd)
    requires Healthy(st, rid) && ElemIn(c.x, |st|) && ElemIn(c.s, |st|)
    ensures Healthy(ExecCmd(st, g, raises, rid, gen, c).nodes, rid)
  {
    var chain := [c.x, c.s];
    SplitWalkKeepsHealthy(st, g, raises, rid, Head(chain), Tail(chain));
    var u := SplitAll(st, g, raises, rid, chain);
    SpliceWalkKeepsHealthy(u.nodes, g, raises, rid, gen, Head(chain), Tail(chain));
  }

  /** Links run in turn keep the stream system healthy. */
  lemma {:induction false} ExecKeepsHealthy(st: seq<LibNode>, g: GlobalHooks, raises: nat -> bool, rid: nat, gen: nat, cmds: seq<Cmd>)
    requires Healthy(st, rid) && CmdsIn(cmds, |st|)
    ensures Healthy(Exec(st, g, raises, rid, gen, cmds).nodes, rid)
  {
    if cmds != [] {
      var init := cmds[..|cmds| - 1];
      ExecKeepsHealthy(st, g, raises, rid, gen, init);
      var w := Exec(st, g, raises, rid, gen, init);
      if !w.outcome.Threw? {
        ExecCmdKeepsHealthy(w.nodes, g, raises, rid, w.closures, cmds[|cmds| - 1]);
      }
    }
  }

  /** One paved pipeline keeps the stream system healthy. */
  lemma RunLinksOfKeepsHealthy(st: seq<LibNode>, g: GlobalHooks, raises: nat -> bool, rid: nat, gen: nat, p: Result<seq<Result<Cmd>>>)
    requires Healthy(st, rid) && LinksIn(p, |st|)
    ensures Healthy(RunLinksOf(st, g, raises, rid, gen, p).nodes, rid)
  {
    if p.Ok? {
      PavedIn(p.value, |p.value|, |st|);
      ExecKeepsHealthy(st, g, raises, rid, gen, Paved(p.value, |p.value|).cmds);
    }
  }

  /** Paved pipelines run in turn keep the stream system healthy. */
  lemma {:induction false} PipesKeepHealthy(st: seq<LibNode>, g: GlobalHooks, raises: nat -> bool, rid: nat, gen: nat, ls: seq<Result<seq<Result<Cmd>>>>, k: nat)
    requires Healthy(st, rid) && k <= |ls|
    requires forall i :: 0 <= i < |ls| ==> LinksIn(ls[i], |st|)
    ensures Healthy(Pipes(st, g, raises, rid, gen, ls, k).nodes, rid)
  {
    if k > 0 {
      PipesKeepHealthy(st, g, raises, rid, gen, ls, k - 1);
      var w := Pipes(st, g, raises, rid, gen, ls, k - 1);
      if !w.outcome.Threw? {
        RunLinksOfKeepsHealthy(w.nodes, g, raises, rid, w.closures, ls[k - 1]);
      }
    }
  }

  /** `o.pipe(vars, graph)` on a riffle: its links are split and spliced as the graph
      says, and the riffle stays valid. */
  method Pipe(r: Riffle, vars: VarTree, graph: string) returns (o: Outcome)
    requires r.Valid() && VarsIn(vars, |r.nodes|) && UnsignedPorts(graph)
    modifies r
    ensures r.Valid()
    ensures var run := PipeAll(old(r.nodes), r.hooks, r.foreign.raises, r.riffleId, old(r.closures), vars, graph);
      r.nodes == run.nodes && r.log == old(r.log) + run.events && r.closures == run.closures && o == run.outcome
    ensures r.hooks == old(r.hooks) && r.ticks == old(r.ticks)
  {
    PipelinesPavedIn(vars, graph, |r.nodes|);
    PipesKeepHealthy(r.nodes, r.hooks, r.foreign.raises, r.riffleId, r.closures, PipelinesPaved(vars, graph), |Pipelines(graph)|);
    var run := RunPipes(r.nodes, r.hooks, r.foreign.raises, r.riffleId, r.closures, vars, graph);
    r.nodes := run.nodes;
    r.log := r.log + run.events;
    r.closures := run.closures;
    o := run.outcome;
  }

  // ---------------------------------------------------------------- properties

  /** As written, a pipeline with no operator never reaches the intended check: the
      `length` of `null` is read first. */
  lemma NoOperatorsAsWritten()
    ensures OperatorsAsWritten("a b") == Err(TypeError("Cannot read properties of null (reading 'length')"))
    ensures Operators("a b").Err? && Operators("a b").error.Raised?
  {
    assert SepsIn("a b", {'|', '>'}) == [] by {
      assert SepsIn("", {'|', '>'}) == [];
      assert "a b"[1..] == " b" && " b"[1..] == "b" && "b"[1..] == "";
    }
  }

  /** With the intended check, a pipeline with no operator throws its message and
      leaves the stream system as it was. */
  lemma PipelineWithoutOperators(st: seq<LibNode>, g: GlobalHooks, raises: nat -> bool, rid: nat, gen: nat, vars: VarTree, pipeline: string)
    requires VarsIn(vars, |st|) && PortsUnsigned(NamesOf(pipeline))
    requires SepsIn(pipeline, {'|', '>'}) == []
    ensures PipelineRun(st, g, raises, rid, gen, vars, pipeline)
      == ChainRun(st, [], gen, Threw(Raised("No operators found in pipe: " + pipeline)))
  {
  }

  /** A graph whose first pipeline has no operator throws before any link runs. */
  lemma PipeFirstWithoutOperators(st: seq<LibNode>, g: GlobalHooks, raises: nat -> bool, rid: nat, gen: nat, vars: VarTree, graph: string)
    requires VarsIn(vars, |st|) && UnsignedPorts(graph)
    requires |Pipelines(graph)| > 0 && SepsIn(Pipelines(graph)[0], {'|', '>'}) == []
    ensures PipeAll(st, g, raises, rid, gen, vars, graph)
      == ChainRun(st, [], gen, Threw(Raised("No operators found in pipe: " + Pipelines(graph)[0])))
  {
    PipelinesPavedIn(vars, graph, |st|);
    var ls := PipelinesPaved(vars, graph);
    assert ls[0] == LinksOf(vars, Pipelines(graph)[0]);
    PipesStop(st, g, raises, rid, gen, ls, 1, |ls|);
  }

  /** Links that only unwire register no input handler. */
  lemma {:induction false} ExecUnwiringOnly(st: seq<LibNode>, g: GlobalHooks, raises: nat -> bool, rid: nat, gen: nat, cmds: seq<Cmd>)
    requires CmdsIn(cmds, |st|)
    requires forall i :: 0 <= i < |cmds| ==> !cmds[i].splice
    ensures Exec(st, g, raises, rid, gen, cmds).closures == gen
  {
    if cmds != [] {
      ExecUnwiringOnly(st, g, raises, rid, gen, cmds[..|cmds| - 1]);
    }
  }

  /** A pipeline joined by `|` alone only unwires: no input handler is registered. */
  lemma PipelineUnwiringOnly(st: seq<LibNode>, g: GlobalHooks, raises: nat -> bool, rid: nat, gen: nat, vars: VarTree, pipeline: string)
    requires VarsIn(vars, |st|) && PortsUnsigned(NamesOf(pipeline))
    requires '>' !in SepsIn(pipeline, {'|', '>'})
    ensures PipelineRun(st, g, raises, rid, gen, vars, pipeline).closures == gen
  {
    var ops := Operators(pipeline);
    if ops.Ok? {
      var rs := LinkCmdsOf(vars, NamesOf(pipeline), ops.value);
      LinkCmdsOfIn(vars, NamesOf(pipeline), ops.value, |st|);
      PavedIn(rs, |rs|, |st|);
      var cmds := Paved(rs, |rs|).cmds;
      forall i | 0 <= i < |cmds|
        ensures !cmds[i].splice
      {
        LinkCmdsOfAt(vars, NamesOf(pipeline), ops.value, i);
        assert ops.value[i] in SepsIn(pipeline, {'|', '>'});
      }
      ExecUnwiringOnly(st, g, raises, rid, gen, cmds);
    }
  }
}

/** Rewriting the process title in place, over the memory of the command line and the
    environment, which is moved away first (src/coro_actor.cpp:11-29, 257-304). */
module ProcTitle {
  import opened Protocol

  // ------------------------------------------------------------------ strings

  /** The string at `p`, up to its terminator. */
  function StrAt(s: seq<byte>, p: nat): (t: seq<byte>)
    requires p <= |s|
    ensures p + |t| <= |s| && t == s[p..p + |t|] && 0 !in t
    ensures p + |t| < |s| ==> s[p + |t|] == 0
    decreases |s| - p
  {
    if p < |s| && s[p] != 0 then [s[p]] + StrAt(s, p + 1) else []
  }

  /** A string is its bytes and the first zero after them. */
  lemma {:induction false} StrIs(s: seq<byte>, p: nat, t: seq<byte>)
    requires p + |t| < |s| && s[p..p + |t|] == t && 0 !in t && s[p + |t|] == 0
    ensures StrAt(s, p) == t
    decreases |t|
  {
    if t != [] {
      assert s[p] == t[0] && s[p + 1..p + |t|] == t[1..];
      StrIs(s, p + 1, t[1..]);
    }
  }

  /** What a C reader sees of a byte string. */
  function CStr(s: seq<byte>): seq<byte> {
    StrAt(s, 0)
  }

  /** At most `n` bytes. */
  function Cut(s: seq<byte>, n: int): seq<byte> {
    if |s| <= n then s else if n <= 0 then [] else s[..n]
  }

  /** The bytes of `t` are at `p`, and nothing but them and what follows up to
      `end` differs from `was`. */
  ghost predicate Wrote(was: seq<byte>, now: seq<byte>, p: nat, t: seq<byte>, end: nat) {
    && |was| == |now| && p + |t| <= end <= |now|
    && (forall k :: 0 <= k < |t| ==> now[p + k] == t[k])
    && forall k :: 0 <= k < |now| && !(p <= k < end) ==> now[k] == was[k]
  }

  /** `cpystrn`: copies a string, cut to `n - 1` bytes, and its terminator; the
      result points at the terminator. Nothing else is written. */
  method CpyStrN(mem: array<byte>, dst: nat, src: seq<byte>, n: nat) returns (end: nat)
    requires dst + n <= mem.Length
    modifies mem
    ensures n == 0 ==> end == dst && mem[..] == old(mem[..])
    ensures n > 0 ==>
              var t := Cut(CStr(src), n - 1);
              end == dst + |t| < dst + n && mem[end] == 0 && Wrote(old(mem[..]), mem[..], dst, t, end + 1)
  {
    if n == 0 {
      return dst;
    }
    ghost var text := CStr(src);
    var left, i := n - 1, 0;
    while left > 0
      invariant 0 <= left && i + left == n - 1 && i <= |text|
      invariant forall k :: 0 <= k < i ==> mem[dst + k] == text[k]
      invariant forall k :: 0 <= k < mem.Length && !(dst <= k < dst + i) ==> mem[k] == old(mem[k])
      decreases left
    {
      var b: byte := if i < |src| then src[i] else 0;
      mem[dst + i] := b;
      if b == 0 {
        return dst + i;
      }
      i, left := i + 1, left - 1;
    }
    mem[dst + i] := 0;
    return dst + i;
  }

  // ------------------------------------------------------------ the program's area

  /** A string of the environment: still in the program's area, or moved away. */
  datatype Ptr = Area(at: nat) | Block(at: nat)

  /** One past the terminator of the string at `p`. */
  function End(s: seq<byte>, p: nat): nat
    requires p <= |s|
  {
    p + |StrAt(s, p)| + 1
  }

  ghost predicate Held(s: seq<byte>, p: nat) {
    p < |s| && End(s, p) <= |s|
  }

  ghost predicate Apart(s: seq<byte>, p: nat, q: nat)
    requires p <= |s| && q <= |s|
  {
    End(s, p) <= q || End(s, q) <= p
  }

  /** The strings of the environment are whole and disjoint. */
  ghost predicate Spread(s: seq<byte>, env: seq<nat>) {
    && (forall j :: 0 <= j < |env| ==> env[j] <= |s| && Held(s, env[j]))
    && (forall i, j :: 0 <= i < |env| && 0 <= j < |env| && i != j ==> Apart(s, env[i], env[j]))
  }

  /** The strings of the command line and of the environment are whole and disjoint. */
  ghost predicate Laid(s: seq<byte>, argv: seq<nat>, env: seq<nat>) {
    && argv != []
    && (forall i :: 0 <= i < |argv| ==> Held(s, argv[i]))
    && Spread(s, env)
    && (forall i, j :: 0 <= i < |argv| && 0 <= j < |env| ==> Apart(s, argv[i], env[j]))
    && (forall i, j :: 0 <= i < j < |argv| ==> Apart(s, argv[i], argv[j]))
  }

  /** The string at `p` is outside of [from, to). */
  ghost predicate Clear(s: seq<byte>, p: nat, from: nat, to: nat) {
    p <= |s| && (End(s, p) <= from || to <= p)
  }

  /** Where strings end that follow each other from `at` on: each, in order, that starts
      where the ones before it end. */
  function Reach(s: seq<byte>, strings: seq<nat>, at: nat): nat
    requires forall k :: 0 <= k < |strings| ==> strings[k] <= |s|
  {
    if strings == [] then at else
      var last := |strings| - 1;
      var before := Reach(s, strings[..last], at);
      if strings[last] == before then End(s, before) else before
  }

  lemma ReachNext(s: seq<byte>, strings: seq<nat>, i: nat, at: nat)
    requires i < |strings| && forall k :: 0 <= k < |strings| ==> strings[k] <= |s|
    ensures var before := Reach(s, strings[..i], at);
            Reach(s, strings[..i + 1], at) == if strings[i] == before then End(s, before) else before
  {
    assert strings[..i + 1][..i] == strings[..i];
  }

  lemma ReachWhole(s: seq<byte>, strings: seq<nat>, at: nat)
    requires forall k :: 0 <= k < |strings| ==> strings[k] <= |s|
    ensures Reach(s, strings[..0], at) == at && strings[..|strings|] == strings
  {
  }

  /** Of strings without a gap between them all are reached. */
  lemma {:induction false} ReachAll(s: seq<byte>, strings: seq<nat>, at: nat)
    requires strings != [] && forall k :: 0 <= k < |strings| ==> strings[k] <= |s|
    requires strings[0] == at && forall k :: 0 <= k < |strings| - 1 ==> strings[k + 1] == End(s, strings[k])
    ensures Reach(s, strings, at) == End(s, strings[|strings| - 1])
  {
    var last := |strings| - 1;
    if last > 0 {
      ReachAll(s, strings[..last], at);
      assert strings[last] == End(s, strings[last - 1]);
    } else {
      assert strings[..last] == [];
    }
  }

  /** `last` is where those of the first `i` strings of the command line end that follow
      each other, with no environment string before it. */
  ghost predicate Behind(s: seq<byte>, argv: seq<nat>, env: seq<nat>, i: nat, last: nat)
    requires i <= |argv| && argv != []
  {
    && (forall k :: 0 <= k < |argv| ==> argv[k] <= |s|)
    && last == Reach(s, argv[..i], argv[0])
    && argv[0] <= last <= |s| && (i > 0 ==> argv[0] < last)
    && forall j :: 0 <= j < |env| ==> Clear(s, env[j], argv[0], last)
  }

  lemma BehindNone(s: seq<byte>, argv: seq<nat>, env: seq<nat>)
    requires Laid(s, argv, env)
    ensures Behind(s, argv, env, 0, argv[0])
  {
    LaidFacts(s, argv, env);
    assert argv[..0] == [];
    hide StrAt, End, Clear, Apart, Spread;
  }

  lemma BehindNext(s: seq<byte>, argv: seq<nat>, env: seq<nat>, i: nat, last: nat)
    requires Laid(s, argv, env) && i < |argv| && Behind(s, argv, env, i, last)
    ensures Held(s, argv[i])
    ensures Behind(s, argv, env, i + 1, if argv[i] == last then End(s, argv[i]) else last)
  {
    LaidFacts(s, argv, env);
    ReachNext(s, argv, i, argv[0]);
    EndIs(s, argv[i]);
    if i == 0 {
      assert argv[..0] == [];
      assert Reach(s, argv[..0], argv[0]) == argv[0];
    }
    hide Laid, StrAt, Reach, End, Clear, Apart, Held, Spread;
    if argv[i] == last {
      forall j | 0 <= j < |env| ensures Clear(s, env[j], argv[0], End(s, argv[i])) {
        StaysClear(s, env[j], argv[i], argv[0]);
      }
    }
  }

  lemma BehindAll(s: seq<byte>, argv: seq<nat>, env: seq<nat>, last: nat)
    requires argv != [] && Behind(s, argv, env, |argv|, last)
    ensures (forall k :: 0 <= k < |argv| ==> argv[k] <= |s|) && last == Reach(s, argv, argv[0])
    ensures argv[0] < last <= |s| && forall j :: 0 <= j < |env| ==> Clear(s, env[j], argv[0], last)
  {
    ReachWhole(s, argv, argv[0]);
    hide Reach, Clear;
  }

  /** The room for the title ends at `end`: where the strings of the command line and then
      those of the environment end that follow each other without a gap. Exactly these
      strings of the environment are in the block. */
  ghost predicate Roomy(s: seq<byte>, argv: seq<nat>, env: seq<nat>, ptrs: seq<Ptr>, end: nat) {
    && argv != [] && |ptrs| == |env|
    && (forall i :: 0 <= i < |argv| ==> argv[i] <= |s|) && (forall i :: 0 <= i < |env| ==> env[i] <= |s|)
    && var behind := Reach(s, argv, argv[0]);
       && end == Reach(s, env, behind)
       && forall i :: 0 <= i < |env| ==>
            if env[i] == Reach(s, env[..i], behind) then ptrs[i].Block? else ptrs[i] == Area(env[i])
  }

  lemma RoomyIs(s: seq<byte>, argv: seq<nat>, env: seq<nat>, ptrs: seq<Ptr>, behind: nat, end: nat)
    requires Spread(s, env) && |env| == |ptrs| && argv != [] && Behind(s, argv, env, |argv|, behind)
    requires Chained(s, ptrs, env, |env|, behind, end)
    ensures Roomy(s, argv, env, ptrs, end)
  {
    BehindAll(s, argv, env, behind);
    ChainedAll(s, ptrs, env, behind, end);
    hide Reach, Clear, Chained, Behind;
  }

  /** The first `i` strings of the environment: those among the ones that follow each
      other from `at` on are in the block, the others where they were, and `last` is where
      those that follow each other end. */
  ghost predicate Chained(s: seq<byte>, ptrs: seq<Ptr>, env: seq<nat>, i: nat, at: nat, last: nat)
    requires i <= |env| == |ptrs| && forall k :: 0 <= k < |env| ==> env[k] <= |s|
  {
    && last == Reach(s, env[..i], at)
    && forall j :: 0 <= j < i ==>
         if env[j] == Reach(s, env[..j], at) then ptrs[j].Block? else ptrs[j] == Area(env[j])
  }

  lemma ChainedFirst(s: seq<byte>, ptrs: seq<Ptr>, env: seq<nat>, at: nat)
    requires |env| == |ptrs| && Spread(s, env)
    ensures Chained(s, ptrs, env, 0, at, at)
  {
    ReachWhole(s, env, at);
  }

  lemma ChainedNext(s: seq<byte>, ptrs: seq<Ptr>, more: seq<Ptr>, env: seq<nat>, i: nat, at: nat, last: nat, next: nat)
    requires i < |env| == |ptrs| == |more| && Spread(s, env) && Chained(s, ptrs, env, i, at, last)
    requires if env[i] == last then more[i].Block? && next == End(s, last) else more[i] == Area(env[i]) && next == last
    requires forall j :: 0 <= j < i ==> more[j] == ptrs[j]
    ensures Chained(s, more, env, i + 1, at, next)
  {
    ReachNext(s, env, i, at);
    hide Reach, Held, Apart, End;
  }

  lemma ChainedAll(s: seq<byte>, ptrs: seq<Ptr>, env: seq<nat>, at: nat, last: nat)
    requires |env| == |ptrs| && Spread(s, env) && Chained(s, ptrs, env, |env|, at, last)
    ensures last == Reach(s, env, at)
    ensures forall j :: 0 <= j < |env| ==>
              if env[j] == Reach(s, env[..j], at) then ptrs[j].Block? else ptrs[j] == Area(env[j])
  {
    ReachWhole(s, env, at);
    hide Reach, Held, Apart;
  }

  /** The bytes that the environment takes from string `i` on. */
  function Size(s: seq<byte>, env: seq<nat>, i: nat): nat
    requires i <= |env| && forall k :: 0 <= k < |env| ==> env[k] <= |s|
    decreases |env| - i
  {
    if i == |env| then 0 else |StrAt(s, env[i])| + 1 + Size(s, env, i + 1)
  }

  /** Growing [from, to) by a string that starts at `to` leaves a disjoint string out. */
  lemma StaysClear(s: seq<byte>, p: nat, q: nat, from: nat)
    requires p <= |s| && q <= |s| && Apart(s, p, q) && Clear(s, p, from, q)
    ensures Clear(s, p, from, End(s, q))
  {
  }

  /** A string does not change when no byte of it, terminator included, does. */
  lemma SameString(s: seq<byte>, t: seq<byte>, p: nat)
    requires |s| == |t| && Held(s, p) && forall k :: p <= k < End(s, p) ==> t[k] == s[k]
    ensures StrAt(t, p) == StrAt(s, p)
  {
    var text := StrAt(s, p);
    assert t[p..p + |text|] == text;
    StrIs(t, p, text);
  }

  /** The string copied with its terminator to `p` can be read there. */
  lemma CopyReads(was: seq<byte>, now: seq<byte>, p: nat, t: seq<byte>)
    requires Wrote(was, now, p, t, p + |t| + 1) && 0 !in t && now[p + |t|] == 0
    ensures StrAt(now, p) == t
  {
    assert now[p..p + |t|] == t;
    StrIs(now, p, t);
  }

  lemma StringAgain(s: seq<byte>, p: nat)
    requires p <= |s|
    ensures CStr(StrAt(s, p) + [0]) == StrAt(s, p)
  {
    var t := StrAt(s, p);
    assert (t + [0])[0..|t|] == t;
    StrIs(t + [0], 0, t);
  }

  /** An entry of the environment during the move: out of the way of the title, or
      copied whole into the used part of the block. */
  ghost predicate Kept(s: seq<byte>, block: seq<byte>, ptr: Ptr, p: nat, from: nat, to: nat, used: nat)
    requires p <= |s|
  {
    match ptr
    case Area(at) => at == p && Clear(s, p, from, to)
    case Block(at) => at + |StrAt(s, p)| + 1 <= used <= |block| && StrAt(block, at) == StrAt(s, p)
  }

  lemma KeptOn(s: seq<byte>, block: seq<byte>, more: seq<byte>, ptr: Ptr, p: nat, q: nat, from: nat, used: nat,
               size: nat)
    requires p <= |s| && q <= |s| && Kept(s, block, ptr, p, from, q, used) && (ptr.Area? ==> Apart(s, p, q))
    requires used + size <= |block| == |more| && forall k :: 0 <= k < used ==> more[k] == block[k]
    ensures Kept(s, more, ptr, p, from, End(s, q), used + size)
  {
    match ptr
    case Area(_) => StaysClear(s, p, q, from);
    case Block(at) => SameString(block, more, at);
  }

  const NAME: seq<byte> := [99, 111, 114, 111, 95, 97, 99, 116, 111, 114]
  const SEPARATOR: seq<byte> := [58, 32]

  lemma NameIs()
    ensures |NAME| == 10 && forall i :: 0 <= i < 10 ==> NAME[i] == "coro_actor"[i] as int
    ensures |SEPARATOR| == 2 && forall i :: 0 <= i < 2 ==> SEPARATOR[i] == ": "[i] as int
  {
  }

  lemma WholeString(s: seq<byte>)
    requires 0 !in s
    ensures CStr(s) == s
  {
  }

  /** Cutting what is copied piece by piece cuts the whole. */
  lemma CutChain(a: seq<byte>, b: seq<byte>, n: nat)
    ensures Cut(a, n) + Cut(b, n - |Cut(a, n)|) == Cut(a + b, n)
  {
    if |a| > n {
      assert (a + b)[..n] == a[..n];
    } else if |a + b| > n {
      assert (a + b)[..n] == a + b[..n - |a|];
    }
  }

  method StrLen(mem: array<byte>, p: nat) returns (n: nat)
    requires p <= mem.Length
    ensures n == |StrAt(mem[..], p)|
  {
    n := 0;
    ghost var s := mem[..];
    while p + n < mem.Length && mem[p + n] != 0
      invariant p + n <= mem.Length && |StrAt(s, p)| == n + |StrAt(s, p + n)|
      decreases mem.Length - n
    {
      n := n + 1;
    }
  }

  ghost predicate Placed(s: seq<byte>, block: seq<byte>, ptr: Ptr) {
    ptr.at <= if ptr.Area? then |s| else |block|
  }

  function ReadAt(s: seq<byte>, block: seq<byte>, ptr: Ptr): seq<byte>
    requires Placed(s, block, ptr)
  {
    StrAt(if ptr.Area? then s else block, ptr.at)
  }

  /** The string is whole, and not within [from, to) of the area. */
  ghost predicate OutOfTheWay(s: seq<byte>, block: seq<byte>, ptr: Ptr, from: nat, to: nat) {
    Placed(s, block, ptr) && (ptr.Area? ==> Held(s, ptr.at) && Clear(s, ptr.at, from, to))
  }

  /** `os_argv`, `os_argv_last`, `os_environ` and `environ`, over the program's area. */
  class Title {
    const area: array<byte>
    var argv: seq<nat>
    var environ: seq<Ptr>
    var block: array<byte>
    var last: nat

    constructor (area: array<byte>, argv: seq<nat>, environ: seq<nat>)
      requires argv != []
      ensures this.area == area && this.argv == argv && last == argv[0] && fresh(block)
      ensures |this.environ| == |environ| && forall i :: 0 <= i < |environ| ==> this.environ[i] == Area(environ[i])
    {
      this.area, this.argv, last := area, argv, argv[0];
      this.environ := seq(|environ|, i requires 0 <= i < |environ| => Area(environ[i]));
      block := new byte[0];
    }

    /** Environment string `i`, wherever it is. */
    ghost function EnvString(i: nat): seq<byte>
      requires i < |environ|
      requires Placed(area[..], block[..], environ[i])
      reads this, area, block
    {
      ReadAt(area[..], block[..], environ[i])
    }

    /** The title may use [argv[0], last): no environment string is in its way. */
    ghost predicate Safe()
      reads this, area, block
    {
      && argv != [] && argv[0] <= last < area.Length && block != area
      && forall i :: 0 <= i < |environ| ==> OutOfTheWay(area[..], block[..], environ[i], argv[0], last)
    }

    /** The space for the whole environment (lines 258-264). */
    method Allocate(ghost env: seq<nat>)
      requires |env| == |environ| && forall i :: 0 <= i < |env| ==> environ[i] == Area(env[i]) && env[i] <= area.Length
      modifies this`block
      ensures fresh(block) && block.Length == Size(area[..], env, 0)
    {
      ghost var s := area[..];
      hide StrAt;
      var size := 0;
      for i := 0 to |environ|
        invariant size + Size(s, env, i) == Size(s, env, 0)
      {
        var n := StrLen(area, environ[i].at);
        size := size + n + 1;
      }
      block := new byte[size];
    }

    /** The end of the strings that follow each other from `argv[0]` on (lines
        266-271): no environment string is among them. */
    method FindLast(ghost env: seq<nat>)
      requires Laid(area[..], argv, env) && last == argv[0]
      modifies this`last
      ensures Behind(area[..], argv, env, |argv|, last)
    {
      hide *;
      ghost var s := area[..];
      LaidFacts(s, argv, env);
      BehindNone(s, argv, env);
      for i := 0 to |argv|
        invariant Behind(s, argv, env, i, last)
      {
        BehindNext(s, argv, env, i, last);
        if last == argv[i] {
          EndIs(s, argv[i]);
          var n := StrLen(area, argv[i]);
          last := argv[i] + n + 1;
        }
      }
    }

    /** A string of the area, copied with its terminator to `p` in the block. */
    method CopyOut(at: nat, p: nat) returns (size: nat)
      requires Held(area[..], at) && p + |StrAt(area[..], at)| + 1 <= block.Length && block != area
      modifies block
      ensures var t := StrAt(area[..], at);
              && size == |t| + 1 && End(area[..], at) == at + size <= area.Length
              && Wrote(old(block[..]), block[..], p, t, p + size) && block[..][p + |t|] == 0
    {
      ghost var s, before := area[..], block[..];
      EndIs(s, at);
      hide End, StrAt, CStr, Cut, Wrote;
      size := StrLen(area, at);
      size := size + 1;
      var q := CpyStrN(block, p, area[at..at + size], size);
      CopiedWhole(s, at, before, block[..], p, q);
    }

    /** String `i` follows directly: it goes to `p` in the block and its place to the
        title. */
    method MoveAway(i: nat, p: nat, ghost env: seq<nat>, ghost s: seq<byte>) returns (used: nat)
      requires s == area[..] && i < |environ| == |env| && argv != [] && argv[0] < last <= area.Length && block != area
      requires Spread(s, env) && Moving(s, block[..], environ, env, i, argv[0], last, p) && environ[i] == Area(last)
      modifies block, this`environ, this`last
      ensures |environ| == |env| && argv[0] < last <= area.Length
      ensures Moving(s, block[..], environ, env, i + 1, argv[0], last, used)
      ensures last == End(s, old(last)) && environ == old(environ)[i := Block(p)]
    {
      hide *;
      ghost var before, ptrs := block[..], environ;
      MovingNext(s, before, ptrs, env, i, argv[0], last, p);
      var size := CopyOut(last, p);
      MovesAway(s, before, block[..], ptrs, env, i, argv[0], p);
      environ := environ[i := Block(p)];
      last := last + size;
      used := p + size;
    }

    /** The move (lines 273-285): each environment string that follows directly is
        copied away, and its place given to the title. */
    method Move(ghost env: seq<nat>)
      requires |environ| == |env| && argv != [] && argv[0] < last <= area.Length && block != area
      requires Spread(area[..], env) && Moving(area[..], block[..], environ, env, 0, argv[0], last, 0)
      modifies block, this`environ, this`last
      ensures |environ| == |env| && argv[0] < last <= area.Length && Spread(area[..], env)
      ensures exists used :: Moving(area[..], block[..], environ, env, |env|, argv[0], last, used)
      ensures Chained(area[..], environ, env, |env|, old(last), last)
    {
      hide *;
      ghost var s, start := area[..], last;
      var p := 0;
      SpreadFacts(s, env);
      ChainedFirst(s, environ, env, last);
      for i := 0 to |environ|
        invariant |environ| == |env| && argv[0] < last <= area.Length && area[..] == s
        invariant Chained(s, environ, env, i, start, last)
        invariant Moving(s, block[..], environ, env, i, argv[0], last, p)
      {
        ghost var was, before := environ, last;
        MovingNext(s, block[..], environ, env, i, argv[0], last, p);
        if environ[i] == Area(last) {
          p := MoveAway(i, p, env, s);
        } else {
          StaysPut(s, block[..], environ, env, i, argv[0], last, p);
        }
        ChainedNext(s, was, environ, env, i, start, before, last);
      }
    }

    /** `init_setproctitle`: the block has room for every string that is moved, every
        environment string reads as before, and none is in the way of the title. The title
        gets all that follows without a gap from `argv[0]` on but for the last byte, and
        exactly the strings of the environment that are part of it are moved. */
    method InitSetProcTitle(ghost env: seq<nat>)
      requires Laid(area[..], argv, env) && last == argv[0] && |environ| == |env|
      requires forall i :: 0 <= i < |env| ==> environ[i] == Area(env[i])
      modifies this`block, this`environ, this`last
      ensures Safe() && |environ| == |env| && fresh(block)
      ensures forall i :: 0 <= i < |env| ==> env[i] <= area.Length && EnvString(i) == StrAt(area[..], env[i])
      ensures Roomy(area[..], argv, env, environ, last + 1)
    {
      hide Laid, End, StrAt, Clear, Spread, OutOfTheWay, Placed, Roomy, Held, Apart, Reach;
      LaidFacts(area[..], argv, env);
      Relocate(env);
      last := last - 1;
    }

    /** The three passes of it, with `last` one past the end of the title's space. */
    method Relocate(ghost env: seq<nat>)
      requires Laid(area[..], argv, env) && argv != [] && last == argv[0] && |environ| == |env|
      requires forall i :: 0 <= i < |env| ==> environ[i] == Area(env[i])
      modifies this`block, this`environ, this`last
      ensures |environ| == |env| && fresh(block) && argv[0] < last <= area.Length
      ensures forall i :: 0 <= i < |env| ==> OutOfTheWay(area[..], block[..], environ[i], argv[0], last - 1)
      ensures forall i :: 0 <= i < |env| ==> Placed(area[..], block[..], environ[i]) && env[i] <= area.Length
      ensures forall i :: 0 <= i < |env| ==> ReadAt(area[..], block[..], environ[i]) == StrAt(area[..], env[i])
      ensures Roomy(area[..], argv, env, environ, last)
    {
      hide *;
      ghost var s := area[..];
      LaidFacts(s, argv, env);
      SpreadFacts(s, env);
      Allocate(env);
      FindLast(env);
      ghost var behind := last;
      BehindAll(s, argv, env, last);
      MovingStarts(s, block[..], environ, env, argv[0], last);
      Move(env);
      MovingEnds(s, block[..], environ, env, argv[0], last);
      RoomyIs(s, argv, env, environ, behind, last);
    }

    /** `set_proctitle`: the title, cut to the space, and zeros after it, in
        [argv[0], last) and nowhere else; every environment string reads as before. */
    method SetProcTitle(title: seq<byte>)
      requires Safe()
      modifies area, this`argv
      ensures argv == old(argv)[..1] && Safe()
      ensures Titled(old(area[..]), area[..], argv[0], Cut(NAME + SEPARATOR + CStr(title), last - argv[0] - 1), last)
      ensures forall i :: 0 <= i < |environ| ==> EnvString(i) == old(EnvString(i))
    {
      ghost var was := area[..];
      argv := argv[..1];
      var from := argv[0];
      WriteTitle(from, title);
      hide StrAt, OutOfTheWay, ReadAt, Held, Clear, CStr, Cut;
      forall i | 0 <= i < |environ|
        ensures OutOfTheWay(area[..], block[..], environ[i], from, last)
        ensures ReadAt(area[..], block[..], environ[i]) == ReadAt(was, block[..], environ[i]) {
        Unharmed(was, area[..], block[..], environ[i], from, last);
      }
    }

    /** The three chained copies and the zeros behind them. */
    method WriteTitle(from: nat, title: seq<byte>)
      requires from <= last < area.Length
      modifies area
      ensures Titled(old(area[..]), area[..], from, Cut(NAME + SEPARATOR + CStr(title), last - from - 1), last)
    {
      if last == from {
        var p := CpyStrN(area, from, NAME, 0);
        p := CpyStrN(area, p, SEPARATOR, 0);
        p := CpyStrN(area, p, title, 0);
        return;
      }
      hide CStr, StrAt, Cut, Began, Zeroed, Titled, Wrote;
      ghost var was := area[..];
      var p := CopyTitle(from, title);
      ghost var copied := area[..];
      ZeroFrom(p);
      WroteZeros(was, copied, area[..], from, Cut(NAME + SEPARATOR + CStr(title), last - from - 1), last);
    }

    /** One copy, behind what has been copied, with the rest of the space for its limit. */
    method Append(src: seq<byte>, p: nat, ghost was: seq<byte>, ghost from: nat, ghost done: seq<byte>) returns (q: nat)
      requires p == from + |done| < last < area.Length && Began(was, area[..], from, done)
      modifies area
      ensures var t := Cut(CStr(src), last - p - 1);
              q == p + |t| < last && Began(was, area[..], from, done + t)
    {
      hide CStr, StrAt, Cut, Began, Wrote;
      ghost var now := area[..];
      q := CpyStrN(area, p, src, last - p);
      BeganOn(was, now, area[..], from, done, Cut(CStr(src), last - p - 1));
    }

    method CopyTitle(from: nat, title: seq<byte>) returns (p: nat)
      requires from < last < area.Length
      modifies area
      ensures var text := Cut(NAME + SEPARATOR + CStr(title), last - from - 1);
              p == from + |text| < last && Began(old(area[..]), area[..], from, text)
    {
      hide CStr, StrAt, Cut, Wrote;
      ghost var was, n := area[..], last - from - 1;
      ghost var a := Cut(CStr(NAME), n);
      ghost var b := Cut(CStr(SEPARATOR), n - |a|);
      p := CpyStrN(area, from, NAME, last - from);
      hide Began;
      p := Append(SEPARATOR, p, was, from, a);
      p := Append(title, p, was, from, a + b);
      TitleText(title, n);
    }

    /** `memset` to the end of the title. */
    method ZeroFrom(p: nat)
      requires p < last < area.Length
      modifies area
      ensures Zeroed(old(area[..]), area[..], p, last)
    {
      var q := p;
      while q < last
        invariant p <= q <= last
        invariant forall k :: 0 <= k < area.Length ==> area[k] == if p <= k < q then 0 else old(area[k])
      {
        area[q] := 0;
        q := q + 1;
      }
    }
  }

  ghost predicate Zeroed(was: seq<byte>, now: seq<byte>, p: nat, end: nat) {
    |was| == |now| && forall k :: 0 <= k < |now| ==> now[k] == if p <= k < end then 0 else was[k]
  }

  /** [from, end) holds `text` and zeros after it, and nothing else has changed. With
      no space at all there is no text either. */
  ghost predicate Titled(was: seq<byte>, now: seq<byte>, from: nat, text: seq<byte>, end: nat) {
    && |was| == |now| && from <= end <= |now|
    && (forall k :: 0 <= k < |now| && !(from <= k < end) ==> now[k] == was[k])
    && (from < end ==>
          && from + |text| < end
          && (forall k :: 0 <= k < |text| ==> now[from + k] == text[k])
          && (forall k :: from + |text| <= k < end ==> now[k] == 0))
  }

  /** `t` and at most a terminator have been written at `p`. */
  ghost predicate Began(was: seq<byte>, now: seq<byte>, p: nat, t: seq<byte>) {
    p + |t| < |now| && Wrote(was, now, p, t, p + |t| + 1)
  }

  lemma BeganOn(was: seq<byte>, one: seq<byte>, two: seq<byte>, p: nat, a: seq<byte>, b: seq<byte>)
    requires Began(was, one, p, a) && p + |a| + |b| < |two| && Wrote(one, two, p + |a|, b, p + |a| + |b| + 1)
    ensures Began(was, two, p, a + b)
  {
  }

  lemma WroteZeros(was: seq<byte>, one: seq<byte>, two: seq<byte>, p: nat, t: seq<byte>, end: nat)
    requires Began(was, one, p, t) && p + |t| < end <= |one| && Zeroed(one, two, p + |t|, end)
    ensures Titled(was, two, p, t, end)
  {
  }

  lemma NoZeros()
    ensures 0 !in NAME && 0 !in SEPARATOR
  {
  }

  lemma CutLength(a: seq<byte>, b: seq<byte>, n: nat)
    ensures |Cut(a + b, n)| == |Cut(a, n)| + |Cut(b, n - |Cut(a, n)|)|
  {
    CutChain(a, b, n);
    hide Cut;
    assert |Cut(a, n) + Cut(b, n - |Cut(a, n)|)| == |Cut(a, n)| + |Cut(b, n - |Cut(a, n)|)|;
  }

  lemma TitleText(title: seq<byte>, n: nat)
    ensures var a := Cut(CStr(NAME), n);
            var b := Cut(CStr(SEPARATOR), n - |a|);
            var c := Cut(CStr(title), n - |a| - |b|);
            a + b + c == Cut(NAME + SEPARATOR + CStr(title), n)
  {
    hide *;
    NoZeros();
    WholeString(NAME);
    WholeString(SEPARATOR);
    CutChain(NAME, SEPARATOR, n);
    CutLength(NAME, SEPARATOR, n);
    CutChain(NAME + SEPARATOR, CStr(title), n);
  }

  /** Strings clear of [from, to) survive any write there. */
  lemma Unharmed(was: seq<byte>, now: seq<byte>, block: seq<byte>, ptr: Ptr, from: nat, to: nat)
    requires |was| == |now| && forall k :: 0 <= k < |now| && !(from <= k < to) ==> now[k] == was[k]
    requires OutOfTheWay(was, block, ptr, from, to)
    ensures OutOfTheWay(now, block, ptr, from, to) && ReadAt(now, block, ptr) == ReadAt(was, block, ptr)
  {
    if ptr.Area? {
      SameString(was, now, ptr.at);
    }
  }

  lemma SpreadFacts(s: seq<byte>, env: seq<nat>)
    requires Spread(s, env)
    ensures forall j :: 0 <= j < |env| ==> env[j] <= |s| && Held(s, env[j])
  {
  }

  lemma MovingStarts(s: seq<byte>, block: seq<byte>, ptrs: seq<Ptr>, env: seq<nat>, from: nat, to: nat)
    requires |ptrs| == |env| && Spread(s, env) && |block| == Size(s, env, 0)
    requires forall j :: 0 <= j < |env| ==> ptrs[j] == Area(env[j]) && Clear(s, env[j], from, to)
    ensures Moving(s, block, ptrs, env, 0, from, to, 0)
  {
  }

  lemma MovingEnds(s: seq<byte>, block: seq<byte>, ptrs: seq<Ptr>, env: seq<nat>, from: nat, to: nat)
    requires |ptrs| == |env| && Spread(s, env) && to > 0
    requires exists used :: Moving(s, block, ptrs, env, |env|, from, to, used)
    ensures forall i :: 0 <= i < |env| ==> OutOfTheWay(s, block, ptrs[i], from, to - 1)
    ensures forall i :: 0 <= i < |env| ==>
              Placed(s, block, ptrs[i]) && env[i] <= |s| && ReadAt(s, block, ptrs[i]) == StrAt(s, env[i])
  {
    hide StrAt, End;
  }

  /** What is known of the whole environment while it is moved. */
  ghost predicate Moving(s: seq<byte>, block: seq<byte>, ptrs: seq<Ptr>, env: seq<nat>, i: nat, from: nat, to: nat,
                         used: nat)
    requires |ptrs| == |env| && i <= |env| && Spread(s, env)
  {
    && (forall j :: 0 <= j < i ==> Kept(s, block, ptrs[j], env[j], from, to, used))
    && (forall j :: i <= j < |env| ==> ptrs[j] == Area(env[j]) && Clear(s, env[j], from, to))
    && used + Size(s, env, i) <= |block|
  }

  lemma MovingNext(s: seq<byte>, block: seq<byte>, ptrs: seq<Ptr>, env: seq<nat>, i: nat, from: nat, to: nat, used: nat)
    requires |ptrs| == |env| && i < |env| && Spread(s, env)
    requires Moving(s, block, ptrs, env, i, from, to, used)
    ensures Held(s, env[i]) && ptrs[i] == Area(env[i])
    ensures used + |StrAt(s, env[i])| + 1 + Size(s, env, i + 1) <= |block|
  {
    hide StrAt, Clear;
  }

  /** Cutting a string at its own length leaves it whole. */
  lemma CutWhole(s: seq<byte>, p: nat)
    requires Held(s, p)
    ensures Cut(CStr(s[p..End(s, p)]), End(s, p) - p - 1) == StrAt(s, p) && End(s, p) == p + |StrAt(s, p)| + 1
  {
    var t := StrAt(s, p);
    assert s[p + |t|] == 0;
    assert s[p..p + |t| + 1] == t + [0];
    StringAgain(s, p);
  }

  /** The string and its terminator, copied with room for both. */
  lemma CopiedWhole(s: seq<byte>, p: nat, before: seq<byte>, after: seq<byte>, at: nat, end: nat)
    requires Held(s, p)
    requires var t := Cut(CStr(s[p..End(s, p)]), End(s, p) - p - 1);
             end == at + |t| && end < |after| && after[end] == 0 && Wrote(before, after, at, t, end + 1)
    ensures var t := StrAt(s, p);
            end == at + |t| && Wrote(before, after, at, t, at + |t| + 1) && after[at + |t|] == 0
  {
    hide *;
    CutWhole(s, p);
  }

  lemma StaysPut(s: seq<byte>, block: seq<byte>, ptrs: seq<Ptr>, env: seq<nat>, i: nat, from: nat, to: nat, used: nat)
    requires |ptrs| == |env| && i < |env| && Spread(s, env)
    requires Moving(s, block, ptrs, env, i, from, to, used)
    ensures Moving(s, block, ptrs, env, i + 1, from, to, used)
  {
    hide StrAt, Clear;
  }

  lemma MovesAway(s: seq<byte>, block: seq<byte>, more: seq<byte>, ptrs: seq<Ptr>, env: seq<nat>, i: nat, from: nat,
                  used: nat)
    requires |ptrs| == |env| && i < |env| && Spread(s, env) && Moving(s, block, ptrs, env, i, from, env[i], used)
    requires var t := StrAt(s, env[i]);
             && used + |t| < |more| && Wrote(block, more, used, t, used + |t| + 1)
             && more[used + |t|] == 0
    ensures var t := StrAt(s, env[i]);
            Moving(s, more, ptrs[i := Block(used)], env, i + 1, from, End(s, env[i]), used + |t| + 1)
  {
    var t := StrAt(s, env[i]);
    CopyReads(block, more, used, t);
    var next := ptrs[i := Block(used)];
    forall j | 0 <= j < i ensures Kept(s, more, next[j], env[j], from, End(s, env[i]), used + |t| + 1) {
      KeptOn(s, block, more, ptrs[j], env[j], env[i], from, used, |t| + 1);
    }
    forall j | i < j < |env| ensures next[j] == Area(env[j]) && Clear(s, env[j], from, End(s, env[i])) {
      StaysClear(s, env[j], env[i], from);
    }
    hide StrAt, End, Clear, Apart;
  }

  lemma EndIs(s: seq<byte>, p: nat)
    requires Held(s, p)
    ensures End(s, p) == p + |StrAt(s, p)| + 1 && p < End(s, p) <= |s|
  {
  }

  lemma LaidFacts(s: seq<byte>, argv: seq<nat>, env: seq<nat>)
    requires Laid(s, argv, env)
    ensures argv != [] && Spread(s, env) && forall i :: 0 <= i < |argv| ==> Held(s, argv[i])
    ensures forall j :: 0 <= j < |env| ==> Held(s, env[j]) && Clear(s, env[j], argv[0], argv[0])
    ensures forall i, j :: 0 <= i < |argv| && 0 <= j < |env| ==> Apart(s, env[j], argv[i])
  {
  }
}

/**
 The parts of Go's `path/filepath` package (Unix flavour) the driver builds
 its directory names with: `Clean`, `Join` and `Split`.
 */
module Paths {
  import opened GoStrings

  /** A single directory entry's name: what a subdirectory, a volume UUID or a listed file is called. */
  predicate Plain(n: string) {
    n != "" && '/' !in n && n != "." && n != ".."
  }

  predicate Rooted(p: string) {
    p != "" && p[0] == '/'
  }

  /** The elements left once "", "." and ".." are resolved against the elements before them. */
  function Reduce(parts: seq<string>, stack: seq<string>, rooted: bool): seq<string>
    decreases |parts|
  {
    if parts == [] then stack
    else
      var p, rest := parts[0], parts[1..];
      if p == "" || p == "." then Reduce(rest, stack, rooted)
      else if p != ".." then Reduce(rest, stack + [p], rooted)
      else if stack != [] && stack[|stack| - 1] != ".." then Reduce(rest, stack[..|stack| - 1], rooted)
      else if rooted then Reduce(rest, stack, rooted)
      else Reduce(rest, stack + [".."], rooted)
  }

  function Elements(p: string): seq<string> {
    Reduce(Split(p, '/'), [], Rooted(p))
  }

  function Render(rooted: bool, elements: seq<string>): string {
    if rooted then "/" + Join(elements, '/')
    else if elements == [] then "."
    else Join(elements, '/')
  }

  /** `filepath.Clean`. */
  function Clean(p: string): string {
    Render(Rooted(p), Elements(p))
  }

  /** `filepath.Join`: leading empty elements are dropped, the rest is joined and cleaned. */
  function JoinPath(elements: seq<string>): string {
    if elements == [] then ""
    else if elements[0] == "" then JoinPath(elements[1..])
    else Clean(Join(elements, '/'))
  }

  /** The directory part of `filepath.Split`: everything up to and with the last slash. */
  function DirPart(p: string): (d: string)
    ensures d <= p
    ensures d == "" || d[|d| - 1] == '/'
    ensures '/' !in p[|d|..]
  {
    if p == "" || p[|p| - 1] == '/' then p else DirPart(p[..|p| - 1])
  }

  /** The file part of `filepath.Split`. */
  function FilePart(p: string): string {
    p[|DirPart(p)|..]
  }

  /** What a name is appended to so that it lies in directory `p`. */
  function Under(p: string): string {
    if Elements(p) == [] then (if Rooted(p) then "/" else "") else Clean(p) + "/"
  }

  lemma {:induction false} SplitAtSlash(d: string, n: string)
    requires '/' !in n
    requires d == "" || d[|d| - 1] == '/'
    ensures DirPart(d + n) == d && FilePart(d + n) == n
    decreases |n|
  {
    if n == "" {
      assert d + n == d;
    } else {
      var init := n[..|n| - 1];
      assert (d + n)[..|d + n| - 1] == d + init;
      SplitAtSlash(d, init);
    }
  }

  lemma {:induction false} ReduceConcat(a: seq<string>, b: seq<string>, stack: seq<string>, rooted: bool)
    ensures Reduce(a + b, stack, rooted) == Reduce(b, Reduce(a, stack, rooted), rooted)
    decreases |a|
  {
    if a == [] {
      assert a + b == b;
    } else {
      assert (a + b)[1..] == a[1..] + b;
      var p := a[0];
      if p == "" || p == "." {
        ReduceConcat(a[1..], b, stack, rooted);
      } else if p != ".." {
        ReduceConcat(a[1..], b, stack + [p], rooted);
      } else if stack != [] && stack[|stack| - 1] != ".." {
        ReduceConcat(a[1..], b, stack[..|stack| - 1], rooted);
      } else if rooted {
        ReduceConcat(a[1..], b, stack, rooted);
      } else {
        ReduceConcat(a[1..], b, stack + [".."], rooted);
      }
    }
  }

  lemma RenderAppend(rooted: bool, elements: seq<string>, n: string)
    ensures Render(rooted, elements + [n]) ==
            (if elements == [] then (if rooted then "/" else "") else Render(rooted, elements) + "/") + n
  {
    if elements == [] {
      assert elements + [n] == [n];
    } else {
      JoinAppend(elements, n, '/');
    }
  }

  /** Appending a plain name to a non-empty path and cleaning puts the name under the cleaned path. */
  lemma CleanAppend(p: string, n: string)
    requires p != "" && Plain(n)
    ensures Elements(p + "/" + n) == Elements(p) + [n]
    ensures Rooted(p + "/" + n) == Rooted(p)
    ensures Clean(p + "/" + n) == Under(p) + n
    ensures Under(p + "/" + n) == Under(p) + n + "/"
  {
    SplitConcat(p, n, '/');
    SplitAtom(n, '/');
    ReduceConcat(Split(p, '/'), [n], [], Rooted(p));
    assert [n][1..] == [];
    RenderAppend(Rooted(p), Elements(p), n);
  }

  lemma JoinTwo(p: string, n: string)
    requires p != "" && Plain(n)
    ensures JoinPath([p, n]) == Under(p) + n
    ensures FilePart(JoinPath([p, n])) == n && DirPart(JoinPath([p, n])) == Under(p)
  {
    assert Join([p, n], '/') == p + "/" + n by { assert [p, n][1..] == [n]; }
    CleanAppend(p, n);
    SplitAtSlash(Under(p), n);
  }

  /** `filepath.Join(mount, volume, name)`, the shape of every directory the controller touches. */
  lemma JoinThree(m: string, v: string, n: string)
    requires m != "" && Plain(v) && Plain(n)
    ensures JoinPath([m, v, n]) == Under(m) + v + "/" + n
    ensures Clean(m + "/" + v + "/" + n) == JoinPath([m, v, n])
    ensures FilePart(JoinPath([m, v, n])) == n
    ensures DirPart(JoinPath([m, v, n])) == Under(m) + v + "/"
  {
    assert Join([m, v, n], '/') == m + "/" + v + "/" + n by {
      JoinAppend([m, v], n, '/');
      JoinAppend([m], v, '/');
      assert [m] + [v] == [m, v] && [m, v] + [n] == [m, v, n];
    }
    CleanAppend(m, v);
    CleanAppend(m + "/" + v, n);
    SplitAtSlash(Under(m) + v + "/", n);
  }

  /** The elements of a cleaned path: plain names, after leading ".." when the path is relative. */
  ghost predicate Normal(elements: seq<string>, rooted: bool) {
    forall i :: 0 <= i < |elements| ==>
      Plain(elements[i]) || (!rooted && elements[i] == ".." && forall j :: 0 <= j < i ==> elements[j] == "..")
  }

  lemma {:induction false} ReduceNormal(parts: seq<string>, stack: seq<string>, rooted: bool)
    requires Normal(stack, rooted) && forall p <- parts :: '/' !in p
    ensures Normal(Reduce(parts, stack, rooted), rooted)
    decreases |parts|
  {
    if parts != [] {
      var p, rest := parts[0], parts[1..];
      if p == "" || p == "." {
        ReduceNormal(rest, stack, rooted);
      } else if p != ".." {
        assert Plain(p);
        ReduceNormal(rest, stack + [p], rooted);
      } else if stack != [] && stack[|stack| - 1] != ".." {
        ReduceNormal(rest, stack[..|stack| - 1], rooted);
      } else if rooted {
        ReduceNormal(rest, stack, rooted);
      } else {
        forall j | 0 <= j < |stack| ensures stack[j] == ".." {
          if stack != [] {
            assert !Plain(stack[|stack| - 1]);
          }
        }
        ReduceNormal(rest, stack + [".."], rooted);
      }
    }
  }

  /** Reducing elements that are already reduced changes nothing. */
  lemma {:induction false} ReduceFixed(done: seq<string>, rest: seq<string>, rooted: bool)
    requires Normal(done + rest, rooted)
    ensures Reduce(rest, done, rooted) == done + rest
    decreases |rest|
  {
    if rest == [] {
      assert done + rest == done;
    } else {
      var all := done + rest;
      assert all[|done|] == rest[0];
      if rest[0] == ".." && done != [] {
        assert all[|done| - 1] == done[|done| - 1] == "..";
      }
      assert done + [rest[0]] + rest[1..] == all;
      ReduceFixed(done + [rest[0]], rest[1..], rooted);
    }
  }

  lemma RootIsClean()
    ensures Rooted("/") && Elements("/") == []
  {
    assert Split("/", '/') == ["", ""] && ["", ""][1..] == [""];
  }

  lemma DotIsClean()
    ensures !Rooted(".") && Elements(".") == []
  {
    SplitAtom(".", '/');
    assert ["."][1..] == [];
  }

  /** Rendering elements that are normal, and taking the path apart again. */
  lemma ElementsOfRendered(rooted: bool, es: seq<string>)
    requires es != [] && Normal(es, rooted) && forall e <- es :: '/' !in e
    ensures var p := Render(rooted, es); p != "" && Rooted(p) == rooted && Elements(p) == es
  {
    var body := Join(es, '/');
    SplitJoinAtoms(es, '/');
    JoinStarts(es);
    assert [] + es == es;
    ReduceFixed([], es, rooted);
    if rooted {
      SplitRooted(body, es);
    }
  }

  lemma JoinStarts(es: seq<string>)
    requires es != [] && es[0] != "" && '/' !in es[0]
    ensures Join(es, '/') != "" && Join(es, '/')[0] != '/'
  {
    assert es[0][0] in es[0];
    assert Join(es, '/')[0] == es[0][0];
  }

  lemma SplitRooted(body: string, es: seq<string>)
    requires Split(body, '/') == es
    ensures Split("/" + body, '/') == [""] + es
  {
    SplitConcat("", body, '/');
    assert "" + "/" + body == "/" + body;
  }

  lemma NormalHasNoSlash(es: seq<string>, rooted: bool)
    requires Normal(es, rooted)
    ensures forall e <- es :: '/' !in e
  {
    forall e | e in es ensures '/' !in e {
      var i :| 0 <= i < |es| && es[i] == e;
    }
  }

  /** `Clean` is idempotent, and cleaning does not change where names are appended. */
  lemma CleanIdempotent(p: string)
    ensures Rooted(Clean(p)) == Rooted(p) && Elements(Clean(p)) == Elements(p)
    ensures Clean(Clean(p)) == Clean(p) && Under(Clean(p)) == Under(p)
    ensures Clean(p) != ""
  {
    var es, r := Elements(p), Rooted(p);
    ReduceNormal(Split(p, '/'), [], r);
    if es != [] {
      NormalHasNoSlash(es, r);
      ElementsOfRendered(r, es);
    } else if r {
      RootIsClean();
    } else {
      DotIsClean();
    }
  }

  /** Joining in two calls, as the walker does, names the same directory as joining in one. */
  lemma JoinNested(m: string, v: string, n: string)
    requires m != "" && Plain(v) && Plain(n)
    ensures JoinPath([JoinPath([m, v]), n]) == JoinPath([m, v, n])
  {
    JoinTwo(m, v);
    CleanAppend(m, v);
    CleanIdempotent(m + "/" + v);
    JoinTwo(JoinPath([m, v]), n);
    JoinThree(m, v, n);
  }

  lemma BelowInjective(d: string, v: string, n: string, v': string, n': string)
    requires '/' !in v && '/' !in v'
    ensures d + v + "/" + n == d + v' + "/" + n' <==> v == v' && n == n'
  {
    SplitConcat(v, n, '/');
    SplitConcat(v', n', '/');
    SplitAtom(v, '/');
    SplitAtom(v', '/');
    var x, x' := v + "/" + n, v' + "/" + n';
    Regroup(d, v, n);
    Regroup(d, v', n');
    if d + x == d + x' {
      assert x == (d + x)[|d|..] && x' == (d + x')[|d|..];
      assert ([v] + Split(n, '/'))[0] == ([v'] + Split(n', '/'))[0];
      assert n == x[|v| + 1..] && n' == x'[|v'| + 1..];
    }
  }

  lemma Regroup(d: string, v: string, n: string)
    ensures d + v + "/" + n == d + (v + "/" + n)
  {
  }

  /** Different volumes or different names never share a directory. */
  lemma JoinThreeInjective(m: string, v: string, n: string, v': string, n': string)
    requires m != "" && Plain(v) && Plain(n) && Plain(v') && Plain(n')
    requires JoinPath([m, v, n]) == JoinPath([m, v', n'])
    ensures v == v' && n == n'
  {
    JoinThree(m, v, n);
    JoinThree(m, v', n');
    BelowInjective(Under(m), v, n, v', n');
  }

  /** Below one directory, no two names deep path lies inside another. */
  lemma NotNestedBelow(v: string, n: string, v': string, n': string)
    requires '/' !in v && '/' !in n && '/' !in v' && '/' !in n'
    ensures !HasPrefix(v' + "/" + n', v + "/" + n + "/")
  {
    var outer, inner := v + "/" + n + "/", v' + "/" + n';
    if |v| < |v'| {
      assert outer[|v|] == '/' && inner[|v|] == v'[|v|];
    } else if |v'| < |v| {
      assert inner[|v'|] == '/' && outer[|v'|] == v[|v'|];
    } else if |outer| <= |inner| {
      var k := |outer| - 1;
      assert outer[k] == '/' && inner[k] == n'[k - |v| - 1];
    }
  }

  /** No claim directory lies inside another: `RemoveAll` of one cannot reach a second. */
  lemma NotNested(m: string, v: string, n: string, v': string, n': string)
    requires m != "" && Plain(v) && Plain(n) && Plain(v') && Plain(n')
    ensures !HasPrefix(JoinPath([m, v', n']), JoinPath([m, v, n]) + "/")
  {
    JoinThree(m, v, n);
    JoinThree(m, v', n');
    NotNestedUnder(Under(m), v, n, v', n');
  }

  lemma NotNestedUnder(d: string, v: string, n: string, v': string, n': string)
    requires '/' !in v && '/' !in n && '/' !in v' && '/' !in n'
    ensures !HasPrefix(d + v' + "/" + n', d + v + "/" + n + "/")
  {
    NotNestedBelow(v, n, v', n');
    PrefixCancel(d, v + "/" + n + "/", v' + "/" + n');
    Regroup(d, v', n');
    assert d + v + "/" + n + "/" == d + (v + "/" + n + "/");
  }

  /** Total length of the elements when each is followed by a slash. */
  function Weight(elements: seq<string>): nat {
    if elements == [] then 0 else Weight(elements[..|elements| - 1]) + |elements[|elements| - 1]| + 1
  }

  lemma {:induction false} WeightOfJoin(elements: seq<string>)
    ensures Weight(elements) == if elements == [] then 0 else |Join(elements, '/')| + 1
  {
    if |elements| == 1 {
      assert elements[..0] == [];
    } else if elements != [] {
      var init, last := elements[..|elements| - 1], elements[|elements| - 1];
      WeightOfJoin(init);
      JoinAppend(init, last, '/');
      assert elements == init + [last];
    }
  }

  lemma WeightPush(stack: seq<string>, p: string)
    ensures Weight(stack + [p]) == Weight(stack) + |p| + 1
  {
    assert (stack + [p])[..|stack|] == stack;
  }

  /** Length of the joined parts, each followed by a slash. */
  function JoinedLength(parts: seq<string>): nat {
    if parts == [] then 0 else |Join(parts, '/')| + 1
  }

  lemma JoinedLengthHead(parts: seq<string>)
    requires parts != []
    ensures JoinedLength(parts) == |parts[0]| + 1 + JoinedLength(parts[1..])
  {
  }

  lemma {:induction false} ReduceWeight(parts: seq<string>, stack: seq<string>, rooted: bool)
    ensures Weight(Reduce(parts, stack, rooted)) <= Weight(stack) + JoinedLength(parts)
    decreases |parts|
  {
    if parts != [] {
      var p, rest := parts[0], parts[1..];
      JoinedLengthHead(parts);
      if p == "" || p == "." {
        ReduceWeight(rest, stack, rooted);
      } else if p != ".." {
        WeightPush(stack, p);
        ReduceWeight(rest, stack + [p], rooted);
      } else if stack != [] && stack[|stack| - 1] != ".." {
        ReduceWeight(rest, stack[..|stack| - 1], rooted);
      } else if rooted {
        ReduceWeight(rest, stack, rooted);
      } else {
        WeightPush(stack, "..");
        ReduceWeight(rest, stack + [".."], rooted);
      }
    }
  }

  /** Cleaning a non-empty path never makes it longer. */
  lemma CleanNotLonger(p: string)
    requires p != ""
    ensures |Clean(p)| <= |p|
  {
    JoinSplit(p, '/');
    var parts := Split(p, '/');
    WeightOfJoin(Elements(p));
    if Rooted(p) {
      SplitConcat("", p[1..], '/');
      assert p == "" + "/" + p[1..];
      assert parts == [""] + Split(p[1..], '/');
      assert parts[1..] == Split(p[1..], '/');
      JoinSplit(p[1..], '/');
      assert Reduce(parts, [], true) == Reduce(parts[1..], [], true);
      ReduceWeight(parts[1..], [], true);
    } else {
      ReduceWeight(parts, [], false);
    }
  }

  lemma ReduceOne(x: string, rooted: bool)
    requires Plain(x)
    ensures Reduce([x], [], rooted) == [x]
  {
    assert [x][1..] == [] && [] + [x] == [x];
    assert Reduce([], [x], rooted) == [x];
  }

  lemma LoneElement(x: string)
    requires Plain(x)
    ensures Elements(x) == [x] && !Rooted(x)
  {
    assert x[0] in x;
    SplitAtom(x, '/');
    ReduceOne(x, false);
  }

  lemma RootElement(x: string)
    requires Plain(x)
    ensures Elements("/" + x) == [x] && Rooted("/" + x)
  {
    SplitAtom(x, '/');
    SplitRooted(x, [x]);
    ReduceOne(x, true);
    assert ([""] + [x])[1..] == [x];
  }

  /** A trailing slash makes no element. */
  lemma TrailingSlash(p: string)
    requires p != ""
    ensures Elements(p + "/") == Elements(p)
  {
    assert p + "/" == p + "/" + "";
    SplitConcat(p, "", '/');
    ReduceConcat(Split(p, '/'), [""], [], Rooted(p));
    assert [""][1..] == [];
  }

  /** A name put under a cleaned path is already clean, with one element more than the path. */
  lemma UnderAppend(m: string, x: string)
    requires Plain(x)
    ensures Rooted(Under(m) + x) == Rooted(m) && Elements(Under(m) + x) == Elements(m) + [x]
    ensures Elements(Under(m) + x + "/") == Elements(m) + [x]
  {
    if Elements(m) != [] {
      CleanIdempotent(m);
      CleanAppend(Clean(m), x);
    } else if Rooted(m) {
      RootElement(x);
    } else {
      LoneElement(x);
      assert Under(m) + x == x;
    }
    TrailingSlash(Under(m) + x);
  }

  /** Whether the mount path is spelled so that paths built below it still start with it. */
  predicate SweepableMount(m: string) {
    m == Under(m) || (m == Clean(m) && m != ".")
  }

  lemma PrefixCases(d: string, v: string, m: string)
    requires |m| > |d| && m <= d + v + "/"
    ensures m == d + v + "/" || exists k :: 1 <= k <= |v| && m == d + v[..k]
  {
    var dir, k := d + v + "/", |m| - |d|;
    assert m == dir[..|m|];
    if k <= |v| {
      assert dir[..|m|] == d + v[..k];
    } else {
      assert dir[..|m|] == dir;
    }
  }

  /**
   Whether the directory of a volume below the mount path still starts with that
   path as it is spelled. Besides a clean spelling there is one odd case: a path
   that ends in a dot or two, below which a volume's name begins with the same.
   */
  predicate Sweepable(m: string, v: string) {
    || SweepableMount(m)
    || (m == Under(m) + "." && "." <= v)
    || (m == Under(m) + ".." && ".." <= v)
  }

  lemma NotPlainBelowItself(m: string, x: string)
    requires Plain(x)
    ensures m != Under(m) + x && m != Under(m) + x + "/"
  {
    UnderAppend(m, x);
    assert Elements(m) != Elements(m) + [x];
  }

  lemma LongPrefix(m: string, v: string)
    requires Plain(v) && |m| > |Under(m)| && HasPrefix(Under(m) + v + "/", m)
    ensures Sweepable(m, v)
  {
    NotPlainBelowItself(m, v);
    PrefixCases(Under(m), v, m);
    var k :| 1 <= k <= |v| && m == Under(m) + v[..k];
    if Plain(v[..k]) {
      NotPlainBelowItself(m, v[..k]);
    }
  }

  lemma ShortPrefix(m: string, v: string)
    requires m != "" && HasPrefix(Under(m) + v + "/", m) && |m| <= |Under(m)|
    ensures SweepableMount(m)
  {
    CleanNotLonger(m);
    var d, dir := Under(m), Under(m) + v + "/";
    assert dir[..|m|] == d[..|m|];
    if |m| < |d| {
      assert Elements(m) != [] && |m| == |Clean(m)|;
      assert dir[..|m|] == Clean(m);
      SplitAtom(".", '/');
      assert m != "." by { assert ["."][1..] == []; }
    }
  }

  lemma SweepableIsPrefix(m: string, v: string)
    requires m != "" && Sweepable(m, v)
    ensures HasPrefix(Under(m) + v + "/", m)
  {
    var d := Under(m);
    if SweepableMount(m) {
      assert m <= d;
      assert m == d[..|m|] == (d + v + "/")[..|m|];
    } else {
      var k := |m| - |d|;
      assert m == d + v[..k] == (d + v + "/")[..|m|];
    }
  }

  /**
   The deletion worker drops a queued path unless its directory part starts with
   the configured mount path. Exactly when that keeps the paths below a volume:
   when the mount path is clean, up to one trailing slash, or in the odd case.
   */
  lemma MountPrefixExact(m: string, v: string, n: string)
    requires m != "" && Plain(v) && Plain(n)
    ensures HasPrefix(DirPart(JoinPath([m, v, n])), m) <==> Sweepable(m, v)
  {
    JoinThree(m, v, n);
    if Sweepable(m, v) {
      SweepableIsPrefix(m, v);
    } else if HasPrefix(Under(m) + v + "/", m) {
      if |m| <= |Under(m)| {
        ShortPrefix(m, v);
      } else {
        LongPrefix(m, v);
      }
    }
  }

  /** The elements of a path with something in the middle of it, between two slashes. */
  lemma Inserted(a: string, x: string, b: string)
    requires '/' !in x
    ensures Split(a + "/" + x + "/" + b, '/') == Split(a, '/') + ([x] + Split(b, '/'))
    ensures Split(a + "/" + b, '/') == Split(a, '/') + Split(b, '/')
    ensures Rooted(a + "/" + x + "/" + b) == Rooted(a + "/" + b)
  {
    SplitConcat(a, x + "/" + b, '/');
    SplitHead(x, b, '/');
    assert a + "/" + x + "/" + b == a + "/" + (x + "/" + b);
    SplitConcat(a, b, '/');
  }

  /** An element that leaves the elements before it alone can be left out. */
  lemma LeaveOut(a: seq<string>, x: string, b: seq<string>, rooted: bool)
    requires x == "" || x == "."
    ensures Reduce(a + ([x] + b), [], rooted) == Reduce(a + b, [], rooted)
  {
    ReduceConcat(a, [x] + b, [], rooted);
    ReduceConcat(a, b, [], rooted);
    assert ([x] + b)[1..] == b;
  }

  lemma StepBack(a: seq<string>, x: string, b: seq<string>, rooted: bool)
    requires Plain(x)
    ensures Reduce(a + ([x] + ([".."] + b)), [], rooted) == Reduce(a + b, [], rooted)
  {
    var stack := Reduce(a, [], rooted);
    ReduceConcat(a, [x] + ([".."] + b), [], rooted);
    ReduceConcat(a, b, [], rooted);
    assert ([x] + ([".."] + b))[1..] == [".."] + b && ([".."] + b)[1..] == b;
    assert (stack + [x])[..|stack + [x]| - 1] == stack;
  }

  /**
   What cleaning does: repeated slashes count as one, "." is dropped, and a name
   followed by ".." is dropped with it; ".." at the root is dropped.
   */
  lemma CleanDrops(a: string, b: string)
    ensures Clean(a + "//" + b) == Clean(a + "/" + b)
    ensures Clean(a + "/./" + b) == Clean(a + "/" + b)
    ensures Clean("/../" + b) == Clean("/" + b)
  {
    Inserted(a, "", b);
    assert a + "/" + "" + "/" + b == a + "//" + b;
    LeaveOut(Split(a, '/'), "", Split(b, '/'), Rooted(a + "/" + b));
    Inserted(a, ".", b);
    assert a + "/" + "." + "/" + b == a + "/./" + b;
    LeaveOut(Split(a, '/'), ".", Split(b, '/'), Rooted(a + "/" + b));
    RootStaysRoot(b);
  }

  lemma RootStaysRoot(b: string)
    ensures Clean("/../" + b) == Clean("/" + b)
  {
    Inserted("", "..", b);
    assert "" + "/" + ".." + "/" + b == "/../" + b && "" + "/" + b == "/" + b;
    var rest := Split(b, '/');
    var up, here := [".."] + rest, [""] + rest;
    assert up[1..] == rest && here[1..] == rest && ([""] + up)[1..] == up;
    assert Reduce([""] + up, [], true) == Reduce(up, [], true) == Reduce(rest, [], true) == Reduce(here, [], true);
    assert Elements("/../" + b) == Reduce([""] + up, [], true) && Elements("/" + b) == Reduce(here, [], true);
  }

  lemma SteppedBack(a: string, x: string, b: string)
    requires '/' !in x
    ensures var p := a + "/" + x + "/../" + b;
            Split(p, '/') == Split(a, '/') + ([x] + ([".."] + Split(b, '/'))) && Rooted(p) == Rooted(a + "/" + b)
  {
    var back := "../" + b;
    assert back == ".." + ['/'] + b;
    SplitHead("..", b, '/');
    Inserted(a, x, back);
    assert a + "/" + x + "/" + back == a + "/" + x + "/../" + b;
    assert (a + "/" + back)[0] == (a + "/" + b)[0];
  }

  lemma CleanStepsBack(a: string, x: string, b: string)
    requires Plain(x)
    ensures Clean(a + "/" + x + "/../" + b) == Clean(a + "/" + b)
  {
    SteppedBack(a, x, b);
    Inserted(a, "", b);
    StepBack(Split(a, '/'), x, Split(b, '/'), Rooted(a + "/" + b));
  }

  /** A path of plain names, or of ".." before them when it is relative, is clean. */
  lemma CleanKeeps(es: seq<string>, rooted: bool)
    requires es != [] && Normal(es, rooted)
    ensures var p := (if rooted then "/" else "") + Join(es, '/'); Clean(p) == p
  {
    NormalHasNoSlash(es, rooted);
    ElementsOfRendered(rooted, es);
    assert "" + Join(es, '/') == Join(es, '/');
  }

  /** The empty path is the current directory. */
  lemma CleanEmpty()
    ensures Clean("") == "." && Clean("/") == "/" && Clean(".") == "."
  {
    RootIsClean();
    DotIsClean();
    assert [""][1..] == [] && Elements("") == [];
    assert "/" + Join([], '/') == "/";
  }

  /** A slash at the end makes no difference. */
  lemma CleanTrailing(a: string)
    requires a != ""
    ensures Clean(a + "/") == Clean(a)
  {
    SplitConcat(a, "", '/');
    assert a + "/" + "" == a + "/";
    LeaveOut(Split(a, '/'), "", [], Rooted(a));
    assert [""] + [] == [""] && Split(a, '/') + [] == Split(a, '/');
  }

  /** Empty elements at the front are dropped, and joining nothing else gives nothing. */
  lemma JoinSkipsEmpty(elements: seq<string>)
    ensures JoinPath([""] + elements) == JoinPath(elements) && JoinPath([]) == ""
  {
    assert ([""] + elements)[1..] == elements;
  }
}

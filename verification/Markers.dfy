/**
 The names of deleted subdirectories: `DeleteVolume` renames `<sub>` to
 `<driver>_delete_<sub>`, the walker queues the ones it recognises and the
 deletion worker checks what it received once more.
 */
module Markers {
  import opened GoStrings
  import opened Paths

  const DELETE_INFIX := "_delete_"
  const PVC_PREFIX := "pvc-"

  /** `DELETE_MARKER_FORMAT` filled in. */
  function Marker(driver: string, sub: string): string {
    driver + DELETE_INFIX + sub
  }

  /** Any name in marker form, swept or not. */
  predicate IsMarker(driver: string, file: string) {
    HasPrefix(file, driver + DELETE_INFIX)
  }

  /** The walker's test on a listed name. */
  predicate IsSwept(driver: string, file: string) {
    HasPrefix(file, driver + DELETE_INFIX + PVC_PREFIX)
  }

  /** The deletion worker's test on a received path. */
  predicate WorkerAccepts(driver: string, mount: string, path: string) {
    HasPrefix(DirPart(path), mount) && HasPrefix(FilePart(path), driver)
  }

  lemma MarkerInjective(driver: string, sub: string, sub': string)
    requires Marker(driver, sub) == Marker(driver, sub')
    ensures sub == sub'
  {
    var d := driver + DELETE_INFIX;
    assert (d + sub)[|d|..] == sub && (d + sub')[|d|..] == sub';
  }

  lemma MarkerIsPlain(driver: string, sub: string)
    requires '/' !in driver && Plain(sub)
    ensures Plain(Marker(driver, sub)) && IsMarker(driver, Marker(driver, sub))
  {
    assert |Marker(driver, sub)| > 2;
  }

  lemma SweptIsMarker(driver: string, file: string)
    requires IsSwept(driver, file)
    ensures IsMarker(driver, file) && HasPrefix(file, driver)
  {
    var d := driver + DELETE_INFIX;
    assert d == (d + PVC_PREFIX)[..|d|] == file[..|d|];
    assert driver == d[..|driver|];
  }

  lemma FirstUnderscore(a: string, x: string, b: string, y: string)
    requires '_' !in a && '_' !in b
    ensures HasPrefix(b + "_" + y, a + "_" + x) ==> a == b
  {
    var s, t := a + "_" + x, b + "_" + y;
    if |a| < |b| {
      assert s[|a|] == '_' && t[|a|] == b[|a|];
    } else if |b| < |a| {
      assert t[|b|] == '_' && s[|b|] == a[|b|];
    } else if s <= t {
      assert a == s[..|a|] && b == t[..|b|] && s == t[..|s|];
    }
  }

  /**
   Of all markers of all drivers, a walker queues exactly its own driver's
   markers of names starting with `pvc-`, as long as driver names have no
   underscore (domain names, section 2.3.1 of RFC 1035).
   */
  lemma RecognisedExactly(driver: string, other: string, sub: string)
    requires '_' !in driver && '_' !in other
    ensures IsSwept(driver, other + "_delete_" + sub) <==> driver == other && "pvc-" <= sub
  {
    if driver == other {
      PrefixCancel(driver + DELETE_INFIX, PVC_PREFIX, sub);
    } else {
      var tail := "delete_" + PVC_PREFIX;
      assert driver + DELETE_INFIX + PVC_PREFIX == driver + "_" + tail;
      assert Marker(other, sub) == other + "_" + ("delete_" + sub);
      FirstUnderscore(driver, tail, other, "delete_" + sub);
    }
  }

  /** With an underscore allowed in driver names, one driver's walker queues every marker of another. */
  lemma UnderscoreDriverIsSwept(driver: string, sub: string)
    ensures var other := driver + "_delete_pvc-x";
            other != driver && IsSwept(driver, other + "_delete_" + sub)
  {
    var other := driver + "_delete_pvc-x";
    var prefix := driver + DELETE_INFIX + PVC_PREFIX;
    assert Marker(other, sub) == prefix + ("x" + DELETE_INFIX + sub);
  }

  /** Every marker of a `pvc-` name that the walker queues below a clean mount is taken by the worker. */
  lemma OwnMarkerIsTaken(driver: string, mount: string, v: string, sub: string)
    requires mount != "" && SweepableMount(mount) && '/' !in driver && Plain(v) && Plain(sub)
    ensures "pvc-" <= sub ==> IsSwept(driver, driver + "_delete_" + sub)
    ensures WorkerAccepts(driver, mount, JoinPath([mount, v, driver + "_delete_" + sub]))
  {
    PrefixCancel(driver + DELETE_INFIX, PVC_PREFIX, sub);
    MarkerIsPlain(driver, sub);
    MountIsPrefix(mount, v, Marker(driver, sub));
    JoinThree(mount, v, Marker(driver, sub));
    assert driver == Marker(driver, sub)[..|driver|];
  }

  lemma MountIsPrefix(mount: string, v: string, n: string)
    requires mount != "" && SweepableMount(mount) && Plain(v) && Plain(n)
    ensures HasPrefix(DirPart(JoinPath([mount, v, n])), mount)
  {
    MountPrefixExact(mount, v, n);
  }

  /** What the walker queues, spelled out: names that start with the driver's name and `_delete_pvc-`. */
  lemma SweptExactly(driver: string, file: string)
    ensures IsSwept(driver, file) <==> exists rest :: file == driver + "_delete_pvc-" + rest
  {
    var prefix := driver + "_delete_pvc-";
    assert prefix == driver + "_delete_" + "pvc-";
    if IsSwept(driver, file) {
      assert file == prefix + file[|prefix|..];
    }
  }

  /** Of the names deletion gives, those of claims called `pvc-` and something. */
  lemma DeletedIsSwept(driver: string, sub: string)
    ensures IsSwept(driver, driver + "_delete_" + sub) <==> |sub| >= 4 && sub[..4] == "pvc-"
  {
    var d := driver + "_delete_";
    PrefixCancel(d, "pvc-", sub);
    assert HasPrefix(sub, "pvc-") <==> |sub| >= 4 && sub[..4] == "pvc-";
  }

  /** What deletion renames a claim's directory to. */
  lemma MarkerSpelled(driver: string, sub: string)
    ensures Marker(driver, sub) == driver + "_delete_" + sub
  {
  }

  /** The worker's test, by the directory and the name in it. */
  lemma WorkerAcceptsExactly(driver: string, mount: string, dir: string, file: string)
    requires '/' !in file && (dir == "" || dir[|dir| - 1] == '/')
    ensures WorkerAccepts(driver, mount, dir + file) <==> mount <= dir && driver <= file
  {
    SplitAtSlash(dir, file);
  }
}

/** Volume statistics: what `NodeGetVolumeStats` reports, in wrapping 64-bit arithmetic. */
module Stats {
  const TWO_63 := 0x8000_0000_0000_0000
  const TWO_64 := 0x1_0000_0000_0000_0000

  /** A mathematical integer cut down to an int64. */
  function Wrap(x: int): (r: int)
    ensures -TWO_63 <= r < TWO_63
    ensures (r - x) % TWO_64 == 0
  {
    var low := x % TWO_64;
    if low < TWO_63 then low else low - TWO_64
  }

  /** The counters of `statfs`: unsigned 64-bit, but for the block size. */
  datatype Statfs = Statfs(blocks: nat, bfree: nat, bavail: nat, bsize: int, files: nat, ffree: nat)

  datatype Usage = Usage(used: int, available: int, total: int)

  function Bytes(s: Statfs): Usage {
    Usage(Wrap(Wrap(Wrap(s.blocks) - Wrap(s.bfree)) * s.bsize),
          Wrap(Wrap(s.bavail) * s.bsize),
          Wrap(Wrap(s.blocks) * s.bsize))
  }

  function Inodes(s: Statfs): Usage {
    Usage(Wrap(Wrap(s.files) - Wrap(s.ffree)), Wrap(s.ffree), Wrap(s.files))
  }

  /** Equal modulo 2^64. */
  predicate Same(a: int, b: int) {
    (a - b) % TWO_64 == 0
  }

  lemma SameUnique(a: int, b: int)
    requires Same(a, b) && -TWO_63 <= a < TWO_63 && -TWO_63 <= b < TWO_63
    ensures a == b
  {
  }

  lemma SameTrans(a: int, b: int, c: int)
    requires Same(a, b) && Same(b, c)
    ensures Same(a, c) && Same(b, a)
  {
    var j, k := (a - b) / TWO_64, (b - c) / TWO_64;
    assert a - c == (j + k) * TWO_64;
    assert b - a == -j * TWO_64;
  }

  lemma SameAdd(a: int, b: int, c: int, d: int)
    requires Same(a, b) && Same(c, d)
    ensures Same(a + c, b + d) && Same(a - c, b - d)
  {
    var j, k := (a - b) / TWO_64, (c - d) / TWO_64;
    assert (a + c) - (b + d) == (j + k) * TWO_64;
    assert (a - c) - (b - d) == (j - k) * TWO_64;
  }

  lemma SameMul(a: int, b: int, m: int)
    requires Same(a, b)
    ensures Same(a * m, b * m)
  {
    var k := (a - b) / TWO_64;
    assert a - b == k * TWO_64;
    assert a * m - b * m == (a - b) * m == (k * m) * TWO_64 by {
      Distribute(a, b, m);
      Regroup(k, TWO_64, m);
    }
  }

  lemma Distribute(a: int, b: int, m: int)
    ensures a * m - b * m == (a - b) * m
  {
  }

  lemma Regroup(k: int, t: int, m: int)
    ensures (k * t) * m == (k * m) * t
  {
  }

  lemma WrapsTo(a: int, b: int)
    requires Same(a, b)
    ensures Wrap(a) == Wrap(b)
  {
    SameTrans(Wrap(a), a, b);
    SameTrans(Wrap(b), b, b);
    SameTrans(Wrap(a), b, Wrap(b));
    SameUnique(Wrap(a), Wrap(b));
  }

  /** Adding back what was subtracted, with every intermediate result cut down. */
  lemma AddBack(difference: int, total: int, part: int)
    requires Same(difference, total - part)
    ensures Wrap(Wrap(difference) + Wrap(part)) == Wrap(total)
  {
    SameTrans(Wrap(difference), difference, total - part);
    SameAdd(Wrap(difference), total - part, Wrap(part), part);
    WrapsTo(Wrap(difference) + Wrap(part), total);
  }

  lemma Fits(x: int)
    requires -TWO_63 <= x < TWO_63
    ensures Wrap(x) == x
  {
  }

  lemma ProductsAddBack(d: int, b: int, f: int, z: int)
    requires Same(d, b - f)
    ensures Wrap(Wrap(d * z) + Wrap(f * z)) == Wrap(b * z)
  {
    SameMul(d, b - f, z);
    Distribute(b, f, z);
    AddBack(d * z, b * z, f * z);
  }

  lemma InodesAddBack(files: int, free: int)
    requires -TWO_63 <= files < TWO_63 && -TWO_63 <= free < TWO_63
    ensures Wrap(Wrap(files - free) + free) == files
  {
    AddBack(files - free, files, free);
    Fits(files);
    Fits(free);
  }

  /** The bytes in free blocks, computed as the used ones are. */
  function FreeBytes(s: Statfs): int {
    Wrap(Wrap(s.bfree) * s.bsize)
  }

  lemma BlocksAddBack(blocks: int, free: int, size: int, difference: int, used: int, freeBytes: int, total: int)
    requires difference == Wrap(blocks - free) && used == Wrap(difference * size)
    requires freeBytes == Wrap(free * size) && total == Wrap(blocks * size)
    ensures Wrap(used + freeBytes) == total
  {
    ProductsAddBack(difference, blocks, free, size);
  }

  /** For all inputs, overflowing ones included: used plus free bytes wrap around to the total. */
  lemma UsedPlusFreeIsTotal(s: Statfs)
    ensures Wrap(Bytes(s).used + FreeBytes(s)) == Bytes(s).total
  {
    var blocks, free, u := Wrap(s.blocks), Wrap(s.bfree), Bytes(s);
    BlocksAddBack(blocks, free, s.bsize, Wrap(blocks - free), u.used, FreeBytes(s), u.total);
  }

  /** The same for inodes, whose free count is reported as available. */
  lemma UsedInodesPlusAvailableIsTotal(s: Statfs)
    ensures Wrap(Inodes(s).used + Inodes(s).available) == Inodes(s).total
  {
    InodesAddBack(Wrap(s.files), Wrap(s.ffree));
  }

  lemma Monotone(a: int, b: int, m: int)
    requires a <= b && 0 <= m
    ensures a * m <= b * m
    ensures a < b && 0 < m ==> a * m < b * m
  {
    Distribute(b, a, m);
    assert (b - a) * m >= 0;
    assert a < b && 0 < m ==> (b - a) * m > 0;
  }

  /** A number of blocks is no more than the bytes in them. */
  lemma BlocksFit(n: int, z: int)
    requires 0 <= n && 1 <= z
    ensures n <= n * z
  {
    Monotone(0, n, z - 1);
    assert n * (z - 1) == n * z - n;
  }

  lemma ProductsOrdered(b: int, f: int, a: int, z: int)
    requires 0 <= a <= f <= b && 1 <= z
    ensures 0 <= a * z <= f * z <= b * z && b <= b * z && (b - f) * z == b * z - f * z
    ensures a * z == f * z <==> a == f
  {
    Monotone(0, a, z);
    Monotone(a, f, z);
    Monotone(f, b, z);
    Distribute(b, f, z);
    BlocksFit(b, z);
  }

  lemma Absorb(a: int)
    ensures a * 0 == 0
  {
  }

  /** When the volume's size fits, every reported number lies between zero and the total. */
  lemma StatsInRange(s: Statfs)
    requires s.bavail <= s.bfree <= s.blocks && 0 <= s.bsize && s.blocks * s.bsize < 0x8000_0000_0000_0000
    ensures var u := Bytes(s);
            && u == Usage(s.blocks * s.bsize - s.bfree * s.bsize, s.bavail * s.bsize, s.blocks * s.bsize)
            && 0 <= u.used <= u.total && 0 <= u.available <= u.total && u.used + u.available <= u.total
            && (u.used + u.available == u.total <==> s.bsize == 0 || s.bavail == s.bfree)
  {
    if s.bsize == 0 {
      NoBytes(s);
    } else {
      ProductsOrdered(s.blocks, s.bfree, s.bavail, s.bsize);
      Fits(s.blocks);
      Fits(s.bfree);
      Fits(s.bavail);
      Fits(s.blocks - s.bfree);
      Fits((s.blocks - s.bfree) * s.bsize);
      Fits(s.bavail * s.bsize);
      Fits(s.blocks * s.bsize);
    }
  }

  lemma NoBytes(s: Statfs)
    requires s.bsize == 0
    ensures Bytes(s) == Usage(0, 0, 0)
    ensures s.blocks * s.bsize == s.bfree * s.bsize == s.bavail * s.bsize == 0
  {
    Absorb(Wrap(Wrap(s.blocks) - Wrap(s.bfree)));
    Absorb(Wrap(s.bavail));
    Absorb(Wrap(s.blocks));
    Fits(0);
  }

  lemma CutOnce(x: int, y: int)
    requires Same(x, y)
    ensures Same(Wrap(x), y)
  {
    SameTrans(Wrap(x), x, y);
  }

  lemma CutProduct(x: int, z: int)
    ensures Same(Wrap(Wrap(x) * z), x * z)
  {
    SameMul(Wrap(x), x, z);
    CutOnce(Wrap(x) * z, x * z);
  }

  lemma CutDifference(x: int, y: int)
    ensures Same(Wrap(Wrap(x) - Wrap(y)), x - y)
  {
    SameAdd(Wrap(x), x, Wrap(y), y);
    CutOnce(Wrap(x) - Wrap(y), x - y);
  }

  lemma CutDifferenceProduct(x: int, y: int, z: int)
    ensures Same(Wrap(Wrap(Wrap(x) - Wrap(y)) * z), (x - y) * z)
  {
    CutDifference(x, y);
    SameMul(Wrap(Wrap(x) - Wrap(y)), x - y, z);
    CutOnce(Wrap(Wrap(x) - Wrap(y)) * z, (x - y) * z);
  }

  /** For all inputs each figure is the exact number, cut down to an int64. */
  lemma BytesExactly(s: Statfs)
    ensures Same(Bytes(s).used, (s.blocks - s.bfree) * s.bsize)
    ensures Same(Bytes(s).available, s.bavail * s.bsize) && Same(Bytes(s).total, s.blocks * s.bsize)
  {
    CutProduct(s.bavail, s.bsize);
    CutProduct(s.blocks, s.bsize);
    CutDifferenceProduct(s.blocks, s.bfree, s.bsize);
  }

  lemma InodesExactly(s: Statfs)
    ensures var u := Inodes(s);
            Same(u.used, s.files - s.ffree) && Same(u.available, s.ffree) && Same(u.total, s.files)
  {
    CutDifference(s.files, s.ffree);
  }

  /** Inodes that fit: used and free ones, apart. */
  lemma InodesInRange(s: Statfs)
    requires 0 <= s.ffree <= s.files < 0x8000_0000_0000_0000
    ensures Inodes(s) == Usage(s.files - s.ffree, s.ffree, s.files)
  {
    Fits(s.files);
    Fits(s.ffree);
    Fits(s.files - s.ffree);
  }
}

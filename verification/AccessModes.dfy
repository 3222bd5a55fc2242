/**
 Access modes: StorageClass strings read in base ten, kept in an int32, printed
 again and re-read in base eight to become file modes.
 */
module AccessModes {

  const INT32_LIMIT := 0x8000_0000
  const UINT32_LIMIT := 0x1_0000_0000

  /** What `strconv.ParseUint` returns: a value, or one of its two error kinds. */
  datatype UintResult = Value(n: nat) | SyntaxError | RangeError

  function DigitValue(c: char): nat {
    if '0' <= c <= '9' then c as int - '0' as int else 0
  }

  predicate IsDigit(c: char, base: nat) {
    '0' <= c <= '9' && DigitValue(c) < base
  }

  /** `strconv.ParseUint` from the left, for bases up to ten; the value has to stay below `limit`. */
  function ParseFrom(s: string, base: nat, limit: nat, acc: nat): UintResult {
    if s == "" then Value(acc)
    else if !IsDigit(s[0], base) then SyntaxError
    else if acc * base + DigitValue(s[0]) >= limit then RangeError
    else ParseFrom(s[1..], base, limit, acc * base + DigitValue(s[0]))
  }

  function ParseUint(s: string, base: nat, limit: nat): UintResult {
    if s == "" then SyntaxError else ParseFrom(s, base, limit, 0)
  }

  function DigitChar(d: nat): char
    requires d < 10
  {
    (d + '0' as int) as char
  }

  function Digits(n: nat): string {
    if n < 10 then [DigitChar(n)] else Digits(n / 10) + [DigitChar(n % 10)]
  }

  /** `strconv.Itoa`. */
  function Itoa(n: int): string {
    if n < 0 then "-" + Digits(-n) else Digits(n)
  }

  /** The conversion `int32(u)` of an unsigned integer. */
  function Int32(u: nat): int {
    var low := u % UINT32_LIMIT;
    if low < INT32_LIMIT then low else low - UINT32_LIMIT
  }

  /** The file mode made of a volume request's access mode. */
  function FileMode(accessMode: int): UintResult {
    ParseUint(Itoa(accessMode), 8, UINT32_LIMIT)
  }

  /** Whether a bit of the file mode is set. */
  predicate Bit(mode: nat, weight: nat)
    requires weight > 0
  {
    mode / weight % 2 == 1
  }

  const MODE_SETUID := 0x80_0000
  const MODE_SETGID := 0x40_0000
  const MODE_STICKY := 0x10_0000

  /**
   What `os.Chmod` makes of a file mode: the nine permission bits, and the setuid,
   setgid and sticky bits where Go keeps them. Other bits are dropped.
   */
  function SyscallMode(mode: nat): nat {
    mode % 512 + (if Bit(mode, MODE_SETUID) then 2048 else 0) + (if Bit(mode, MODE_SETGID) then 1024 else 0)
    + (if Bit(mode, MODE_STICKY) then 512 else 0)
  }

  /** The mode that a request's access mode leaves on the file system. */
  function AppliedMode(accessMode: int): UintResult {
    match FileMode(accessMode)
    case Value(n) => Value(SyscallMode(n))
    case failed => failed
  }

  const DEFAULT_SUBDIRECTORY_MODE := 1700

  /** From the StorageClass string to the mode of a claim's subdirectory. */
  function SubdirectoryMode(configured: string): UintResult {
    match ParseUint(configured, 10, UINT32_LIMIT)
    case Value(u) => FileMode(if Int32(u) == 0 then DEFAULT_SUBDIRECTORY_MODE else Int32(u))
    case failed => failed
  }

  predicate AllDigits(s: string, base: nat) {
    forall k :: 0 <= k < |s| ==> IsDigit(s[k], base)
  }

  /** The number a digit string denotes after the digits already read. */
  function ValueFrom(s: string, base: nat, acc: nat): nat {
    if s == "" then acc else ValueFrom(s[1..], base, acc * base + DigitValue(s[0]))
  }

  function ValueOf(s: string, base: nat): nat {
    ValueFrom(s, base, 0)
  }

  /** A number whose decimal digits are all octal digits. */
  predicate OctalDigits(n: nat) {
    n % 10 <= 7 && (n < 10 || OctalDigits(n / 10))
  }

  /** Decimal digits weighed in base eight. */
  function AsOctal(n: nat): nat {
    if n < 10 then n else AsOctal(n / 10) * 8 + n % 10
  }

  lemma {:induction false} ParseFromSnoc(s: string, c: char, base: nat, limit: nat, acc: nat)
    ensures ParseFrom(s + [c], base, limit, acc) ==
            match ParseFrom(s, base, limit, acc)
            case Value(v) => ParseFrom([c], base, limit, v)
            case failed => failed
  {
    if s == "" {
      assert s + [c] == [c];
    } else {
      assert (s + [c])[1..] == s[1..] + [c];
      if IsDigit(s[0], base) && acc * base + DigitValue(s[0]) < limit {
        ParseFromSnoc(s[1..], c, base, limit, acc * base + DigitValue(s[0]));
      }
    }
  }

  lemma {:induction false} ValueGrows(s: string, base: nat, acc: nat)
    requires base >= 1
    ensures ValueFrom(s, base, acc) >= acc
  {
    if s != "" {
      assert acc * base >= acc;
      ValueGrows(s[1..], base, acc * base + DigitValue(s[0]));
    }
  }

  /** A digit string with a value below the limit parses to that value, and nothing else parses. */
  lemma {:induction false} ParseExactly(s: string, base: nat, limit: nat, acc: nat)
    requires base >= 1 && acc < limit
    ensures ParseFrom(s, base, limit, acc).Value? <==> AllDigits(s, base) && ValueFrom(s, base, acc) < limit
    ensures ParseFrom(s, base, limit, acc).Value? ==> ParseFrom(s, base, limit, acc).n == ValueFrom(s, base, acc)
    decreases |s|
  {
    if s != "" {
      var next := acc * base + DigitValue(s[0]);
      ValueGrows(s[1..], base, next);
      if IsDigit(s[0], base) && next < limit {
        ParseExactly(s[1..], base, limit, next);
        assert AllDigits(s, base) <==> AllDigits(s[1..], base) by {
          assert forall k :: 1 <= k < |s| ==> s[k] == s[1..][k - 1];
        }
      }
    }
  }

  function Pow(b: nat, k: nat): nat {
    if k == 0 then 1 else b * Pow(b, k - 1)
  }

  lemma {:induction false} OctalBound(n: nat, k: nat)
    requires k >= 1 && n < Pow(10, k) && OctalDigits(n)
    ensures AsOctal(n) < Pow(8, k) && AsOctal(n) <= n
    decreases k
  {
    if n < 10 {
      PowPositive(k - 1);
    } else {
      assert k > 1 by { assert Pow(10, 1) == 10 * Pow(10, 0); }
      OctalBound(n / 10, k - 1);
    }
  }

  lemma {:induction false} PowPositive(k: nat)
    ensures Pow(8, k) >= 1
  {
    if k > 0 {
      PowPositive(k - 1);
    }
  }

  lemma TenDigits()
    ensures Pow(10, 10) == 10_000_000_000 && Pow(8, 10) == 0x4000_0000
  {
    assert Pow(10, 2) == 100 && Pow(8, 2) == 64;
    assert Pow(10, 4) == 10_000 && Pow(8, 4) == 4096;
    assert Pow(10, 6) == 1_000_000 && Pow(8, 6) == 262144;
    assert Pow(10, 8) == 100_000_000 && Pow(8, 8) == 16777216;
  }

  /** Printing in base ten and reading in base eight reweighs the digits, or trips over an 8 or a 9. */
  lemma {:induction false} ReadBack(n: nat)
    requires n < INT32_LIMIT
    ensures ParseFrom(Digits(n), 8, UINT32_LIMIT, 0) == if OctalDigits(n) then Value(AsOctal(n)) else SyntaxError
  {
    if OctalDigits(n) {
      TenDigits();
      OctalBound(n, 10);
    }
    if n < 10 {
      assert Digits(n)[1..] == "";
    } else {
      ReadBack(n / 10);
      var c := DigitChar(n % 10);
      ParseFromSnoc(Digits(n / 10), c, 8, UINT32_LIMIT, 0);
      assert [c][1..] == "";
    }
  }

  /**
   Re-reading an int32 access mode as octal succeeds exactly for non-negative
   numbers without the digits 8 and 9; the result is below 2^30, so the range
   error cannot happen, and never exceeds the number it was read from.
   */
  lemma OctalReadingExact(accessMode: int)
    requires -0x8000_0000 <= accessMode < 0x8000_0000
    ensures FileMode(accessMode).Value? <==> accessMode >= 0 && OctalDigits(accessMode)
    ensures FileMode(accessMode) != RangeError
    ensures FileMode(accessMode).Value? ==>
            FileMode(accessMode).n == AsOctal(accessMode) < 0x4000_0000 && FileMode(accessMode).n <= accessMode
  {
    if accessMode < 0 {
      assert Itoa(accessMode)[0] == '-';
    } else {
      ReadBack(accessMode);
      if OctalDigits(accessMode) {
        TenDigits();
        OctalBound(accessMode, 10);
      }
    }
  }

  /** Larger access modes give larger file modes. */
  lemma {:induction false} OctalMonotone(a: nat, b: nat)
    requires OctalDigits(a) && OctalDigits(b) && a < b
    ensures AsOctal(a) < AsOctal(b)
    decreases b
  {
    if a / 10 < b / 10 {
      OctalMonotone(a / 10, b / 10);
    }
    Reweigh(a / 10, a % 10);
    Reweigh(b / 10, b % 10);
  }

  lemma Reweigh(n: nat, d: nat)
    requires d < 10
    ensures AsOctal(n * 10 + d) == AsOctal(n) * 8 + d
    ensures OctalDigits(n * 10 + d) <==> OctalDigits(n) && d <= 7
  {
    var m := n * 10 + d;
    assert m / 10 == n && m % 10 == d;
  }

  lemma {:induction false} OctalOfDecimal(s: string, acc: nat)
    requires AllDigits(s, 8)
    ensures AsOctal(ValueFrom(s, 10, acc)) == ValueFrom(s, 8, AsOctal(acc))
    decreases |s|
  {
    if s != "" {
      Reweigh(acc, DigitValue(s[0]));
      OctalOfDecimal(s[1..], acc * 10 + DigitValue(s[0]));
    }
  }

  lemma {:induction false} OctalString(s: string, acc: nat)
    requires AllDigits(s, 10)
    ensures OctalDigits(ValueFrom(s, 10, acc)) <==> AllDigits(s, 8) && OctalDigits(acc)
    decreases |s|
  {
    if s != "" {
      Reweigh(acc, DigitValue(s[0]));
      OctalString(s[1..], acc * 10 + DigitValue(s[0]));
      assert AllDigits(s, 8) <==> IsDigit(s[0], 8) && AllDigits(s[1..], 8) by {
        assert forall k :: 1 <= k < |s| ==> s[k] == s[1..][k - 1];
      }
    }
  }

  /**
   The whole chain. A configured mode other than zero reaches the file system
   exactly when it is a string of octal digits with a decimal value below 2^31,
   and then as its octal value; zero, however spelled, stands for the default.
   */
  lemma ConfiguredModeExact(configured: string)
    ensures var zero := configured != "" && AllDigits(configured, 10) && ValueOf(configured, 10) == 0;
            var usable := AllDigits(configured, 8) && 1 <= ValueOf(configured, 10) < 0x8000_0000;
            && (SubdirectoryMode(configured).Value? <==> zero || usable)
            && (usable ==> SubdirectoryMode(configured) == Value(ValueOf(configured, 8)))
            && (zero ==> SubdirectoryMode(configured) == Value(960))
  {
    if configured != "" {
      ParseExactly(configured, 10, UINT32_LIMIT, 0);
      if ParseUint(configured, 10, UINT32_LIMIT).Value? {
        ParsedModeExact(configured, ValueOf(configured, 10));
      } else {
        assert AllDigits(configured, 8) ==> AllDigits(configured, 10);
      }
    }
  }

  lemma ParsedModeExact(configured: string, u: nat)
    requires configured != "" && AllDigits(configured, 10) && u == ValueOf(configured, 10) < UINT32_LIMIT
    ensures var mode := FileMode(if Int32(u) == 0 then DEFAULT_SUBDIRECTORY_MODE else Int32(u));
            var usable := AllDigits(configured, 8) && 1 <= u < INT32_LIMIT;
            && (mode.Value? <==> u == 0 || usable)
            && (usable ==> mode == Value(ValueOf(configured, 8)))
            && (u == 0 ==> mode == Value(960))
  {
    if u == 0 {
      DefaultMode();
    } else {
      NonZeroModeExact(configured, u);
    }
  }

  lemma NonZeroModeExact(configured: string, u: nat)
    requires AllDigits(configured, 10) && 1 <= u == ValueOf(configured, 10) < UINT32_LIMIT
    ensures Int32(u) != 0
    ensures FileMode(Int32(u)).Value? <==> AllDigits(configured, 8) && u < INT32_LIMIT
    ensures AllDigits(configured, 8) && u < INT32_LIMIT ==> FileMode(Int32(u)) == Value(ValueOf(configured, 8))
  {
    var mode := Int32(u);
    assert mode != 0 && (mode == u || mode < 0) && (mode == u <==> u < INT32_LIMIT);
    OctalString(configured, 0);
    OctalReadingExact(mode);
    if AllDigits(configured, 8) {
      OctalOfDecimal(configured, 0);
    }
  }

  lemma DefaultMode()
    ensures FileMode(DEFAULT_SUBDIRECTORY_MODE) == Value(960)
  {
    ReadBack(1700);
    Reweigh(1, 7);
    Reweigh(17, 0);
    Reweigh(170, 0);
  }

  /** `os.Chmod` applies a mode as it is exactly when that has permission bits only. */
  lemma SyscallModeExact(mode: nat)
    ensures SyscallMode(mode) == mode <==> mode < 512
    ensures SyscallMode(mode) < 4096 && SyscallMode(mode) % 512 == mode % 512
  {
    if mode < MODE_STICKY {
      assert !Bit(mode, MODE_SETUID) && !Bit(mode, MODE_SETGID) && !Bit(mode, MODE_STICKY);
    }
  }

  /**
   Exactly when a request's access mode arrives as it reads: when it is at most
   777. The default of 1700 is the first to fail: its sticky bit is not where Go
   keeps it, and 0700 is left.
   */
  lemma AppliedModeExact(accessMode: int)
    requires -0x8000_0000 <= accessMode < 0x8000_0000 && FileMode(accessMode).Value?
    ensures AppliedMode(accessMode) == FileMode(accessMode) <==> accessMode <= 777
    ensures AppliedMode(accessMode).n % 512 == FileMode(accessMode).n % 512
  {
    OctalReadingExact(accessMode);
    SyscallModeExact(FileMode(accessMode).n);
    Reweigh(0, 7);
    Reweigh(7, 7);
    Reweigh(77, 7);
    if accessMode < 777 {
      OctalMonotone(accessMode, 777);
    } else if accessMode > 777 {
      OctalMonotone(777, accessMode);
    }
  }

  lemma DefaultModeLosesSticky()
    ensures FileMode(DEFAULT_SUBDIRECTORY_MODE) == Value(960) && AppliedMode(DEFAULT_SUBDIRECTORY_MODE) == Value(448)
  {
    DefaultMode();
  }

  /** The mode that a StorageClass's access mode leaves on a claim's directory. */
  function AppliedSubdirectoryMode(configured: string): UintResult {
    match SubdirectoryMode(configured)
    case Value(n) => Value(SyscallMode(n))
    case failed => failed
  }

  /**
   From the StorageClass string to the directory: accepted exactly as above, but
   applied as its octal value only when that is below 01000; zero leaves 0700.
   */
  lemma ConfiguredModeApplied(configured: string)
    ensures var zero := configured != "" && AllDigits(configured, 10) && ValueOf(configured, 10) == 0;
            var usable := AllDigits(configured, 8) && 1 <= ValueOf(configured, 10) < 0x8000_0000;
            && (AppliedSubdirectoryMode(configured).Value? <==> zero || usable)
            && (usable ==>
                  (AppliedSubdirectoryMode(configured) == Value(ValueOf(configured, 8)) <==>
                     ValueOf(configured, 8) < 512))
            && (zero ==> AppliedSubdirectoryMode(configured) == Value(448))
  {
    ConfiguredModeExact(configured);
    SyscallModeExact(ValueOf(configured, 8));
  }

  /** One more digit at the end of a digit string, by its code. */
  lemma {:induction false} ValueSnoc(s: string, c: char, base: nat, acc: nat)
    requires 48 <= c as int <= 57
    ensures ValueFrom(s + [c], base, acc) == ValueFrom(s, base, acc) * base + (c as int - 48)
    decreases |s|
  {
    if s == "" {
      assert s + [c] == [c] && [c][1..] == "";
    } else {
      assert (s + [c])[1..] == s[1..] + [c];
      ValueSnoc(s[1..], c, base, acc * base + DigitValue(s[0]));
    }
  }

  lemma DigitExactly(c: char, base: nat)
    requires base <= 10
    ensures IsDigit(c, base) <==> 48 <= c as int < 48 + base
  {
  }

  /** The conversion to an int32: the one number in range that differs by a multiple of 2^32. */
  lemma Int32Exactly(u: nat)
    ensures -0x8000_0000 <= Int32(u) < 0x8000_0000 && (u - Int32(u)) % 0x1_0000_0000 == 0
  {
    if u % 0x1_0000_0000 >= 0x8000_0000 {
      assert u - Int32(u) == (u / 0x1_0000_0000 + 1) * 0x1_0000_0000;
    } else {
      assert u - Int32(u) == (u / 0x1_0000_0000) * 0x1_0000_0000;
    }
  }

  /** What printing and reading in base ten give back. */
  lemma {:induction false} DecimalReadBack(n: nat, limit: nat)
    requires limit > 0
    ensures ParseFrom(Digits(n), 10, limit, 0) == if n < limit then Value(n) else RangeError
  {
    if n < 10 {
      assert Digits(n)[1..] == "";
    } else {
      DecimalReadBack(n / 10, limit);
      var c := DigitChar(n % 10);
      ParseFromSnoc(Digits(n / 10), c, 10, limit, 0);
      assert [c][1..] == "";
    }
  }

  /**
   The bits of an applied mode: the permissions of the file mode, and its bits 20, 22
   and 23, where Go keeps sticky, setgid and setuid, as the ninth to eleventh.
   */
  lemma SyscallBits(mode: nat)
    ensures var m := SyscallMode(mode);
            && m < 4096 && m % 512 == mode % 512
            && m / 512 % 2 == mode / 0x10_0000 % 2
            && m / 1024 % 2 == mode / 0x40_0000 % 2
            && m / 2048 % 2 == mode / 0x80_0000 % 2
  {
  }
}

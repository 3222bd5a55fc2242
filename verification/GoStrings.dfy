/**
 The parts of Go's `strings` package the driver relies on: splitting and
 joining on one separator, prefix tests, trimming and lower-casing.
 */
module GoStrings {

  /** `strings.Split` for a one-character separator. */
  function Split(s: string, sep: char): (parts: seq<string>)
    ensures |parts| >= 1
    ensures forall p <- parts :: sep !in p
  {
    if s == "" then [""]
    else
      var rest := Split(s[1..], sep);
      if s[0] == sep then [""] + rest
      else [[s[0]] + rest[0]] + rest[1..]
  }

  /** `strings.Join` for a one-character separator. */
  function Join(parts: seq<string>, sep: char): string {
    if |parts| == 0 then ""
    else if |parts| == 1 then parts[0]
    else parts[0] + [sep] + Join(parts[1..], sep)
  }

  predicate HasPrefix(s: string, prefix: string) {
    prefix <= s
  }

  lemma PrefixCancel(d: string, x: string, y: string)
    ensures HasPrefix(d + y, d + x) <==> HasPrefix(y, x)
  {
    if |x| <= |y| {
      assert (d + y)[..|d| + |x|] == d + y[..|x|];
      assert (d + x)[|d|..] == x && (d + y[..|x|])[|d|..] == y[..|x|];
    }
  }

  /** Splitting distributes over a separator in the middle. */
  lemma {:induction false} SplitConcat(a: string, b: string, sep: char)
    ensures Split(a + [sep] + b, sep) == Split(a, sep) + Split(b, sep)
  {
    var s := a + [sep] + b;
    if a == "" {
      assert s[1..] == b;
    } else {
      assert s[1..] == a[1..] + [sep] + b;
      SplitConcat(a[1..], b, sep);
    }
  }

  lemma {:induction false} SplitAtom(a: string, sep: char)
    requires sep !in a
    ensures Split(a, sep) == [a]
  {
    if a != "" {
      SplitAtom(a[1..], sep);
      assert [a[0]] + a[1..] == a;
    }
  }

  /** Joining what was split gives the string back, whatever the string. */
  lemma {:induction false} JoinSplit(s: string, sep: char)
    ensures Join(Split(s, sep), sep) == s
  {
    if s != "" {
      var rest := Split(s[1..], sep);
      JoinSplit(s[1..], sep);
      assert s == [s[0]] + s[1..];
      var parts := Split(s, sep);
      if s[0] == sep {
        assert parts[1..] == rest;
      } else {
        assert parts[1..] == rest[1..];
      }
    }
  }

  /** Splitting what was joined gives the parts back exactly when none holds the separator. */
  lemma {:induction false} SplitJoin(parts: seq<string>, sep: char)
    requires |parts| >= 1
    ensures Split(Join(parts, sep), sep) == parts <==> (forall p <- parts :: sep !in p)
  {
    if forall p <- parts :: sep !in p {
      SplitJoinAtoms(parts, sep);
    }
  }

  lemma {:induction false} SplitJoinAtoms(parts: seq<string>, sep: char)
    requires |parts| >= 1
    requires forall p <- parts :: sep !in p
    ensures Split(Join(parts, sep), sep) == parts
  {
    SplitAtom(parts[0], sep);
    if |parts| > 1 {
      SplitConcat(parts[0], Join(parts[1..], sep), sep);
      SplitJoinAtoms(parts[1..], sep);
      assert parts == [parts[0]] + parts[1..];
    }
  }

  lemma {:induction false} JoinAppend(parts: seq<string>, last: string, sep: char)
    requires |parts| >= 1
    ensures Join(parts + [last], sep) == Join(parts, sep) + [sep] + last
  {
    if |parts| > 1 {
      JoinAppend(parts[1..], last, sep);
      assert (parts + [last])[1..] == parts[1..] + [last];
    }
  }

  /** `a|b` and `a|b|c` split into their parts when no part holds the separator. */
  lemma SplitTwo(a: string, b: string, sep: char)
    requires sep !in a && sep !in b
    ensures Split(a + [sep] + b, sep) == [a, b]
  {
    SplitConcat(a, b, sep);
    SplitAtom(a, sep);
    SplitAtom(b, sep);
  }

  lemma SplitThree(a: string, b: string, c: string, sep: char)
    requires sep !in a && sep !in b && sep !in c
    ensures Split(a + [sep] + b + [sep] + c, sep) == [a, b, c]
  {
    SplitTwo(a, b, sep);
    SplitConcat(a + [sep] + b, c, sep);
    SplitAtom(c, sep);
  }

  /** The white space of Go's `unicode.IsSpace`. */
  predicate IsSpace(c: char) {
    || c == ' ' || '\U{0009}' <= c <= '\U{000D}'
    || c == '\U{0085}' || c == '\U{00A0}' || c == '\U{1680}'
    || '\U{2000}' <= c <= '\U{200A}'
    || c == '\U{2028}' || c == '\U{2029}' || c == '\U{202F}'
    || c == '\U{205F}' || c == '\U{3000}'
  }

  predicate AllSpace(s: string) {
    forall c <- s :: IsSpace(c)
  }

  function TrimLeft(s: string): string {
    if s != "" && IsSpace(s[0]) then TrimLeft(s[1..]) else s
  }

  function TrimRight(s: string): string {
    if s != "" && IsSpace(s[|s| - 1]) then TrimRight(s[..|s| - 1]) else s
  }

  /** `strings.TrimSpace`. */
  function TrimSpace(s: string): string {
    TrimRight(TrimLeft(s))
  }

  /** No white space at either end. */
  predicate Trimmed(s: string) {
    s == "" || (!IsSpace(s[0]) && !IsSpace(s[|s| - 1]))
  }

  lemma {:induction false} TrimLeftPad(pad: string, s: string)
    requires AllSpace(pad)
    ensures TrimLeft(pad + s) == TrimLeft(s)
  {
    if pad == "" {
      assert pad + s == s;
    } else {
      assert (pad + s)[1..] == pad[1..] + s;
      TrimLeftPad(pad[1..], s);
    }
  }

  lemma {:induction false} TrimRightPad(s: string, pad: string)
    requires AllSpace(pad)
    ensures TrimRight(s + pad) == TrimRight(s)
  {
    if pad == "" {
      assert s + pad == s;
    } else {
      var t := s + pad;
      assert t[..|t| - 1] == s + pad[..|pad| - 1];
      TrimRightPad(s, pad[..|pad| - 1]);
    }
  }

  /** Padding a trimmed, non-empty string and trimming it gives it back. */
  lemma TrimPadded(left: string, s: string, right: string)
    requires AllSpace(left) && AllSpace(right) && s != "" && Trimmed(s)
    ensures TrimSpace(left + s + right) == s
  {
    assert left + s + right == left + (s + right);
    TrimLeftPad(left, s + right);
    assert TrimLeft(s + right) == s + right;
    TrimRightPad(s, right);
  }

  lemma {:induction false} TrimLeftShape(s: string)
    ensures exists pad :: AllSpace(pad) && s == pad + TrimLeft(s)
    ensures TrimLeft(s) == "" || !IsSpace(TrimLeft(s)[0])
  {
    if s != "" && IsSpace(s[0]) {
      TrimLeftShape(s[1..]);
      var pad :| AllSpace(pad) && s[1..] == pad + TrimLeft(s[1..]);
      assert AllSpace([s[0]] + pad) && s == ([s[0]] + pad) + TrimLeft(s);
    } else {
      assert AllSpace("") && s == "" + TrimLeft(s);
    }
  }

  lemma {:induction false} TrimRightShape(s: string)
    ensures exists pad :: AllSpace(pad) && s == TrimRight(s) + pad
    ensures TrimRight(s) == "" || !IsSpace(TrimRight(s)[|TrimRight(s)| - 1])
  {
    if s != "" && IsSpace(s[|s| - 1]) {
      var init := s[..|s| - 1];
      TrimRightShape(init);
      var pad :| AllSpace(pad) && init == TrimRight(init) + pad;
      assert AllSpace(pad + [s[|s| - 1]]) && s == TrimRight(s) + (pad + [s[|s| - 1]]);
    } else {
      assert AllSpace("") && s == TrimRight(s) + "";
    }
  }

  /** What `TrimSpace` returns is trimmed, and only white space was taken from either end. */
  lemma TrimSpaceShape(s: string)
    ensures Trimmed(TrimSpace(s))
    ensures exists left, right :: AllSpace(left) && AllSpace(right) && s == left + TrimSpace(s) + right
  {
    TrimLeftShape(s);
    var mid := TrimLeft(s);
    TrimRightShape(mid);
    var left :| AllSpace(left) && s == left + mid;
    var right :| AllSpace(right) && mid == TrimRight(mid) + right;
    assert s == left + TrimSpace(s) + right;
  }

  function LowerChar(c: char): char {
    if 'A' <= c <= 'Z' then (c as int + 32) as char else c
  }

  /** `strings.ToLower` on ASCII letters; no other letter lower-cases into a recognised key. */
  function ToLower(s: string): (r: string)
    ensures |r| == |s|
  {
    if s == "" then "" else [LowerChar(s[0])] + ToLower(s[1..])
  }

  lemma {:induction false} LowerIs(s: string, t: string)
    requires |s| == |t| && forall i :: 0 <= i < |s| ==> LowerChar(s[i]) == t[i]
    ensures ToLower(s) == t
    decreases |s|
  {
    if s != "" {
      LowerIs(s[1..], t[1..]);
      assert t == [t[0]] + t[1..];
    }
  }

  /** Lower-casing, character by character: a letter from code 65 to 90 moves up by 32, anything else stays. */
  lemma {:induction false} LowerExactly(s: string, i: nat)
    requires i < |s|
    ensures ToLower(s)[i] as int == if 65 <= s[i] as int <= 90 then s[i] as int + 32 else s[i] as int
    decreases |s|
  {
    if i > 0 {
      LowerExactly(s[1..], i - 1);
    }
  }

  /** Which characters are white space, by their code points. */
  lemma SpaceExactly(c: char)
    ensures TrimSpace([c]) == "" <==>
              c as int in {9, 10, 11, 12, 13, 32, 0x85, 0xA0, 0x1680, 0x2028, 0x2029, 0x202F, 0x205F, 0x3000}
              || 0x2000 <= c as int <= 0x200A
    ensures TrimSpace([c]) != "" ==> TrimSpace([c]) == [c]
  {
    if IsSpace(c) {
      assert [c][1..] == "" && TrimLeft("") == "" && TrimRight("") == "";
      assert TrimLeft([c]) == "";
    } else {
      assert TrimLeft([c]) == [c] && [c][|[c]| - 1] == c;
      assert TrimRight([c]) == [c];
    }
  }

  /** A part without the separator comes off the front. */
  lemma SplitHead(a: string, rest: string, sep: char)
    requires sep !in a
    ensures Split(a + [sep] + rest, sep) == [a] + Split(rest, sep)
  {
    SplitConcat(a, rest, sep);
    SplitAtom(a, sep);
  }

  /** Trimming on the left stops at a character that is no white space. */
  lemma {:induction false} TrimLeftStops(a: string, c: char, b: string)
    requires !IsSpace(c)
    ensures TrimLeft(a + [c] + b) == TrimLeft(a) + [c] + b
  {
    if a == "" {
      assert a + [c] + b == [c] + b && TrimLeft(a) + [c] + b == [c] + b;
    } else {
      assert (a + [c] + b)[1..] == a[1..] + [c] + b;
      TrimLeftStops(a[1..], c, b);
    }
  }

  lemma {:induction false} TrimRightStops(a: string, c: char, b: string)
    requires !IsSpace(c)
    ensures TrimRight(a + [c] + b) == a + [c] + TrimRight(b)
    decreases |b|
  {
    var s := a + [c] + b;
    if b == "" {
      assert s[|s| - 1] == c;
    } else {
      assert s[..|s| - 1] == a + [c] + b[..|b| - 1];
      TrimRightStops(a, c, b[..|b| - 1]);
    }
  }

  lemma {:induction false} TrimLeftTwice(s: string)
    ensures TrimLeft(TrimLeft(s)) == TrimLeft(s)
  {
    TrimLeftShape(s);
  }

  /** Exactly the blank strings are trimmed away. */
  lemma TrimmedAway(s: string)
    ensures TrimSpace(s) == "" <==> AllSpace(s)
  {
    TrimSpaceShape(s);
    if AllSpace(s) {
      assert s + "" == s;
      TrimLeftPad(s, "");
    }
  }

  /** Trimming the right end first makes no difference. */
  lemma TrimRightFirst(s: string)
    ensures TrimSpace(TrimRight(s)) == TrimSpace(s)
  {
    var t := TrimRight(s);
    TrimRightShape(s);
    var pad :| AllSpace(pad) && s == t + pad;
    if t == "" {
      TrimmedAway(s);
      TrimmedAway(t);
    } else {
      var init, last := t[..|t| - 1], t[|t| - 1];
      assert s == init + [last] + pad && t == init + [last] + "";
      TrimLeftStops(init, last, pad);
      TrimLeftStops(init, last, "");
      assert TrimLeft(s) == TrimLeft(t) + pad;
      TrimRightPad(TrimLeft(t), pad);
    }
  }

  /** White space around a character that is none comes off the outer ends. */
  lemma TrimAround(a: string, c: char, b: string)
    requires !IsSpace(c)
    ensures TrimSpace(a + [c] + b) == TrimLeft(a) + [c] + TrimRight(b)
  {
    TrimLeftStops(a, c, b);
    TrimRightStops(TrimLeft(a), c, b);
  }
}

/** Volume labels: the `labels` parameter lists `<name>:<value>` pairs separated by commas. */
module Labels {
  import opened Options
  import opened GoStrings

  datatype Label = Label(name: string, value: string)

  /** One comma segment; what follows a second colon is dropped. */
  function ParseLabel(segment: string): Option<Label> {
    var parts := Split(TrimSpace(segment), ':');
    if |parts| < 2 then None
    else
      var name, value := TrimSpace(parts[0]), TrimSpace(parts[1]);
      if name == "" || value == "" then None else Some(Label(name, value))
  }

  /** All segments have to parse; the labels come in their order. */
  function ParseAll(segments: seq<string>): Option<seq<Label>> {
    if forall i :: 0 <= i < |segments| ==> ParseLabel(segments[i]).Some? then
      Some(seq(|segments|, i requires 0 <= i < |segments| && ParseLabel(segments[i]).Some? =>
        ParseLabel(segments[i]).value))
    else None
  }

  function LabelsOf(labels: string): Option<seq<Label>> {
    ParseAll(Split(labels, ','))
  }

  method ParseLabels(labels: string) returns (parsed: Option<seq<Label>>)
    ensures parsed == LabelsOf(labels)
  {
    var labelKVs := Split(labels, ',');
    var parsedLabels: seq<Label> := [];
    var i := 0;
    while i < |labelKVs|
      invariant 0 <= i <= |labelKVs| && |parsedLabels| == i
      invariant forall k :: 0 <= k < i ==> ParseLabel(labelKVs[k]) == Some(parsedLabels[k])
    {
      var parsedOne := ParseKV(labelKVs[i]);
      if parsedOne.None? {
        return None;
      }
      parsedLabels := parsedLabels + [parsedOne.value];
      i := i + 1;
    }
    assert ParseAll(labelKVs).Some? && ParseAll(labelKVs).value == parsedLabels;
    return Some(parsedLabels);
  }

  /** The body of the loop: one `<name>:<value>`. */
  method ParseKV(segment: string) returns (parsed: Option<Label>)
    ensures parsed == ParseLabel(segment)
  {
    var labelKV := TrimSpace(segment);
    var labelKVArr := Split(labelKV, ':');
    if |labelKVArr| < 2 {
      return None;
    }
    var key := TrimSpace(labelKVArr[0]);
    var value := TrimSpace(labelKVArr[1]);
    if key == "" {
      return None;
    }
    if value == "" {
      return None;
    }
    return Some(Label(key, value));
  }

  /** A label that survives printing: both parts non-empty, trimmed and free of separators. */
  predicate Printable(l: Label) {
    && l.name != "" && Trimmed(l.name) && ',' !in l.name && ':' !in l.name
    && l.value != "" && Trimmed(l.value) && ',' !in l.value && ':' !in l.value
  }

  /** White space around the parts of a printed label. */
  datatype Padding = Padding(before: string, afterName: string, beforeValue: string, after: string)

  predicate Blank(p: Padding) {
    AllSpace(p.before) && AllSpace(p.afterName) && AllSpace(p.beforeValue) && AllSpace(p.after)
  }

  function Print(l: Label, p: Padding): string {
    (p.before + l.name + p.afterName) + ":" + (p.beforeValue + l.value + p.after)
  }

  lemma SpaceHasNoSeparators(pad: string)
    requires AllSpace(pad)
    ensures ',' !in pad && ':' !in pad
  {
    assert !IsSpace(',') && !IsSpace(':');
  }

  lemma ParsePrinted(l: Label, p: Padding)
    requires Printable(l) && Blank(p)
    ensures ParseLabel(Print(l, p)) == Some(l) && ',' !in Print(l, p)
  {
    var left, right := l.name + p.afterName, p.beforeValue + l.value;
    SpaceHasNoSeparators(p.before);
    SpaceHasNoSeparators(p.afterName);
    SpaceHasNoSeparators(p.beforeValue);
    SpaceHasNoSeparators(p.after);
    var body := left + ":" + right;
    assert Print(l, p) == p.before + body + p.after;
    assert body[0] == l.name[0] && body[|body| - 1] == l.value[|l.value| - 1];
    TrimPadded(p.before, body, p.after);
    SplitTwo(left, right, ':');
    assert left == "" + l.name + p.afterName && right == p.beforeValue + l.value + "";
    TrimPadded("", l.name, p.afterName);
    TrimPadded(p.beforeValue, l.value, "");
  }

  function PrintAll(labels: seq<Label>, pads: seq<Padding>): seq<string>
    requires |labels| == |pads|
  {
    seq(|labels|, i requires 0 <= i < |labels| => Print(labels[i], pads[i]))
  }

  lemma ParseAllPrinted(labels: seq<Label>, pads: seq<Padding>)
    requires |labels| == |pads|
    requires (forall l <- labels :: Printable(l)) && (forall p <- pads :: Blank(p))
    ensures ParseAll(PrintAll(labels, pads)) == Some(labels)
    ensures forall segment <- PrintAll(labels, pads) :: ',' !in segment
  {
    var segments := PrintAll(labels, pads);
    forall i | 0 <= i < |labels| ensures ParseLabel(segments[i]) == Some(labels[i]) && ',' !in segments[i] {
      assert labels[i] in labels && pads[i] in pads;
      ParsePrinted(labels[i], pads[i]);
    }
    assert ParseAll(segments).value == labels;
  }

  /** Parsing undoes printing, for every non-empty list of printable labels and any padding. */
  lemma ParsingUndoesPrinting(labels: seq<Label>, pads: seq<Padding>)
    requires |labels| == |pads| && labels != []
    requires (forall l <- labels :: Printable(l)) && (forall p <- pads :: Blank(p))
    ensures LabelsOf(Join(PrintAll(labels, pads), ',')) == Some(labels)
  {
    ParseAllPrinted(labels, pads);
    SplitJoinAtoms(PrintAll(labels, pads), ',');
  }

  /** An accepted segment gives a label whose parts are trimmed, non-empty and free of separators. */
  lemma LabelShape(segment: string)
    requires ParseLabel(segment).Some? && ',' !in segment
    ensures Printable(ParseLabel(segment).value)
  {
    var body := TrimSpace(segment);
    TrimKeeps(segment, ',');
    var parts := Split(body, ':');
    SplitKeeps(body, ':', ',');
    assert parts[0] in parts && parts[1] in parts;
    TrimKeeps(parts[0], ',');
    TrimKeeps(parts[0], ':');
    TrimKeeps(parts[1], ',');
    TrimKeeps(parts[1], ':');
  }

  lemma TrimKeeps(s: string, c: char)
    requires c !in s
    ensures c !in TrimSpace(s) && Trimmed(TrimSpace(s))
  {
    TrimSpaceShape(s);
    var left, right :| AllSpace(left) && AllSpace(right) && s == left + TrimSpace(s) + right;
    forall k | 0 <= k < |TrimSpace(s)| ensures TrimSpace(s)[k] != c {
      assert s[|left| + k] == TrimSpace(s)[k];
    }
  }

  lemma {:induction false} SplitKeeps(s: string, sep: char, c: char)
    requires c !in s
    ensures forall p <- Split(s, sep) :: c !in p
  {
    if s != "" {
      SplitKeeps(s[1..], sep, c);
    }
  }

  /**
   An accepted list has one label per comma segment, each with trimmed, non-empty
   parts; printing them and parsing that again gives the same labels.
   */
  lemma AcceptedRoundTrip(text: string)
    requires LabelsOf(text).Some?
    ensures |LabelsOf(text).value| == |Split(text, ',')|
    ensures forall l <- LabelsOf(text).value :: Printable(l)
    ensures var labels := LabelsOf(text).value;
            var plain := seq(|labels|, _ => Padding("", "", "", ""));
            LabelsOf(Join(PrintAll(labels, plain), ',')) == LabelsOf(text)
  {
    var segments := Split(text, ',');
    var labels := LabelsOf(text).value;
    forall i | 0 <= i < |labels| ensures Printable(labels[i]) {
      assert segments[i] in segments && ParseLabel(segments[i]) == Some(labels[i]);
      LabelShape(segments[i]);
    }
    ParsingUndoesPrinting(labels, seq(|labels|, _ => Padding("", "", "", "")));
  }

  lemma TwoColonParts(name: string, value: string, rest: string)
    requires ':' !in name && ':' !in value && (rest == "" || rest[0] == ':')
    ensures var parts := Split(name + ":" + (value + rest), ':'); |parts| >= 2 && parts[0] == name && parts[1] == value
  {
    SplitHead(name, value + rest, ':');
    if rest == "" {
      SplitAtom(value, ':');
      assert value + rest == value;
    } else {
      SplitHead(value, rest[1..], ':');
      assert value + rest == value + ":" + rest[1..];
    }
  }

  lemma {:induction false} TrimmedEndsHaveNone(s: string, c: char)
    requires c !in s
    ensures c !in TrimLeft(s) && c !in TrimRight(s)
  {
    TrimLeftShape(s);
    TrimRightShape(s);
    var left :| AllSpace(left) && s == left + TrimLeft(s);
    var right :| AllSpace(right) && s == TrimRight(s) + right;
    assert forall k :: 0 <= k < |TrimLeft(s)| ==> TrimLeft(s)[k] == s[|left| + k];
    assert forall k :: 0 <= k < |TrimRight(s)| ==> TrimRight(s)[k] == s[k];
  }

  /** The parts of a trimmed segment, up to white space that their own trimming takes. */
  lemma SegmentParts(name: string, value: string, rest: string)
    requires ':' !in name && ':' !in value && (rest == "" || rest[0] == ':')
    ensures var parts := Split(TrimSpace(name + ":" + (value + rest)), ':');
            |parts| >= 2 && TrimSpace(parts[0]) == TrimSpace(name) && TrimSpace(parts[1]) == TrimSpace(value)
  {
    TrimAround(name, ':', value + rest);
    TrimLeftTwice(name);
    TrimmedEndsHaveNone(name, ':');
    if rest == "" {
      assert value + rest == value;
      TrimmedEndsHaveNone(value, ':');
      TrimRightFirst(value);
      TwoColonParts(TrimLeft(name), TrimRight(value), "");
      assert TrimRight(value) + "" == TrimRight(value);
    } else {
      assert value + rest == value + ":" + rest[1..];
      TrimRightStops(value, ':', rest[1..]);
      var last := ":" + TrimRight(rest[1..]);
      TwoColonParts(TrimLeft(name), value, last);
      assert value + ":" + TrimRight(rest[1..]) == value + last;
    }
  }

  /**
   Exactly what one segment is read as. It needs a colon; the name is what precedes
   the first, the value what follows it up to a second, both trimmed and neither blank.
   */
  lemma LabelExactly(name: string, value: string, rest: string)
    requires ':' !in name && ':' !in value && (rest == "" || rest[0] == ':')
    ensures ParseLabel(name).None?
    ensures ParseLabel(name + ":" + (value + rest)) ==
              if AllSpace(name) || AllSpace(value) then None else Some(Label(TrimSpace(name), TrimSpace(value)))
  {
    TrimKeeps(name, ':');
    SplitAtom(TrimSpace(name), ':');
    SegmentParts(name, value, rest);
    TrimmedAway(name);
    TrimmedAway(value);
  }

  /** A list of labels is refused exactly if a segment of it is; otherwise it has one label per segment, in order. */
  lemma LabelsExactly(text: string)
    ensures var segments := Split(text, ',');
            && (LabelsOf(text).None? <==> exists segment :: segment in segments && ParseLabel(segment).None?)
            && (LabelsOf(text).Some? ==>
                  && |LabelsOf(text).value| == |segments|
                  && forall i :: 0 <= i < |segments| ==> ParseLabel(segments[i]) == Some(LabelsOf(text).value[i]))
  {
    var segments := Split(text, ',');
    if LabelsOf(text).None? {
      var i :| 0 <= i < |segments| && ParseLabel(segments[i]).None?;
      assert segments[i] in segments;
    }
  }
}

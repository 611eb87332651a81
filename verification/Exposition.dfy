// The Prometheus text exposition format, version 0.0.4: how the registry prints it, and a parser
// for it. Values are printed as opaque tokens.

module Exposition {
  import opened Common

  // ---------- Escaping ----------

  // strings.ReplaceAll with a single character to replace.
  function ReplaceAll(s: string, c: char, w: string): string {
    if s == [] then [] else (if s[0] == c then w else [s[0]]) + ReplaceAll(s[1..], c, w)
  }

  function EscapeHelp(value: string): string {
    ReplaceAll(ReplaceAll(value, '\\', "\\\\"), '\n', "\\n")
  }

  function EscapeLabelValue(value: string): string {
    ReplaceAll(ReplaceAll(ReplaceAll(value, '\\', "\\\\"), '\n', "\\n"), '\"', "\\\"")
  }

  // What becomes of one character.
  function EscapeChar(c: char, quotes: bool): string {
    if c == '\\' then "\\\\" else if c == '\n' then "\\n" else if quotes && c == '\"' then "\\\"" else [c]
  }

  function EscapeEach(s: string, quotes: bool): string {
    if s == [] then [] else EscapeChar(s[0], quotes) + EscapeEach(s[1..], quotes)
  }

  lemma {:induction false} ReplaceAllAppend(a: string, b: string, c: char, w: string)
    ensures ReplaceAll(a + b, c, w) == ReplaceAll(a, c, w) + ReplaceAll(b, c, w)
  {
    if a == [] {
      assert a + b == b;
    } else {
      ReplaceAllAppend(a[1..], b, c, w);
      assert (a + b)[0] == a[0] && (a + b)[1..] == a[1..] + b;
      Associate(if a[0] == c then w else [a[0]], ReplaceAll(a[1..], c, w), ReplaceAll(b, c, w));
    }
  }

  lemma ReplaceAllShort(s: string, c: char, w: string)
    requires |s| <= 2
    ensures |s| == 1 ==> ReplaceAll(s, c, w) == if s[0] == c then w else s
    ensures |s| == 2 ==> ReplaceAll(s, c, w) == (if s[0] == c then w else s[..1]) + (if s[1] == c then w else s[1..])
  {
    if |s| == 2 {
      assert s[1..][1..] == [];
    }
  }

  // The replacements do not disturb each other: their chain escapes character by character.
  lemma {:induction false} EscapeLabelValueIsPerChar(s: string)
    ensures EscapeLabelValue(s) == EscapeEach(s, true)
  {
    if s != [] {
      EscapeLabelValueIsPerChar(s[1..]);
      var a1 := ReplaceAll([s[0]], '\\', "\\\\");
      ReplaceAllShort([s[0]], '\\', "\\\\");
      var a2 := ReplaceAll(a1, '\n', "\\n");
      ReplaceAllShort(a1, '\n', "\\n");
      ReplaceAllShort(a2, '\"', "\\\"");
      assert s == [s[0]] + s[1..];
      var b1 := ReplaceAll(s[1..], '\\', "\\\\");
      ReplaceAllAppend([s[0]], s[1..], '\\', "\\\\");
      ReplaceAllAppend(a1, b1, '\n', "\\n");
      ReplaceAllAppend(a2, ReplaceAll(b1, '\n', "\\n"), '\"', "\\\"");
    }
  }

  lemma {:induction false} EscapeHelpIsPerChar(s: string)
    ensures EscapeHelp(s) == EscapeEach(s, false)
  {
    if s != [] {
      EscapeHelpIsPerChar(s[1..]);
      var a1 := ReplaceAll([s[0]], '\\', "\\\\");
      ReplaceAllShort([s[0]], '\\', "\\\\");
      ReplaceAllShort(a1, '\n', "\\n");
      assert s == [s[0]] + s[1..];
      ReplaceAllAppend([s[0]], s[1..], '\\', "\\\\");
      ReplaceAllAppend(a1, ReplaceAll(s[1..], '\\', "\\\\"), '\n', "\\n");
    }
  }

  // ---------- Printing ----------

  datatype Label = Label(name: string, value: string)

  datatype Sample = Sample(name: string, labels: seq<Label>, token: string)

  datatype Family = Family(name: string, help: string, kind: string, samples: seq<Sample>)

  function LabelText(l: Label): string {
    l.name + "=\"" + EscapeLabelValue(l.value) + "\""
  }

  function LabelsText(labels: seq<Label>): string {
    if labels == [] then []
    else if |labels| == 1 then LabelText(labels[0])
    else LabelText(labels[0]) + "," + LabelsText(labels[1..])
  }

  function SampleText(s: Sample): string {
    s.name + (if s.labels == [] then "" else "{" + LabelsText(s.labels) + "}") + " " + s.token + "\n"
  }

  function SamplesText(samples: seq<Sample>): string {
    if samples == [] then [] else SampleText(samples[0]) + SamplesText(samples[1..])
  }

  function HeaderText(name: string, help: string, kind: string): string {
    "# HELP " + name + " " + EscapeHelp(help) + "\n" + "# TYPE " + name + " " + kind + "\n"
  }

  function FamilyText(f: Family): string {
    HeaderText(f.name, f.help, f.kind) + SamplesText(f.samples)
  }

  function FamiliesText(fs: seq<Family>): string {
    if fs == [] then [] else FamilyText(fs[0]) + FamiliesText(fs[1..])
  }

  // ---------- Parsing ----------

  // The text before the first occurrence of a stop character.
  function Before(s: string, stops: string): string {
    if s == [] || s[0] in stops then [] else [s[0]] + Before(s[1..], stops)
  }

  lemma BeforeIsPrefix(s: string, stops: string)
    ensures |Before(s, stops)| <= |s|
  {
  }

  // s without a literal at its start.
  function Expect(s: string, literal: string): Option<string> {
    if literal <= s then Some(s[|literal|..]) else None
  }

  datatype Parsed<T> = Fail | Done(value: T, rest: string)

  // An escaped text up to an unescaped stop character, which stays in the rest.
  function ParseEscaped(s: string, stop: char): (r: Parsed<string>)
    ensures r.Done? ==> |r.rest| <= |s|
  {
    if s == [] then Fail
    else if s[0] == stop then Done([], s)
    else if s[0] == '\\' then
      if |s| < 2 then Fail
      else
        var c := if s[1] == 'n' then '\n' else s[1];
        (match ParseEscaped(s[2..], stop)
         case Fail => Fail
         case Done(t, rest) => Done([c] + t, rest))
    else
      match ParseEscaped(s[1..], stop)
      case Fail => Fail
      case Done(t, rest) => Done([s[0]] + t, rest)
  }

  function ParseLabel(s: string): (r: Parsed<Label>)
    ensures r.Done? ==> |r.rest| < |s|
  {
    BeforeIsPrefix(s, "=");
    var name := Before(s, "=");
    match Expect(s[|name|..], "=\"")
    case None => Fail
    case Some(t) =>
      match ParseEscaped(t, '\"')
      case Fail => Fail
      case Done(value, rest) => if rest == [] then Fail else Done(Label(name, value), rest[1..])
  }

  // Labels separated by commas up to and including the closing brace.
  function ParseLabels(s: string): (r: Parsed<seq<Label>>)
    ensures r.Done? ==> |r.rest| < |s|
    decreases |s|
  {
    match ParseLabel(s)
    case Fail => Fail
    case Done(l, rest) =>
      if rest != [] && rest[0] == '}' then Done([l], rest[1..])
      else if rest != [] && rest[0] == ',' then
        (match ParseLabels(rest[1..])
         case Fail => Fail
         case Done(ls, rest') => Done([l] + ls, rest'))
      else Fail
  }

  // " token\n" after a name and its labels
  function ParseValue(s: string, name: string, labels: seq<Label>): (r: Parsed<Sample>)
    ensures r.Done? ==> |r.rest| < |s|
  {
    if s == [] || s[0] != ' ' then Fail
    else
      BeforeIsPrefix(s[1..], "\n");
      var token := Before(s[1..], "\n");
      var rest := s[1 + |token|..];
      if rest == [] then Fail else Done(Sample(name, labels, token), rest[1..])
  }

  function ParseSample(s: string): (r: Parsed<Sample>)
    ensures r.Done? ==> |r.rest| < |s|
  {
    BeforeIsPrefix(s, "{ ");
    var name := Before(s, "{ ");
    var rest := s[|name|..];
    if rest != [] && rest[0] == '{' then
      match ParseLabels(rest[1..])
      case Fail => Fail
      case Done(labels, rest') => ParseValue(rest', name, labels)
    else ParseValue(rest, name, [])
  }

  // The samples up to the next comment line or the end.
  function ParseSamples(s: string): (r: Parsed<seq<Sample>>)
    ensures r.Done? ==> |r.rest| <= |s|
    decreases |s|
  {
    if s == [] || s[0] == '#' then Done([], s)
    else
      match ParseSample(s)
      case Fail => Fail
      case Done(sample, rest) =>
        match ParseSamples(rest)
        case Fail => Fail
        case Done(samples, rest') => Done([sample] + samples, rest')
  }

  // "# HELP name help", up to the newline
  function ParseHelp(s: string): (r: Parsed<(string, string)>)
    ensures r.Done? ==> |r.rest| < |s|
  {
    match Expect(s, "# HELP ")
    case None => Fail
    case Some(s1) =>
      BeforeIsPrefix(s1, " ");
      var name := Before(s1, " ");
      if |name| == |s1| then Fail
      else
        match ParseEscaped(s1[|name| + 1..], '\n')
        case Fail => Fail
        case Done(help, rest) => Done((name, help), rest)
  }

  // A newline and "# TYPE name kind" with its newline
  function ParseType(s: string, name: string): (r: Parsed<string>)
    ensures r.Done? ==> |r.rest| < |s|
  {
    match Expect(s, TypePrefix(name))
    case None => Fail
    case Some(t) =>
      BeforeIsPrefix(t, "\n");
      var kind := Before(t, "\n");
      if |kind| == |t| then Fail else Done(kind, t[|kind| + 1..])
  }

  function TypePrefix(name: string): string {
    "\n# TYPE " + name + " "
  }

  function ParseFamily(s: string): (r: Parsed<Family>)
    ensures r.Done? ==> |r.rest| < |s|
  {
    match ParseHelp(s)
    case Fail => Fail
    case Done((name, help), s1) =>
      match ParseType(s1, name)
      case Fail => Fail
      case Done(kind, s2) =>
        match ParseSamples(s2)
        case Fail => Fail
        case Done(samples, rest) => Done(Family(name, help, kind, samples), rest)
  }

  function ParseFamilies(s: string): Parsed<seq<Family>>
    decreases |s|
  {
    if s == [] then Done([], [])
    else
      match ParseFamily(s)
      case Fail => Fail
      case Done(f, rest) =>
        match ParseFamilies(rest)
        case Fail => Fail
        case Done(fs, rest') => Done([f] + fs, rest')
  }

  // ---------- Round trip ----------

  predicate NoneOf(s: string, chars: string) {
    forall c :: c in s ==> c !in chars
  }

  // Names as the format allows them, which is narrower, never hold these characters.
  predicate IsName(s: string) {
    s != [] && s[0] != '#' && NoneOf(s, "{ =\n")
  }

  predicate LabelOK(l: Label) {
    IsName(l.name)
  }

  predicate SampleOK(s: Sample) {
    IsName(s.name) && NoneOf(s.token, "\n") && forall i :: 0 <= i < |s.labels| ==> LabelOK(s.labels[i])
  }

  predicate FamilyOK(f: Family) {
    IsName(f.name) && NoneOf(f.kind, "\n") && forall i :: 0 <= i < |f.samples| ==> SampleOK(f.samples[i])
  }

  lemma {:induction false} BeforeStops(a: string, stops: string, rest: string)
    requires NoneOf(a, stops) && rest != [] && rest[0] in stops
    ensures Before(a + rest, stops) == a && (a + rest)[|a|..] == rest
  {
    if a == [] {
      assert a + rest == rest;
    } else {
      assert a[0] in a;
      BeforeStops(a[1..], stops, rest);
      assert (a + rest)[1..] == a[1..] + rest;
    }
  }

  lemma ExpectLiteral(literal: string, rest: string)
    ensures Expect(literal + rest, literal) == Some(rest)
  {
    assert (literal + rest)[|literal|..] == rest;
  }

  lemma ParseEscapedStep(c: char, quotes: bool, stop: char, tail: string)
    requires stop == (if quotes then '\"' else '\n')
    ensures ParseEscaped(EscapeChar(c, quotes) + tail, stop) ==
            match ParseEscaped(tail, stop) case Fail => Fail case Done(t, rest) => Done([c] + t, rest)
  {
    var e := EscapeChar(c, quotes);
    var s := e + tail;
    assert s[0] == e[0] && s[|e|..] == tail;
    if |e| == 2 {
      assert s[1] == e[1];
    }
  }

  lemma Associate(a: string, b: string, c: string)
    ensures (a + b) + c == a + (b + c)
  {
  }

  lemma HeadTail<T>(s: seq<T>)
    requires s != []
    ensures [s[0]] + s[1..] == s
  {
  }

  lemma {:induction false} ParseEscapedInverts(s: string, quotes: bool, stop: char, rest: string)
    requires rest != [] && rest[0] == stop && stop == (if quotes then '\"' else '\n')
    ensures ParseEscaped(EscapeEach(s, quotes) + rest, stop) == Done(s, rest)
  {
    if s == [] {
      assert EscapeEach(s, quotes) + rest == rest;
    } else {
      ParseEscapedInverts(s[1..], quotes, stop, rest);
      ParseEscapedStep(s[0], quotes, stop, EscapeEach(s[1..], quotes) + rest);
      Associate(EscapeChar(s[0], quotes), EscapeEach(s[1..], quotes), rest);
      HeadTail(s);
    }
  }

  lemma ParseLabelInverts(l: Label, rest: string)
    requires LabelOK(l)
    ensures ParseLabel(LabelText(l) + rest) == Done(l, rest)
  {
    var value := EscapeLabelValue(l.value);
    var t := value + ("\"" + rest);
    EscapeLabelValueIsPerChar(l.value);
    ParseEscapedInverts(l.value, true, '\"', "\"" + rest);
    assert LabelText(l) + rest == l.name + ("=\"" + t);
    BeforeStops(l.name, "=", "=\"" + t);
    ExpectLiteral("=\"", t);
  }

  lemma ParseLastLabel(s: string, l: Label, rest: string)
    requires ParseLabel(s) == Done(l, ['}'] + rest)
    ensures ParseLabels(s) == Done([l], rest)
  {
    assert (['}'] + rest)[1..] == rest;
  }

  lemma ParseMoreLabels(s: string, l: Label, tail: string, ls: seq<Label>, rest: string)
    requires ParseLabel(s) == Done(l, [','] + tail) && ParseLabels(tail) == Done(ls, rest)
    ensures ParseLabels(s) == Done([l] + ls, rest)
  {
    assert ([','] + tail)[1..] == tail;
  }

  lemma LabelsTextSplit(labels: seq<Label>, rest: string)
    requires |labels| > 1
    ensures LabelsText(labels) + rest == LabelText(labels[0]) + ([','] + (LabelsText(labels[1..]) + rest))
  {
    var l, ls := LabelText(labels[0]), LabelsText(labels[1..]);
    assert LabelsText(labels) == l + "," + ls;
    Associate(l + ",", ls, rest);
    Associate(l, ",", ls + rest);
  }

  lemma {:induction false} ParseLabelsInverts(labels: seq<Label>, rest: string)
    requires labels != [] && forall i :: 0 <= i < |labels| ==> LabelOK(labels[i])
    ensures ParseLabels(LabelsText(labels) + (['}'] + rest)) == Done(labels, rest)
    decreases |labels|
  {
    var l := labels[0];
    if |labels| == 1 {
      ParseLabelInverts(l, ['}'] + rest);
      ParseLastLabel(LabelText(l) + (['}'] + rest), l, rest);
      assert labels == [l];
    } else {
      var tail := LabelsText(labels[1..]) + (['}'] + rest);
      ParseLabelsInverts(labels[1..], rest);
      ParseLabelInverts(l, [','] + tail);
      ParseMoreLabels(LabelText(l) + ([','] + tail), l, tail, labels[1..], rest);
      LabelsTextSplit(labels, ['}'] + rest);
      HeadTail(labels);
    }
  }

  lemma ParseValueInverts(name: string, labels: seq<Label>, token: string, rest: string)
    requires NoneOf(token, "\n")
    ensures ParseValue(" " + token + "\n" + rest, name, labels) == Done(Sample(name, labels, token), rest)
  {
    var s := " " + token + "\n" + rest;
    assert s[1..] == token + ("\n" + rest);
    BeforeStops(token, "\n", "\n" + rest);
    assert s[1 + |token|..] == "\n" + rest;
  }

  lemma ParseBareSample(name: string, token: string, rest: string)
    requires IsName(name) && NoneOf(token, "\n")
    ensures ParseSample(name + (" " + token + "\n" + rest)) == Done(Sample(name, [], token), rest)
  {
    var value := " " + token + "\n" + rest;
    ParseValueInverts(name, [], token, rest);
    BeforeStops(name, "{ ", value);
  }

  lemma ParseLabelledSample(name: string, labels: seq<Label>, inner: string, value: string, token: string, rest: string)
    requires IsName(name) && ParseLabels(inner) == Done(labels, value)
    requires ParseValue(value, name, labels) == Done(Sample(name, labels, token), rest)
    ensures ParseSample(name + (['{'] + inner)) == Done(Sample(name, labels, token), rest)
  {
    BeforeStops(name, "{ ", ['{'] + inner);
    assert (['{'] + inner)[1..] == inner;
  }

  lemma SampleTextSplit(s: Sample, rest: string)
    ensures var value := " " + s.token + "\n" + rest;
            SampleText(s) + rest ==
            s.name + (if s.labels == [] then value else ['{'] + (LabelsText(s.labels) + (['}'] + value)))
  {
    var value := " " + s.token + "\n";
    if s.labels == [] {
      BareSampleText(s.name, s.token);
      Associate(s.name, value, rest);
    } else {
      var braces := ['{'] + LabelsText(s.labels) + ['}'];
      LabelledSampleText(s);
      Associate(s.name + braces, value, rest);
      Associate(s.name, braces, value + rest);
      Associate(['{'] + LabelsText(s.labels), ['}'], value + rest);
      Associate(['{'], LabelsText(s.labels), ['}'] + (value + rest));
    }
  }

  lemma BareSampleText(name: string, token: string)
    ensures SampleText(Sample(name, [], token)) == name + (" " + token + "\n")
  {
    Associate(name, " ", token);
    Associate(name, " " + token, "\n");
  }

  lemma LabelledSampleText(s: Sample)
    requires s.labels != []
    ensures SampleText(s) == s.name + (['{'] + LabelsText(s.labels) + ['}']) + (" " + s.token + "\n")
  {
    var labelled := s.name + (['{'] + LabelsText(s.labels) + ['}']);
    Associate(labelled, " ", s.token);
    Associate(labelled, " " + s.token, "\n");
  }

  lemma ParseSampleInverts(s: Sample, rest: string)
    requires SampleOK(s)
    ensures ParseSample(SampleText(s) + rest) == Done(s, rest)
  {
    var value := " " + s.token + "\n" + rest;
    if s.labels == [] {
      ParseBareSample(s.name, s.token, rest);
      SampleTextSplit(s, rest);
    } else {
      var inner := LabelsText(s.labels) + (['}'] + value);
      ParseLabelsInverts(s.labels, value);
      ParseValueInverts(s.name, s.labels, s.token, rest);
      ParseLabelledSample(s.name, s.labels, inner, value, s.token, rest);
      SampleTextSplit(s, rest);
    }
  }

  lemma ParseMoreSamples(s: string, sample: Sample, tail: string, samples: seq<Sample>, rest: string)
    requires s != [] && s[0] != '#' && ParseSample(s) == Done(sample, tail) && ParseSamples(tail) == Done(samples, rest)
    ensures ParseSamples(s) == Done([sample] + samples, rest)
  {
  }

  lemma {:induction false} ParseSamplesInverts(samples: seq<Sample>, rest: string)
    requires forall i :: 0 <= i < |samples| ==> SampleOK(samples[i])
    requires rest == [] || rest[0] == '#'
    ensures ParseSamples(SamplesText(samples) + rest) == Done(samples, rest)
    decreases |samples|
  {
    if samples == [] {
      assert SamplesText(samples) + rest == rest;
    } else {
      var tail := SamplesText(samples[1..]) + rest;
      var s := SampleText(samples[0]) + tail;
      ParseSamplesInverts(samples[1..], rest);
      ParseSampleInverts(samples[0], tail);
      SampleStart(samples[0], tail);
      ParseMoreSamples(s, samples[0], tail, samples[1..], rest);
      Associate(SampleText(samples[0]), SamplesText(samples[1..]), rest);
      HeadTail(samples);
    }
  }

  lemma SampleStart(sample: Sample, tail: string)
    requires SampleOK(sample)
    ensures var s := SampleText(sample) + tail; s != [] && s[0] != '#'
  {
    assert (SampleText(sample) + tail)[0] == sample.name[0];
  }

  lemma ParseHelpInverts(name: string, help: string, rest: string)
    requires IsName(name) && rest != [] && rest[0] == '\n'
    ensures ParseHelp("# HELP " + (name + ([' '] + (EscapeHelp(help) + rest)))) == Done((name, help), rest)
  {
    var escaped := EscapeHelp(help) + rest;
    var s1 := name + ([' '] + escaped);
    EscapeHelpIsPerChar(help);
    ParseEscapedInverts(help, false, '\n', rest);
    ExpectLiteral("# HELP ", s1);
    BeforeStops(name, " ", [' '] + escaped);
    assert s1[|name| + 1..] == escaped;
  }

  lemma ParseTypeInverts(name: string, kind: string, body: string)
    requires NoneOf(kind, "\n")
    ensures ParseType(TypePrefix(name) + (kind + (['\n'] + body)), name) == Done(kind, body)
  {
    var t := kind + (['\n'] + body);
    ExpectLiteral(TypePrefix(name), t);
    BeforeStops(kind, "\n", ['\n'] + body);
    assert t[|kind| + 1..] == body;
  }

  lemma HeaderTextSplit(name: string, help: string, kind: string, body: string)
    ensures HeaderText(name, help, kind) + body ==
            "# HELP " + (name + ([' '] + (EscapeHelp(help) + (TypePrefix(name) + (kind + (['\n'] + body))))))
  {
    var h, line := EscapeHelp(help), kind + "\n";
    assert HeaderText(name, help, kind) == "# HELP " + name + " " + h + TypePrefix(name) + line;
    assert line + body == kind + (['\n'] + body);
    Associate("# HELP " + name + " " + h + TypePrefix(name), line, body);
    Associate("# HELP " + name + " " + h, TypePrefix(name), line + body);
    var tail := TypePrefix(name) + (line + body);
    Associate("# HELP " + name + " ", h, tail);
    Associate("# HELP " + name, " ", h + tail);
    Associate("# HELP ", name, " " + (h + tail));
  }

  lemma ParseFamilyInverts(f: Family, rest: string)
    requires FamilyOK(f) && (rest == [] || rest[0] == '#')
    ensures ParseFamily(FamilyText(f) + rest) == Done(f, rest)
  {
    var body := SamplesText(f.samples) + rest;
    var s1 := TypePrefix(f.name) + (f.kind + (['\n'] + body));
    assert s1[0] == '\n';
    ParseHelpInverts(f.name, f.help, s1);
    ParseTypeInverts(f.name, f.kind, body);
    ParseSamplesInverts(f.samples, rest);
    HeaderTextSplit(f.name, f.help, f.kind, body);
    Associate(HeaderText(f.name, f.help, f.kind), SamplesText(f.samples), rest);
  }

  lemma FamiliesStart(fs: seq<Family>)
    ensures FamiliesText(fs) == [] || FamiliesText(fs)[0] == '#'
  {
    if fs != [] {
      assert FamilyText(fs[0])[0] == '#';
    }
  }

  lemma FamilyTextStart(f: Family, rest: string)
    ensures FamilyText(f) + rest != []
  {
    assert FamilyText(f)[0] == '#';
  }

  lemma ParseMoreFamilies(s: string, f: Family, tail: string, fs: seq<Family>)
    requires s != [] && ParseFamily(s) == Done(f, tail) && ParseFamilies(tail) == Done(fs, [])
    ensures ParseFamilies(s) == Done([f] + fs, [])
  {
  }

  // Parsing the printed text gives back every family with its help text, and every sample with its
  // name, label values and value token, whatever characters the help texts and label values hold.
  lemma {:induction false} ExpositionRoundTrip(fs: seq<Family>)
    requires forall i :: 0 <= i < |fs| ==> FamilyOK(fs[i])
    ensures ParseFamilies(FamiliesText(fs)) == Done(fs, [])
    decreases |fs|
  {
    if fs != [] {
      var rest := FamiliesText(fs[1..]);
      ExpositionRoundTrip(fs[1..]);
      FamiliesStart(fs[1..]);
      ParseFamilyInverts(fs[0], rest);
      FamilyTextStart(fs[0], rest);
      ParseMoreFamilies(FamiliesText(fs), fs[0], rest, fs[1..]);
      HeadTail(fs);
    }
  }
}

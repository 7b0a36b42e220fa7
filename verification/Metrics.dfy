/** Counters and their printed form (Prometheus text format 0.0.4). */
module Metrics {
  import opened Wrappers
  import opened Text
  import Sums

  datatype Key = Key(token: string, action: string, outcome: string)

  type Requests = map<Key, nat>
  type Created = map<string, nat>

  function CountRequest(m: Requests, k: Key): Requests {
    m[k := (if k in m then m[k] else 0) + 1]
  }

  function AddCreated(m: Created, token: string, n: nat): Created {
    m[token := (if token in m then m[token] else 0) + n]
  }

  // ----- escaping -----

  const BACKSLASH := '\\'
  const QUOTE := '"'
  const NEWLINE := '\n'

  /** Replaces every occurrence of one character by a text. */
  function Replace(s: string, c: char, r: string): string {
    if s == [] then [] else (if s[0] == c then r else [s[0]]) + Replace(s[1..], c, r)
  }

  /** Three passes: backslash first, then quote, then newline. */
  function Escape(value: string): string {
    Replace(Replace(Replace(value, BACKSLASH, "\\\\"), QUOTE, "\\\""), NEWLINE, "\\n")
  }

  function EscapeChar(c: char): string {
    if c == BACKSLASH then "\\\\" else if c == QUOTE then "\\\"" else if c == NEWLINE then "\\n" else [c]
  }

  function EscapeOnce(value: string): string {
    if value == [] then [] else EscapeChar(value[0]) + EscapeOnce(value[1..])
  }

  lemma {:induction false} ReplaceAppend(a: string, b: string, c: char, r: string)
    ensures Replace(a + b, c, r) == Replace(a, c, r) + Replace(b, c, r)
  {
    if a == [] {
      assert a + b == b;
    } else {
      ReplaceAppend(a[1..], b, c, r);
      assert (a + b)[1..] == a[1..] + b && (a + b)[0] == a[0];
      var x, u, v := if a[0] == c then r else [a[0]], Replace(a[1..], c, r), Replace(b, c, r);
      assert Replace(a + b, c, r) == x + (u + v);
      assert x + (u + v) == (x + u) + v;
    }
  }

  lemma ReplaceOne(x: char, c: char, r: string)
    ensures Replace([x], c, r) == if x == c then r else [x]
  {
    assert [x][1..] == [];
  }

  lemma ReplaceTwo(x: char, y: char, c: char, r: string)
    requires x != c && y != c
    ensures Replace([x, y], c, r) == [x, y]
  {
    ReplaceAppend([x], [y], c, r);
    ReplaceOne(x, c, r);
    ReplaceOne(y, c, r);
    assert [x, y] == [x] + [y];
  }

  lemma EscapeOfChar(x: char)
    ensures Escape([x]) == EscapeChar(x)
    ensures EscapeChar(x) == if x == '\\' then "\\\\" else if x == '"' then "\\\"" else if x == '\n' then "\\n" else [x]
  {
    ReplaceOne(x, BACKSLASH, "\\\\");
    ReplaceOne(x, QUOTE, "\\\"");
    ReplaceOne(x, NEWLINE, "\\n");
    ReplaceTwo(BACKSLASH, BACKSLASH, QUOTE, "\\\"");
    ReplaceTwo(BACKSLASH, BACKSLASH, NEWLINE, "\\n");
    ReplaceTwo(BACKSLASH, QUOTE, NEWLINE, "\\n");
  }

  lemma EscapeAppend(a: string, b: string)
    ensures Escape(a + b) == Escape(a) + Escape(b)
  {
    ReplaceAppend(a, b, BACKSLASH, "\\\\");
    var a1, b1 := Replace(a, BACKSLASH, "\\\\"), Replace(b, BACKSLASH, "\\\\");
    ReplaceAppend(a1, b1, QUOTE, "\\\"");
    ReplaceAppend(Replace(a1, QUOTE, "\\\""), Replace(b1, QUOTE, "\\\""), NEWLINE, "\\n");
  }

  /** Because the backslash is replaced first, three passes do what one pass would. */
  lemma {:induction false} EscapeIsOnePass(value: string)
    ensures Escape(value) == EscapeOnce(value)
  {
    if value != [] {
      EscapeIsOnePass(value[1..]);
      EscapeAppend([value[0]], value[1..]);
      EscapeOfChar(value[0]);
      assert value == [value[0]] + value[1..];
    }
  }

  lemma {:induction false} EscapedIsOneLine(value: string)
    ensures NEWLINE !in EscapeOnce(value)
  {
    if value != [] { EscapedIsOneLine(value[1..]); }
  }

  // ----- the text format, read -----

  /** A quoted value up to its closing quote, and what follows. */
  function ReadQuoted(s: string): Option<(string, string)>
    decreases |s|
  {
    if s == [] then None
    else if s[0] == QUOTE then Some(([], s[1..]))
    else if s[0] == BACKSLASH then
      if |s| < 2 || (s[1] != BACKSLASH && s[1] != QUOTE && s[1] != 'n') then None
      else
        match ReadQuoted(s[2..])
        case None => None
        case Some(r) => Some(([if s[1] == 'n' then NEWLINE else s[1]] + r.0, r.1))
    else
      match ReadQuoted(s[1..])
      case None => None
      case Some(r) => Some(([s[0]] + r.0, r.1))
  }

  /** An escaped character is read as that character. */
  lemma ReadEscapedChar(c: char, t: string)
    requires ReadQuoted(t).Some?
    ensures ReadQuoted(EscapeChar(c) + t) == Some(([c] + ReadQuoted(t).value.0, ReadQuoted(t).value.1))
  {
    var e := EscapeChar(c);
    var s := e + t;
    assert s[|e|..] == t && s[0] == e[0];
  }

  lemma {:induction false} ReadQuotedEscape(value: string, rest: string)
    ensures ReadQuoted(EscapeOnce(value) + [QUOTE] + rest) == Some((value, rest))
  {
    var s := EscapeOnce(value) + [QUOTE] + rest;
    if value == [] {
      assert s[1..] == rest;
    } else {
      ReadQuotedEscape(value[1..], rest);
      var e, t := EscapeChar(value[0]), EscapeOnce(value[1..]) + [QUOTE] + rest;
      assert s == e + t;
      ReadEscapedChar(value[0], t);
      assert value == [value[0]] + value[1..];
    }
  }

  /** Position of the first character for which a stop is wanted, or the length. */
  function IndexOf(s: string, stops: set<char>): (n: nat)
    ensures n <= |s|
    ensures forall i :: 0 <= i < n ==> s[i] !in stops
    ensures n < |s| ==> s[n] in stops
  {
    if s == [] || s[0] in stops then 0 else 1 + IndexOf(s[1..], stops)
  }

  lemma IndexAfter(a: string, c: char, b: string, stops: set<char>)
    requires c in stops && forall i :: 0 <= i < |a| ==> a[i] !in stops
    ensures IndexOf(a + [c] + b, stops) == |a|
  {
    var s := a + [c] + b;
    assert s[|a|] == c;
    assert forall i :: 0 <= i < |a| ==> s[i] == a[i];
  }

  datatype Label = Label(name: string, value: string)
  datatype Sample = Sample(name: string, labels: seq<Label>, value: nat)

  /** Labels after the opening brace, and what follows the closing one. */
  function ReadLabels(s: string): Option<(seq<Label>, string)>
    decreases |s|
  {
    var n := IndexOf(s, {'='});
    if n + 1 >= |s| || s[n + 1] != QUOTE then None
    else
      match ReadQuoted(s[n + 2..])
      case None => None
      case Some(r) =>
        if r.1 == [] || |r.1| >= |s| then None
        else if r.1[0] == '}' then Some(([Label(s[..n], r.0)], r.1[1..]))
        else if r.1[0] == ',' then
          match ReadLabels(r.1[1..])
          case None => None
          case Some(more) => Some(([Label(s[..n], r.0)] + more.0, more.1))
        else None
  }

  function ReadValue(name: string, labels: seq<Label>, s: string): Option<Sample> {
    if s == [] || s[0] != ' ' then None
    else
      match ParseDecimal(s[1..])
      case None => None
      case Some(v) => Some(Sample(name, labels, v))
  }

  /** One sample line with a whole-number value. */
  function ReadSample(line: string): Option<Sample> {
    if line == [] || line[0] == '#' then None
    else
      var n := IndexOf(line, {'{', ' '});
      if n == |line| then None
      else if line[n] == ' ' then ReadValue(line[..n], [], line[n..])
      else
        match ReadLabels(line[n + 1..])
        case None => None
        case Some(r) => ReadValue(line[..n], r.0, r.1)
  }

  /** A metric's name is words of lower-case letters joined by underscores. */
  const REQUEST_WORDS := ["uvp", "requests", "total"]
  const CREATED_WORDS := ["uvp", "vouchers", "created", "total"]
  const REQUESTS := Join(REQUEST_WORDS, '_')
  const CREATED := Join(CREATED_WORDS, '_')

  function ReadRequest(line: string): Option<(Key, nat)> {
    match ReadSample(line)
    case None => None
    case Some(s) =>
      if s.name == REQUESTS && |s.labels| == 3 && s.labels[0].name == "token" && s.labels[1].name == "action"
         && s.labels[2].name == "outcome" then
        Some((Key(s.labels[0].value, s.labels[1].value, s.labels[2].value), s.value))
      else None
  }

  function ReadCreated(line: string): Option<(string, nat)> {
    match ReadSample(line)
    case None => None
    case Some(s) =>
      if s.name == CREATED && |s.labels| == 1 && s.labels[0].name == "token" then Some((s.labels[0].value, s.value))
      else None
  }

  function RequestsInLines(lines: seq<string>): Requests {
    if lines == [] then map[]
    else
      var before := RequestsInLines(lines[..|lines| - 1]);
      match ReadRequest(lines[|lines| - 1])
      case None => before
      case Some(r) => before[r.0 := r.1]
  }

  function CreatedInLines(lines: seq<string>): Created {
    if lines == [] then map[]
    else
      var before := CreatedInLines(lines[..|lines| - 1]);
      match ReadCreated(lines[|lines| - 1])
      case None => before
      case Some(r) => before[r.0 := r.1]
  }

  function RequestsIn(text: string): Requests { RequestsInLines(Split(text, NEWLINE)) }
  function CreatedIn(text: string): Created { CreatedInLines(Split(text, NEWLINE)) }

  // ----- the text format, printed -----

  function LabelText(name: string, value: string): string {
    name + "=\"" + Escape(value) + "\""
  }

  function RequestLine(k: Key, n: nat): string {
    REQUESTS + "{" + RequestLabelText(k, " " + Decimal(n))
  }

  function RequestLabelText(k: Key, rest: string): string {
    LabelText("token", k.token) + ("," +
    (LabelText("action", k.action) + ("," +
    (LabelText("outcome", k.outcome) + ("}" + rest)))))
  }

  function CreatedLine(token: string, n: nat): string {
    CREATED + "{" + (LabelText("token", token) + ("}" + (" " + Decimal(n))))
  }

  function RequestLines(order: seq<Key>, m: Requests): seq<string> {
    if order == [] then []
    else
      var last := |order| - 1;
      RequestLines(order[..last], m) + [RequestLine(order[last], Sums.Entry(m, order[last]))]
  }

  function CreatedLines(order: seq<string>, m: Created): seq<string> {
    if order == [] then []
    else
      var last := |order| - 1;
      CreatedLines(order[..last], m) + [CreatedLine(order[last], Sums.Entry(m, order[last]))]
  }

  /** A metric family: the words of its name, what it counts, and its kind. */
  datatype Family = Family(words: seq<string>, help: seq<string>, kind: string) {
    function Name(): string { Join(words, '_') }
    function HelpLine(): string { "#" + " HELP " + Name() + " " + Join(help, ' ') }
    function TypeLine(): string { "#" + " TYPE " + Name() + " " + kind }
    function ValueLine(value: string): string { Name() + " " + value }
  }

  const BUILD_INFO := Family(["uvp", "build", "info"], ["Version", "of", "the", "running", "proxy."], "gauge")
  const TOKENS := Family(["uvp", "tokens", "configured"],
    ["Number", "of", "client", "tokens", "in", "the", "active", "config."], "gauge")
  const REQUEST_FAMILY := Family(REQUEST_WORDS, ["Requests", "by", "token,", "action", "and", "outcome."], "counter")
  const CREATED_FAMILY := Family(CREATED_WORDS, ["Vouchers", "issued", "through", "the", "proxy."], "counter")
  const SECONDS := Family(["uvp", "upstream", "seconds", "total"],
    ["Time", "spent", "waiting", "on", "the", "controller."], "counter")
  const CALLS := Family(["uvp", "upstream", "calls", "total"], ["Calls", "made", "to", "the", "controller."], "counter")
  const RELOADS := Family(["uvp", "config", "reloads", "total"], ["Successful", "SIGHUP", "reloads."], "counter")
  const FAILURES := Family(["uvp", "config", "reload", "failures", "total"],
    ["Reloads", "rejected", "for", "a", "bad", "config."], "counter")

  function BuildLine(version: string): string {
    BUILD_INFO.Name() + "{" + ("version=\"" + version + "\"} 1")
  }

  function Heading(f: Family): seq<string> {
    [f.HelpLine(), f.TypeLine()]
  }

  function Single(f: Family, value: string): seq<string> {
    Heading(f) + [f.ValueLine(value)]
  }

  function Head(version: string, tokens: nat): seq<string> {
    Heading(BUILD_INFO) + [BuildLine(version)] + Single(TOKENS, Decimal(tokens)) + Heading(REQUEST_FAMILY)
  }

  function Tail(seconds: string, calls: nat, reloads: nat, failures: nat): seq<string> {
    Single(SECONDS, seconds) + Single(CALLS, Decimal(calls))
    + Single(RELOADS, Decimal(reloads)) + Single(FAILURES, Decimal(failures))
  }

  /** Every line with its line end. */
  function Unlines(lines: seq<string>): string {
    if lines == [] then [] else lines[0] + [NEWLINE] + Unlines(lines[1..])
  }

  ghost predicate OneLineEach(lines: seq<string>) {
    forall i :: 0 <= i < |lines| ==> NEWLINE !in lines[i]
  }

  lemma {:induction false} UnlinesAppend(a: seq<string>, b: seq<string>)
    ensures Unlines(a + b) == Unlines(a) + Unlines(b)
  {
    if a == [] {
      assert a + b == b;
    } else {
      UnlinesAppend(a[1..], b);
      assert (a + b)[1..] == a[1..] + b;
    }
  }

  /** Splitting the text gives the lines back, so every raw newline is a line end. */
  lemma {:induction false} LinesOfUnlines(lines: seq<string>)
    requires OneLineEach(lines)
    ensures Split(Unlines(lines), NEWLINE) == lines + [[]]
  {
    if lines != [] {
      LinesOfUnlines(lines[1..]);
      SplitFirst(lines[0], NEWLINE, Unlines(lines[1..]));
      assert lines == [lines[0]] + lines[1..];
    }
  }

  // ----- reading one printed line -----

  lemma ReadLabelText(name: string, value: string, rest: string)
    requires '=' !in name && rest != []
    ensures var s := LabelText(name, value) + rest;
            && IndexOf(s, {'='}) == |name|
            && |name| + 1 < |s| && s[|name| + 1] == QUOTE
            && s[..|name|] == name
            && ReadQuoted(s[|name| + 2..]) == Some((value, rest))
            && |rest| < |s|
  {
    EscapeIsOnePass(value);
    ReadQuotedEscape(value, rest);
    var s := LabelText(name, value) + rest;
    var quoted := EscapeOnce(value) + [QUOTE] + rest;
    LabelTextParts(name, EscapeOnce(value), rest);
    IndexAfter(name, '=', [QUOTE] + quoted, {'='});
    assert s[|name| + 2..] == quoted;
  }

  lemma LabelTextParts(name: string, escaped: string, rest: string)
    ensures name + "=\"" + escaped + "\"" + rest == name + ['='] + ([QUOTE] + (escaped + [QUOTE] + rest))
  {
  }

  lemma ReadLastLabel(name: string, value: string, rest: string)
    requires '=' !in name
    ensures ReadLabels(LabelText(name, value) + ("}" + rest)) == Some(([Label(name, value)], rest))
  {
    ReadLabelText(name, value, "}" + rest);
    assert ("}" + rest)[1..] == rest;
  }

  lemma ReadNextLabel(name: string, value: string, rest: string)
    requires '=' !in name
    requires ReadLabels(rest).Some?
    ensures ReadLabels(LabelText(name, value) + ("," + rest))
            == Some(([Label(name, value)] + ReadLabels(rest).value.0, ReadLabels(rest).value.1))
  {
    ReadLabelText(name, value, "," + rest);
    ReadLabelsStep(LabelText(name, value) + ("," + rest), name, value, rest);
  }

  /** After a label and a comma, reading goes on with the rest. */
  lemma ReadLabelsStep(s: string, name: string, value: string, rest: string)
    requires IndexOf(s, {'='}) == |name| && |name| + 1 < |s| && s[|name| + 1] == QUOTE && s[..|name|] == name
    requires ReadQuoted(s[|name| + 2..]) == Some((value, "," + rest)) && |rest| + 1 < |s|
    requires ReadLabels(rest).Some?
    ensures ReadLabels(s) == Some(([Label(name, value)] + ReadLabels(rest).value.0, ReadLabels(rest).value.1))
  {
    assert ("," + rest)[1..] == rest && ("," + rest)[0] == ',';
  }

  lemma ReadValueText(name: string, labels: seq<Label>, n: nat)
    ensures ReadValue(name, labels, " " + Decimal(n)) == Some(Sample(name, labels, n))
  {
    DecimalRoundTrip(n);
    assert (" " + Decimal(n))[1..] == Decimal(n);
  }

  predicate IsMetricName(name: string) {
    name != [] && name[0] != '#' && '{' !in name && ' ' !in name && NEWLINE !in name
  }

  predicate IsWord(w: string) {
    w != [] && forall i :: 0 <= i < |w| ==> IsLowerLetter(w[i])
  }

  predicate AreWords(words: seq<string>) {
    words != [] && forall i :: 0 <= i < |words| ==> IsWord(words[i])
  }

  lemma WordsMakeName(words: seq<string>)
    requires AreWords(words)
    ensures IsMetricName(Join(words, '_'))
    ensures Split(Join(words, '_'), '_') == words
  {
    JoinAvoids(words, '_', '{');
    JoinAvoids(words, '_', ' ');
    JoinAvoids(words, '_', NEWLINE);
    JoinIsInvertible(words, '_');
    assert IsWord(words[0]);
  }

  lemma NameIsRead(name: string, c: char, rest: string)
    requires IsMetricName(name) && (c == '{' || c == ' ')
    ensures var line := name + [c] + rest;
            && line != [] && line[0] != '#'
            && IndexOf(line, {'{', ' '}) == |name| && line[..|name|] == name && line[|name|] == c
            && line[|name| + 1..] == rest
    ensures ReadSample(name + [c] + rest).Some? ==> ReadSample(name + [c] + rest).value.name == name
  {
    var line := name + [c] + rest;
    IndexAfter(name, c, rest, {'{', ' '});
    assert line[0] == name[0];
    assert line[|name|] == c;
  }

  lemma MetricNames()
    ensures IsMetricName(REQUESTS) && IsMetricName(CREATED) && REQUESTS != CREATED
  {
    WordsMakeName(REQUEST_WORDS);
    WordsMakeName(CREATED_WORDS);
    assert |REQUEST_WORDS| != |CREATED_WORDS|;
  }

  function RequestLabels(k: Key): seq<Label> {
    [Label("token", k.token), Label("action", k.action), Label("outcome", k.outcome)]
  }

  lemma RequestLabelsAreRead(k: Key, rest: string)
    ensures ReadLabels(RequestLabelText(k, rest)) == Some((RequestLabels(k), rest))
  {
    var third := LabelText("outcome", k.outcome) + ("}" + rest);
    var second := LabelText("action", k.action) + ("," + third);
    ReadLastLabel("outcome", k.outcome, rest);
    ReadNextLabel("action", k.action, third);
    ReadNextLabel("token", k.token, second);
    assert [Label("token", k.token)] + ([Label("action", k.action)] + [Label("outcome", k.outcome)]) == RequestLabels(k);
  }

  lemma SampleIsRead(name: string, labels: seq<Label>, text: string, n: nat)
    requires IsMetricName(name)
    requires ReadLabels(text) == Some((labels, " " + Decimal(n)))
    ensures ReadSample(name + "{" + text) == Some(Sample(name, labels, n))
  {
    NameIsRead(name, '{', text);
    ReadValueText(name, labels, n);
  }

  lemma RequestLineIsSample(k: Key, n: nat)
    ensures ReadSample(RequestLine(k, n)) == Some(Sample(REQUESTS, RequestLabels(k), n))
  {
    MetricNames();
    RequestLabelsAreRead(k, " " + Decimal(n));
    SampleIsRead(REQUESTS, RequestLabels(k), RequestLabelText(k, " " + Decimal(n)), n);
  }

  /** A printed request counter is read back as it was. */
  lemma RequestLineIsRead(k: Key, n: nat)
    ensures ReadRequest(RequestLine(k, n)) == Some((k, n))
    ensures ReadCreated(RequestLine(k, n)) == None
  {
    RequestLineIsSample(k, n);
    MetricNames();
  }

  lemma CreatedLineIsSample(token: string, n: nat)
    ensures ReadSample(CreatedLine(token, n)) == Some(Sample(CREATED, [Label("token", token)], n))
  {
    MetricNames();
    ReadLastLabel("token", token, " " + Decimal(n));
    SampleIsRead(CREATED, [Label("token", token)], LabelText("token", token) + ("}" + (" " + Decimal(n))), n);
  }

  lemma CreatedLineIsRead(token: string, n: nat)
    ensures ReadCreated(CreatedLine(token, n)) == Some((token, n))
    ensures ReadRequest(CreatedLine(token, n)) == None
  {
    CreatedLineIsSample(token, n);
    MetricNames();
  }

  // ----- the other lines say nothing about these counters -----

  ghost predicate IsSilent(line: string) {
    ReadRequest(line) == None && ReadCreated(line) == None
  }

  lemma CommentIsSilent(line: string)
    requires line != [] && line[0] == '#'
    ensures IsSilent(line)
  {
  }

  lemma OtherMetricIsSilent(name: string, c: char, rest: string)
    requires IsMetricName(name) && (c == '{' || c == ' ') && name != REQUESTS && name != CREATED
    ensures IsSilent(name + [c] + rest)
  {
    NameIsRead(name, c, rest);
  }

  ghost predicate AllSilent(lines: seq<string>) {
    forall i :: 0 <= i < |lines| ==> IsSilent(lines[i])
  }

  lemma DecimalIsOneLine(n: nat)
    ensures NEWLINE !in Decimal(n)
  {
  }

  ghost predicate IsProperFamily(f: Family) {
    && AreWords(f.words)
    && (forall i :: 0 <= i < |f.help| ==> NEWLINE !in f.help[i])
    && NEWLINE !in f.kind
  }

  /** A family that is neither of the two counters read back. */
  ghost predicate IsOtherFamily(f: Family) {
    IsProperFamily(f) && f.words != REQUEST_WORDS && f.words != CREATED_WORDS
  }

  lemma CommentLines(f: Family)
    requires IsProperFamily(f)
    ensures IsSilent(f.HelpLine()) && NEWLINE !in f.HelpLine()
    ensures IsSilent(f.TypeLine()) && NEWLINE !in f.TypeLine()
  {
    WordsMakeName(f.words);
    JoinAvoids(f.help, ' ', NEWLINE);
    CommentIsSilent(f.HelpLine());
    CommentIsSilent(f.TypeLine());
  }

  lemma OtherName(f: Family)
    requires IsOtherFamily(f)
    ensures IsMetricName(f.Name()) && f.Name() != REQUESTS && f.Name() != CREATED
  {
    WordsMakeName(f.words);
    WordsMakeName(REQUEST_WORDS);
    WordsMakeName(CREATED_WORDS);
  }

  lemma ValueLineIsSilent(f: Family, value: string)
    requires IsOtherFamily(f) && NEWLINE !in value
    ensures IsSilent(f.ValueLine(value)) && NEWLINE !in f.ValueLine(value)
  {
    OtherName(f);
    OtherMetricIsSilent(f.Name(), ' ', value);
    assert f.ValueLine(value) == f.Name() + [' '] + value;
  }

  lemma BuildInfoIsOther() ensures IsOtherFamily(BUILD_INFO) { assert BUILD_INFO.words[1] == "build"; }
  lemma TokensIsOther() ensures IsOtherFamily(TOKENS) { assert TOKENS.words[1] == "tokens"; }
  lemma SecondsIsOther() ensures IsOtherFamily(SECONDS) { assert SECONDS.words[1] == "upstream"; }
  lemma CallsIsOther() ensures IsOtherFamily(CALLS) { assert CALLS.words[1] == "upstream"; }
  lemma ReloadsIsOther() ensures IsOtherFamily(RELOADS) { assert RELOADS.words[1] == "config"; }
  lemma FailuresIsOther() ensures IsOtherFamily(FAILURES) { assert FAILURES.words[1] == "config"; }
  lemma RequestFamilyIsProper() ensures IsProperFamily(REQUEST_FAMILY) {}
  lemma CreatedFamilyIsProper() ensures IsProperFamily(CREATED_FAMILY) {}

  lemma BuildLineIsSilent(version: string)
    requires NEWLINE !in version
    ensures IsSilent(BuildLine(version)) && NEWLINE !in BuildLine(version)
  {
    BuildInfoIsOther();
    OtherName(BUILD_INFO);
    var open, close := "version=\"", "\"} 1";
    OneLineJoin(open, version);
    OneLineJoin(open + version, close);
    BraceLineIsSilent(BUILD_INFO.Name(), open + version + close);
  }

  lemma BraceLineIsSilent(name: string, rest: string)
    requires IsMetricName(name) && name != REQUESTS && name != CREATED && NEWLINE !in rest
    ensures IsSilent(name + "{" + rest) && NEWLINE !in name + "{" + rest
  {
    OtherMetricIsSilent(name, '{', rest);
    OneLineJoin(name, "{");
    OneLineJoin(name + "{", rest);
  }

  lemma OneLineJoin(a: string, b: string)
    requires NEWLINE !in a && NEWLINE !in b
    ensures NEWLINE !in a + b
  {
  }

  /** Lines that are lines and that say nothing about the two counters. */
  ghost predicate IsQuiet(lines: seq<string>) {
    AllSilent(lines) && OneLineEach(lines)
  }

  lemma QuietAppend(a: seq<string>, b: seq<string>)
    requires IsQuiet(a) && IsQuiet(b)
    ensures IsQuiet(a + b)
  {
    forall i | 0 <= i < |a + b| ensures IsSilent((a + b)[i]) && NEWLINE !in (a + b)[i] {
      if i < |a| {
        assert (a + b)[i] == a[i];
      } else {
        assert (a + b)[i] == b[i - |a|];
      }
    }
  }

  lemma QuietHeading(f: Family)
    requires IsProperFamily(f)
    ensures IsQuiet(Heading(f))
  {
    CommentLines(f);
  }

  lemma QuietSingle(f: Family, value: string)
    requires IsOtherFamily(f) && NEWLINE !in value
    ensures IsQuiet(Single(f, value))
  {
    QuietHeading(f);
    ValueLineIsSilent(f, value);
    QuietAppend(Heading(f), [f.ValueLine(value)]);
  }

  lemma QuietHead(version: string, tokens: nat)
    requires NEWLINE !in version
    ensures IsQuiet(Head(version, tokens))
  {
    BuildInfoIsOther(); TokensIsOther(); RequestFamilyIsProper();
    QuietHeading(BUILD_INFO);
    BuildLineIsSilent(version);
    DecimalIsOneLine(tokens);
    QuietSingle(TOKENS, Decimal(tokens));
    QuietHeading(REQUEST_FAMILY);
    QuietAppend(Heading(BUILD_INFO), [BuildLine(version)]);
    QuietAppend(Heading(BUILD_INFO) + [BuildLine(version)], Single(TOKENS, Decimal(tokens)));
    QuietAppend(Heading(BUILD_INFO) + [BuildLine(version)] + Single(TOKENS, Decimal(tokens)), Heading(REQUEST_FAMILY));
  }

  lemma QuietTail(seconds: string, calls: nat, reloads: nat, failures: nat)
    requires NEWLINE !in seconds
    ensures IsQuiet(Tail(seconds, calls, reloads, failures))
  {
    DecimalIsOneLine(calls); DecimalIsOneLine(reloads); DecimalIsOneLine(failures);
    SecondsIsOther(); CallsIsOther(); ReloadsIsOther(); FailuresIsOther();
    QuietSingle(SECONDS, seconds);
    QuietSingle(CALLS, Decimal(calls));
    QuietSingle(RELOADS, Decimal(reloads));
    QuietSingle(FAILURES, Decimal(failures));
    QuietAppend(Single(SECONDS, seconds), Single(CALLS, Decimal(calls)));
    QuietAppend(Single(SECONDS, seconds) + Single(CALLS, Decimal(calls)), Single(RELOADS, Decimal(reloads)));
    QuietAppend(Single(SECONDS, seconds) + Single(CALLS, Decimal(calls)) + Single(RELOADS, Decimal(reloads)),
                Single(FAILURES, Decimal(failures)));
  }

  // ----- the whole document -----

  /** An order in which to list the keys of a map, each once. */
  ghost predicate Lists<K(!new)>(order: seq<K>, keys: set<K>) {
    && (forall i, j :: 0 <= i < j < |order| ==> order[i] != order[j])
    && (forall k :: k in order <==> k in keys)
  }

  lemma {:induction false} SilentKeepsReading(lines: seq<string>, more: seq<string>)
    requires AllSilent(more)
    ensures RequestsInLines(lines + more) == RequestsInLines(lines)
    ensures CreatedInLines(lines + more) == CreatedInLines(lines)
  {
    if more == [] {
      assert lines + more == lines;
    } else {
      var last := |more| - 1;
      SilentKeepsReading(lines, more[..last]);
      assert (lines + more)[..|lines + more| - 1] == lines + more[..last];
      assert IsSilent(more[last]);
    }
  }

  /** The part of a map whose keys are listed. */
  ghost function Listed<K(!new), V>(order: seq<K>, m: map<K, V>): map<K, V> {
    map k | k in order && k in m :: m[k]
  }

  lemma ListedOneMore<K(!new), V>(order: seq<K>, m: map<K, V>)
    requires order != [] && order[|order| - 1] in m
    ensures var last := |order| - 1;
            Listed(order, m) == Listed(order[..last], m)[order[last] := m[order[last]]]
  {
    var last := |order| - 1;
    assert order == order[..last] + [order[last]];
  }

  lemma OneMoreRequestLine(lines: seq<string>, k: Key, n: nat)
    ensures RequestsInLines(lines + [RequestLine(k, n)]) == RequestsInLines(lines)[k := n]
    ensures CreatedInLines(lines + [RequestLine(k, n)]) == CreatedInLines(lines)
  {
    var line := RequestLine(k, n);
    RequestLineIsRead(k, n);
    assert (lines + [line])[..|lines|] == lines;
  }

  lemma {:induction false} RequestLinesAreRead(lines: seq<string>, order: seq<Key>, m: Requests)
    requires forall i :: 0 <= i < |order| ==> order[i] in m
    requires RequestsInLines(lines) == map[]
    ensures RequestsInLines(lines + RequestLines(order, m)) == Listed(order, m)
    ensures CreatedInLines(lines + RequestLines(order, m)) == CreatedInLines(lines)
  {
    if order == [] {
      assert lines + RequestLines(order, m) == lines;
    } else {
      var last := |order| - 1;
      var before := lines + RequestLines(order[..last], m);
      RequestLinesAreRead(lines, order[..last], m);
      OneMoreRequestLine(before, order[last], m[order[last]]);
      assert lines + RequestLines(order, m) == before + [RequestLine(order[last], m[order[last]])];
      ListedOneMore(order, m);
    }
  }

  lemma OneMoreCreatedLine(lines: seq<string>, token: string, n: nat)
    ensures CreatedInLines(lines + [CreatedLine(token, n)]) == CreatedInLines(lines)[token := n]
    ensures RequestsInLines(lines + [CreatedLine(token, n)]) == RequestsInLines(lines)
  {
    var line := CreatedLine(token, n);
    CreatedLineIsRead(token, n);
    assert (lines + [line])[..|lines|] == lines;
  }

  lemma {:induction false} CreatedLinesAreRead(lines: seq<string>, order: seq<string>, m: Created)
    requires forall i :: 0 <= i < |order| ==> order[i] in m
    requires CreatedInLines(lines) == map[]
    ensures CreatedInLines(lines + CreatedLines(order, m)) == Listed(order, m)
    ensures RequestsInLines(lines + CreatedLines(order, m)) == RequestsInLines(lines)
  {
    if order == [] {
      assert lines + CreatedLines(order, m) == lines;
    } else {
      var last := |order| - 1;
      var before := lines + CreatedLines(order[..last], m);
      CreatedLinesAreRead(lines, order[..last], m);
      OneMoreCreatedLine(before, order[last], m[order[last]]);
      assert lines + CreatedLines(order, m) == before + [CreatedLine(order[last], m[order[last]])];
      ListedOneMore(order, m);
    }
  }

  lemma {:induction false} CounterLinesAreLines(requestOrder: seq<Key>, requests: Requests, createdOrder: seq<string>, created: Created)
    ensures OneLineEach(RequestLines(requestOrder, requests)) && OneLineEach(CreatedLines(createdOrder, created))
    decreases |requestOrder| + |createdOrder|
  {
    if requestOrder != [] {
      var last := |requestOrder| - 1;
      CounterLinesAreLines(requestOrder[..last], requests, createdOrder, created);
      CounterLineIsLine(requestOrder[last], [], Sums.Entry(requests, requestOrder[last]));
    } else if createdOrder != [] {
      var last := |createdOrder| - 1;
      CounterLinesAreLines(requestOrder, requests, createdOrder[..last], created);
      CounterLineIsLine(Key([], [], []), createdOrder[last], Sums.Entry(created, createdOrder[last]));
    }
  }

  lemma LabelTextIsOneLine(name: string, value: string)
    requires NEWLINE !in name
    ensures NEWLINE !in LabelText(name, value)
  {
    EscapeIsOnePass(value);
    EscapedIsOneLine(value);
  }

  /** A label, a separator and what follows, all on one line. */
  lemma LabelAndRestOnOneLine(name: string, value: string, separator: string, rest: string)
    requires NEWLINE !in name && NEWLINE !in separator && NEWLINE !in rest
    ensures NEWLINE !in LabelText(name, value) + (separator + rest)
  {
    LabelTextIsOneLine(name, value);
    OneLineJoin(separator, rest);
    OneLineJoin(LabelText(name, value), separator + rest);
  }

  lemma NamedLineIsLine(name: string, rest: string)
    requires IsMetricName(name) && NEWLINE !in rest
    ensures NEWLINE !in name + "{" + rest
  {
    OneLineJoin(name, "{");
    OneLineJoin(name + "{", rest);
  }

  lemma CounterLineIsLine(k: Key, token: string, n: nat)
    ensures NEWLINE !in RequestLine(k, n) && NEWLINE !in CreatedLine(token, n)
  {
    MetricNames();
    DecimalIsOneLine(n);
    var value := " " + Decimal(n);
    OneLineJoin(" ", Decimal(n));
    var third := LabelText("outcome", k.outcome) + ("}" + value);
    LabelAndRestOnOneLine("outcome", k.outcome, "}", value);
    var second := LabelText("action", k.action) + ("," + third);
    LabelAndRestOnOneLine("action", k.action, ",", third);
    LabelAndRestOnOneLine("token", k.token, ",", second);
    NamedLineIsLine(REQUESTS, RequestLabelText(k, value));
    LabelAndRestOnOneLine("token", token, "}", value);
    NamedLineIsLine(CREATED, LabelText("token", token) + ("}" + value));
  }

  /** What else is on the page, besides the two maps. */
  datatype Page = Page(version: string, tokens: nat, seconds: string, calls: nat, reloads: nat, failures: nat)

  function DocumentLines(p: Page, requestOrder: seq<Key>, requests: Requests, createdOrder: seq<string>, created: Created): seq<string> {
    Head(p.version, p.tokens) + RequestLines(requestOrder, requests) + Heading(CREATED_FAMILY)
    + CreatedLines(createdOrder, created) + Tail(p.seconds, p.calls, p.reloads, p.failures)
  }

  lemma QuietIsUnread(lines: seq<string>)
    requires AllSilent(lines)
    ensures RequestsInLines(lines) == map[] && CreatedInLines(lines) == map[]
  {
    SilentKeepsReading([], lines);
    assert [] + lines == lines;
  }

  lemma CountersAreRead(head: seq<string>, mid: seq<string>, tail: seq<string>,
                        requestOrder: seq<Key>, requests: Requests, createdOrder: seq<string>, created: Created)
    requires AllSilent(head) && AllSilent(mid) && AllSilent(tail)
    requires Lists(requestOrder, requests.Keys) && Lists(createdOrder, created.Keys)
    ensures var lines := head + RequestLines(requestOrder, requests) + mid + CreatedLines(createdOrder, created) + tail;
            RequestsInLines(lines) == requests && CreatedInLines(lines) == created
  {
    var rs, cs := RequestLines(requestOrder, requests), CreatedLines(createdOrder, created);
    QuietIsUnread(head);
    ListedIsAll(requestOrder, requests);
    ListedIsAll(createdOrder, created);
    RequestLinesAreRead(head, requestOrder, requests);
    SilentKeepsReading(head + rs, mid);
    CreatedLinesAreRead(head + rs + mid, createdOrder, created);
    SilentKeepsReading(head + rs + mid + cs, tail);
  }

  lemma ListedIsAll<K(!new), V>(order: seq<K>, m: map<K, V>)
    requires Lists(order, m.Keys)
    ensures Listed(order, m) == m
    ensures forall i :: 0 <= i < |order| ==> order[i] in m
  {
  }

  lemma OneLineAppend(a: seq<string>, b: seq<string>)
    requires OneLineEach(a) && OneLineEach(b)
    ensures OneLineEach(a + b)
  {
    forall i | 0 <= i < |a + b| ensures NEWLINE !in (a + b)[i] {
      assert (a + b)[i] == if i < |a| then a[i] else b[i - |a|];
    }
  }

  lemma LinesReadBack(lines: seq<string>)
    requires OneLineEach(lines)
    ensures Split(Unlines(lines), NEWLINE) == lines + [[]]
    ensures RequestsIn(Unlines(lines)) == RequestsInLines(lines) && CreatedIn(Unlines(lines)) == CreatedInLines(lines)
  {
    LinesOfUnlines(lines);
    var none: seq<string> := [[]];
    assert AllSilent(none);
    SilentKeepsReading(lines, none);
  }

  lemma LinesAndCountersReadBack(head: seq<string>, mid: seq<string>, tail: seq<string>,
                                 requestOrder: seq<Key>, requests: Requests, createdOrder: seq<string>, created: Created)
    requires IsQuiet(head) && IsQuiet(mid) && IsQuiet(tail)
    requires Lists(requestOrder, requests.Keys) && Lists(createdOrder, created.Keys)
    ensures var lines := head + RequestLines(requestOrder, requests) + mid + CreatedLines(createdOrder, created) + tail;
            && Split(Unlines(lines), NEWLINE) == lines + [[]]
            && RequestsIn(Unlines(lines)) == requests && CreatedIn(Unlines(lines)) == created
  {
    var rs, cs := RequestLines(requestOrder, requests), CreatedLines(createdOrder, created);
    CountersAreRead(head, mid, tail, requestOrder, requests, createdOrder, created);
    CounterLinesAreLines(requestOrder, requests, createdOrder, created);
    OneLineAppend(head, rs);
    OneLineAppend(head + rs, mid);
    OneLineAppend(head + rs + mid, cs);
    OneLineAppend(head + rs + mid + cs, tail);
    LinesReadBack(head + rs + mid + cs + tail);
  }

  lemma QuietPage(p: Page)
    requires NEWLINE !in p.version && NEWLINE !in p.seconds
    ensures IsQuiet(Head(p.version, p.tokens)) && IsQuiet(Heading(CREATED_FAMILY))
    ensures IsQuiet(Tail(p.seconds, p.calls, p.reloads, p.failures))
  {
    QuietHead(p.version, p.tokens);
    CreatedFamilyIsProper();
    QuietHeading(CREATED_FAMILY);
    QuietTail(p.seconds, p.calls, p.reloads, p.failures);
  }

  lemma CounterNames()
    ensures REQUESTS == "uvp_requests_total" && CREATED == "uvp_vouchers_created_total"
  {
    JoinThree("uvp", "requests", "total");
    JoinFour("uvp", "vouchers", "created", "total");
  }

  /** Whatever the order of the keys and whatever else is printed, the page's lines are its
      lines and both maps read back exactly, under the names they are printed with. */
  lemma DocumentReadsBack(p: Page, requestOrder: seq<Key>, requests: Requests, createdOrder: seq<string>, created: Created)
    requires NEWLINE !in p.version && NEWLINE !in p.seconds
    requires Lists(requestOrder, requests.Keys) && Lists(createdOrder, created.Keys)
    ensures var lines := DocumentLines(p, requestOrder, requests, createdOrder, created);
            && Split(Unlines(lines), NEWLINE) == lines + [[]]
            && RequestsIn(Unlines(lines)) == requests
            && CreatedIn(Unlines(lines)) == created
    ensures REQUESTS == "uvp_requests_total" && CREATED == "uvp_vouchers_created_total"
  {
    QuietPage(p);
    CounterNames();
    LinesAndCountersReadBack(Head(p.version, p.tokens), Heading(CREATED_FAMILY), Tail(p.seconds, p.calls, p.reloads, p.failures),
                             requestOrder, requests, createdOrder, created);
  }

  // ----- the plain numbers -----

  /** The value of the last line that is a sample of this name without labels. */
  function NumberInLines(lines: seq<string>, name: string): Option<nat> {
    if lines == [] then None
    else
      match ReadSample(lines[|lines| - 1])
      case None => NumberInLines(lines[..|lines| - 1], name)
      case Some(s) => if s.name == name && s.labels == [] then Some(s.value) else NumberInLines(lines[..|lines| - 1], name)
  }

  function NumberIn(text: string, name: string): Option<nat> { NumberInLines(Split(text, NEWLINE), name) }

  ghost predicate SaysNothingOf(line: string, name: string) {
    ReadSample(line).Some? ==> ReadSample(line).value.name != name
  }

  ghost predicate AllSayNothingOf(lines: seq<string>, name: string) {
    forall i :: 0 <= i < |lines| ==> SaysNothingOf(lines[i], name)
  }

  lemma SayNothingTogether(a: seq<string>, b: seq<string>, name: string)
    requires AllSayNothingOf(a, name) && AllSayNothingOf(b, name)
    ensures AllSayNothingOf(a + b, name)
  {
    forall i | 0 <= i < |a + b| ensures SaysNothingOf((a + b)[i], name) {
      assert (a + b)[i] == if i < |a| then a[i] else b[i - |a|];
    }
  }

  /** What comes after says nothing of the name, so the line decides. */
  lemma {:induction false} NumberIsRead(before: seq<string>, line: string, after: seq<string>, name: string, n: nat)
    requires ReadSample(line) == Some(Sample(name, [], n)) && AllSayNothingOf(after, name)
    ensures NumberInLines(before + [line] + after, name) == Some(n)
    decreases |after|
  {
    var lines := before + [line] + after;
    if after == [] {
      assert lines[|lines| - 1] == line;
    } else {
      var last := |after| - 1;
      assert lines[|lines| - 1] == after[last] && lines[..|lines| - 1] == before + [line] + after[..last];
      assert SaysNothingOf(after[last], name);
      NumberIsRead(before, line, after[..last], name, n);
    }
  }

  lemma NamesDiffer(f: Family, g: Family)
    requires AreWords(f.words) && AreWords(g.words) && f.words != g.words
    ensures f.Name() != g.Name()
  {
    WordsMakeName(f.words);
    WordsMakeName(g.words);
  }

  lemma HeadingSaysNothing(f: Family, name: string)
    ensures AllSayNothingOf(Heading(f), name)
  {
  }

  lemma ValueLineIsOf(f: Family, value: string)
    requires AreWords(f.words)
    ensures ReadSample(f.ValueLine(value)).Some? ==> ReadSample(f.ValueLine(value)).value.name == f.Name()
  {
    WordsMakeName(f.words);
    NameIsRead(f.Name(), ' ', value);
    assert f.ValueLine(value) == f.Name() + [' '] + value;
  }

  lemma ValueLineIsNumber(f: Family, n: nat)
    requires AreWords(f.words)
    ensures ReadSample(f.ValueLine(Decimal(n))) == Some(Sample(f.Name(), [], n))
  {
    WordsMakeName(f.words);
    NameIsRead(f.Name(), ' ', Decimal(n));
    ReadValueText(f.Name(), [], n);
    var line := f.Name() + [' '] + Decimal(n);
    assert f.ValueLine(Decimal(n)) == line && line[|f.Name()|..] == " " + Decimal(n);
  }

  lemma SingleSaysNothing(f: Family, value: string, g: Family)
    requires AreWords(f.words) && AreWords(g.words) && f.words != g.words
    ensures AllSayNothingOf(Single(f, value), g.Name())
  {
    NamesDiffer(f, g);
    HeadingSaysNothing(f, g.Name());
    ValueLineIsOf(f, value);
    SayNothingTogether(Heading(f), [f.ValueLine(value)], g.Name());
  }

  lemma {:induction false} RequestsSayNothing(order: seq<Key>, m: Requests, name: string)
    requires name != REQUESTS
    ensures AllSayNothingOf(RequestLines(order, m), name)
  {
    if order != [] {
      var last := |order| - 1;
      var line := RequestLine(order[last], Sums.Entry(m, order[last]));
      RequestsSayNothing(order[..last], m, name);
      RequestLineIsSample(order[last], Sums.Entry(m, order[last]));
      assert AllSayNothingOf([line], name);
      SayNothingTogether(RequestLines(order[..last], m), [line], name);
    }
  }

  lemma {:induction false} CreatedSayNothing(order: seq<string>, m: Created, name: string)
    requires name != CREATED
    ensures AllSayNothingOf(CreatedLines(order, m), name)
  {
    if order != [] {
      var last := |order| - 1;
      var line := CreatedLine(order[last], Sums.Entry(m, order[last]));
      CreatedSayNothing(order[..last], m, name);
      CreatedLineIsSample(order[last], Sums.Entry(m, order[last]));
      assert AllSayNothingOf([line], name);
      SayNothingTogether(CreatedLines(order[..last], m), [line], name);
    }
  }

  lemma JoinThree(a: string, b: string, c: string)
    ensures Join([a, b, c], '_') == a + "_" + b + "_" + c
  {
    assert [a, b, c][1..] == [b, c] && [b, c][1..] == [c];
    assert Join([b, c], '_') == b + ['_'] + Join([c], '_');
  }

  lemma JoinFour(a: string, b: string, c: string, d: string)
    ensures Join([a, b, c, d], '_') == a + "_" + b + "_" + c + "_" + d
  {
    JoinThree(b, c, d);
    assert [a, b, c, d][1..] == [b, c, d];
  }

  lemma TokensName()
    ensures TOKENS.Name() == "uvp_tokens_configured"
  {
    JoinThree("uvp", "tokens", "configured");
  }

  lemma CallsName()
    ensures CALLS.Name() == "uvp_upstream_calls_total"
  {
    JoinFour("uvp", "upstream", "calls", "total");
  }

  lemma ReloadsName()
    ensures RELOADS.Name() == "uvp_config_reloads_total"
  {
    JoinFour("uvp", "config", "reloads", "total");
  }

  lemma FailuresName()
    ensures FAILURES.Name() == "uvp_config_reload_failures_total"
  {
    JoinFour("config", "reload", "failures", "total");
    assert FAILURES.words[1..] == ["config", "reload", "failures", "total"];
  }

  /** The number of a family, when what follows its line says nothing of it. */
  lemma FamilyIsRead(before: seq<string>, f: Family, n: nat, after: seq<string>)
    requires AreWords(f.words) && AllSayNothingOf(after, f.Name())
    ensures NumberInLines(before + Single(f, Decimal(n)) + after, f.Name()) == Some(n)
  {
    ValueLineIsNumber(f, n);
    var line := f.ValueLine(Decimal(n));
    NumberIsRead(before + Heading(f), line, after, f.Name(), n);
    assert before + Single(f, Decimal(n)) + after == before + Heading(f) + [line] + after;
  }

  lemma TailSaysNothing(p: Page, f: Family)
    requires AreWords(f.words) && f.words !in {SECONDS.words, CALLS.words, RELOADS.words, FAILURES.words}
    ensures AllSayNothingOf(Tail(p.seconds, p.calls, p.reloads, p.failures), f.Name())
  {
    SecondsIsOther(); CallsIsOther(); ReloadsIsOther(); FailuresIsOther();
    var a, b := Single(SECONDS, p.seconds), Single(CALLS, Decimal(p.calls));
    var c, d := Single(RELOADS, Decimal(p.reloads)), Single(FAILURES, Decimal(p.failures));
    SingleSaysNothing(SECONDS, p.seconds, f);
    SingleSaysNothing(CALLS, Decimal(p.calls), f);
    SingleSaysNothing(RELOADS, Decimal(p.reloads), f);
    SingleSaysNothing(FAILURES, Decimal(p.failures), f);
    SayNothingTogether(a, b, f.Name());
    SayNothingTogether(a + b, c, f.Name());
    SayNothingTogether(a + b + c, d, f.Name());
  }

  lemma LineEndSaysNothing(lines: seq<string>, name: string)
    ensures NumberInLines(lines + [[]], name) == NumberInLines(lines, name)
  {
    var none: seq<string> := [[]];
    assert (lines + none)[..|lines|] == lines;
  }

  lemma Regroup(x: seq<string>, a: seq<string>, b: seq<string>, c: seq<string>, d: seq<string>)
    ensures x + (a + b + c + d) == (x + a) + b + (c + d)
    ensures x + (a + b + c + d) == (x + (a + b)) + c + d
    ensures x + (a + b + c + d) == (x + (a + b + c)) + d + []
  {
  }

  lemma CallsAreRead(before: seq<string>, p: Page)
    ensures NumberInLines(before + Tail(p.seconds, p.calls, p.reloads, p.failures), CALLS.Name()) == Some(p.calls)
  {
    CallsIsOther(); ReloadsIsOther(); FailuresIsOther();
    assert CALLS.words[1] == "upstream" && RELOADS.words[1] == "config" && FAILURES.words[1] == "config";
    var c, d := Single(RELOADS, Decimal(p.reloads)), Single(FAILURES, Decimal(p.failures));
    SingleSaysNothing(RELOADS, Decimal(p.reloads), CALLS);
    SingleSaysNothing(FAILURES, Decimal(p.failures), CALLS);
    SayNothingTogether(c, d, CALLS.Name());
    FamilyIsRead(before + Single(SECONDS, p.seconds), CALLS, p.calls, c + d);
    Regroup(before, Single(SECONDS, p.seconds), Single(CALLS, Decimal(p.calls)), c, d);
  }

  lemma ReloadsAreRead(before: seq<string>, p: Page)
    ensures NumberInLines(before + Tail(p.seconds, p.calls, p.reloads, p.failures), RELOADS.Name()) == Some(p.reloads)
  {
    ReloadsIsOther(); FailuresIsOther();
    assert |RELOADS.words| != |FAILURES.words|;
    var a, b, d := Single(SECONDS, p.seconds), Single(CALLS, Decimal(p.calls)), Single(FAILURES, Decimal(p.failures));
    SingleSaysNothing(FAILURES, Decimal(p.failures), RELOADS);
    FamilyIsRead(before + (a + b), RELOADS, p.reloads, d);
    Regroup(before, a, b, Single(RELOADS, Decimal(p.reloads)), d);
  }

  lemma FailuresAreRead(before: seq<string>, p: Page)
    ensures NumberInLines(before + Tail(p.seconds, p.calls, p.reloads, p.failures), FAILURES.Name()) == Some(p.failures)
  {
    FailuresIsOther();
    var a, b, c := Single(SECONDS, p.seconds), Single(CALLS, Decimal(p.calls)), Single(RELOADS, Decimal(p.reloads));
    FamilyIsRead(before + (a + b + c), FAILURES, p.failures, []);
    Regroup(before, a, b, c, Single(FAILURES, Decimal(p.failures)));
  }

  lemma AfterTokensSaysNothing(p: Page, requestOrder: seq<Key>, requests: Requests, createdOrder: seq<string>, created: Created)
    ensures AllSayNothingOf(Heading(REQUEST_FAMILY) + RequestLines(requestOrder, requests) + Heading(CREATED_FAMILY)
                            + CreatedLines(createdOrder, created) + Tail(p.seconds, p.calls, p.reloads, p.failures), TOKENS.Name())
  {
    TokensIsOther();
    OtherName(TOKENS);
    var name := TOKENS.Name();
    assert TOKENS.words[1] == "tokens" && SECONDS.words[1] == "upstream" && CALLS.words[1] == "upstream"
        && RELOADS.words[1] == "config" && FAILURES.words[1] == "config";
    var a, rs, b, cs := Heading(REQUEST_FAMILY), RequestLines(requestOrder, requests), Heading(CREATED_FAMILY), CreatedLines(createdOrder, created);
    TailSaysNothing(p, TOKENS);
    RequestsSayNothing(requestOrder, requests, name);
    CreatedSayNothing(createdOrder, created, name);
    HeadingSaysNothing(REQUEST_FAMILY, name);
    HeadingSaysNothing(CREATED_FAMILY, name);
    SayNothingTogether(a, rs, name);
    SayNothingTogether(a + rs, b, name);
    SayNothingTogether(a + rs + b, cs, name);
    SayNothingTogether(a + rs + b + cs, Tail(p.seconds, p.calls, p.reloads, p.failures), name);
  }

  lemma RegroupDocument(x: seq<string>, t: seq<string>, a: seq<string>, rs: seq<string>, b: seq<string>, cs: seq<string>, tail: seq<string>)
    ensures (x + t + a) + rs + b + cs + tail == x + t + (a + rs + b + cs + tail)
  {
  }

  lemma TokensAreRead(p: Page, requestOrder: seq<Key>, requests: Requests, createdOrder: seq<string>, created: Created)
    ensures NumberInLines(DocumentLines(p, requestOrder, requests, createdOrder, created), TOKENS.Name()) == Some(p.tokens)
  {
    TokensIsOther();
    var a, rs, b, cs := Heading(REQUEST_FAMILY), RequestLines(requestOrder, requests), Heading(CREATED_FAMILY), CreatedLines(createdOrder, created);
    var tail, before := Tail(p.seconds, p.calls, p.reloads, p.failures), Heading(BUILD_INFO) + [BuildLine(p.version)];
    AfterTokensSaysNothing(p, requestOrder, requests, createdOrder, created);
    FamilyIsRead(before, TOKENS, p.tokens, a + rs + b + cs + tail);
    RegroupDocument(before, Single(TOKENS, Decimal(p.tokens)), a, rs, b, cs, tail);
  }

  /** The four plain numbers of the page read back too, under their printed names. */
  lemma NumbersReadBack(p: Page, requestOrder: seq<Key>, requests: Requests, createdOrder: seq<string>, created: Created)
    requires NEWLINE !in p.version && NEWLINE !in p.seconds
    requires Lists(requestOrder, requests.Keys) && Lists(createdOrder, created.Keys)
    ensures var text := Unlines(DocumentLines(p, requestOrder, requests, createdOrder, created));
            && NumberIn(text, "uvp_tokens_configured") == Some(p.tokens)
            && NumberIn(text, "uvp_upstream_calls_total") == Some(p.calls)
            && NumberIn(text, "uvp_config_reloads_total") == Some(p.reloads)
            && NumberIn(text, "uvp_config_reload_failures_total") == Some(p.failures)
  {
    var lines := DocumentLines(p, requestOrder, requests, createdOrder, created);
    DocumentReadsBack(p, requestOrder, requests, createdOrder, created);
    TokensName(); CallsName(); ReloadsName(); FailuresName();
    TokensAreRead(p, requestOrder, requests, createdOrder, created);
    var before := Head(p.version, p.tokens) + RequestLines(requestOrder, requests) + Heading(CREATED_FAMILY) + CreatedLines(createdOrder, created);
    CallsAreRead(before, p);
    ReloadsAreRead(before, p);
    FailuresAreRead(before, p);
    LineEndSaysNothing(lines, TOKENS.Name());
    LineEndSaysNothing(lines, CALLS.Name());
    LineEndSaysNothing(lines, RELOADS.Name());
    LineEndSaysNothing(lines, FAILURES.Name());
  }

  // ----- the counters themselves -----

  class Metrics {
    var requests: Requests
    var vouchersCreated: Created
    var upstreamLatencyMs: nat
    var upstreamCalls: nat
    var reloads: nat
    var reloadFailures: nat

    constructor ()
      ensures requests == map[] && vouchersCreated == map[]
      ensures upstreamLatencyMs == 0 && upstreamCalls == 0 && reloads == 0 && reloadFailures == 0
    {
      requests, vouchersCreated := map[], map[];
      upstreamLatencyMs, upstreamCalls, reloads, reloadFailures := 0, 0, 0, 0;
    }

    /** One completed request: exactly its own counter grows, by one. */
    method RecordRequest(token: string, action: string, outcome: string)
      modifies this`requests
      ensures requests == CountRequest(old(requests), Key(token, action, outcome))
    {
      var key := Key(token, action, outcome);
      if key !in requests {
        requests := requests[key := 0];
      }
      requests := requests[key := requests[key] + 1];
    }

    method RecordVouchersCreated(token: string, count: u32)
      modifies this`vouchersCreated
      ensures vouchersCreated == AddCreated(old(vouchersCreated), token, count)
    {
      if token !in vouchersCreated {
        vouchersCreated := vouchersCreated[token := 0];
      }
      vouchersCreated := vouchersCreated[token := vouchersCreated[token] + count];
    }

    method RecordUpstream(elapsedMs: nat)
      modifies this`upstreamLatencyMs, this`upstreamCalls
      ensures upstreamLatencyMs == old(upstreamLatencyMs) + elapsedMs && upstreamCalls == old(upstreamCalls) + 1
    {
      upstreamLatencyMs := upstreamLatencyMs + elapsedMs;
      upstreamCalls := upstreamCalls + 1;
    }

    method RecordReload(ok: bool)
      modifies this`reloads, this`reloadFailures
      ensures reloads == old(reloads) + (if ok then 1 else 0)
      ensures reloadFailures == old(reloadFailures) + (if ok then 0 else 1)
    {
      if ok {
        reloads := reloads + 1;
      } else {
        reloadFailures := reloadFailures + 1;
      }
    }

    /** Prints the page line by line. Reading it gives back both maps, whatever the token names
        contain, and the plain numbers; `seconds` is the printed latency sum. */
    method Render(version: string, tokensConfigured: nat, seconds: string) returns (out: string)
      requires NEWLINE !in version && NEWLINE !in seconds
      ensures RequestsIn(out) == requests
      ensures CreatedIn(out) == vouchersCreated
      ensures NumberIn(out, "uvp_tokens_configured") == Some(tokensConfigured)
      ensures NumberIn(out, "uvp_upstream_calls_total") == Some(upstreamCalls)
      ensures NumberIn(out, "uvp_config_reloads_total") == Some(reloads)
      ensures NumberIn(out, "uvp_config_reload_failures_total") == Some(reloadFailures)
      ensures exists requestOrder, createdOrder ::
                && Lists(requestOrder, requests.Keys) && Lists(createdOrder, vouchersCreated.Keys)
                && out == Unlines(DocumentLines(
                     Page(version, tokensConfigured, seconds, upstreamCalls, reloads, reloadFailures),
                     requestOrder, requests, createdOrder, vouchersCreated))
    {
      var page := Page(version, tokensConfigured, seconds, upstreamCalls, reloads, reloadFailures);
      out := Unlines(Head(version, tokensConfigured));
      ghost var requestOrder, createdOrder;
      out, requestOrder := PrintRequests(out, requests, Head(version, tokensConfigured));
      ghost var lines := Head(version, tokensConfigured) + RequestLines(requestOrder, requests);
      UnlinesAppend(lines, Heading(CREATED_FAMILY));
      out := out + Unlines(Heading(CREATED_FAMILY));
      lines := lines + Heading(CREATED_FAMILY);
      out, createdOrder := PrintCreated(out, vouchersCreated, lines);
      lines := lines + CreatedLines(createdOrder, vouchersCreated);
      UnlinesAppend(lines, Tail(seconds, upstreamCalls, reloads, reloadFailures));
      out := out + Unlines(Tail(seconds, upstreamCalls, reloads, reloadFailures));
      DocumentReadsBack(page, requestOrder, requests, createdOrder, vouchersCreated);
      NumbersReadBack(page, requestOrder, requests, createdOrder, vouchersCreated);
    }
  }

  lemma UnlinesOne(lines: seq<string>, line: string)
    ensures Unlines(lines + [line]) == Unlines(lines) + line + [NEWLINE]
  {
    UnlinesAppend(lines, [line]);
    assert [line][1..] == [];
  }

  lemma ListsOneMore<K(!new)>(order: seq<K>, keys: set<K>, rest: set<K>, k: K)
    requires rest <= keys && Lists(order, keys - rest) && k in rest
    ensures Lists(order + [k], keys - (rest - {k}))
  {
    forall j ensures j in order + [k] <==> j in keys - (rest - {k}) {
      assert j in order + [k] <==> j in order || j == k;
    }
  }

  lemma RequestLineAdded(lines: seq<string>, order: seq<Key>, m: Requests, k: Key)
    ensures Unlines(lines + RequestLines(order + [k], m)) ==
              Unlines(lines + RequestLines(order, m)) + RequestLine(k, Sums.Entry(m, k)) + [NEWLINE]
  {
    var line := RequestLine(k, Sums.Entry(m, k));
    assert (order + [k])[..|order|] == order;
    assert lines + RequestLines(order + [k], m) == lines + RequestLines(order, m) + [line];
    UnlinesOne(lines + RequestLines(order, m), line);
  }

  lemma CreatedLineAdded(lines: seq<string>, order: seq<string>, m: Created, token: string)
    ensures Unlines(lines + CreatedLines(order + [token], m)) ==
              Unlines(lines + CreatedLines(order, m)) + CreatedLine(token, Sums.Entry(m, token)) + [NEWLINE]
  {
    var line := CreatedLine(token, Sums.Entry(m, token));
    assert (order + [token])[..|order|] == order;
    assert lines + CreatedLines(order + [token], m) == lines + CreatedLines(order, m) + [line];
    UnlinesOne(lines + CreatedLines(order, m), line);
  }

  /** Appends one line per request counter. */
  method PrintRequests(out: string, m: Requests, ghost lines: seq<string>) returns (after: string, ghost order: seq<Key>)
    requires out == Unlines(lines)
    ensures Lists(order, m.Keys)
    ensures after == Unlines(lines + RequestLines(order, m))
  {
    after, order := out, [];
    var rest := m.Keys;
    assert lines + RequestLines(order, m) == lines;
    while rest != {}
      invariant rest <= m.Keys && Lists(order, m.Keys - rest)
      invariant after == Unlines(lines + RequestLines(order, m))
      decreases |rest|
    {
      var k :| k in rest;
      var line := RequestLine(k, m[k]);
      RequestLineAdded(lines, order, m, k);
      ListsOneMore(order, m.Keys, rest, k);
      after := after + line + [NEWLINE];
      order := order + [k];
      rest := rest - {k};
    }
  }

  /** Appends one line per voucher counter. */
  method PrintCreated(out: string, m: Created, ghost lines: seq<string>) returns (after: string, ghost order: seq<string>)
    requires out == Unlines(lines)
    ensures Lists(order, m.Keys)
    ensures after == Unlines(lines + CreatedLines(order, m))
  {
    after, order := out, [];
    var rest := m.Keys;
    assert lines + CreatedLines(order, m) == lines;
    while rest != {}
      invariant rest <= m.Keys && Lists(order, m.Keys - rest)
      invariant after == Unlines(lines + CreatedLines(order, m))
      decreases |rest|
    {
      var token :| token in rest;
      var line := CreatedLine(token, m[token]);
      CreatedLineAdded(lines, order, m, token);
      ListsOneMore(order, m.Keys, rest, token);
      after := after + line + [NEWLINE];
      order := order + [token];
      rest := rest - {token};
    }
  }
}

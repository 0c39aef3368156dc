/** The YAML subset service manifests are written in (internal/manifest/manifest.go). */
module Yaml {
  import opened Text
  import opened Manifests

  // ---------- Comments and quotes ----------

  predicate IsQuote(c: char) {
    c == '\'' || c == '"'
  }

  /** The line up to its first '#' outside quotes; any quote character opens or closes. */
  function StripComment(line: string, quoted: bool): string {
    if line == "" || (line[0] == '#' && !quoted) then ""
    else [line[0]] + StripComment(line[1..], if IsQuote(line[0]) then !quoted else quoted)
  }

  function QuotedAfter(line: string, quoted: bool): bool {
    if line == "" then quoted else QuotedAfter(line[1..], if IsQuote(line[0]) then !quoted else quoted)
  }

  /** A '#' at k with an even number of quote characters before it. */
  predicate BareHash(line: string, k: nat) {
    k < |line| && line[k] == '#' && !QuotedAfter(line[..k], false)
  }

  lemma {:induction false} QuotedAfterAppend(a: string, b: string, quoted: bool)
    ensures QuotedAfter(a + b, quoted) == QuotedAfter(b, QuotedAfter(a, quoted))
  {
    if a == "" {
      assert a + b == b;
    } else {
      assert (a + b)[1..] == a[1..] + b;
      QuotedAfterAppend(a[1..], b, if IsQuote(a[0]) then !quoted else quoted);
    }
  }

  lemma StripOneMore(line: string, i: nat)
    requires i < |line|
    ensures var quoted := QuotedAfter(line[..i], false);
            var next := if IsQuote(line[i]) then !quoted else quoted;
            && QuotedAfter(line[..i + 1], false) == next
            && line[..i] + StripComment(line[i..], quoted)
               == if line[i] == '#' && !quoted then line[..i] else line[..i + 1] + StripComment(line[i + 1..], next)
  {
    assert line[i..][1..] == line[i + 1..];
    assert line[..i + 1] == line[..i] + [line[i]];
    QuotedAfterAppend(line[..i], [line[i]], false);
    assert QuotedAfter([line[i]][1..], IsQuote(line[i]) != QuotedAfter(line[..i], false))
        == (IsQuote(line[i]) != QuotedAfter(line[..i], false)) by { assert [line[i]][1..] == ""; }
  }

  /** The loop that toggles `quoted`. */
  method StripCommentLoop(line: string) returns (r: string)
    ensures r == StripComment(line, false)
  {
    var quoted := false;
    for i := 0 to |line|
      invariant quoted == QuotedAfter(line[..i], false)
      invariant line[..i] + StripComment(line[i..], quoted) == StripComment(line, false)
    {
      StripOneMore(line, i);
      if IsQuote(line[i]) {
        quoted := !quoted;
      } else if line[i] == '#' && !quoted {
        return line[..i];
      }
    }
    assert line[..|line|] == line;
    return line;
  }

  lemma StripTail(a: string, quoted: bool)
    requires a != "" && StripComment(a, quoted) == a
    ensures a[0] != '#' || quoted
    ensures StripComment(a[1..], if IsQuote(a[0]) then !quoted else quoted) == a[1..]
  {
    assert a[1..] == StripComment(a, quoted)[1..];
  }

  lemma Reattach(a: string, more: string)
    requires a != ""
    ensures [a[0]] + (a[1..] + more) == a + more
  {
  }

  /** A line without a comment: what follows is stripped as if it went on. */
  lemma {:induction false} StripAppendOpen(a: string, b: string, quoted: bool)
    requires StripComment(a, quoted) == a
    ensures StripComment(a + b, quoted) == a + StripComment(b, QuotedAfter(a, quoted))
  {
    if a == "" {
      assert a + b == b;
    } else {
      StripTail(a, quoted);
      assert (a + b)[0] == a[0] && (a + b)[1..] == a[1..] + b;
      StripAppendOpen(a[1..], b, if IsQuote(a[0]) then !quoted else quoted);
      Reattach(a, StripComment(b, QuotedAfter(a, quoted)));
    }
  }

  /** A line with a comment: what follows belongs to it. */
  lemma {:induction false} StripAppendCut(a: string, b: string, quoted: bool)
    requires StripComment(a, quoted) != a
    ensures StripComment(a + b, quoted) == StripComment(a, quoted)
  {
    assert (a + b)[0] == a[0];
    if a[0] != '#' || quoted {
      assert (a + b)[1..] == a[1..] + b;
      assert a == [a[0]] + a[1..];
      StripAppendCut(a[1..], b, if IsQuote(a[0]) then !quoted else quoted);
    }
  }

  lemma {:induction false} StripCommentPrefix(a: string, quoted: bool)
    ensures StripComment(a, quoted) <= a
  {
    if a != "" && !(a[0] == '#' && !quoted) {
      StripCommentPrefix(a[1..], if IsQuote(a[0]) then !quoted else quoted);
      assert a == [a[0]] + a[1..];
    }
  }

  /** Stripping keeps exactly what comes before the first '#' that is outside quotes. */
  lemma StripCommentCuts(line: string)
    ensures var r := StripComment(line, false);
            && r <= line
            && (forall k: nat :: k < |r| ==> !BareHash(line, k))
            && (|r| < |line| ==> BareHash(line, |r|))
            && StripComment(r, false) == r
  {
    StripFrom(line, 0);
    assert line[0..] == line && line[..0] == "";
    var r := StripComment(line, false);
    StripCommentPrefix(line, false);
    assert line == r + line[|r|..];
    if StripComment(r, false) != r {
      StripAppendCut(r, line[|r|..], false);
    }
  }

  lemma {:induction false} StripFrom(line: string, i: nat)
    requires i <= |line|
    ensures var r := StripComment(line[i..], QuotedAfter(line[..i], false));
            && i + |r| <= |line|
            && (forall k: nat :: i <= k < i + |r| ==> !BareHash(line, k))
            && (i + |r| < |line| ==> BareHash(line, i + |r|))
    decreases |line| - i
  {
    if i < |line| {
      assert line[i..][1..] == line[i + 1..];
      assert line[..i + 1] == line[..i] + [line[i]];
      QuotedAfterAppend(line[..i], [line[i]], false);
      StripFrom(line, i + 1);
    }
  }

  function Unquote(value: string): string {
    if |value| >= 2 && IsQuote(value[0]) && value[|value| - 1] == value[0] then value[1..|value| - 1] else value
  }

  /** One pair of quotes around a value goes, of either kind, and nothing else. */
  lemma UnquoteExactly(value: string)
    ensures Unquote("'" + value + "'") == value && Unquote("\"" + value + "\"") == value
    ensures (forall inner :: value != "'" + inner + "'" && value != "\"" + inner + "\"") ==> Unquote(value) == value
  {
    assert ("'" + value + "'")[1..|value| + 1] == value;
    assert ("\"" + value + "\"")[1..|value| + 1] == value;
    if |value| >= 2 && value[|value| - 1] == value[0] {
      var inner := value[1..|value| - 1];
      assert value[0] == '\'' ==> value == "'" + inner + "'";
      assert value[0] == '"' ==> value == "\"" + inner + "\"";
    }
  }

  /** Either quote character keeps a '#', and closes what the other opened. */
  lemma EitherQuoteToggles()
    ensures StripComment("'#", false) == "'#" && StripComment("\"#", false) == "\"#"
    ensures StripComment("'\"#", false) == "'\"" && StripComment("#", false) == ""
  {
    assert "'#"[1..] == "#" && "\"#"[1..] == "#" && "'\"#"[1..] == "\"#" && "#"[1..] == "";
  }

  // ---------- Lines ----------

  /** Replace each "\r\n" by "\n". */
  function UnixEnds(s: string): string {
    if s == "" then ""
    else if |s| >= 2 && s[0] == '\r' && s[1] == '\n' then "\n" + UnixEnds(s[2..])
    else [s[0]] + UnixEnds(s[1..])
  }

  function Split(s: string, separator: char): (parts: seq<string>)
    ensures parts != []
  {
    if s == "" then [""]
    else
      var rest := Split(s[1..], separator);
      if s[0] == separator then [""] + rest else [[s[0]] + rest[0]] + rest[1..]
  }

  function Lines(s: string): seq<string> {
    Split(UnixEnds(s), '\n')
  }

  lemma FirstLonger(rest: seq<string>, others: seq<string>, head: string)
    requires rest != []
    ensures [""] + (rest + others) == ([""] + rest) + others
    ensures [head + (rest + others)[0]] + (rest + others)[1..] == ([head + rest[0]] + rest[1..]) + others
  {
    assert (rest + others)[1..] == rest[1..] + others;
  }

  lemma {:induction false} SplitAppend(x: string, separator: char, y: string)
    ensures Split(x + [separator] + y, separator) == Split(x, separator) + Split(y, separator)
  {
    if x == "" {
      assert x + [separator] + y == [separator] + y;
    } else {
      assert (x + [separator] + y)[1..] == x[1..] + [separator] + y;
      SplitAppend(x[1..], separator, y);
      var rest, others := Split(x[1..], separator), Split(y, separator);
      FirstLonger(rest, others, [x[0]]);
    }
  }

  /** A line end: one of the two the parser knows. A text that ends in '\r' before a bare "\n"
      would make the other one. */
  predicate LineEnd(x: string, eol: string) {
    eol == "\r\n" || (eol == "\n" && (x == "" || x[|x| - 1] != '\r'))
  }

  lemma {:induction false} UnixEndsAppend(x: string, eol: string, y: string)
    requires LineEnd(x, eol)
    ensures UnixEnds(x + eol + y) == UnixEnds(x) + "\n" + UnixEnds(y)
    decreases |x|
  {
    if x == "" {
      assert x + eol + y == eol + y;
      assert eol == "\r\n" ==> (eol + y)[2..] == y;
      assert eol == "\n" ==> (eol + y)[1..] == y;
    } else if |x| >= 2 && x[0] == '\r' && x[1] == '\n' {
      assert (x + eol + y)[2..] == x[2..] + eol + y;
      UnixEndsAppend(x[2..], eol, y);
    } else {
      var text := x + eol + y;
      assert text[0] == x[0] && text[1..] == x[1..] + eol + y;
      assert text[1] == if |x| > 1 then x[1] else eol[0];
      UnixEndsAppend(x[1..], eol, y);
      assert UnixEnds(text) == [x[0]] + UnixEnds(text[1..]);
    }
  }

  lemma LinesAppend(x: string, eol: string, y: string)
    requires LineEnd(x, eol)
    ensures Lines(x + eol + y) == Lines(x) + Lines(y)
  {
    UnixEndsAppend(x, eol, y);
    SplitAppend(UnixEnds(x), '\n', UnixEnds(y));
  }

  // ---------- One line ----------

  datatype Section = NoSection | EnvSection | ResourcesSection | SecretsSection | RolloutSection

  datatype Fault =
    | StrayItem | EmptySecret | NoColon | NeedsValue | BadNumber | NotNested | UnknownField
    | BadIndentation | NotAnItem | EmptyDocument | BadJson

  datatype Parser =
    | Running(m: Manifest, section: Section)
    | Stopped(line: nat, fault: Fault)

  /** The number syntax of the standard library. */
  datatype Numbers = Numbers(atoi: string -> Option<int>, float: string -> Option<real>)

  const EMPTY: Manifest :=
    Manifest("", "", "", 0, 0, map[], [], Resources("", ""), Rollout(false, [], 0.0), NonNil(true, false, false))

  function SectionOf(key: string): Section {
    if key == "env" then EnvSection else if key == "resources" then ResourcesSection
    else if key == "secrets" then SecretsSection else if key == "rollout" then RolloutSection else NoSection
  }

  /** What is left of a line once its comment and surrounding white space are gone. */
  function Content(raw: string): string {
    TrimSpace(StripComment(raw, false))
  }

  function Indent(raw: string): nat {
    if raw != "" && (raw[0] == ' ' || raw[0] == '\t') then 1 + Indent(raw[1..]) else 0
  }

  function IndexOf(s: string, c: char): (i: nat)
    ensures i <= |s| && (i < |s| ==> s[i] == c)
  {
    if s == "" || s[0] == c then 0 else 1 + IndexOf(s[1..], c)
  }

  function WithoutBrackets(value: string): string {
    var opening := if value != "" && value[|value| - 1] == ']' then value[..|value| - 1] else value;
    TrimSpace(if opening != "" && opening[0] == '[' then opening[1..] else opening)
  }

  function ParseItems(numbers: Numbers, items: seq<string>): Option<seq<int>> {
    if items == [] then Some([])
    else
      match numbers.atoi(TrimSpace(items[0]))
      case None => None
      case Some(step) =>
        match ParseItems(numbers, items[1..])
        case None => None
        case Some(rest) => Some([step] + rest)
  }

  function Prepend(first: seq<int>, rest: Option<seq<int>>): Option<seq<int>> {
    if rest.None? then None else Some(first + rest.value)
  }

  /** The loop over the items of a list of steps. */
  method ParseItemsLoop(numbers: Numbers, items: seq<string>) returns (steps: Option<seq<int>>)
    ensures steps == ParseItems(numbers, items)
  {
    var parsed: seq<int> := [];
    assert items[0..] == items;
    ghost var all := ParseItems(numbers, items);
    assert all.Some? ==> parsed + all.value == all.value;
    for i := 0 to |items|
      invariant ParseItems(numbers, items) == Prepend(parsed, ParseItems(numbers, items[i..]))
    {
      assert items[i..][0] == items[i] && items[i..][1..] == items[i + 1..];
      var step := numbers.atoi(TrimSpace(items[i]));
      if step.None? {
        return None;
      }
      ghost var rest := ParseItems(numbers, items[i + 1..]);
      assert rest.Some? ==> parsed + ([step.value] + rest.value) == (parsed + [step.value]) + rest.value;
      parsed := parsed + [step.value];
    }
    assert items[|items|..] == [] && parsed + [] == parsed;
    return Some(parsed);
  }

  function SetTop(numbers: Numbers, m: Manifest, key: string, value: string, number: nat): Parser {
    if value == "" then
      (if SectionOf(key).NoSection? then Stopped(number, NeedsValue) else Running(m, SectionOf(key)))
    else if key == "name" then Running(m.(name := Unquote(value)), NoSection)
    else if key == "image" then Running(m.(image := Unquote(value)), NoSection)
    else if key == "port" || key == "replicas" then
      match numbers.atoi(value)
      case None => Stopped(number, BadNumber)
      case Some(n) => Running(if key == "port" then m.(port := n) else m.(replicas := n), NoSection)
    else Stopped(number, if SectionOf(key).NoSection? then UnknownField else NotNested)
  }

  function SetRollout(numbers: Numbers, m: Manifest, key: string, value: string, number: nat): Parser {
    if key == "enabled" then Running(m.(rollout := m.rollout.(enabled := value == "true")), RolloutSection)
    else if key == "max_error_rate" then
      match numbers.float(value)
      case None => Stopped(number, BadNumber)
      case Some(rate) => Running(m.(rollout := m.rollout.(maxErrorRate := rate)), RolloutSection)
    else if key == "steps" then
      var listed := WithoutBrackets(value);
      if listed == "" then Running(m, RolloutSection)
      else
        match ParseItems(numbers, Split(listed, ','))
        case None => Stopped(number, BadNumber)
        case Some(steps) =>
          Running(m.(rollout := m.rollout.(steps := m.rollout.steps + steps), nonNil := m.nonNil.(steps := true)), RolloutSection)
    else Stopped(number, UnknownField)
  }

  function SetNested(numbers: Numbers, m: Manifest, section: Section, key: string, value: string, number: nat): Parser {
    match section
    case EnvSection => Running(m.(env := m.env[key := Unquote(value)]), section)
    case ResourcesSection =>
      if key == "cpu" then Running(m.(resources := m.resources.(cpu := Unquote(value))), section)
      else if key == "memory" then Running(m.(resources := m.resources.(memory := Unquote(value))), section)
      else Stopped(number, UnknownField)
    case SecretsSection => Stopped(number, NotAnItem)
    case RolloutSection => SetRollout(numbers, m, key, value, number)
    case NoSection => Stopped(number, BadIndentation)
  }

  function AddItem(m: Manifest, section: Section, value: string, indent: nat, number: nat): Parser {
    if !section.SecretsSection? || indent < 2 then Stopped(number, StrayItem)
    else if value == "" then Stopped(number, EmptySecret)
    else Running(m.(secrets := m.secrets + [Unquote(value)], nonNil := m.nonNil.(secrets := true)), section)
  }

  /** What a line does, by its content, its indentation and its number. */
  function ParseContent(numbers: Numbers, line: string, indent: nat, number: nat, m: Manifest, section: Section): Parser {
    if line == "" then Running(m, section)
    else if line[0] == '-' then AddItem(m, section, TrimSpace(line[1..]), indent, number)
    else
      var colon := IndexOf(line, ':');
      if colon == |line| then Stopped(number, NoColon)
      else
        var key, value := TrimSpace(line[..colon]), TrimSpace(line[colon + 1..]);
        if indent == 0 then SetTop(numbers, m, key, value, number)
        else if indent < 2 then Stopped(number, BadIndentation)
        else SetNested(numbers, m, section, key, value, number)
  }

  /** Which lines the parser accepts, exactly. */
  lemma AcceptedExactly(numbers: Numbers, line: string, indent: nat, number: nat, m: Manifest, section: Section)
    ensures var colon := IndexOf(line, ':');
            ParseContent(numbers, line, indent, number, m, section).Running? <==>
              || line == ""
              || (line != "" && line[0] == '-' && section == SecretsSection && indent >= 2 && TrimSpace(line[1..]) != "")
              || (line != "" && line[0] != '-' && colon < |line| &&
                  var key, value := TrimSpace(line[..colon]), TrimSpace(line[colon + 1..]);
                  || (indent == 0 && value == "" && key in {"env", "resources", "secrets", "rollout"})
                  || (indent == 0 && value != "" && key in {"name", "image"})
                  || (indent == 0 && value != "" && key in {"port", "replicas"} && numbers.atoi(value).Some?)
                  || (indent >= 2 && section == EnvSection)
                  || (indent >= 2 && section == ResourcesSection && key in {"cpu", "memory"})
                  || (indent >= 2 && section == RolloutSection && key == "enabled")
                  || (indent >= 2 && section == RolloutSection && key == "max_error_rate" && numbers.float(value).Some?)
                  || (indent >= 2 && section == RolloutSection && key == "steps" &&
                      (WithoutBrackets(value) == "" || ParseItems(numbers, Split(WithoutBrackets(value), ',')).Some?)))
  {
  }

  // ---------- All lines ----------

  function ParseLine(numbers: Numbers, raw: string, number: nat, p: Parser): Parser {
    if p.Stopped? then p else ParseContent(numbers, Content(raw), Indent(raw), number, p.m, p.section)
  }

  function ParseLines(numbers: Numbers, lines: seq<string>, number: nat, p: Parser): Parser
    decreases |lines|
  {
    if lines == [] then p else ParseLines(numbers, lines[1..], number + 1, ParseLine(numbers, lines[0], number, p))
  }

  const START := Running(EMPTY, NoSection)

  function ParseYaml(numbers: Numbers, input: string): Parser {
    ParseLines(numbers, Lines(input), 1, START)
  }

  lemma {:induction false} StoppedStays(numbers: Numbers, lines: seq<string>, number: nat, p: Parser)
    requires p.Stopped?
    ensures ParseLines(numbers, lines, number, p) == p
    decreases |lines|
  {
    if lines != [] {
      StoppedStays(numbers, lines[1..], number + 1, p);
    }
  }

  /** The line loop, returning at the first fault. */
  method ParseYamlLoop(numbers: Numbers, input: string) returns (p: Parser)
    ensures p == ParseYaml(numbers, input)
  {
    var m := EMPTY;
    var section := NoSection;
    var lines := Lines(input);
    for i := 0 to |lines|
      invariant ParseLines(numbers, lines[i..], i + 1, Running(m, section)) == ParseYaml(numbers, input)
    {
      var raw := lines[i];
      assert lines[i..][0] == raw && lines[i..][1..] == lines[i + 1..];
      var stripped := StripCommentLoop(raw);
      var line := TrimSpace(stripped);
      if line == "" {
        continue;
      }
      match ParseContent(numbers, line, Indent(raw), i + 1, m, section) {
        case Stopped(number, fault) =>
          StoppedStays(numbers, lines[i + 1..], i + 2, Stopped(number, fault));
          return Stopped(number, fault);
        case Running(updated, current) =>
          m, section := updated, current;
      }
    }
    return Running(m, section);
  }

  // ---------- Comment transparency ----------

  /** The same outcome k lines further down. */
  function Shift(p: Parser, k: nat): Parser {
    if p.Stopped? then p.(line := p.line + k) else p
  }

  lemma LaterLine(numbers: Numbers, raw: string, number: nat, k: nat, p: Parser)
    requires p.Running?
    ensures ParseLine(numbers, raw, number + k, p) == Shift(ParseLine(numbers, raw, number, p), k)
  {
    LaterContent(numbers, Content(raw), Indent(raw), number, k, p.m, p.section);
  }

  lemma LaterContent(numbers: Numbers, line: string, indent: nat, number: nat, k: nat, m: Manifest, section: Section)
    ensures ParseContent(numbers, line, indent, number + k, m, section)
            == Shift(ParseContent(numbers, line, indent, number, m, section), k)
  {
  }

  lemma {:induction false} LaterLines(numbers: Numbers, lines: seq<string>, number: nat, k: nat, p: Parser)
    requires p.Running?
    ensures ParseLines(numbers, lines, number + k, p) == Shift(ParseLines(numbers, lines, number, p), k)
    decreases |lines|
  {
    if lines != [] {
      var next := ParseLine(numbers, lines[0], number, p);
      LaterLine(numbers, lines[0], number, k, p);
      if next.Running? {
        LaterLines(numbers, lines[1..], number + 1, k, next);
        assert number + k + 1 == number + 1 + k;
      } else {
        StoppedStays(numbers, lines[1..], number + 1, next);
        StoppedStays(numbers, lines[1..], number + k + 1, Shift(next, k));
      }
    }
  }

  lemma {:induction false} ParseLinesAppend(numbers: Numbers, a: seq<string>, b: seq<string>, number: nat, p: Parser)
    ensures ParseLines(numbers, a + b, number, p) == ParseLines(numbers, b, number + |a|, ParseLines(numbers, a, number, p))
    decreases |a|
  {
    if a == [] {
      assert a + b == b;
    } else {
      var next := ParseLine(numbers, a[0], number, p);
      assert (a + b)[0] == a[0] && (a + b)[1..] == a[1..] + b;
      ParseLinesAppend(numbers, a[1..], b, number + 1, next);
      assert number + 1 + |a[1..]| == number + |a|;
    }
  }

  /** Blank, or nothing but a comment. */
  predicate Skipped(raw: string) {
    exists k: nat :: k <= |raw| && IsBlank(raw[..k]) && (k == |raw| || raw[k] == '#')
  }

  /** The lines the parser passes over are exactly those. */
  lemma SkippedExactly(raw: string)
    ensures Content(raw) == "" <==> Skipped(raw)
  {
    var r := StripComment(raw, false);
    TrimSpaceBlank(r);
    StripCommentCuts(raw);
    assert r == raw[..|r|];
    if Skipped(raw) {
      var k: nat :| k <= |raw| && IsBlank(raw[..k]) && (k == |raw| || raw[k] == '#');
      BlankIsUnquoted(raw[..k]);
      assert k < |raw| ==> BareHash(raw, k);
      assert |r| <= k;
      assert forall i :: 0 <= i < |r| ==> r[i] == raw[..k][i];
    }
  }

  lemma {:induction false} BlankIsUnquoted(s: string)
    requires IsBlank(s)
    ensures !QuotedAfter(s, false)
  {
    if s != "" {
      assert s[0] == s[..1][0];
      assert !IsQuote(s[0]);
      BlankIsUnquoted(s[1..]);
    }
  }

  predicate AllSkipped(lines: seq<string>) {
    forall i :: 0 <= i < |lines| ==> Skipped(lines[i])
  }

  lemma {:induction false} SkippedDoNothing(numbers: Numbers, lines: seq<string>, number: nat, p: Parser)
    requires AllSkipped(lines)
    ensures ParseLines(numbers, lines, number, p) == p
    decreases |lines|
  {
    if lines != [] {
      SkippedExactly(lines[0]);
      SkippedDoNothing(numbers, lines[1..], number + 1, p);
    }
  }

  /** Inserting blank or comment-only lines anywhere changes nothing but the line number a later
      fault is reported at. */
  lemma InsertedLinesVanish(numbers: Numbers, a: seq<string>, c: seq<string>, b: seq<string>)
    requires AllSkipped(c)
    ensures ParseLines(numbers, a + c + b, 1, START)
            == if ParseLines(numbers, a, 1, START).Stopped? then ParseLines(numbers, a + b, 1, START)
               else Shift(ParseLines(numbers, a + b, 1, START), |c|)
  {
    ParseLinesAppend(numbers, a, b, 1, START);
    ParseSkipping(numbers, a, c, b);
    FromLater(numbers, b, 1 + |a|, |c|, ParseLines(numbers, a, 1, START));
  }

  lemma FromLater(numbers: Numbers, b: seq<string>, number: nat, k: nat, p: Parser)
    ensures ParseLines(numbers, b, number + k, p)
            == if p.Stopped? then ParseLines(numbers, b, number, p) else Shift(ParseLines(numbers, b, number, p), k)
  {
    if p.Stopped? {
      StoppedStays(numbers, b, number, p);
      StoppedStays(numbers, b, number + k, p);
    } else {
      LaterLines(numbers, b, number, k, p);
    }
  }

  lemma ParseSkipping(numbers: Numbers, a: seq<string>, c: seq<string>, b: seq<string>)
    requires AllSkipped(c)
    ensures ParseLines(numbers, a + c + b, 1, START) == ParseLines(numbers, b, 1 + |a| + |c|, ParseLines(numbers, a, 1, START))
  {
    ParseLinesAppend(numbers, a + c, b, 1, START);
    ParseLinesAppend(numbers, a, c, 1, START);
    SkippedDoNothing(numbers, c, 1 + |a|, ParseLines(numbers, a, 1, START));
    assert 1 + |a + c| == 1 + |a| + |c|;
  }

  /** Nothing at the end of the line keeps a comment from starting there. */
  predicate Commentable(raw: string) {
    StripComment(raw, false) != raw || !QuotedAfter(raw, false)
  }

  lemma {:induction false} TrimRightKeeps(a: string, c: char, b: string)
    requires !IsSpace(c)
    ensures |TrimRight(a + [c] + b)| > |a|
    decreases |b|
  {
    if b == "" {
      assert a + [c] + b == a + [c];
    } else {
      assert (a + [c] + b)[..|a + [c] + b| - 1] == a + [c] + b[..|b| - 1];
      TrimRightKeeps(a, c, b[..|b| - 1]);
    }
  }

  lemma TrimRightShortens(s: string)
    ensures |TrimRight(s)| <= |s|
  {
    TrimRightPrefix(s);
  }

  /** After an unquoted end the comment goes, but for the space before it. */
  lemma CommentDropped(raw: string, comment: string)
    requires StripComment(raw, false) == raw && !QuotedAfter(raw, false)
    ensures StripComment(raw + (" #" + comment), false) == raw + " "
  {
    var tail := " #" + comment;
    assert tail[1..] == "#" + comment;
    assert StripComment(tail, false) == " ";
    StripAppendOpen(raw, tail, false);
  }

  /** After a quoted end the '#' is part of the line. */
  lemma CommentKept(raw: string, comment: string) returns (kept: string)
    requires StripComment(raw, false) == raw && QuotedAfter(raw, false)
    ensures StripComment(raw + (" #" + comment), false) == raw + (" #" + kept)
  {
    var tail := " #" + comment;
    kept := StripComment(comment, true);
    assert tail[1..] == "#" + comment && tail[1..][1..] == comment;
    assert StripComment(tail, true) == " " + ("#" + kept) == " #" + kept;
    StripAppendOpen(raw, tail, false);
  }

  lemma LongerContent(raw: string, kept: string)
    requires !IsBlank(raw)
    ensures |TrimSpace(raw + (" #" + kept))| > |TrimSpace(raw)|
  {
    var left := TrimLeft(raw);
    TrimLeftAppend(raw, " #" + kept);
    assert left + (" #" + kept) == (left + " ") + "#" + kept;
    TrimRightKeeps(left + " ", '#', kept);
    TrimRightShortens(left);
  }

  /** A trailing comment is transparent exactly on the lines that are commentable: an odd number
      of quote characters, apostrophes included, turns the comment into part of the value. */
  lemma TrailingCommentExactly(raw: string, comment: string)
    ensures Content(raw + (" #" + comment)) == Content(raw) <==> Commentable(raw)
  {
    if StripComment(raw, false) != raw {
      StripAppendCut(raw, " #" + comment, false);
    } else if !QuotedAfter(raw, false) {
      CommentDropped(raw, comment);
      TrimSpaceAppendBlank(raw, " ");
    } else {
      var kept := CommentKept(raw, comment);
      if IsBlank(raw) { BlankIsUnquoted(raw); }
      LongerContent(raw, kept);
    }
  }

  lemma {:induction false} IndentAppend(raw: string, tail: string)
    ensures Indent(raw + tail) == Indent(raw) || IsBlank(raw)
  {
    if raw != "" {
      assert (raw + tail)[1..] == raw[1..] + tail;
      if raw[0] == ' ' || raw[0] == '\t' {
        IndentAppend(raw[1..], tail);
        assert raw == [raw[0]] + raw[1..];
      }
    }
  }

  lemma BlankHasNoContent(raw: string)
    requires IsBlank(raw)
    ensures Content(raw) == ""
  {
    assert raw[..|raw|] == raw;
    SkippedExactly(raw);
  }

  /** A change to a line that leaves its content alone leaves the outcome alone. */
  lemma SameContentSameOutcome(numbers: Numbers, a: seq<string>, raw: string, tail: string, b: seq<string>)
    requires Content(raw + tail) == Content(raw)
    ensures ParseLines(numbers, a + [raw + tail] + b, 1, START) == ParseLines(numbers, a + [raw] + b, 1, START)
  {
    IndentAppend(raw, tail);
    if IsBlank(raw) { BlankHasNoContent(raw); }
    ParseMiddle(numbers, a, raw, b);
    ParseMiddle(numbers, a, raw + tail, b);
  }

  lemma ParseMiddle(numbers: Numbers, a: seq<string>, raw: string, b: seq<string>)
    ensures var p := ParseLines(numbers, a, 1, START);
            ParseLines(numbers, a + [raw] + b, 1, START)
            == ParseLines(numbers, b, |a| + 2, ParseLine(numbers, raw, |a| + 1, p))
  {
    ParseLinesAppend(numbers, a + [raw], b, 1, START);
    ParseLinesAppend(numbers, a, [raw], 1, START);
    OneLine(numbers, raw, 1 + |a|, ParseLines(numbers, a, 1, START));
  }

  lemma OneLine(numbers: Numbers, raw: string, number: nat, p: Parser)
    ensures ParseLines(numbers, [raw], number, p) == ParseLine(numbers, raw, number, p)
  {
    assert [raw][1..] == [];
  }

  /** Appending a comment to any commentable line leaves the outcome unchanged, faults and their
      line numbers included. */
  lemma TrailingCommentsVanish(numbers: Numbers, a: seq<string>, raw: string, comment: string, b: seq<string>)
    requires Commentable(raw)
    ensures ParseLines(numbers, a + [raw + (" #" + comment)] + b, 1, START) == ParseLines(numbers, a + [raw] + b, 1, START)
  {
    TrailingCommentExactly(raw, comment);
    SameContentSameOutcome(numbers, a, raw, " #" + comment, b);
  }

  // ---------- Whole documents ----------

  /** Trim the document, then read it as JSON or as YAML. JSON decoding is the library's. */
  function ParseDocument(numbers: Numbers, json: string -> Option<Manifest>, data: string): Parser {
    var trimmed := TrimSpace(data);
    if trimmed == "" then Stopped(0, EmptyDocument)
    else if trimmed[0] == '{' then
      match json(trimmed)
      case None => Stopped(0, BadJson)
      case Some(m) => Running(m, NoSection)
    else ParseYaml(numbers, trimmed)
  }

  lemma {:induction false} UnixEndsPush(x: string, c: char)
    requires c != '\n'
    ensures UnixEnds(x + [c]) == UnixEnds(x) + [c]
    decreases |x|
  {
    if x == "" {
      assert x + [c] == [c];
      assert [c][1..] == "";
    } else if |x| >= 2 && x[0] == '\r' && x[1] == '\n' {
      assert (x + [c])[2..] == x[2..] + [c];
      UnixEndsPush(x[2..], c);
    } else {
      assert (x + [c])[1..] == x[1..] + [c];
      UnixEndsPush(x[1..], c);
    }
  }

  lemma {:induction false} SplitPush(x: string, separator: char, c: char)
    requires c != separator
    ensures var lines := Split(x, separator);
            Split(x + [c], separator) == lines[..|lines| - 1] + [lines[|lines| - 1] + [c]]
  {
    if x == "" {
      assert x + [c] == [c];
      assert [c][1..] == "";
      assert Split("", separator) == [""];
      assert Split([c], separator) == [[c] + ""] + [""][1..];
      assert [c] + "" == "" + [c];
    } else {
      assert (x + [c])[1..] == x[1..] + [c];
      SplitPush(x[1..], separator, c);
      var rest := Split(x[1..], separator);
      var pushed := rest[..|rest| - 1] + [rest[|rest| - 1] + [c]];
      if x[0] == separator {
        assert ([""] + rest)[..|rest|] == [""] + rest[..|rest| - 1];
      } else {
        LastLonger(rest, [x[0]], [c]);
      }
    }
  }

  lemma LastLonger(rest: seq<string>, head: string, tail: string)
    requires rest != []
    ensures var pushed := rest[..|rest| - 1] + [rest[|rest| - 1] + tail];
            var headed := [head + rest[0]] + rest[1..];
            [head + pushed[0]] + pushed[1..] == headed[..|headed| - 1] + [headed[|headed| - 1] + tail]
  {
    if |rest| == 1 {
      assert head + (rest[0] + tail) == (head + rest[0]) + tail;
    } else {
      var pushed := rest[..|rest| - 1] + [rest[|rest| - 1] + tail];
      assert pushed[0] == rest[0] && pushed[1..] == rest[1..|rest| - 1] + [rest[|rest| - 1] + tail];
    }
  }

  lemma WhiteSpaceAtTheEndOfALine(raw: string, c: char)
    requires IsSpace(c)
    ensures Content(raw + [c]) == Content(raw)
  {
    if StripComment(raw, false) != raw {
      StripAppendCut(raw, [c], false);
    } else {
      StripAppendOpen(raw, [c], false);
      assert [c][1..] == "";
      assert StripComment([c], QuotedAfter(raw, false)) == [c];
      TrimSpaceAppendBlank(raw, [c]);
    }
  }

  /** Appending one white-space character to the text, other than a line end. */
  lemma PushSpace(numbers: Numbers, x: string, c: char)
    requires IsSpace(c) && c != '\n'
    ensures ParseYaml(numbers, x + [c]) == ParseYaml(numbers, x)
  {
    UnixEndsPush(x, c);
    SplitPush(UnixEnds(x), '\n', c);
    var lines := Lines(x);
    var a, last := lines[..|lines| - 1], lines[|lines| - 1];
    WhiteSpaceAtTheEndOfALine(last, c);
    SameContentSameOutcome(numbers, a, last, [c], []);
    assert a + [last] + [] == lines;
    assert a + [last + [c]] + [] == Lines(x + [c]);
  }

  lemma PushLineEnd(numbers: Numbers, x: string, eol: string)
    requires LineEnd(x, eol)
    ensures ParseYaml(numbers, x + eol) == ParseYaml(numbers, x)
  {
    LinesAppend(x, eol, "");
    assert x + eol + "" == x + eol;
    assert Lines("") == [""];
    assert AllSkipped([""]) by { BlankHasNoContent(""); SkippedExactly(""); }
    ParseLinesAppend(numbers, Lines(x), [""], 1, START);
    SkippedDoNothing(numbers, [""], 1 + |Lines(x)|, ParseYaml(numbers, x));
  }

  lemma PushAnySpace(numbers: Numbers, x: string, c: char)
    requires IsSpace(c)
    ensures ParseYaml(numbers, x + [c]) == ParseYaml(numbers, x)
  {
    if c != '\n' {
      PushSpace(numbers, x, c);
    } else if LineEnd(x, "\n") {
      PushLineEnd(numbers, x, "\n");
    } else {
      PushNewline(numbers, x[..|x| - 1]);
      assert x == x[..|x| - 1] + "\r" && x + "\n" == x[..|x| - 1] + "\r\n";
    }
  }

  lemma PushNewline(numbers: Numbers, before: string)
    ensures ParseYaml(numbers, before + "\r\n") == ParseYaml(numbers, before + "\r")
  {
    PushLineEnd(numbers, before, "\r\n");
    PushSpace(numbers, before, '\r');
  }

  /** White space at the end of the text is never seen. */
  lemma {:induction false} TrimRightIsUnseen(numbers: Numbers, x: string)
    ensures ParseYaml(numbers, TrimRight(x)) == ParseYaml(numbers, x)
  {
    if x != "" && IsSpace(x[|x| - 1]) {
      var rest, c := x[..|x| - 1], x[|x| - 1];
      TrimRightIsUnseen(numbers, rest);
      PushAnySpace(numbers, rest, c);
      assert x == rest + [c];
    }
  }

  /** A document is read without its leading white space; that at its end makes no difference. */
  lemma DocumentIsYaml(numbers: Numbers, json: string -> Option<Manifest>, data: string)
    requires !IsBlank(data) && TrimLeft(data) != "" && TrimLeft(data)[0] != '{'
    ensures ParseDocument(numbers, json, data) == ParseYaml(numbers, TrimLeft(data))
  {
    TrimSpaceBlank(data);
    TrimLeftBlank(data);
    TrimRightKeepsHead(TrimLeft(data));
    TrimRightIsUnseen(numbers, TrimLeft(data));
  }

  /** The same manifest, or a fault in both. */
  predicate SameOutcome(p: Parser, q: Parser) {
    (p.Running? && q.Running? && p.m == q.m) || (p.Stopped? && q.Stopped?)
  }

  lemma {:induction false} TrimLeftEnd(x: string)
    requires !IsBlank(x)
    ensures TrimLeft(x) != "" && TrimLeft(x)[|TrimLeft(x)| - 1] == x[|x| - 1]
  {
    if IsSpace(x[0]) {
      assert x == [x[0]] + x[1..];
      TrimLeftEnd(x[1..]);
    }
  }

  /** In a whole document, a comment-only or blank line may be inserted after any text that is not
      blank, with either kind of line end. */
  lemma CommentLinesVanish(numbers: Numbers, json: string -> Option<Manifest>, x: string, eol: string, c: string, y: string)
    requires !IsBlank(x) && TrimLeft(x) != "" && TrimLeft(x)[0] != '{'
    requires LineEnd(x, eol) && LineEnd(c, eol) && AllSkipped(Lines(c))
    ensures SameOutcome(ParseDocument(numbers, json, x + eol + (c + eol + y)), ParseDocument(numbers, json, x + eol + y))
  {
    TrimLeftEnd(x);
    DocumentWithLine(numbers, json, x, eol, c + eol + y);
    DocumentWithLine(numbers, json, x, eol, y);
    LinesVanishFromText(numbers, TrimLeft(x), eol, c, y);
  }

  lemma DocumentWithLine(numbers: Numbers, json: string -> Option<Manifest>, x: string, eol: string, rest: string)
    requires !IsBlank(x) && TrimLeft(x) != "" && TrimLeft(x)[0] != '{'
    ensures ParseDocument(numbers, json, x + eol + rest) == ParseYaml(numbers, TrimLeft(x) + eol + rest)
  {
    DocumentFrom(numbers, json, x, eol + rest);
    assert x + eol + rest == x + (eol + rest) && TrimLeft(x) + eol + rest == TrimLeft(x) + (eol + rest);
  }

  lemma LinesVanishFromText(numbers: Numbers, t: string, eol: string, c: string, y: string)
    requires LineEnd(t, eol) && LineEnd(c, eol) && AllSkipped(Lines(c))
    ensures SameOutcome(ParseYaml(numbers, t + eol + (c + eol + y)), ParseYaml(numbers, t + eol + y))
  {
    LinesAppend(t, eol, c + eol + y);
    LinesAppend(c, eol, y);
    LinesAppend(t, eol, y);
    assert Lines(t) + (Lines(c) + Lines(y)) == Lines(t) + Lines(c) + Lines(y);
    InsertedLinesVanish(numbers, Lines(t), Lines(c), Lines(y));
  }

  lemma DocumentFrom(numbers: Numbers, json: string -> Option<Manifest>, x: string, tail: string)
    requires !IsBlank(x) && TrimLeft(x) != "" && TrimLeft(x)[0] != '{'
    ensures ParseDocument(numbers, json, x + tail) == ParseYaml(numbers, TrimLeft(x) + tail)
  {
    TrimLeftAppend(x, tail);
    NotBlank(x, tail);
    DocumentIsYaml(numbers, json, x + tail);
  }

  lemma NotBlank(x: string, tail: string)
    requires !IsBlank(x)
    ensures !IsBlank(x + tail)
  {
    var i :| 0 <= i < |x| && !IsSpace(x[i]);
    assert (x + tail)[i] == x[i];
  }

  // ---------- The one place where a comment is not transparent ----------

  /** A document whose first line is not a comment, after white space that may indent it. */
  predicate StartsWithText(t: string) {
    t != "" && !IsSpace(t[0]) && t[0] != '{' && t[0] != '#'
  }

  predicate IsPadding(pad: string) {
    forall i :: 0 <= i < |pad| ==> pad[i] == ' ' || pad[i] == '\t'
  }

  /** Trimming the document also removes the indentation of its first line, and a comment put in
      front of that line brings the indentation back. So the comment is transparent exactly when
      the first line is not indented, or the document was faulty anyway: the commented text of an
      indented one is always refused. */
  lemma CommentInFrontExactly(numbers: Numbers, json: string -> Option<Manifest>, comment: string, pad: string, t: string)
    requires StartsWithText(t) && IsPadding(pad) && LineEnd(comment, "\n") && AllSkipped(Lines("#" + comment))
    ensures var plain := ParseDocument(numbers, json, pad + t);
            var commented := ParseDocument(numbers, json, "#" + comment + "\n" + (pad + t));
            && (SameOutcome(plain, commented) <==> pad == "" || plain.Stopped?)
            && (pad != "" ==> commented.Stopped?)
  {
    PaddedDocument(numbers, json, pad, t);
    CommentedDocument(numbers, json, comment, pad + t);
    UnindentedIsRead(numbers, t, |Lines("#" + comment)|);
    if pad == "" {
      assert pad + t == t;
    } else {
      IndentedStartStops(numbers, pad, t, 1 + |Lines("#" + comment)|);
    }
  }

  lemma UnindentedIsRead(numbers: Numbers, t: string, k: nat)
    ensures SameOutcome(ParseYaml(numbers, t), ParseLines(numbers, Lines(t), 1 + k, START))
  {
    LaterLines(numbers, Lines(t), 1, k, START);
  }

  lemma {:induction false} TrimLeftPadding(pad: string, t: string)
    requires IsPadding(pad) && t != "" && !IsSpace(t[0])
    ensures TrimLeft(pad + t) == t && Indent(pad + t) == |pad|
  {
    if pad == "" {
      assert pad + t == t;
    } else {
      assert (pad + t)[1..] == pad[1..] + t;
      TrimLeftPadding(pad[1..], t);
    }
  }

  lemma PaddedDocument(numbers: Numbers, json: string -> Option<Manifest>, pad: string, t: string)
    requires StartsWithText(t) && IsPadding(pad)
    ensures ParseDocument(numbers, json, pad + t) == ParseYaml(numbers, t)
  {
    TrimLeftPadding(pad, t);
    TrimLeftBlank(pad + t);
    DocumentIsYaml(numbers, json, pad + t);
  }

  lemma CommentedDocument(numbers: Numbers, json: string -> Option<Manifest>, comment: string, rest: string)
    requires LineEnd(comment, "\n") && AllSkipped(Lines("#" + comment))
    ensures ParseDocument(numbers, json, "#" + comment + "\n" + rest)
            == ParseLines(numbers, Lines(rest), 1 + |Lines("#" + comment)|, START)
  {
    var first := "#" + comment;
    assert first[0] == '#' && TrimLeft(first) == first;
    assert !IsBlank(first);
    DocumentFrom(numbers, json, first, "\n" + rest);
    assert first + "\n" + rest == first + ("\n" + rest);
    LinesAppend(first, "\n", rest);
    ParseLinesAppend(numbers, Lines(first), Lines(rest), 1, START);
    SkippedDoNothing(numbers, Lines(first), 1, START);
  }

  lemma IndentedStartStops(numbers: Numbers, pad: string, t: string, number: nat)
    requires StartsWithText(t) && IsPadding(pad) && pad != ""
    ensures ParseLines(numbers, Lines(pad + t), number, START).Stopped?
  {
    var lines := Lines(pad + t);
    FirstLine(pad, t);
    var k :| 1 <= k <= |t| && lines[0] == pad + t[..k];
    var first := t[..k];
    assert first[0] == t[0];
    TrimLeftPadding(pad, first);
    FirstLineHasContent(pad, first);
    var next := ParseLine(numbers, lines[0], number, START);
    assert next.Stopped?;
    StoppedStays(numbers, lines[1..], number + 1, next);
  }

  lemma FirstLineHasContent(pad: string, first: string)
    requires IsPadding(pad) && first != "" && !IsSpace(first[0]) && first[0] != '#'
    ensures Content(pad + first) != ""
  {
    SkippedExactly(pad + first);
    var line := pad + first;
    assert line[|pad|] == first[0];
    assert forall k :: |pad| < k <= |line| ==> line[..k][|pad|] == first[0];
    assert forall k :: 0 <= k < |pad| ==> line[k] == pad[k];
  }

  /** The first line of a text with no line end before its k-th character. */
  lemma FirstLine(pad: string, t: string)
    requires IsPadding(pad) && t != "" && !IsSpace(t[0])
    ensures exists k :: 1 <= k <= |t| && Lines(pad + t)[0] == pad + t[..k]
  {
    FirstLineOf(t);
    PaddingStays(pad, t);
    var k :| 1 <= k <= |t| && Lines(t)[0] == t[..k];
    assert Lines(pad + t)[0] == pad + t[..k];
  }

  lemma {:induction false} FirstLineOf(t: string)
    ensures exists k :: 0 <= k <= |t| && Lines(t)[0] == t[..k] && (t != "" && !IsSpace(t[0]) ==> k >= 1)
  {
    if t == "" {
      assert Lines(t)[0] == t[..0];
    } else if t[0] == '\n' || (|t| >= 2 && t[0] == '\r' && t[1] == '\n') {
      assert Lines(t)[0] == t[..0];
    } else {
      FirstLineOf(t[1..]);
      var k :| 0 <= k <= |t[1..]| && Lines(t[1..])[0] == t[1..][..k];
      assert UnixEnds(t)[1..] == UnixEnds(t[1..]);
      assert Lines(t)[0] == [t[0]] + t[1..][..k] == t[..k + 1];
    }
  }

  lemma {:induction false} PaddingStays(pad: string, t: string)
    requires IsPadding(pad)
    ensures Lines(pad + t)[0] == pad + Lines(t)[0]
  {
    if pad == "" {
      assert pad + t == t;
    } else {
      assert (pad + t)[1..] == pad[1..] + t;
      PaddingStays(pad[1..], t);
      assert UnixEnds(pad + t)[1..] == UnixEnds(pad[1..] + t);
      assert [pad[0]] + (pad[1..] + Lines(t)[0]) == pad + Lines(t)[0];
    }
  }

  lemma {:induction false} OneLineText(s: string)
    requires forall i :: 0 <= i < |s| ==> s[i] != '\n' && s[i] != '\r'
    ensures UnixEnds(s) == s && Lines(s) == [s]
  {
    if s != "" {
      OneLineText(s[1..]);
      assert [s[0]] + s[1..] == s;
    }
  }

  lemma EnvAlone(numbers: Numbers)
    ensures ParseYaml(numbers, "env:") == Running(EMPTY, EnvSection)
  {
    var t := "env:";
    OneLineText(t);
    PlainContent(t);
    EnvHeader(numbers, t);
    OneLine(numbers, t, 1, START);
  }

  lemma {:induction false} StripNothing(s: string)
    requires '#' !in s
    ensures forall quoted :: StripComment(s, quoted) == s
  {
    if s != "" {
      StripNothing(s[1..]);
      assert s == [s[0]] + s[1..];
    }
  }

  /** A line without comment or white space at its ends is its own content. */
  lemma PlainContent(t: string)
    requires t != "" && !IsSpace(t[0]) && !IsSpace(t[|t| - 1]) && '#' !in t
    ensures Content(t) == t && Indent(t) == 0
  {
    StripNothing(t);
    assert TrimLeft(t) == t && TrimRight(t) == t;
  }

  lemma EnvHeader(numbers: Numbers, t: string)
    requires t == "env" + ":"
    ensures ParseContent(numbers, t, 0, 1, EMPTY, NoSection) == Running(EMPTY, EnvSection)
  {
    FirstColon("env");
    assert t[..3] == "env" && t[4..] == "";
    assert TrimSpace("env") == "env";
  }

  lemma {:induction false} FirstColon(key: string)
    requires ':' !in key
    ensures IndexOf(key + ":", ':') == |key|
  {
    if key == "" {
      assert key + ":" == ":";
    } else {
      assert (key + ":")[1..] == key[1..] + ":";
      FirstColon(key[1..]);
    }
  }

  /** Such documents exist: with a comment in front, this one is no longer read. */
  lemma CommentUnreadsADocument(numbers: Numbers, json: string -> Option<Manifest>)
    ensures ParseDocument(numbers, json, "  " + "env:").Running?
    ensures ParseDocument(numbers, json, "#" + "" + "\n" + ("  " + "env:")).Stopped?
  {
    var t := "env:";
    EnvAlone(numbers);
    PaddedDocument(numbers, json, "  ", t);
    JustAHash();
    CommentInFrontExactly(numbers, json, "", "  ", t);
  }

  lemma JustAHash()
    ensures AllSkipped(Lines("#" + ""))
  {
    OneLineText("#");
    assert "#"[..0] == "";
    assert Skipped("#");
  }
}

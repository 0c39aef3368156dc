/** Manifests written as text, and read back by the YAML subset (internal/manifest/manifest.go). */
module YamlWriter {
  import opened Text
  import opened Manifests
  import opened Yaml

  /** How numbers are written. */
  datatype Format = Format(integer: int -> string, rate: real -> string)

  // ---------- The writer ----------

  function Quote(value: string): string {
    "\"" + value + "\""
  }

  function Join(items: seq<string>, separator: string): string {
    if items == [] then ""
    else if |items| == 1 then items[0]
    else items[0] + separator + Join(items[1..], separator)
  }

  function Field(pad: string, key: string, value: string): string {
    pad + (key + ": " + value)
  }

  function EnvLines(env: map<string, string>, keys: seq<string>): seq<string>
    requires forall i :: 0 <= i < |keys| ==> keys[i] in env
  {
    seq(|keys|, i requires 0 <= i < |keys| => Field("  ", keys[i], Quote(env[keys[i]])))
  }

  function SecretLines(secrets: seq<string>): seq<string> {
    seq(|secrets|, i requires 0 <= i < |secrets| => "  " + ("- " + Quote(secrets[i])))
  }

  function StepItems(format: Format, steps: seq<int>): seq<string> {
    seq(|steps|, i requires 0 <= i < |steps| => format.integer(steps[i]))
  }

  function TopLines(format: Format, m: Manifest): seq<string> {
    [Field("", "name", Quote(m.name))] + [Field("", "image", Quote(m.image))]
    + [Field("", "port", format.integer(m.port))] + [Field("", "replicas", format.integer(m.replicas))]
  }

  function ResourceLines(m: Manifest): seq<string> {
    ["resources" + ":"] + [Field("  ", "cpu", Quote(m.resources.cpu))] + [Field("  ", "memory", Quote(m.resources.memory))]
  }

  function RolloutLines(format: Format, m: Manifest): seq<string> {
    ["rollout" + ":"] + [Field("  ", "enabled", if m.rollout.enabled then "true" else "false")]
    + [Field("  ", "steps", "[" + Join(StepItems(format, m.rollout.steps), ",") + "]")]
    + [Field("  ", "max_error_rate", format.rate(m.rollout.maxErrorRate))]
  }

  /** The lines of the manifest, its environment in the order of the given keys. */
  function Written(format: Format, m: Manifest, keys: seq<string>): seq<string>
    requires forall i :: 0 <= i < |keys| ==> keys[i] in m.env
  {
    TopLines(format, m) + (["env" + ":"] + EnvLines(m.env, keys)) + (["secrets" + ":"] + SecretLines(m.secrets))
    + ResourceLines(m) + RolloutLines(format, m)
  }

  // ---------- What the subset can carry ----------

  /** A word with nothing in it that the parser looks for. */
  predicate Plain(word: string) {
    word != "" && forall i :: 0 <= i < |word| ==> PlainChar(word[i])
  }

  predicate PlainChar(c: char) {
    !IsSpace(c) && !IsQuote(c) && c != '#' && c != ',' && c != '[' && c != ']'
  }

  /** A key: a plain word without a colon that does not look like a list item. */
  predicate Bare(key: string) {
    Plain(key) && ':' !in key && key[0] != '-'
  }

  /** A value that survives in quotes: on one line, and with no '#' that its own quote characters expose. */
  predicate Quotable(value: string) {
    '\n' !in value && StripComment(Quote(value), false) == Quote(value)
  }

  predicate WritesInteger(numbers: Numbers, format: Format, n: int) {
    Plain(format.integer(n)) && numbers.atoi(format.integer(n)) == Some(n)
  }

  /** The manifest can be written so: it names no namespace, for which there is no key, its strings are
      quotable, its environment names are bare, and its numbers are read back as written. */
  predicate Writable(numbers: Numbers, format: Format, m: Manifest, keys: seq<string>) {
    && m.namespace == ""
    && Quotable(m.name) && Quotable(m.image) && Quotable(m.resources.cpu) && Quotable(m.resources.memory)
    && WritesInteger(numbers, format, m.port) && WritesInteger(numbers, format, m.replicas)
    && (forall i :: 0 <= i < |keys| ==> keys[i] in m.env && Bare(keys[i]) && Quotable(m.env[keys[i]]))
    && (forall key :: key in m.env ==> key in keys)
    && (forall i :: 0 <= i < |m.secrets| ==> Quotable(m.secrets[i]))
    && (forall i :: 0 <= i < |m.rollout.steps| ==> WritesInteger(numbers, format, m.rollout.steps[i]))
    && Plain(format.rate(m.rollout.maxErrorRate))
    && numbers.float(format.rate(m.rollout.maxErrorRate)) == Some(m.rollout.maxErrorRate)
  }

  // ---------- One written line ----------

  /** A value as it stands on its line. */
  predicate Clean(value: string) {
    && value != "" && !IsSpace(value[0]) && !IsSpace(value[|value| - 1])
    && StripComment(value, false) == value
  }

  lemma QuotedIsClean(value: string)
    requires Quotable(value)
    ensures Clean(Quote(value)) && Unquote(Quote(value)) == value && '\n' !in Quote(value)
  {
    var quoted := Quote(value);
    assert quoted[0] == '"' && quoted[|quoted| - 1] == '"';
    assert quoted[1..|quoted| - 1] == value;
  }

  lemma {:induction false} NothingBare(s: string)
    requires forall i :: 0 <= i < |s| ==> !IsQuote(s[i])
    ensures StripComment(s, true) == s && QuotedAfter(s, true)
  {
    if s != "" {
      NothingBare(s[1..]);
      assert [s[0]] + s[1..] == s;
    }
  }

  /** Any value on one line without quote characters is quotable, whatever else it holds. */
  lemma UnquotedIsQuotable(value: string)
    requires forall i :: 0 <= i < |value| ==> value[i] != '\n' && !IsQuote(value[i])
    ensures Quotable(value)
  {
    NothingBare(value);
    var quoted := Quote(value);
    assert quoted[1..] == value + "\"";
    StripAppendOpen(value, "\"", true);
    assert "\""[1..] == "";
    assert StripComment("\"", true) == "\"";
    assert [quoted[0]] + quoted[1..] == quoted;
  }

  lemma PlainIsClean(word: string)
    requires Plain(word)
    ensures Clean(word) && '\n' !in word
  {
    assert PlainChar(word[0]) && PlainChar(word[|word| - 1]);
    assert '#' !in word;
    StripNothing(word);
  }

  lemma {:induction false} NoQuotes(s: string, quoted: bool)
    requires forall i :: 0 <= i < |s| ==> !IsQuote(s[i])
    ensures QuotedAfter(s, quoted) == quoted
  {
    if s != "" {
      NoQuotes(s[1..], quoted);
    }
  }

  lemma NothingStripped(before: string, value: string)
    requires Clean(value) && forall i :: 0 <= i < |before| ==> !IsQuote(before[i]) && before[i] != '#'
    ensures StripComment(before + value, false) == before + value
  {
    StripNothing(before);
    NoQuotes(before, false);
    StripAppendOpen(before, value, false);
  }

  lemma NothingTrimmed(start: string, value: string)
    requires Clean(value)
    ensures TrimRight(start + value) == start + value
  {
    assert (start + value)[|start + value| - 1] == value[|value| - 1];
  }

  /** What the parser sees of an indented line. */
  lemma SeenLine(pad: string, start: string, value: string)
    requires IsPadding(pad) && start != "" && !IsSpace(start[0]) && Clean(value)
    requires forall i :: 0 <= i < |start| ==> !IsQuote(start[i]) && start[i] != '#'
    ensures Content(pad + (start + value)) == start + value && Indent(pad + (start + value)) == |pad|
  {
    assert pad + (start + value) == (pad + start) + value;
    NothingStripped(pad + start, value);
    TrimLeftPadding(pad, start + value);
    NothingTrimmed(start, value);
  }

  lemma TrimmedValue(value: string)
    requires value != "" && !IsSpace(value[0]) && !IsSpace(value[|value| - 1])
    ensures TrimSpace(" " + value) == value && TrimSpace(value) == value
  {
    assert (" " + value)[1..] == value;
    assert TrimLeft(value) == value && TrimRight(value) == value;
  }

  lemma {:induction false} ColonAfter(key: string, rest: string)
    requires ':' !in key
    ensures IndexOf(key + ":" + rest, ':') == |key|
  {
    assert (key + ":" + rest)[0] == if key == "" then ':' else key[0];
    if key != "" {
      assert (key + ":" + rest)[1..] == key[1..] + ":" + rest;
      ColonAfter(key[1..], rest);
    }
  }

  lemma PlainEnds(word: string)
    requires Plain(word)
    ensures !IsSpace(word[0]) && !IsSpace(word[|word| - 1])
    ensures forall i :: 0 <= i < |word| ==> !IsQuote(word[i]) && word[i] != '#'
  {
    assert PlainChar(word[0]) && PlainChar(word[|word| - 1]);
  }

  /** A field sets its key to its value, at the top or in the section it stands under. */
  lemma FieldLine(numbers: Numbers, pad: string, key: string, value: string, number: nat, m: Manifest, section: Section)
    requires IsPadding(pad) && Bare(key) && Clean(value)
    ensures ParseLine(numbers, Field(pad, key, value), number, Running(m, section))
            == Sets(numbers, pad, key, value, number, m, section)
  {
    FieldIsSeen(pad, key, value);
    FieldIsSplit(key, value);
  }

  lemma FieldIsSeen(pad: string, key: string, value: string)
    requires IsPadding(pad) && Bare(key) && Clean(value)
    ensures Content(Field(pad, key, value)) == key + ": " + value && Indent(Field(pad, key, value)) == |pad|
    ensures (key + ": " + value)[0] != '-'
  {
    var start := key + ": ";
    PlainEnds(key);
    assert start[0] == key[0];
    assert forall i :: 0 <= i < |start| ==> !IsQuote(start[i]) && start[i] != '#';
    SeenLine(pad, start, value);
  }

  /** At its colon the line falls into key and value. */
  lemma FieldIsSplit(key: string, value: string)
    requires Bare(key) && Clean(value)
    ensures var line := key + ": " + value;
            && IndexOf(line, ':') == |key| < |line|
            && TrimSpace(line[..|key|]) == key && TrimSpace(line[|key| + 1..]) == value
  {
    var line := key + ": " + value;
    PlainEnds(key);
    ColonAfter(key, " " + value);
    assert line == key + ":" + (" " + value);
    assert line[..|key|] == key && line[|key| + 1..] == " " + value;
    TrimmedValue(key);
    TrimmedValue(value);
  }

  /** A section's header opens it. */
  lemma HeaderLine(numbers: Numbers, key: string, number: nat, m: Manifest, section: Section)
    requires Bare(key)
    ensures ParseLine(numbers, key + ":", number, Running(m, section)) == SetTop(numbers, m, key, "", number)
  {
    PlainEnds(key);
    assert StripComment(":", false) == ":" by { StripNothing(":"); }
    SeenLine("", key, ":");
    assert "" + (key + ":") == key + ":";
    ColonAfter(key, "");
    assert key + ":" + "" == key + ":";
    assert (key + ":")[..|key|] == key && (key + ":")[|key| + 1..] == "";
    TrimmedValue(key);
  }

  /** An item adds a secret. */
  lemma ItemLine(numbers: Numbers, secret: string, number: nat, m: Manifest)
    requires Quotable(secret)
    ensures ParseLine(numbers, "  " + ("- " + Quote(secret)), number, Running(m, SecretsSection))
            == Running(m.(secrets := m.secrets + [secret], nonNil := m.nonNil.(secrets := true)), SecretsSection)
  {
    QuotedIsClean(secret);
    SeenLine("  ", "- ", Quote(secret));
    var line := "- " + Quote(secret);
    assert line[1..] == " " + Quote(secret);
    TrimmedValue(Quote(secret));
  }

  // ---------- The sections ----------

  lemma Then(numbers: Numbers, lines: seq<string>, line: string, number: nat, p: Parser)
    ensures ParseLines(numbers, lines + [line], number, p)
            == ParseLine(numbers, line, number + |lines|, ParseLines(numbers, lines, number, p))
  {
    ParseLinesAppend(numbers, lines, [line], number, p);
    OneLine(numbers, line, number + |lines|, ParseLines(numbers, lines, number, p));
  }

  /** The parser's own keys are bare. */
  lemma WordIsBare(word: string)
    requires word != "" && forall i :: 0 <= i < |word| ==> 'a' <= word[i] <= 'z' || word[i] == '_'
    ensures Bare(word)
  {
  }

  /** What a field does to a manifest that is being read. */
  function Sets(numbers: Numbers, pad: string, key: string, value: string, number: nat, m: Manifest, section: Section): Parser {
    if pad == "" then SetTop(numbers, m, key, value, number)
    else if |pad| < 2 then Stopped(number, BadIndentation)
    else SetNested(numbers, m, section, key, value, number)
  }

  lemma LineThen(numbers: Numbers, lines: seq<string>, line: string, number: nat, p: Parser, q: Parser, r: Parser)
    requires ParseLines(numbers, lines, number, p) == q && ParseLine(numbers, line, number + |lines|, q) == r
    ensures ParseLines(numbers, lines + [line], number, p) == r
  {
    Then(numbers, lines, line, number, p);
  }

  lemma NameLine(numbers: Numbers, name: string, number: nat, m: Manifest, section: Section)
    requires Quotable(name)
    ensures ParseLine(numbers, Field("", "name", Quote(name)), number, Running(m, section)) == Running(m.(name := name), NoSection)
  {
    QuotedIsClean(name);
    WordIsBare("name");
    FieldLine(numbers, "", "name", Quote(name), number, m, section);
  }

  lemma ImageLine(numbers: Numbers, image: string, number: nat, m: Manifest, section: Section)
    requires Quotable(image)
    ensures ParseLine(numbers, Field("", "image", Quote(image)), number, Running(m, section)) == Running(m.(image := image), NoSection)
  {
    QuotedIsClean(image);
    WordIsBare("image");
    FieldLine(numbers, "", "image", Quote(image), number, m, section);
  }

  lemma PortLine(numbers: Numbers, format: Format, port: int, number: nat, m: Manifest, section: Section)
    requires WritesInteger(numbers, format, port)
    ensures ParseLine(numbers, Field("", "port", format.integer(port)), number, Running(m, section)) == Running(m.(port := port), NoSection)
  {
    PlainIsClean(format.integer(port));
    WordIsBare("port");
    FieldLine(numbers, "", "port", format.integer(port), number, m, section);
  }

  lemma ReplicasLine(numbers: Numbers, format: Format, replicas: int, number: nat, m: Manifest, section: Section)
    requires WritesInteger(numbers, format, replicas)
    ensures ParseLine(numbers, Field("", "replicas", format.integer(replicas)), number, Running(m, section))
            == Running(m.(replicas := replicas), NoSection)
  {
    PlainIsClean(format.integer(replicas));
    WordIsBare("replicas");
    FieldLine(numbers, "", "replicas", format.integer(replicas), number, m, section);
  }

  lemma TopIsRead(numbers: Numbers, format: Format, m: Manifest, keys: seq<string>)
    requires Writable(numbers, format, m, keys)
    ensures ParseLines(numbers, TopLines(format, m), 1, START)
            == Running(EMPTY.(name := m.name, image := m.image, port := m.port, replicas := m.replicas), NoSection)
  {
    var l1, l2 := Field("", "name", Quote(m.name)), Field("", "image", Quote(m.image));
    var l3, l4 := Field("", "port", format.integer(m.port)), Field("", "replicas", format.integer(m.replicas));
    var m1 := EMPTY.(name := m.name);
    var m2 := m1.(image := m.image);
    var m3 := m2.(port := m.port);
    NameLine(numbers, m.name, 1, EMPTY, NoSection);
    ImageLine(numbers, m.image, 2, m1, NoSection);
    PortLine(numbers, format, m.port, 3, m2, NoSection);
    ReplicasLine(numbers, format, m.replicas, 4, m3, NoSection);
    FourLines(numbers, l1, l2, l3, l4, 1, START, Running(m1, NoSection), Running(m2, NoSection), Running(m3, NoSection),
              Running(m3.(replicas := m.replicas), NoSection));
  }

  lemma EnvLine(numbers: Numbers, key: string, value: string, number: nat, m: Manifest)
    requires Bare(key) && Quotable(value)
    ensures ParseLine(numbers, Field("  ", key, Quote(value)), number, Running(m, EnvSection))
            == Running(m.(env := m.env[key := value]), EnvSection)
  {
    QuotedIsClean(value);
    FieldLine(numbers, "  ", key, Quote(value), number, m, EnvSection);
  }

  lemma ThreeLines(numbers: Numbers, l1: string, l2: string, l3: string, number: nat, p: Parser, q1: Parser, q2: Parser, q3: Parser)
    requires ParseLine(numbers, l1, number, p) == q1
    requires ParseLine(numbers, l2, number + 1, q1) == q2
    requires ParseLine(numbers, l3, number + 2, q2) == q3
    ensures ParseLines(numbers, [l1] + [l2] + [l3], number, p) == q3
  {
    OneLine(numbers, l1, number, p);
    LineThen(numbers, [l1], l2, number, p, q1, q2);
    LineThen(numbers, [l1] + [l2], l3, number, p, q2, q3);
  }

  lemma FourLines(numbers: Numbers, l1: string, l2: string, l3: string, l4: string, number: nat,
                  p: Parser, q1: Parser, q2: Parser, q3: Parser, q4: Parser)
    requires ParseLine(numbers, l1, number, p) == q1
    requires ParseLine(numbers, l2, number + 1, q1) == q2
    requires ParseLine(numbers, l3, number + 2, q2) == q3
    requires ParseLine(numbers, l4, number + 3, q3) == q4
    ensures ParseLines(numbers, [l1] + [l2] + [l3] + [l4], number, p) == q4
  {
    ThreeLines(numbers, l1, l2, l3, number, p, q1, q2, q3);
    LineThen(numbers, [l1] + [l2] + [l3], l4, number, p, q3, q4);
  }

  /** The environment of the first n keys. */
  function EnvOf(env: map<string, string>, keys: seq<string>, n: nat): map<string, string>
    requires n <= |keys| && forall i :: 0 <= i < |keys| ==> keys[i] in env
  {
    map key | key in keys[..n] :: env[key]
  }

  lemma EnvOfOneMore(env: map<string, string>, keys: seq<string>, n: nat)
    requires 0 < n <= |keys| && forall i :: 0 <= i < |keys| ==> keys[i] in env
    ensures EnvOf(env, keys, n - 1)[keys[n - 1] := env[keys[n - 1]]] == EnvOf(env, keys, n)
  {
    assert keys[..n] == keys[..n - 1] + [keys[n - 1]];
  }

  lemma {:induction false} EnvIsRead(numbers: Numbers, env: map<string, string>, keys: seq<string>, n: nat, number: nat, m: Manifest)
    requires n <= |keys| && forall i :: 0 <= i < |keys| ==> keys[i] in env && Bare(keys[i]) && Quotable(env[keys[i]])
    requires m.env == map[]
    ensures ParseLines(numbers, EnvLines(env, keys)[..n], number, Running(m, EnvSection))
            == Running(m.(env := EnvOf(env, keys, n)), EnvSection)
  {
    var lines := EnvLines(env, keys);
    if n == 0 {
      assert lines[..0] == [];
      assert EnvOf(env, keys, 0) == map[];
    } else {
      var key := keys[n - 1];
      EnvIsRead(numbers, env, keys, n - 1, number, m);
      assert lines[..n] == lines[..n - 1] + [lines[n - 1]];
      EnvOfOneMore(env, keys, n);
      var before := m.(env := EnvOf(env, keys, n - 1));
      EnvLine(numbers, key, env[key], number + n - 1, before);
      LineThen(numbers, lines[..n - 1], lines[n - 1], number, Running(m, EnvSection), Running(before, EnvSection),
               Running(m.(env := EnvOf(env, keys, n)), EnvSection));
    }
  }

  lemma {:induction false} SecretsAreRead(numbers: Numbers, secrets: seq<string>, n: nat, number: nat, m: Manifest)
    requires n <= |secrets| && forall i :: 0 <= i < |secrets| ==> Quotable(secrets[i])
    requires m.secrets == [] && !m.nonNil.secrets
    ensures ParseLines(numbers, SecretLines(secrets)[..n], number, Running(m, SecretsSection))
            == Running(m.(secrets := secrets[..n], nonNil := m.nonNil.(secrets := n > 0)), SecretsSection)
  {
    var lines := SecretLines(secrets);
    if n == 0 {
      assert lines[..0] == [];
    } else {
      SecretsAreRead(numbers, secrets, n - 1, number, m);
      assert lines[..n] == lines[..n - 1] + [lines[n - 1]];
      var before := m.(secrets := secrets[..n - 1], nonNil := m.nonNil.(secrets := n - 1 > 0));
      ItemLine(numbers, secrets[n - 1], number + n - 1, before);
      assert secrets[..n] == secrets[..n - 1] + [secrets[n - 1]];
      LineThen(numbers, lines[..n - 1], lines[n - 1], number, Running(m, SecretsSection), Running(before, SecretsSection),
               Running(m.(secrets := secrets[..n], nonNil := m.nonNil.(secrets := true)), SecretsSection));
    }
  }

  lemma ResourcesAreRead(numbers: Numbers, w: Manifest, number: nat, m: Manifest, section: Section)
    requires Quotable(w.resources.cpu) && Quotable(w.resources.memory)
    ensures ParseLines(numbers, ResourceLines(w), number, Running(m, section))
            == Running(m.(resources := w.resources), ResourcesSection)
  {
    var l1, l2 := "resources" + ":", Field("  ", "cpu", Quote(w.resources.cpu));
    var l3 := Field("  ", "memory", Quote(w.resources.memory));
    var m1 := m.(resources := m.resources.(cpu := w.resources.cpu));
    ResourcesHeader(numbers, number, m, section);
    CpuLine(numbers, w.resources.cpu, number + 1, m);
    MemoryLine(numbers, w.resources.memory, number + 2, m1);
    ThreeLines(numbers, l1, l2, l3, number, Running(m, section), Running(m, ResourcesSection), Running(m1, ResourcesSection),
               Running(m.(resources := w.resources), ResourcesSection));
  }

  lemma ResourcesHeader(numbers: Numbers, number: nat, m: Manifest, section: Section)
    ensures ParseLine(numbers, "resources" + ":", number, Running(m, section)) == Running(m, ResourcesSection)
  {
    WordIsBare("resources");
    HeaderLine(numbers, "resources", number, m, section);
  }

  lemma CpuLine(numbers: Numbers, cpu: string, number: nat, m: Manifest)
    requires Quotable(cpu)
    ensures ParseLine(numbers, Field("  ", "cpu", Quote(cpu)), number, Running(m, ResourcesSection))
            == Running(m.(resources := m.resources.(cpu := cpu)), ResourcesSection)
  {
    QuotedIsClean(cpu);
    WordIsBare("cpu");
    FieldLine(numbers, "  ", "cpu", Quote(cpu), number, m, ResourcesSection);
  }

  lemma MemoryLine(numbers: Numbers, memory: string, number: nat, m: Manifest)
    requires Quotable(memory)
    ensures ParseLine(numbers, Field("  ", "memory", Quote(memory)), number, Running(m, ResourcesSection))
            == Running(m.(resources := m.resources.(memory := memory)), ResourcesSection)
  {
    QuotedIsClean(memory);
    WordIsBare("memory");
    FieldLine(numbers, "  ", "memory", Quote(memory), number, m, ResourcesSection);
  }

  // ---------- The list of steps ----------

  lemma {:induction false} NoSeparator(s: string, separator: char)
    requires separator !in s
    ensures Split(s, separator) == [s]
  {
    if s != "" {
      NoSeparator(s[1..], separator);
      assert [s[0]] + s[1..] == s;
    }
  }

  /** How a list of plain items begins and ends, and what is not in it. */
  predicate ListText(joined: string) {
    && joined != "" && !IsSpace(joined[0]) && !IsSpace(joined[|joined| - 1])
    && forall i :: 0 <= i < |joined| ==> !IsQuote(joined[i]) && joined[i] != '#' && joined[i] != '\n'
  }

  lemma PlainIsListText(word: string)
    requires Plain(word)
    ensures ListText(word) && ',' !in word
  {
    assert PlainChar(word[0]) && PlainChar(word[|word| - 1]);
  }

  lemma ListTextGrows(first: string, rest: string)
    requires ListText(first) && ListText(rest)
    ensures ListText(first + "," + rest)
  {
    var joined := first + "," + rest;
    assert joined[|joined| - 1] == rest[|rest| - 1];
  }

  lemma {:induction false} JoinedItems(items: seq<string>)
    requires items != [] && forall i :: 0 <= i < |items| ==> Plain(items[i])
    ensures Split(Join(items, ","), ',') == items && ListText(Join(items, ","))
  {
    PlainIsListText(items[0]);
    NoSeparator(items[0], ',');
    if |items| > 1 {
      var rest := Join(items[1..], ",");
      JoinedItems(items[1..]);
      ListTextGrows(items[0], rest);
      assert items[0] + "," + rest == items[0] + [','] + rest;
      SplitAppend(items[0], ',', rest);
    }
  }

  lemma {:induction false} ItemsAreRead(numbers: Numbers, format: Format, steps: seq<int>)
    requires forall i :: 0 <= i < |steps| ==> WritesInteger(numbers, format, steps[i])
    ensures ParseItems(numbers, StepItems(format, steps)) == Some(steps)
  {
    if steps != [] {
      var items := StepItems(format, steps);
      assert items[1..] == StepItems(format, steps[1..]);
      ItemsAreRead(numbers, format, steps[1..]);
      PlainEnds(items[0]);
      TrimmedValue(items[0]);
      assert steps == [steps[0]] + steps[1..];
    }
  }

  /** The list of steps, read where it stands. */
  lemma StepsAreRead(numbers: Numbers, format: Format, steps: seq<int>, m: Manifest, number: nat)
    requires forall i :: 0 <= i < |steps| ==> WritesInteger(numbers, format, steps[i])
    requires m.rollout.steps == [] && !m.nonNil.steps
    ensures var value := "[" + Join(StepItems(format, steps), ",") + "]";
            && Clean(value) && '\n' !in value
            && SetRollout(numbers, m, "steps", value, number)
               == Running(m.(rollout := m.rollout.(steps := steps), nonNil := m.nonNil.(steps := steps != [])), RolloutSection)
  {
    var items := StepItems(format, steps);
    StepsAreClean(numbers, format, steps);
    BracketsOff(Join(items, ","));
    if steps != [] {
      assert forall i :: 0 <= i < |items| ==> Plain(items[i]);
      JoinedItems(items);
      ItemsAreRead(numbers, format, steps);
    }
  }

  lemma BracketsOff(inner: string)
    requires inner != "" ==> !IsSpace(inner[0]) && !IsSpace(inner[|inner| - 1])
    ensures WithoutBrackets("[" + inner + "]") == inner
  {
    var value := "[" + inner + "]";
    assert value[..|value| - 1] == "[" + inner && ("[" + inner)[1..] == inner;
    if inner != "" {
      TrimmedValue(inner);
    }
  }

  lemma StepsAreClean(numbers: Numbers, format: Format, steps: seq<int>)
    requires forall i :: 0 <= i < |steps| ==> WritesInteger(numbers, format, steps[i])
    ensures var joined := Join(StepItems(format, steps), ",");
            && Clean("[" + joined + "]") && '\n' !in "[" + joined + "]"
            && (joined != "" ==> !IsSpace(joined[0]) && !IsSpace(joined[|joined| - 1]))
            && (joined == "" <==> steps == [])
  {
    var items := StepItems(format, steps);
    if steps != [] {
      assert forall i :: 0 <= i < |items| ==> Plain(items[i]);
      JoinedItems(items);
    }
    var value := "[" + Join(items, ",") + "]";
    assert '#' !in value;
    StripNothing(value);
  }

  lemma EnabledLine(numbers: Numbers, enabled: bool, number: nat, m: Manifest)
    ensures ParseLine(numbers, Field("  ", "enabled", if enabled then "true" else "false"), number, Running(m, RolloutSection))
            == Running(m.(rollout := m.rollout.(enabled := enabled)), RolloutSection)
  {
    var word := if enabled then "true" else "false";
    WordIsBare("enabled");
    WordIsBare("true");
    WordIsBare("false");
    PlainIsClean(word);
    FieldLine(numbers, "  ", "enabled", word, number, m, RolloutSection);
  }

  lemma StepsLine(numbers: Numbers, format: Format, steps: seq<int>, number: nat, m: Manifest)
    requires forall i :: 0 <= i < |steps| ==> WritesInteger(numbers, format, steps[i])
    requires m.rollout.steps == [] && !m.nonNil.steps
    ensures ParseLine(numbers, Field("  ", "steps", "[" + Join(StepItems(format, steps), ",") + "]"), number, Running(m, RolloutSection))
            == Running(m.(rollout := m.rollout.(steps := steps), nonNil := m.nonNil.(steps := steps != [])), RolloutSection)
  {
    StepsAreRead(numbers, format, steps, m, number);
    WordIsBare("steps");
    FieldLine(numbers, "  ", "steps", "[" + Join(StepItems(format, steps), ",") + "]", number, m, RolloutSection);
  }

  lemma RateLine(numbers: Numbers, format: Format, rate: real, number: nat, m: Manifest)
    requires Plain(format.rate(rate)) && numbers.float(format.rate(rate)) == Some(rate)
    ensures ParseLine(numbers, Field("  ", "max_error_rate", format.rate(rate)), number, Running(m, RolloutSection))
            == Running(m.(rollout := m.rollout.(maxErrorRate := rate)), RolloutSection)
  {
    PlainIsClean(format.rate(rate));
    WordIsBare("max_error_rate");
    FieldLine(numbers, "  ", "max_error_rate", format.rate(rate), number, m, RolloutSection);
  }

  lemma RolloutIsRead(numbers: Numbers, format: Format, w: Manifest, keys: seq<string>, number: nat, m: Manifest, section: Section)
    requires Writable(numbers, format, w, keys) && m.rollout == EMPTY.rollout && !m.nonNil.steps
    ensures ParseLines(numbers, RolloutLines(format, w), number, Running(m, section))
            == Running(m.(rollout := w.rollout, nonNil := m.nonNil.(steps := w.rollout.steps != [])), RolloutSection)
  {
    var p := Running(m, section);
    var l1, l2 := "rollout" + ":", Field("  ", "enabled", if w.rollout.enabled then "true" else "false");
    var l3 := Field("  ", "steps", "[" + Join(StepItems(format, w.rollout.steps), ",") + "]");
    var l4 := Field("  ", "max_error_rate", format.rate(w.rollout.maxErrorRate));
    var m1 := m.(rollout := m.rollout.(enabled := w.rollout.enabled));
    var m2 := m1.(rollout := m1.rollout.(steps := w.rollout.steps), nonNil := m1.nonNil.(steps := w.rollout.steps != []));
    RolloutHeader(numbers, number, m, section);
    EnabledLine(numbers, w.rollout.enabled, number + 1, m);
    StepsLine(numbers, format, w.rollout.steps, number + 2, m1);
    RateLine(numbers, format, w.rollout.maxErrorRate, number + 3, m2);
    FourLines(numbers, l1, l2, l3, l4, number, p, Running(m, RolloutSection), Running(m1, RolloutSection),
              Running(m2, RolloutSection), Running(m2.(rollout := m2.rollout.(maxErrorRate := w.rollout.maxErrorRate)), RolloutSection));
  }

  lemma RolloutHeader(numbers: Numbers, number: nat, m: Manifest, section: Section)
    ensures ParseLine(numbers, "rollout" + ":", number, Running(m, section)) == Running(m, RolloutSection)
  {
    WordIsBare("rollout");
    HeaderLine(numbers, "rollout", number, m, section);
  }

  // ---------- The whole document ----------

  /** What a manifest becomes in the parser's hands: the same, with its environment always allocated
      and its other collections only where they hold something. */
  function AsParsed(m: Manifest): Manifest {
    m.(nonNil := NonNil(true, m.secrets != [], m.rollout.steps != []))
  }

  lemma CollectionsAreRead(numbers: Numbers, format: Format, m: Manifest, keys: seq<string>)
    requires Writable(numbers, format, m, keys)
    ensures ParseLines(numbers, TopLines(format, m) + (["env" + ":"] + EnvLines(m.env, keys)) + (["secrets" + ":"] + SecretLines(m.secrets)),
                       1, START)
            == Running(Manifest(m.name, "", m.image, m.port, m.replicas, m.env, m.secrets, EMPTY.resources, EMPTY.rollout,
                                NonNil(true, m.secrets != [], false)), SecretsSection)
  {
    var upper := TopLines(format, m) + (["env" + ":"] + EnvLines(m.env, keys));
    var m1 := EMPTY.(name := m.name, image := m.image, port := m.port, replicas := m.replicas, env := m.env);
    TopAndEnvAreRead(numbers, format, m, keys);
    SecretSectionIsRead(numbers, m.secrets, 1 + |upper|, m1, EnvSection);
    ParseLinesAppend(numbers, upper, ["secrets" + ":"] + SecretLines(m.secrets), 1, START);
  }

  lemma TopAndEnvAreRead(numbers: Numbers, format: Format, m: Manifest, keys: seq<string>)
    requires Writable(numbers, format, m, keys)
    ensures ParseLines(numbers, TopLines(format, m) + (["env" + ":"] + EnvLines(m.env, keys)), 1, START)
            == Running(EMPTY.(name := m.name, image := m.image, port := m.port, replicas := m.replicas, env := m.env), EnvSection)
  {
    var top := TopLines(format, m);
    var m1 := EMPTY.(name := m.name, image := m.image, port := m.port, replicas := m.replicas);
    TopIsRead(numbers, format, m, keys);
    EnvSectionIsRead(numbers, m.env, keys, 1 + |top|, m1, NoSection);
    ParseLinesAppend(numbers, top, ["env" + ":"] + EnvLines(m.env, keys), 1, START);
  }

  lemma SectionsAreRead(numbers: Numbers, format: Format, m: Manifest, keys: seq<string>)
    requires Writable(numbers, format, m, keys)
    ensures ParseLines(numbers, Written(format, m, keys), 1, START) == Running(AsParsed(m), RolloutSection)
  {
    var upper := TopLines(format, m) + (["env" + ":"] + EnvLines(m.env, keys)) + (["secrets" + ":"] + SecretLines(m.secrets));
    var m3 := Manifest(m.name, "", m.image, m.port, m.replicas, m.env, m.secrets, EMPTY.resources, EMPTY.rollout,
                       NonNil(true, m.secrets != [], false));
    CollectionsAreRead(numbers, format, m, keys);
    LowerIsRead(numbers, format, m, keys, 1 + |upper|, m3);
    ParseLinesAppend(numbers, upper, ResourceLines(m) + RolloutLines(format, m), 1, START);
    assert upper + (ResourceLines(m) + RolloutLines(format, m)) == Written(format, m, keys);
  }

  lemma LowerIsRead(numbers: Numbers, format: Format, m: Manifest, keys: seq<string>, number: nat, before: Manifest)
    requires Writable(numbers, format, m, keys) && before.rollout == EMPTY.rollout && !before.nonNil.steps
    ensures ParseLines(numbers, ResourceLines(m) + RolloutLines(format, m), number, Running(before, SecretsSection))
            == Running(before.(resources := m.resources, rollout := m.rollout,
                               nonNil := before.nonNil.(steps := m.rollout.steps != [])), RolloutSection)
  {
    ResourcesAreRead(numbers, m, number, before, SecretsSection);
    RolloutIsRead(numbers, format, m, keys, number + |ResourceLines(m)|, before.(resources := m.resources), ResourcesSection);
    ParseLinesAppend(numbers, ResourceLines(m), RolloutLines(format, m), number, Running(before, SecretsSection));
  }

  lemma EnvSectionIsRead(numbers: Numbers, env: map<string, string>, keys: seq<string>, number: nat, m: Manifest, section: Section)
    requires forall i :: 0 <= i < |keys| ==> keys[i] in env && Bare(keys[i]) && Quotable(env[keys[i]])
    requires m.env == map[] && forall key :: key in env ==> key in keys
    ensures ParseLines(numbers, ["env" + ":"] + EnvLines(env, keys), number, Running(m, section))
            == Running(m.(env := env), EnvSection)
  {
    var header, lines := "env" + ":", EnvLines(env, keys);
    WordIsBare("env");
    HeaderLine(numbers, "env", number, m, section);
    OneLine(numbers, header, number, Running(m, section));
    ParseLinesAppend(numbers, [header], lines, number, Running(m, section));
    EnvIsRead(numbers, env, keys, |keys|, number + 1, m);
    assert lines[..|keys|] == lines && keys[..|keys|] == keys;
    assert EnvOf(env, keys, |keys|) == env;
  }

  lemma SecretSectionIsRead(numbers: Numbers, secrets: seq<string>, number: nat, m: Manifest, section: Section)
    requires forall i :: 0 <= i < |secrets| ==> Quotable(secrets[i])
    requires m.secrets == [] && !m.nonNil.secrets
    ensures ParseLines(numbers, ["secrets" + ":"] + SecretLines(secrets), number, Running(m, section))
            == Running(m.(secrets := secrets, nonNil := m.nonNil.(secrets := secrets != [])), SecretsSection)
  {
    var header, lines := "secrets" + ":", SecretLines(secrets);
    WordIsBare("secrets");
    HeaderLine(numbers, "secrets", number, m, section);
    OneLine(numbers, header, number, Running(m, section));
    ParseLinesAppend(numbers, [header], lines, number, Running(m, section));
    SecretsAreRead(numbers, secrets, |secrets|, number + 1, m);
    assert lines[..|secrets|] == lines && secrets[..|secrets|] == secrets;
  }

  // ---------- Text and lines ----------

  /** A line that a line end leaves whole. */
  predicate Whole(line: string) {
    '\n' !in line && (line == "" || line[|line| - 1] != '\r')
  }

  lemma {:induction false} NoLineEnd(s: string)
    requires '\n' !in s
    ensures UnixEnds(s) == s && Lines(s) == [s]
  {
    NoSeparator(s, '\n');
    if s != "" {
      NoLineEnd(s[1..]);
      assert [s[0]] + s[1..] == s;
    }
  }

  lemma {:induction false} JoinedLines(lines: seq<string>)
    requires lines != [] && forall i :: 0 <= i < |lines| ==> Whole(lines[i])
    ensures Lines(Join(lines, "\n")) == lines
  {
    NoLineEnd(lines[0]);
    if |lines| > 1 {
      JoinedLines(lines[1..]);
      LinesAppend(lines[0], "\n", Join(lines[1..], "\n"));
    }
  }

  lemma FieldIsWhole(pad: string, key: string, value: string)
    requires IsPadding(pad) && Plain(key) && Clean(value) && '\n' !in value
    ensures Whole(Field(pad, key, value))
  {
    assert forall i :: 0 <= i < |key| ==> PlainChar(key[i]);
    var line := Field(pad, key, value);
    assert line[|line| - 1] == value[|value| - 1];
  }

  lemma EveryLineIsWhole(numbers: Numbers, format: Format, m: Manifest, keys: seq<string>)
    requires Writable(numbers, format, m, keys)
    ensures forall line :: line in Written(format, m, keys) ==> Whole(line)
  {
    TopIsWhole(numbers, format, m, keys);
    forall line | line in EnvLines(m.env, keys) ensures Whole(line) {
      var i :| 0 <= i < |keys| && line == Field("  ", keys[i], Quote(m.env[keys[i]]));
      QuotedIsClean(m.env[keys[i]]);
      FieldIsWhole("  ", keys[i], Quote(m.env[keys[i]]));
    }
    forall line | line in SecretLines(m.secrets) ensures Whole(line) {
      var i :| 0 <= i < |m.secrets| && line == "  " + ("- " + Quote(m.secrets[i]));
      QuotedIsClean(m.secrets[i]);
      assert line[|line| - 1] == '"';
    }
    ResourcesAreWhole(m);
    RolloutIsWhole(numbers, format, m, keys);
    WordIsBare("env");
    WordIsBare("secrets");
    HeaderIsWhole("env");
    HeaderIsWhole("secrets");
  }

  lemma TopIsWhole(numbers: Numbers, format: Format, m: Manifest, keys: seq<string>)
    requires Writable(numbers, format, m, keys)
    ensures forall line :: line in TopLines(format, m) ==> Whole(line)
  {
    QuotedIsClean(m.name);
    QuotedIsClean(m.image);
    PlainIsClean(format.integer(m.port));
    PlainIsClean(format.integer(m.replicas));
    WordIsBare("name");
    WordIsBare("image");
    WordIsBare("port");
    WordIsBare("replicas");
    FieldIsWhole("", "name", Quote(m.name));
    FieldIsWhole("", "image", Quote(m.image));
    FieldIsWhole("", "port", format.integer(m.port));
    FieldIsWhole("", "replicas", format.integer(m.replicas));
  }

  lemma ResourcesAreWhole(m: Manifest)
    requires Quotable(m.resources.cpu) && Quotable(m.resources.memory)
    ensures forall line :: line in ResourceLines(m) ==> Whole(line)
  {
    QuotedIsClean(m.resources.cpu);
    QuotedIsClean(m.resources.memory);
    WordIsBare("cpu");
    WordIsBare("memory");
    FieldIsWhole("  ", "cpu", Quote(m.resources.cpu));
    FieldIsWhole("  ", "memory", Quote(m.resources.memory));
    WordIsBare("resources");
    HeaderIsWhole("resources");
  }

  lemma FlagIsWhole(enabled: bool)
    ensures Whole(Field("  ", "enabled", if enabled then "true" else "false"))
  {
    WordIsBare("true");
    WordIsBare("false");
    WordIsBare("enabled");
    PlainIsClean(if enabled then "true" else "false");
    FieldIsWhole("  ", "enabled", if enabled then "true" else "false");
  }

  lemma RolloutIsWhole(numbers: Numbers, format: Format, m: Manifest, keys: seq<string>)
    requires Writable(numbers, format, m, keys)
    ensures forall line :: line in RolloutLines(format, m) ==> Whole(line)
  {
    FlagIsWhole(m.rollout.enabled);
    StepsAreWhole(numbers, format, m.rollout.steps);
    PlainIsClean(format.rate(m.rollout.maxErrorRate));
    WordIsBare("max_error_rate");
    FieldIsWhole("  ", "max_error_rate", format.rate(m.rollout.maxErrorRate));
    WordIsBare("rollout");
    HeaderIsWhole("rollout");
  }

  lemma HeaderIsWhole(key: string)
    requires Plain(key)
    ensures Whole(key + ":")
  {
    assert forall i :: 0 <= i < |key| ==> PlainChar(key[i]);
  }

  lemma StepsAreWhole(numbers: Numbers, format: Format, steps: seq<int>)
    requires forall i :: 0 <= i < |steps| ==> WritesInteger(numbers, format, steps[i])
    ensures Whole(Field("  ", "steps", "[" + Join(StepItems(format, steps), ",") + "]"))
  {
    StepsAreRead(numbers, format, steps, EMPTY, 0);
    WordIsBare("steps");
    FieldIsWhole("  ", "steps", "[" + Join(StepItems(format, steps), ",") + "]");
  }

  /** The round trip. Every manifest that can be written is read back as it was, field by field, its
      environment written in any order. */
  lemma WrittenIsRead(numbers: Numbers, format: Format, m: Manifest, keys: seq<string>)
    requires Writable(numbers, format, m, keys)
    ensures ParseYaml(numbers, Join(Written(format, m, keys), "\n")) == Running(AsParsed(m), RolloutSection)
  {
    var lines := Written(format, m, keys);
    EveryLineIsWhole(numbers, format, m, keys);
    assert forall i :: 0 <= i < |lines| ==> lines[i] in lines;
    JoinedLines(lines);
    SectionsAreRead(numbers, format, m, keys);
  }

  /** The same of the whole document, which is trimmed first. */
  lemma WrittenDocumentIsRead(numbers: Numbers, json: string -> Option<Manifest>, format: Format, m: Manifest, keys: seq<string>)
    requires Writable(numbers, format, m, keys)
    ensures ParseDocument(numbers, json, Join(Written(format, m, keys), "\n")) == Running(AsParsed(m), RolloutSection)
  {
    var lines := Written(format, m, keys);
    var text := Join(lines, "\n");
    assert lines[0] == Field("", "name", Quote(m.name)) && lines[0][0] == 'n';
    assert |lines| > 1 ==> text == lines[0] + "\n" + Join(lines[1..], "\n");
    assert text[0] == 'n' && TrimLeft(text) == text;
    TrimLeftBlank(text);
    DocumentIsYaml(numbers, json, text);
    WrittenIsRead(numbers, format, m, keys);
  }
}

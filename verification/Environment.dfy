/** Environment variables on their way from the command line into a Compose file and back out of it (`parseEnv` of
    src/cli.ts, `generateEnvironmentConfig` of src/cluster/webServiceConfigFiles.ts). The reader follows the rules of
    YAML 1.2.2 for characters (section 5.1), keys (sections 7.4 and 10.3.2), single-quoted scalars (section 7.3.2) and flow
    line folding (section 6.5). */
module Environment {
  import opened Wrappers
  import opened Models
  import opened KeyOrders
  import opened Texts
  import opened PlainScalars

  type Env = map<string, string>

  // Parsing arguments

  datatype ArgumentError = NotKeyValue

  /** The position of the first `c`, or -1. */
  function IndexOf(s: string, c: char): (index: int)
    ensures -1 <= index < |s|
    ensures index >= 0 ==> s[index] == c && c !in s[..index]
    ensures index < 0 <==> c !in s
  {
    if s == "" then -1
    else if s[0] == c then 0
    else
      var index := IndexOf(s[1..], c);
      assert s == [s[0]] + s[1..];
      if index < 0 then -1 else assert s[..index + 1] == [s[0]] + s[1..][..index]; index + 1
  }

  function ParseEnv(argument: string, previous: Env): Result<Env, ArgumentError> {
    var index := IndexOf(argument, '=');
    if index <= 0 then Err(NotKeyValue) else Ok(previous[argument[..index] := argument[index + 1..]])
  }

  /** The option parser hands every `--env` argument and the record so far to `parseEnv`. */
  function ParseAll(arguments: seq<string>, previous: Env): Result<Env, ArgumentError>
    decreases |arguments|
  {
    if arguments == [] then Ok(previous)
    else match ParseEnv(arguments[0], previous)
      case Err(error) => Err(error)
      case Ok(env) => ParseAll(arguments[1..], env)
  }

  // Printing

  const HEADER := "    environment:\n"
  const INDENT := "      "
  const OPEN_QUOTE := ": '"

  /** Every single quote doubled. */
  function Quoted(value: string): string {
    if value == "" then ""
    else (if value[0] == '\'' then "''" else [value[0]]) + Quoted(value[1..])
  }

  function Line(key: string, value: string): string {
    INDENT + key + OPEN_QUOTE + Quoted(value) + "'"
  }

  function Join(lines: seq<string>): string {
    if lines == [] then ""
    else if |lines| == 1 then lines[0]
    else lines[0] + "\n" + Join(lines[1..])
  }

  function Lines(env: Env, keys: seq<string>): (lines: seq<string>)
    requires forall key :: key in keys ==> key in env
    ensures |lines| == |keys|
  {
    seq(|keys|, i requires 0 <= i < |keys| => Line(keys[i], env[keys[i]]))
  }

  function Print(env: Env): string {
    SortedKeysInOrder(env.Keys);
    var keys := SortedKeys(env.Keys);
    if keys == [] then "" else HEADER + Join(Lines(env, keys)) + "\n"
  }

  lemma SortedOne(key: string)
    ensures SortedKeys({key}) == [key]
  {
    hide AtMost;
    var keys := {key};
    assert Least(keys) == key;
    assert keys - {key} == {};
  }

  lemma Regroup(a: string, b: string, c: string, d: string, e: string, f: string, g: string)
    ensures a + (b + c + d + e + f) + g == a + b + c + d + e + (f + g)
  {}

  /** The block of a single variable as it is written. */
  lemma PrintOfOne(key: string, value: string)
    ensures Print(map[key := value]) == "    environment:\n" + "      " + key + ": '" + Quoted(value) + "'\n"
  {
    hide Quoted, SortedKeys, ListsInOrder;
    var env: Env := map[key := value];
    assert env.Keys == {key};
    SortedOne(key);
    var line := Line(key, value);
    assert Lines(env, [key]) == [line];
    assert Print(env) == HEADER + line + "\n";
    assert "'" + "\n" == "'\n";
    Regroup(HEADER, INDENT, key, OPEN_QUOTE, Quoted(value), "'", "\n");
  }

  // Reading

  predicate HasBreak(s: string) {
    exists i :: 0 <= i < |s| && IsBreak(s[i])
  }

  function KeyLength(text: string): (length: nat)
    ensures length <= |text|
  {
    if text != "" && IsEnvKeyChar(text[0]) then 1 + KeyLength(text[1..]) else 0
  }

  /** The content up to the closing quote, pairs of quotes read as one, and what follows. */
  function ScanQuoted(text: string): (scanned: Option<(string, string)>)
    ensures scanned.Some? ==> |scanned.value.1| < |text|
  {
    if text == "" then None
    else if text[0] != '\'' then
      match ScanQuoted(text[1..])
      case None => None
      case Some((content, rest)) => Some(([text[0]] + content, rest))
    else if |text| > 1 && text[1] == '\'' then
      match ScanQuoted(text[2..])
      case None => None
      case Some((content, rest)) => Some((['\''] + content, rest))
    else Some(("", text[1..]))
  }

  function FirstBreak(s: string): (at: nat)
    requires HasBreak(s)
    ensures at < |s| && IsBreak(s[at]) && !HasBreak(s[..at])
  {
    if IsBreak(s[0]) then 0
    else
      assert HasBreak(s[1..]) by {
        var i :| 0 <= i < |s| && IsBreak(s[i]);
        assert s[1..][i - 1] == s[i];
      }
      var at := FirstBreak(s[1..]);
      assert forall i :: 0 < i <= at ==> s[i] == s[1..][..at][i - 1];
      at + 1
  }

  /** Skips blanks and counts line breaks up to the next other character. */
  function SkipBreaks(s: string): (skipped: (nat, string))
    ensures |skipped.1| + skipped.0 <= |s|
  {
    if s == "" then (0, s)
    else if IsBlank(s[0]) then SkipBreaks(s[1..])
    else if |s| >= 2 && s[0] == '\r' && s[1] == '\n' then
      var (count, rest) := SkipBreaks(s[2..]);
      (count + 1, rest)
    else if IsBreak(s[0]) then
      var (count, rest) := SkipBreaks(s[1..]);
      (count + 1, rest)
    else (0, s)
  }

  function WithoutTrailingBlanks(s: string): string {
    if s != "" && IsBlank(s[|s| - 1]) then WithoutTrailingBlanks(s[..|s| - 1]) else s
  }

  function LineFeeds(count: nat): string {
    if count == 0 then "" else "\n" + LineFeeds(count - 1)
  }

  /** What `count` line breaks in a row read as: a single one as a space, of several the first one is dropped. */
  function Gap(count: nat): string {
    if count <= 1 then " " else LineFeeds(count - 1)
  }

  function Folded(s: string): string
    decreases |s|
  {
    if !HasBreak(s) then s
    else
      var at := FirstBreak(s);
      var (count, rest) := SkipBreaks(s[at..]);
      assert count >= 1;
      WithoutTrailingBlanks(s[..at]) + Gap(count) + Folded(rest)
  }

  /** A single-quoted scalar holds tabs, line breaks and characters from the space on, but no other control character. */
  predicate Readable(content: string) {
    forall c :: c in content ==> c == '\t' || IsBreak(c) || c >= ' '
  }

  function Blanks(line: string): (count: nat)
    ensures count <= |line|
  {
    if line != "" && IsBlank(line[0]) then 1 + Blanks(line[1..]) else 0
  }

  function Spaces(line: string): nat {
    if line != "" && line[0] == ' ' then 1 + Spaces(line[1..]) else 0
  }

  /** The text behind the first line break. */
  function AfterBreak(s: string): (behind: string)
    requires HasBreak(s)
    ensures |behind| < |s|
  {
    var at := FirstBreak(s);
    if s[at] == '\r' && at + 1 < |s| && s[at + 1] == '\n' then s[at + 2..] else s[at + 1..]
  }

  /** A continuation line is indented deeper than the entries of the block; only in a line without text the indentation may
      be shorter, but then it holds spaces only. */
  predicate LineIndented(line: string) {
    var blanks := Blanks(line);
    if blanks < |line| && IsBreak(line[blanks]) then Spaces(line) == blanks || Spaces(line) > |INDENT|
    else Spaces(line) > |INDENT|
  }

  predicate LinesIndented(s: string)
    decreases |s|
  {
    HasBreak(s) ==> LineIndented(AfterBreak(s)) && LinesIndented(AfterBreak(s))
  }

  /** What the content of a single-quoted scalar stands for; `None` when it is ill-formed. */
  function Scalar(content: string): Option<string> {
    if Readable(content) && LinesIndented(content) then Some(Folded(content)) else None
  }

  /** One line of the block: key, value and the text behind its line feed. */
  function ReadEntry(text: string): (entry: Option<(string, string, string)>)
    ensures entry.Some? ==> |entry.value.2| < |text|
  {
    if !StartsWith(text, INDENT) then None else
    var afterIndent := text[|INDENT|..];
    var length := KeyLength(afterIndent);
    var afterKey := afterIndent[length..];
    if length == 0 || !KeyReads(afterIndent[..length]) || !StartsWith(afterKey, OPEN_QUOTE) then None else
    match ScanQuoted(afterKey[|OPEN_QUOTE|..])
    case None => None
    case Some((content, rest)) =>
      if rest == "" || rest[0] != '\n' || Scalar(content).None? then None
      else Some((afterIndent[..length], Scalar(content).value, rest[1..]))
  }

  /** Keys of a mapping are unique. The block goes on up to an empty line or the end of the text. */
  function ReadEntries(text: string, env: Env): Option<(Env, string)>
    decreases |text|
  {
    if text == "" || text[0] == '\n' then Some((env, text))
    else match ReadEntry(text)
      case None => None
      case Some((key, value, rest)) => if key in env then None else ReadEntries(rest, env[key := value])
  }

  /** The environment at the head of a text, and what follows; a block without entries is no mapping. */
  function ReadBlock(text: string): Option<(Env, string)> {
    if !StartsWith(text, HEADER) then Some((map[], text))
    else match ReadEntries(text[|HEADER|..], map[])
      case None => None
      case Some((env, rest)) => if env == map[] then None else Some((env, rest))
  }

  function Read(text: string): Option<Env> {
    match ReadBlock(text)
    case None => None
    case Some((env, rest)) => if rest == "" then Some(env) else None
  }

  // What a scalar gives back

  /** Tabs and characters from the space on. */
  predicate Survives(value: string) {
    forall c :: c in value ==> c == '\t' || c >= ' '
  }

  /** Characters of which folding adds none: it only inserts spaces and drops or replaces breaks. */
  predicate Countable(counted: char -> bool) {
    !counted(' ') && !counted('\t') && (counted('\n') ==> counted('\r'))
  }

  lemma {:induction false} SkippedCount(s: string, counted: char -> bool)
    requires Countable(counted)
    ensures (if counted('\n') then SkipBreaks(s).0 else 0) + Count(SkipBreaks(s).1, counted) <= Count(s, counted)
  {
    if s == "" {
    } else if IsBlank(s[0]) {
      SkippedCount(s[1..], counted);
    } else if |s| >= 2 && s[0] == '\r' && s[1] == '\n' {
      SkippedCount(s[2..], counted);
      assert s[1..][1..] == s[2..];
    } else if IsBreak(s[0]) {
      SkippedCount(s[1..], counted);
    }
  }

  lemma {:induction false} TrimmedCount(s: string, counted: char -> bool)
    requires Countable(counted)
    ensures Count(WithoutTrailingBlanks(s), counted) == Count(s, counted)
  {
    if s != "" && IsBlank(s[|s| - 1]) {
      TrimmedCount(s[..|s| - 1], counted);
      CountConcat(s[..|s| - 1], [s[|s| - 1]], counted);
      assert s == s[..|s| - 1] + [s[|s| - 1]];
    }
  }

  lemma {:induction false} FeedCount(count: nat, counted: char -> bool)
    ensures Count(LineFeeds(count), counted) == if counted('\n') then count else 0
  {
    if count > 0 {
      FeedCount(count - 1, counted);
      CountConcat("\n", LineFeeds(count - 1), counted);
    }
  }

  lemma GapCount(count: nat, counted: char -> bool)
    requires Countable(counted) && count >= 1
    ensures Count(Gap(count), counted) == if counted('\n') then count - 1 else 0
  {
    FeedCount(count - 1, counted);
  }

  lemma FoldingStep(s: string, counted: char -> bool, at: nat, count: nat, rest: string)
    requires HasBreak(s) && Countable(counted) && at == FirstBreak(s) && (count, rest) == SkipBreaks(s[at..])
    ensures count >= 1 && |rest| < |s|
    ensures Count(Folded(s), counted) + (if counted('\n') then 1 else 0) <=
            Count(s, counted) - Count(rest, counted) + Count(Folded(rest), counted)
  {
    hide Count, Countable, SkipBreaks, Gap, WithoutTrailingBlanks, HasBreak;
    BreakSkipped(s[at..]);
    var head := WithoutTrailingBlanks(s[..at]);
    assert Folded(s) == head + Gap(count) + Folded(rest);
    SkippedCount(s[at..], counted);
    TrimmedCount(s[..at], counted);
    GapCount(count, counted);
    CountConcat(s[..at], s[at..], counted);
    assert s == s[..at] + s[at..];
    CountConcat(head + Gap(count), Folded(rest), counted);
    CountConcat(head, Gap(count), counted);
  }

  lemma BreakSkipped(s: string)
    requires s != "" && IsBreak(s[0])
    ensures SkipBreaks(s).0 >= 1
  {
  }

  /** Folding adds none of the counted characters, and loses a line break whenever there is one. */
  lemma {:induction false} FoldingCount(s: string, counted: char -> bool)
    requires Countable(counted)
    ensures Count(Folded(s), counted) <= Count(s, counted)
    ensures HasBreak(s) && counted('\n') ==> Count(Folded(s), counted) < Count(s, counted)
    decreases |s|
  {
    if HasBreak(s) {
      var at := FirstBreak(s);
      var (count, rest) := SkipBreaks(s[at..]);
      FoldingStep(s, counted, at, count, rest);
      FoldingCount(rest, counted);
    }
  }

  /** A scalar stands for its own content exactly when it has neither line breaks nor other control characters. */
  lemma ScalarUnchanged(value: string)
    ensures Scalar(value) == Some(value) <==> Survives(value)
  {
    hide Folded, Count, LineIndented;
    FoldingCount(value, IsBreak);
    NoBreaks(value);
    if !HasBreak(value) {
      FoldedPlain(value);
    }
  }

  lemma FoldedPlain(value: string)
    requires !HasBreak(value)
    ensures Folded(value) == value && LinesIndented(value)
  {
  }

  lemma NoBreaks(value: string)
    ensures HasBreak(value) <==> exists c :: c in value && IsBreak(c)
  {
  }

  // Reading back what was printed

  lemma ScanEnd(tail: string)
    requires tail == "" || tail[0] != '\''
    ensures ScanQuoted("'" + tail) == Some(("", tail))
  {
  }

  lemma ScanPlain(c: char, behind: string, content: string, rest: string)
    requires c != '\'' && ScanQuoted(behind) == Some((content, rest))
    ensures ScanQuoted([c] + behind) == Some(([c] + content, rest))
  {
    assert ([c] + behind)[1..] == behind;
  }

  lemma ScanPair(behind: string, content: string, rest: string)
    requires ScanQuoted(behind) == Some((content, rest))
    ensures ScanQuoted("''" + behind) == Some(("'" + content, rest))
  {
    assert ("''" + behind)[2..] == behind;
  }

  lemma {:induction false} ScanBack(value: string, tail: string)
    requires tail == "" || tail[0] != '\''
    ensures ScanQuoted(Quoted(value) + "'" + tail) == Some((value, tail))
  {
    hide ScanQuoted;
    if value == "" {
      assert Quoted(value) + "'" + tail == "'" + tail;
      ScanEnd(tail);
    } else {
      ScanBack(value[1..], tail);
      var behind := Quoted(value[1..]) + "'" + tail;
      assert value == [value[0]] + value[1..];
      if value[0] == '\'' {
        ScanPair(behind, value[1..], tail);
        assert Quoted(value) + "'" + tail == "''" + behind;
      } else {
        ScanPlain(value[0], behind, value[1..], tail);
        assert Quoted(value) + "'" + tail == [value[0]] + behind;
      }
    }
  }

  lemma {:induction false} KeyBack(key: string, tail: string)
    requires forall i :: 0 <= i < |key| ==> IsEnvKeyChar(key[i])
    requires tail == "" || !IsEnvKeyChar(tail[0])
    ensures KeyLength(key + tail) == |key|
  {
    if key == "" {
      assert key + tail == tail;
    } else {
      assert (key + tail)[1..] == key[1..] + tail;
      KeyBack(key[1..], tail);
    }
  }

  /** What is left of a line behind its key. */
  function AfterKey(value: string, tail: string): string {
    OPEN_QUOTE + (Quoted(value) + "'" + ("\n" + tail))
  }

  lemma LineParts(key: string, value: string, tail: string)
    ensures Line(key, value) + "\n" + tail == INDENT + (key + AfterKey(value, tail))
  {
    hide Quoted;
  }

  lemma EntryBack(key: string, value: string, tail: string)
    requires IsEnvKey(key)
    ensures ReadEntry(Line(key, value) + "\n" + tail) ==
            if KeyReads(key) && Scalar(value).Some? then Some((key, Scalar(value).value, tail)) else None
  {
    hide ScanQuoted, KeyLength, KeyReads, Scalar, Quoted, StartsWith, Line, AfterKey;
    LineParts(key, value, tail);
    SplitAt(INDENT, key + AfterKey(value, tail));
    SplitAt(key, AfterKey(value, tail));
    KeyOfLine(key, value, tail);
    AfterKeyBack(value, tail);
    SplitAt("\n", tail);
  }

  lemma KeyOfLine(key: string, value: string, tail: string)
    requires IsEnvKey(key)
    ensures KeyLength(key + AfterKey(value, tail)) == |key| > 0
  {
    hide Quoted, KeyLength;
    KeyBack(key, AfterKey(value, tail));
  }

  lemma AfterKeyBack(value: string, tail: string)
    ensures StartsWith(AfterKey(value, tail), OPEN_QUOTE)
    ensures ScanQuoted(AfterKey(value, tail)[|OPEN_QUOTE|..]) == Some((value, "\n" + tail))
  {
    hide Quoted, ScanQuoted;
    SplitAt(OPEN_QUOTE, Quoted(value) + "'" + ("\n" + tail));
    ScanBack(value, "\n" + tail);
  }

  /** The block of lines, each with its line feed. */
  function Block(env: Env, keys: seq<string>): string
    requires forall key :: key in keys ==> key in env
  {
    if keys == [] then "" else Line(keys[0], env[keys[0]]) + "\n" + Block(env, keys[1..])
  }

  lemma {:induction false} JoinIsBlock(env: Env, keys: seq<string>)
    requires keys != [] && forall key :: key in keys ==> key in env
    ensures Join(Lines(env, keys)) + "\n" == Block(env, keys)
  {
    hide Line;
    var lines := Lines(env, keys);
    if |keys| == 1 {
      assert Block(env, keys[1..]) == "";
    } else {
      JoinIsBlock(env, keys[1..]);
      assert Lines(env, keys[1..]) == lines[1..];
    }
  }

  /** These entries are read. */
  predicate EntriesRead(env: Env, keys: seq<string>)
    requires forall key :: key in keys ==> key in env
  {
    forall key :: key in keys ==> KeyReads(key) && Scalar(env[key]).Some?
  }

  function ScalarsOf(env: Env, keys: seq<string>): Env
    requires forall key :: key in keys ==> key in env
    requires EntriesRead(env, keys)
  {
    map key | key in keys :: Scalar(env[key]).value
  }

  /** The end of a block. */
  predicate EndsBlock(tail: string) { tail == "" || tail[0] == '\n' }

  lemma {:induction false} BlockBack(env: Env, keys: seq<string>, tail: string, before: Env)
    requires forall key :: key in keys ==> key in env && IsEnvKey(key) && key !in before
    requires forall i, j :: 0 <= i < j < |keys| ==> keys[i] != keys[j]
    requires EndsBlock(tail)
    ensures ReadEntries(Block(env, keys) + tail, before) ==
            if EntriesRead(env, keys) then Some((before + ScalarsOf(env, keys), tail)) else None
    decreases |keys|
  {
    hide Line, IsEnvKey, KeyReads, Scalar, ReadEntry, Block, ReadEntries, ScalarsOf, EndsBlock;
    if keys == [] {
      NothingBack(env, tail, before);
    } else {
      var key, rest := keys[0], keys[1..];
      FirstEntryBack(env, keys, tail, before);
      assert key in keys && forall other :: other in rest ==> other in keys;
      if KeyReads(key) && Scalar(env[key]).Some? {
        BlockBack(env, rest, tail, before[key := Scalar(env[key]).value]);
        assert keys == [key] + rest;
        if EntriesRead(env, rest) {
          ScalarStep(env, keys, before);
        }
      }
    }
  }

  lemma NothingBack(env: Env, tail: string, before: Env)
    requires EndsBlock(tail)
    ensures ReadEntries(Block(env, []) + tail, before) == Some((before + ScalarsOf(env, []), tail))
  {
    assert before + ScalarsOf(env, []) == before;
    assert Block(env, []) + tail == tail;
  }

  lemma ScalarStep(env: Env, keys: seq<string>, before: Env)
    requires keys != [] && (forall key :: key in keys ==> key in env) && EntriesRead(env, keys)
    ensures before[keys[0] := Scalar(env[keys[0]]).value] + ScalarsOf(env, keys[1..]) == before + ScalarsOf(env, keys)
  {
    hide Scalar, KeyReads;
    var first, rest := keys[0], keys[1..];
    assert keys == [first] + rest;
  }

  lemma FirstEntryBack(env: Env, keys: seq<string>, tail: string, before: Env)
    requires keys != [] && keys[0] !in before && IsEnvKey(keys[0]) && forall key :: key in keys ==> key in env
    ensures ReadEntries(Block(env, keys) + tail, before) ==
            if !KeyReads(keys[0]) || Scalar(env[keys[0]]).None? then None
            else ReadEntries(Block(env, keys[1..]) + tail, before[keys[0] := Scalar(env[keys[0]]).value])
  {
    hide Line, IsEnvKey, KeyReads, Scalar, ReadEntry;
    var text, rest := Block(env, keys) + tail, Block(env, keys[1..]) + tail;
    EntryBack(keys[0], env[keys[0]], rest);
    assert text == Line(keys[0], env[keys[0]]) + "\n" + rest;
    LineStart(keys[0], env[keys[0]], "\n" + rest);
    assert text == Line(keys[0], env[keys[0]]) + ("\n" + rest);
  }

  lemma LineStart(key: string, value: string, tail: string)
    ensures var text := Line(key, value) + tail; text != "" && text[0] == ' '
  {
    hide Quoted;
  }

  predicate KeysWellFormed(env: Env) {
    forall key :: key in env ==> IsEnvKey(key)
  }

  /** What the variables of a printed environment stand for; `None` when one of them makes the block unreadable. */
  function ReadValues(env: Env): Option<Env> {
    if forall key :: key in env ==> KeyReads(key) && Scalar(env[key]).Some?
    then Some(map key | key in env :: Scalar(env[key]).value)
    else None
  }

  lemma PrintOfNothing()
    ensures Print(map[]) == "" && ReadValues(map[]) == Some(map[])
  {
  }

  lemma PrintIsBlock(env: Env)
    requires env != map[]
    ensures var keys := SortedKeys(env.Keys);
            && keys != [] && (forall key :: key in keys <==> key in env) && Print(env) == HEADER + Block(env, keys)
  {
    hide AtMost, Join, Lines, Block;
    SortedKeysInOrder(env.Keys);
    JoinIsBlock(env, SortedKeys(env.Keys));
  }

  /** Reading the printed block gives every variable back with what its value stands for as a scalar, and leaves what
      follows; one ill-formed scalar, or one key that is too long or no string, makes the whole block unreadable. */
  lemma ReadOfPrint(env: Env, tail: string)
    requires KeysWellFormed(env) && EndsBlock(tail)
    ensures ReadBlock(Print(env) + tail) ==
            if ReadValues(env).Some? then Some((ReadValues(env).value, tail)) else None
  {
    hide IsEnvKey, KeyReads, Scalar, AtMost, ReadEntries, Join, Lines, Block, Print, ScalarsOf, EntriesRead, ReadValues,
         SortedKeys;
    if env == map[] {
      PrintOfNothing();
      assert Print(env) + tail == tail;
    } else {
      hide StartsWith, EndsBlock;
      var keys := SortedKeys(env.Keys);
      SortedKeysInOrder(env.Keys);
      PrintIsBlock(env);
      assert Print(env) + tail == HEADER + (Block(env, keys) + tail);
      SplitAt(HEADER, Block(env, keys) + tail);
      BlockBack(env, keys, tail, map[]);
      AllScalars(env, keys);
    }
  }

  lemma AllScalars(env: Env, keys: seq<string>)
    requires env != map[] && forall key :: key in keys <==> key in env
    ensures ReadValues(env) == if EntriesRead(env, keys) then Some(map[] + ScalarsOf(env, keys)) else None
    ensures EntriesRead(env, keys) ==> map[] + ScalarsOf(env, keys) != map[]
  {
    hide Scalar, KeyReads;
    if EntriesRead(env, keys) {
      assert map[] + ScalarsOf(env, keys) == map key | key in env :: Scalar(env[key]).value;
      var key :| key in env;
      assert key in ScalarsOf(env, keys);
    }
  }

  lemma ReadOfWhole(env: Env)
    requires KeysWellFormed(env)
    ensures Read(Print(env)) == ReadValues(env)
  {
    hide IsEnvKey, Print, ReadBlock, ReadValues;
    ReadOfPrint(env, "");
    assert Print(env) + "" == Print(env);
  }

  /** The round trip succeeds exactly when every key is a string of at most 1024 characters and every character of every
      value is a tab or comes from the space on; quotes, equals signs and blanks survive, line breaks and other control
      characters do not. */
  lemma RoundTrip(env: Env)
    requires KeysWellFormed(env)
    ensures Read(Print(env)) == Some(env) <==> forall key :: key in env ==> KeyReads(key) && Survives(env[key])
  {
    hide IsEnvKey, KeyReads, Scalar, Survives, Read, Print;
    ReadOfWhole(env);
    forall key | key in env ensures Scalar(env[key]) == Some(env[key]) <==> Survives(env[key]) {
      ScalarUnchanged(env[key]);
    }
    ReadValuesSame(env, env);
  }

  /** All values are read as wanted exactly when each of them is. */
  lemma ReadValuesSame(env: Env, wanted: Env)
    requires env.Keys == wanted.Keys
    ensures ReadValues(env) == Some(wanted) <==>
            forall key :: key in env ==> KeyReads(key) && Scalar(env[key]) == Some(wanted[key])
  {
    hide Scalar, KeyReads;
    if forall key :: key in env ==> KeyReads(key) && Scalar(env[key]) == Some(wanted[key]) {
      assert (map key | key in env :: Scalar(env[key]).value) == wanted;
    } else if ReadValues(env).Some? {
      var key :| key in env && Scalar(env[key]) != Some(wanted[key]);
      assert ReadValues(env).value[key] != wanted[key];
    }
  }

  /** A key of the allowed form is read unless it has more than 1024 characters or is another word for null or a boolean. */
  lemma KeyReadsUnlessWord(key: string)
    requires IsEnvKey(key)
    ensures KeyReads(key) <==> |key| <= LONGEST_KEY && key !in WORDS
  {
    assert IsEnvKeyChar(key[0]);
  }

  /** One ill-formed value, or one such key, makes the block unreadable. */
  lemma OneEntryRefused(key: string, value: string)
    requires IsEnvKey(key)
    ensures KeysWellFormed(map[key := value])
    ensures Scalar(value) == None || |key| > LONGEST_KEY || key in WORDS ==> Read(Print(map[key := value])) == None
  {
    hide Read, Print, Scalar, IsEnvKey, KeyReads;
    var env: Env := map[key := value];
    assert env[key] == value && forall other :: other in env ==> other == key;
    ReadOfWhole(env);
    KeyReadsUnlessWord(key);
  }

  /** A variable with a name that YAML takes for null. */
  lemma NullKeyIsRefused()
    ensures IsEnvKey("null") && Read(Print(map["null" := "x"])) == None
  {
    assert "null" == WORDS[0];
    hide Read, Print;
    OneEntryRefused("null", "x");
  }

  /** A second line at the margin makes the block ill-formed. */
  lemma LineBreakIsLost()
    ensures Read(Print(map["TEXT" := "a\nb"])) == None
  {
    MarginIsRefused("a\nb");
    hide Scalar, Read, Print;
    OneEntryRefused("TEXT", "a\nb");
  }

  lemma MarginIsRefused(value: string)
    requires value == "a\nb"
    ensures Scalar(value) == None
  {
    hide Folded;
    assert IsBreak(value[1]);
    assert AfterBreak(value) == "b";
    assert !LineIndented("b");
  }

  function Padding(n: nat): (spaces: string)
    ensures |spaces| == n
  {
    if n == 0 then "" else " " + Padding(n - 1)
  }

  lemma {:induction false} PaddedLine(n: nat, text: string)
    requires text != "" && !IsBlank(text[0]) && !IsBreak(text[0])
    ensures var line := Padding(n) + text;
            Spaces(line) == n && Blanks(line) == n && line[n] == text[0] && SkipBreaks(line) == (0, text)
  {
    var line := Padding(n) + text;
    if n == 0 {
      assert line == text;
    } else {
      assert line[0] == ' ' && line[1..] == Padding(n - 1) + text;
      PaddedLine(n - 1, text);
    }
  }

  predicate OneLine(text: string) {
    text != "" && !HasBreak(text) && !IsBlank(text[0]) && !IsBlank(text[|text| - 1])
  }

  /** A second line that is indented deeper than the entries is folded into the first one. */
  lemma IndentedLineIsFolded(first: string, second: string, n: nat)
    requires OneLine(first) && OneLine(second) && n > |INDENT|
    ensures var value := first + "\n" + (Padding(n) + second);
            LinesIndented(value) && Folded(value) == first + " " + second
  {
    hide HasBreak, FirstBreak, SkipBreaks, Padding, Spaces, Blanks, IsBreak, IsBlank, WithoutTrailingBlanks;
    var line := Padding(n) + second;
    var value := first + "\n" + line;
    PlainEnds(first, second);
    PaddedLine(n, second);
    PaddingPlain(n, second);
    BreakBehind(first, line);
    BreakSkippedBehind(line);
    assert value[|first|..] == "\n" + line;
    assert value[|first| + 1..] == line && value[|first|] == '\n' && value[..|first|] == first;
    FoldedPlain(second);
  }

  lemma PlainEnds(first: string, second: string)
    requires OneLine(first) && OneLine(second)
    ensures WithoutTrailingBlanks(first) == first && !IsBreak(second[0]) && !IsBreak(' ')
  {
  }

  lemma {:induction false} PaddingPlain(n: nat, text: string)
    requires !HasBreak(text)
    ensures !HasBreak(Padding(n) + text)
  {
    if n == 0 {
      assert Padding(n) + text == text;
    } else {
      PaddingPlain(n - 1, text);
      assert Padding(n) + text == [' '] + (Padding(n - 1) + text);
    }
  }

  lemma {:induction false} BreakBehind(first: string, line: string)
    requires !HasBreak(first)
    ensures var value := first + "\n" + line; HasBreak(value) && FirstBreak(value) == |first|
  {
    var value := first + "\n" + line;
    assert IsBreak(value[|first|]);
    if first == "" {
      assert value[0] == '\n';
    } else {
      assert value[0] == first[0] && value[1..] == first[1..] + "\n" + line;
      assert !HasBreak(first[1..]) by {
        assert forall i :: 0 <= i < |first[1..]| ==> first[1..][i] == first[i + 1];
      }
      BreakBehind(first[1..], line);
    }
  }

  lemma BreakSkippedBehind(line: string)
    ensures SkipBreaks("\n" + line) == (SkipBreaks(line).0 + 1, SkipBreaks(line).1)
  {
    assert ("\n" + line)[1..] == line;
  }

  /** A control character makes the block ill-formed. */
  lemma ControlCharacterIsRefused()
    ensures Read(Print(map["X" := "\U{0001}"])) == None
  {
    var value := "\U{0001}";
    assert value[0] in value && !Readable(value);
    hide Read, Print, Scalar;
    OneEntryRefused("X", value);
  }

  // From the command line

  /** The last of the given variables with this key counts. */
  function LastWins(variables: seq<(string, string)>, previous: Env): Env
    decreases |variables|
  {
    if variables == [] then previous else LastWins(variables[1..], previous[variables[0].0 := variables[0].1])
  }

  function Arguments(variables: seq<(string, string)>): (arguments: seq<string>)
    ensures |arguments| == |variables|
  {
    seq(|variables|, i requires 0 <= i < |variables| => variables[i].0 + "=" + variables[i].1)
  }

  /** An argument is refused exactly when it has no equals sign behind its first character. */
  lemma ParseRefuses(argument: string, previous: Env)
    ensures ParseEnv(argument, previous).Err? <==> '=' !in argument || argument[0] == '='
  {
    var index := IndexOf(argument, '=');
    if index > 0 {
      assert argument[0] in argument[..index];
    }
  }

  lemma ParseBack(key: string, value: string, previous: Env)
    requires key != "" && '=' !in key
    ensures ParseEnv(key + "=" + value, previous) == Ok(previous[key := value])
  {
    var argument := key + "=" + value;
    FirstPosition(key, '=', value);
    assert argument[..|key|] == key && argument[|key| + 1..] == value;
  }

  lemma {:induction false} FirstPosition(head: string, c: char, tail: string)
    requires c !in head
    ensures IndexOf(head + [c] + tail, c) == |head|
  {
    var text := head + [c] + tail;
    if head == "" {
      assert text[0] == c;
    } else {
      assert text[0] == head[0] && text[1..] == head[1..] + [c] + tail;
      FirstPosition(head[1..], c, tail);
    }
  }

  lemma {:induction false} ParseAllBack(variables: seq<(string, string)>, previous: Env)
    requires forall i :: 0 <= i < |variables| ==> variables[i].0 != "" && '=' !in variables[i].0
    ensures ParseAll(Arguments(variables), previous) == Ok(LastWins(variables, previous))
    decreases |variables|
  {
    hide ParseEnv;
    if variables != [] {
      var (key, value) := variables[0];
      ParseBack(key, value, previous);
      assert Arguments(variables)[1..] == Arguments(variables[1..]);
      ParseAllBack(variables[1..], previous[key := value]);
    }
  }

  lemma {:induction false} LastWinsMeans(variables: seq<(string, string)>, previous: Env, at: nat)
    requires at < |variables| && forall i :: at < i < |variables| ==> variables[i].0 != variables[at].0
    ensures variables[at].0 in LastWins(variables, previous)
    ensures LastWins(variables, previous)[variables[at].0] == variables[at].1
    decreases |variables|
  {
    var after := previous[variables[0].0 := variables[0].1];
    if at > 0 {
      LastWinsMeans(variables[1..], after, at - 1);
    } else {
      OthersKept(variables[1..], after, variables[0].0);
    }
  }

  lemma {:induction false} OthersKept(variables: seq<(string, string)>, previous: Env, key: string)
    requires key in previous && forall i :: 0 <= i < |variables| ==> variables[i].0 != key
    ensures key in LastWins(variables, previous) && LastWins(variables, previous)[key] == previous[key]
    decreases |variables|
  {
    if variables != [] {
      OthersKept(variables[1..], previous[variables[0].0 := variables[0].1], key);
    }
  }

  lemma {:induction false} LastWinsKeys(variables: seq<(string, string)>, previous: Env)
    requires KeysWellFormed(previous) && forall i :: 0 <= i < |variables| ==> IsEnvKey(variables[i].0)
    ensures KeysWellFormed(LastWins(variables, previous))
    decreases |variables|
  {
    hide IsEnvKey;
    if variables != [] {
      LastWinsKeys(variables[1..], previous[variables[0].0 := variables[0].1]);
    }
  }

  /** From KEY=VALUE arguments to the Compose file and back: what is read is what was given, the last value of a key
      winning, exactly when the keys are read and the values that won survive. */
  lemma CommandLineRoundTrip(variables: seq<(string, string)>)
    requires forall i :: 0 <= i < |variables| ==> IsEnvKey(variables[i].0)
    ensures var env := LastWins(variables, map[]);
            && ParseAll(Arguments(variables), map[]) == Ok(env)
            && (Read(Print(env)) == Some(env) <==> forall key :: key in env ==> KeyReads(key) && Survives(env[key]))
  {
    hide IsEnvKey, KeyReads, Survives, Read, Print, ParseAll, LastWins;
    assert forall i :: 0 <= i < |variables| ==> variables[i].0 != "" && '=' !in variables[i].0 by {
      forall i | 0 <= i < |variables| ensures variables[i].0 != "" && '=' !in variables[i].0 {
        EnvKeyParses(variables[i].0);
      }
    }
    ParseAllBack(variables, map[]);
    LastWinsKeys(variables, map[]);
    RoundTrip(LastWins(variables, map[]));
  }

  lemma EnvKeyParses(key: string)
    requires IsEnvKey(key)
    ensures key != "" && '=' !in key
  {
  }
}

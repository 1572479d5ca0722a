/** The Compose file of a web service and the environment inside it (`generateWebServiceFiles` of
    src/cluster/webServiceConfigFiles.ts, service_templates/web/docker-compose.yml.template). */
module WebServiceFiles {
  import opened Wrappers
  import opened Models
  import opened Registries
  import opened Texts
  import opened Decimals
  import opened KeyOrders
  import opened Templates
  import opened PlainScalars
  import opened Environment

  const IMAGE_FRONT := "services:\n  web:\n    image: "
  const ENVIRONMENT_FRONT := "\n    restart: unless-stopped\n"
  const PORTS_FRONT := "\n    ports:\n      - \""

  /** The template file. */
  function Segments(): seq<Segment> {
    [Segment(IMAGE_FRONT, "IMAGE", 0), Segment(ENVIRONMENT_FRONT, "ENVIRONMENT", 1),
     Segment(PORTS_FRONT, "WIREGUARD_IP", 2), Segment(":", "EXPOSED_PORT", 3), Segment(":", "INTERNAL_PORT", 4)]
  }

  const FOOT := "\"\n"

  /** The address of the local node and the ports of the service. */
  datatype Endpoint = Endpoint(nodeId: nat, exposedPort: nat, internalPort: nat)

  /** What is replaced after the environment. */
  function LaterData(endpoint: Endpoint): Data {
    [("WIREGUARD_IP", WireguardIp(endpoint.nodeId)), ("EXPOSED_PORT", Decimal(endpoint.exposedPort)),
     ("INTERNAL_PORT", Decimal(endpoint.internalPort))]
  }

  /** What is replaced after the image. */
  function DataBehindImage(env: Env, endpoint: Endpoint): Data {
    [("ENVIRONMENT", Print(env))] + LaterData(endpoint)
  }

  function ComposeData(image: string, env: Env, endpoint: Endpoint): Data {
    [("IMAGE", image)] + DataBehindImage(env, endpoint)
  }

  function ComposeFile(image: string, env: Env, endpoint: Endpoint): string {
    Fill(Assemble(Segments(), FOOT), ComposeData(image, env, endpoint))
  }

  /** The port mapping of the file. */
  function Mapping(endpoint: Endpoint): string {
    WireguardIp(endpoint.nodeId) + ":" + Decimal(endpoint.exposedPort) + ":" + Decimal(endpoint.internalPort)
  }

  /** The part of the file that the image becomes. */
  function ImagePart(image: string, env: Env, endpoint: Endpoint): string {
    Fill(image, DataBehindImage(env, endpoint))
  }

  /** The part of the file that the environment becomes. */
  function EnvironmentPart(env: Env, endpoint: Endpoint): string {
    Fill(Print(env), LaterData(endpoint))
  }

  // Reading the file

  /** The text up to the first line break. */
  function LineOf(text: string): (line: string)
    ensures line <= text
  {
    if text == "" || IsBreak(text[0]) then "" else [text[0]] + LineOf(text[1..])
  }

  /** Without escapes and within ASCII, what stands between double quotes stands for itself. */
  predicate Unescaped(s: string) {
    forall c :: c in s ==> ' ' <= c <= '~' && c != '"' && c != '\\'
  }

  function ReadMapping(text: string): Option<string> {
    if !StartsWith(text, PORTS_FRONT) then None else
    var rest := text[|PORTS_FRONT|..];
    if |rest| < |FOOT| || rest[|rest| - |FOOT|..] != FOOT || !Unescaped(rest[..|rest| - |FOOT|]) then None
    else Some(rest[..|rest| - |FOOT|])
  }

  datatype Content = Content(image: string, env: Env, mapping: string)

  /** What the file says, as long as the image stands for itself: any other node, quoted, tagged, commented or continued on
      the next line, stands for another text than the one that is written. */
  function ReadFile(text: string): (content: Option<Content>)
    ensures content.Some? ==> PlainString(content.value.image)
  {
    if !StartsWith(text, IMAGE_FRONT) then None else
    var image := LineOf(text[|IMAGE_FRONT|..]);
    var behind := text[|IMAGE_FRONT|..][|image|..];
    if !PlainString(image) || !StartsWith(behind, ENVIRONMENT_FRONT) then None else
    match ReadBlock(behind[|ENVIRONMENT_FRONT|..])
    case None => None
    case Some((env, rest)) =>
      var mapping := ReadMapping(rest);
      if mapping.None? then None else Some(Content(image, env, mapping.value))
  }

  // Values and tags

  /** The replaced values hold digits and dots, the tags neither quotes nor line feeds. */
  predicate HarmlessData(data: Data) {
    && PlainValues(data)
    && (forall i :: 0 <= i < |data| ==> '\'' !in data[i].1 && '\'' !in data[i].0 && '\n' !in data[i].0)
  }

  lemma LaterDataHarmless(endpoint: Endpoint)
    ensures HarmlessData(LaterData(endpoint))
  {
    hide Decimal;
    var ip, exposed, internal :=
      WireguardIp(endpoint.nodeId), Decimal(endpoint.exposedPort), Decimal(endpoint.internalPort);
  }

  // Filling a printed environment fills its values

  function FilledValues(env: Env, data: Data): Env {
    map key | key in env :: Fill(env[key], data)
  }

  lemma {:induction false} QuotedPlain(plain: string, value: string)
    requires '\'' !in plain
    ensures Quoted(plain + value) == plain + Quoted(value)
  {
    if plain == "" {
      assert plain + value == value;
    } else {
      assert (plain + value)[1..] == plain[1..] + value && plain[0] in plain;
      QuotedPlain(plain[1..], value);
    }
  }

  lemma {:induction false} QuotedStart(value: string, tag: string)
    requires '\'' !in tag
    ensures StartsWith(Quoted(value), tag) <==> StartsWith(value, tag)
    decreases |tag|
  {
    if tag != "" && value != "" {
      assert tag[0] in tag;
      if value[0] != '\'' {
        assert Quoted(value)[1..] == Quoted(value[1..]);
        QuotedStart(value[1..], tag[1..]);
      }
    }
  }

  lemma {:induction false} ReplaceQuoted(value: string, name: string, replacement: string)
    requires '\'' !in name && '\'' !in replacement
    ensures Replace(Quoted(value), Tag(name), replacement) == Quoted(Replace(value, Tag(name), replacement))
    decreases |value|
  {
    var tag := Tag(name);
    if value == "" {
    } else if StartsWith(value, tag) {
      var rest := value[|tag|..];
      QuotedStart(value, tag);
      assert value == tag + rest;
      QuotedPlain(tag, rest);
      SplitAt(tag, Quoted(rest));
      ReplaceQuoted(rest, name, replacement);
      QuotedPlain(replacement, Replace(rest, tag, replacement));
    } else {
      QuotedStart(value, tag);
      ReplaceQuoted(value[1..], name, replacement);
      ReplaceCharacter(value, name, replacement);
    }
  }

  lemma ReplaceCharacter(value: string, name: string, replacement: string)
    requires value != "" && !StartsWith(value, Tag(name)) && !StartsWith(Quoted(value), Tag(name))
    ensures var rest := Replace(Quoted(value[1..]), Tag(name), replacement);
            Replace(Quoted(value), Tag(name), replacement) == (if value[0] == '\'' then "''" else [value[0]]) + rest
    ensures Quoted(Replace(value, Tag(name), replacement)) ==
            (if value[0] == '\'' then "''" else [value[0]]) + Quoted(Replace(value[1..], Tag(name), replacement))
  {
    var rest := Quoted(value[1..]);
    if value[0] == '\'' {
      ReplaceBehind("''", rest, name, replacement);
    } else {
      assert Quoted(value)[1..] == rest;
    }
    assert Replace(value, Tag(name), replacement)[1..] == Replace(value[1..], Tag(name), replacement);
  }

  lemma {:induction false} FillQuoted(value: string, data: Data)
    requires HarmlessData(data)
    ensures Fill(Quoted(value), data) == Quoted(Fill(value, data))
    decreases |data|
  {
    hide Replace, Quoted;
    if data != [] {
      ReplaceQuoted(value, data[0].0, data[0].1);
      FillQuoted(Replace(value, Tag(data[0].0), data[0].1), data[1..]);
    }
  }

  lemma FillLine(key: string, value: string, tail: string, data: Data)
    requires HarmlessData(data) && IsEnvKey(key)
    ensures Fill(Line(key, value) + "\n" + tail, data) == Line(key, Fill(value, data)) + "\n" + Fill(tail, data)
  {
    hide Fill, Quoted, IsEnvKey;
    var front, back := INDENT + key + OPEN_QUOTE, "'\n";
    assert Line(key, value) + "\n" + tail == front + (Quoted(value) + (back + tail));
    assert '{' !in front by {
      KeyHasNoBrace(key);
    }
    FillBehind(front, Quoted(value) + (back + tail), data);
    FillConcat(Quoted(value), back + tail, data);
    FillQuoted(value, data);
    FillBehind(back, tail, data);
    assert Line(key, Fill(value, data)) + "\n" + Fill(tail, data) ==
           front + (Quoted(Fill(value, data)) + (back + Fill(tail, data)));
  }

  lemma KeyHasNoBrace(key: string)
    requires IsEnvKey(key)
    ensures '{' !in key
  {
  }

  lemma {:induction false} FillBlock(env: Env, keys: seq<string>, data: Data)
    requires HarmlessData(data) && forall key :: key in keys ==> key in env && IsEnvKey(key)
    ensures Fill(Block(env, keys), data) == Block(FilledValues(env, data), keys)
    decreases |keys|
  {
    hide Fill, Line, IsEnvKey;
    if keys == [] {
      FillNothing(data);
    } else {
      FillLine(keys[0], env[keys[0]], Block(env, keys[1..]), data);
      FillBlock(env, keys[1..], data);
    }
  }

  /** What is replaced after the environment was printed is replaced inside its values. */
  lemma EnvironmentPartIsPrinted(env: Env, endpoint: Endpoint)
    requires KeysWellFormed(env)
    ensures EnvironmentPart(env, endpoint) == Print(FilledValues(env, LaterData(endpoint)))
  {
    hide Fill, Block, IsEnvKey, LaterData, Print, SortedKeys;
    var data := LaterData(endpoint);
    LaterDataHarmless(endpoint);
    if env == map[] {
      PrintOfNothing();
      FillNothing(data);
      assert FilledValues(env, data) == map[];
    } else {
      var filled, keys := FilledValues(env, data), SortedKeys(env.Keys);
      assert filled.Keys == env.Keys;
      PrintIsBlock(env);
      PrintIsBlock(filled);
      FillBehind(HEADER, Block(env, keys), data);
      FillBlock(env, keys, data);
    }
  }

  // Main results

  /** The variables that come back from the file. */
  ghost predicate EnvironmentKept(env: Env, endpoint: Endpoint) {
    forall key :: key in env ==>
      KeyReads(key) && Survives(env[key]) && !ContainsAny(env[key], LaterData(endpoint))
  }

  /** The images that come back from the file. */
  ghost predicate ImageKept(image: string, env: Env, endpoint: Endpoint) {
    PlainString(image) && !ContainsAny(image, DataBehindImage(env, endpoint))
  }

  /** Filling changes a value, and reading does not undo it: the value comes back exactly when its characters survive and it
      contains none of the tags. */
  lemma ValueSurvives(value: string, data: Data)
    requires PlainValues(data)
    ensures Scalar(Fill(value, data)) == Some(value) <==> Survives(value) && !ContainsAny(value, data)
  {
    hide Fill, ContainsAny, Folded, Survives, Readable, LinesIndented;
    FillLosesBraces(value, data);
    if ContainsAny(value, data) {
      FoldingCount(Fill(value, data), IsBrace);
    } else {
      FillUnchanged(value, data);
      ScalarUnchanged(value);
    }
  }

  /** What is read of the environment part is the configured environment exactly when every key is read, the characters of
      every value are tabs or come from the space on, and no value contains one of the tags that are replaced after it. */
  lemma EnvironmentSurvives(env: Env, endpoint: Endpoint, tail: string)
    requires KeysWellFormed(env) && EndsBlock(tail)
    ensures var read := ReadBlock(EnvironmentPart(env, endpoint) + tail);
            && (read.Some? ==> read.value.1 == tail)
            && (read == Some((env, tail)) <==> EnvironmentKept(env, endpoint))
  {
    hide Fill, Survives, ContainsAny, Scalar, ReadBlock, Print, EnvironmentPart, LaterData, IsEnvKey, KeyReads, EndsBlock;
    var data := LaterData(endpoint);
    LaterDataHarmless(endpoint);
    EnvironmentPartIsPrinted(env, endpoint);
    var filled := FilledValues(env, data);
    ReadOfPrint(filled, tail);
    forall key | key in env
      ensures Scalar(filled[key]) == Some(env[key]) <==> Survives(env[key]) && !ContainsAny(env[key], data)
    {
      ValueSurvives(env[key], data);
    }
    ReadValuesSame(filled, env);
  }

  lemma ComposeDataNames(image: string, env: Env, endpoint: Endpoint)
    ensures PlainNames(ComposeData(image, env, endpoint)) && TagsDistinct(ComposeData(image, env, endpoint))
  {
    hide Print, Decimal, WireguardIp;
  }

  lemma ComposeDataSeparated(image: string, env: Env, endpoint: Endpoint, c: char)
    requires c in "s\n:\""
    ensures Separates(c, ComposeData(image, env, endpoint))
  {
    hide Print, Decimal, WireguardIp;
  }

  lemma EnvironmentFrontPlain()
    ensures '{' !in ENVIRONMENT_FRONT && ENVIRONMENT_FRONT[0] == '\n'
  {
  }

  lemma SegmentPlain(at: nat)
    requires at < 5
    ensures |Segments()| == 5 && Segments()[at].at == at
    ensures var front := Segments()[at].front; front != "" && '{' !in front && front[0] in "s\n:\""
  {
    EnvironmentFrontPlain();
  }

  lemma SegmentNamed(image: string, env: Env, endpoint: Endpoint, at: nat)
    requires at < 5
    ensures |ComposeData(image, env, endpoint)| == |Segments()| == 5
    ensures Segments()[at].name == ComposeData(image, env, endpoint)[at].0
  {
  }

  lemma SegmentsFit(image: string, env: Env, endpoint: Endpoint)
    ensures |ComposeData(image, env, endpoint)| == 5 && AllFit(Segments(), ComposeData(image, env, endpoint))
  {
    hide Separates, ComposeData, Segments;
    SegmentNamed(image, env, endpoint, 0);
    forall at | 0 <= at < 5 ensures Fits(Segments()[at], ComposeData(image, env, endpoint)) {
      SegmentPlain(at);
      SegmentNamed(image, env, endpoint, at);
      ComposeDataSeparated(image, env, endpoint, Segments()[at].front[0]);
    }
  }

  /** Image, environment, address and ports are put into their places; the environment part is the one that
      `EnvironmentSurvives` is about, address and ports arrive as they are. */
  lemma FileLayout(image: string, env: Env, endpoint: Endpoint)
    ensures var data := ComposeData(image, env, endpoint);
            && AllFit(Segments(), data)
            && ComposeFile(image, env, endpoint) == Placed(Segments(), data, FOOT)
            && PartOf(data, 1) == EnvironmentPart(env, endpoint)
            && PartOf(data, 2) == WireguardIp(endpoint.nodeId)
            && PartOf(data, 3) == Decimal(endpoint.exposedPort)
            && PartOf(data, 4) == Decimal(endpoint.internalPort)
  {
    hide Print, Decimal, Fill, Separates, Placed, Assemble, AllFit, PlainNames, TagsDistinct, Segments;
    var data := ComposeData(image, env, endpoint);
    SegmentsFit(image, env, endpoint);
    ComposeDataNames(image, env, endpoint);
    ComposeDataSeparated(image, env, endpoint, '"');
    FillPlaces(Segments(), data, FOOT);
    assert data[2..] == LaterData(endpoint);
    LaterDataHarmless(endpoint);
    FillPlain(WireguardIp(endpoint.nodeId), data[3..]);
    FillPlain(Decimal(endpoint.exposedPort), data[4..]);
    FillPlain(Decimal(endpoint.internalPort), data[5..]);
  }

  // The image

  lemma {:induction false} LineEnds(text: string, behind: string)
    requires behind != "" && IsBreak(behind[0])
    ensures LineOf(text + behind) <= text
    ensures (forall c :: c in text ==> !IsBreak(c)) ==> LineOf(text + behind) == text
  {
    if text == "" {
      assert text + behind == behind;
    } else {
      assert (text + behind)[1..] == text[1..] + behind;
      LineEnds(text[1..], behind);
      assert text == [text[0]] + text[1..];
    }
  }

  lemma PrefixCount(head: string, text: string, counted: char -> bool)
    requires head <= text
    ensures Count(head, counted) <= Count(text, counted)
  {
  }

  /** The text before the first occurrence of a tag, and the text behind it. */
  function AroundTag(text: string, tag: string): (around: (string, string))
    requires Contains(text, tag) && tag != ""
    ensures text == around.0 + tag + around.1
  {
    if StartsWith(text, tag) then ("", text[|tag|..])
    else
      var (before, behind) := AroundTag(text[1..], tag);
      ([text[0]] + before, behind)
  }

  lemma {:induction false} ReplaceFirst(text: string, tag: string, value: string)
    requires tag != "" && Contains(text, tag)
    ensures var (before, behind) := AroundTag(text, tag);
            Replace(text, tag, value) == before + (value + Replace(behind, tag, value))
  {
    if !StartsWith(text, tag) {
      ReplaceFirst(text[1..], tag, value);
    }
  }

  lemma LaterDataSeparated(endpoint: Endpoint)
    ensures Separates(' ', LaterData(endpoint)) && Separates('\n', LaterData(endpoint))
  {
    hide Decimal, WireguardIp;
  }

  /** Where the printed environment lands in the image, the line ends with the first line of the block. */
  lemma EnvironmentAt(before: string, block: string, endpoint: Endpoint, behind: string)
    ensures var part := Fill(before + (HEADER + block), LaterData(endpoint));
            Count(LineOf(part + behind), IsBrace) <= Count(before, IsBrace)
  {
    hide Fill, LaterData, LineOf, Count, Separates;
    var data, head := LaterData(endpoint), "    environment:";
    assert HEADER + block == head + ("\n" + block);
    LaterDataSeparated(endpoint);
    FillConcat(before, head + ("\n" + block), data);
    FillBehind(head, "\n" + block, data);
    FillBehind("\n", block, data);
    var line, rest := Fill(before, data) + head, "\n" + Fill(block, data) + behind;
    assert Fill(before + (HEADER + block), data) + behind == line + rest;
    LineEnds(line, rest);
    PrefixCount(LineOf(line + rest), line, IsBrace);
    CountConcat(Fill(before, data), head, IsBrace);
    CountsNone(head, IsBrace);
    LaterDataHarmless(endpoint);
    FillLosesBraces(before, data);
  }

  /** The braces of the tag are gone from the image line. */
  lemma EnvironmentInImage(image: string, env: Env, endpoint: Endpoint, behind: string)
    requires Contains(image, Tag("ENVIRONMENT")) && env != map[]
    ensures Count(LineOf(ImagePart(image, env, endpoint) + behind), IsBrace) < Count(image, IsBrace)
  {
    hide Fill, Replace, Print, Block, LaterData, SortedKeys, LineOf, Count, Contains, ImagePart;
    var tag := Tag("ENVIRONMENT");
    var (before, after) := AroundTag(image, tag);
    PrintIsBlock(env);
    ReplaceFirst(image, tag, Print(env));
    var block := Block(env, SortedKeys(env.Keys)) + Replace(after, tag, Print(env));
    assert Replace(image, tag, Print(env)) == before + (HEADER + block);
    DataStep(image, env, endpoint);
    EnvironmentAt(before, block, endpoint, behind);
    TagCounts(before, tag, after);
  }

  lemma TagCounts(before: string, tag: string, after: string)
    requires tag == Tag("ENVIRONMENT")
    ensures Count(before, IsBrace) < Count(before + tag + after, IsBrace)
  {
    CountConcat(before + tag, after, IsBrace);
    CountConcat(before, tag, IsBrace);
    assert tag[0] == '{';
  }

  lemma DataStep(image: string, env: Env, endpoint: Endpoint)
    ensures ImagePart(image, env, endpoint) ==
            Fill(Replace(image, Tag("ENVIRONMENT"), Print(env)), LaterData(endpoint))
  {
  }

  /** An image that contains a later tag does not stand in its line. */
  lemma ImageLine(image: string, env: Env, endpoint: Endpoint, behind: string)
    requires behind != "" && IsBreak(behind[0])
    ensures ContainsAny(image, DataBehindImage(env, endpoint)) ==>
              LineOf(ImagePart(image, env, endpoint) + behind) != image
    ensures !ContainsAny(image, DataBehindImage(env, endpoint)) ==> ImagePart(image, env, endpoint) == image
  {
    hide Fill, Replace, Print, LaterData, LineOf, Count, Contains;
    var data, part := DataBehindImage(env, endpoint), ImagePart(image, env, endpoint);
    if !ContainsAny(image, data) {
      FillUnchanged(image, data);
    } else if Contains(image, Tag("ENVIRONMENT")) && env != map[] {
      EnvironmentInImage(image, env, endpoint, behind);
    } else {
      LaterDataHarmless(endpoint);
      if env == map[] {
        PrintOfNothing();
        assert PlainValues(data) by {
          forall i | 0 <= i < |data| ensures '{' !in data[i].1 {
            assert i > 0 ==> data[i] == LaterData(endpoint)[i - 1];
          }
        }
        FillLosesBraces(image, data);
      } else {
        DataStep(image, env, endpoint);
        ReplaceUnchanged(image, Tag("ENVIRONMENT"), Print(env));
        var i :| 0 <= i < |data| && Contains(image, Tag(data[i].0));
        assert i > 0 && data[i] == LaterData(endpoint)[i - 1];
        FillLosesBraces(image, LaterData(endpoint));
      }
      LineEnds(part, behind);
      PrefixCount(LineOf(part + behind), part, IsBrace);
    }
  }

  // The whole file

  lemma MappingBack(endpoint: Endpoint)
    ensures ReadMapping(PORTS_FRONT + (Mapping(endpoint) + FOOT)) == Some(Mapping(endpoint))
  {
    hide Decimal;
    SplitAt(PORTS_FRONT, Mapping(endpoint) + FOOT);
    SplitAt(Mapping(endpoint), FOOT);
  }

  /** What stands behind the image. */
  function Remainder(env: Env, endpoint: Endpoint): string {
    ENVIRONMENT_FRONT + (EnvironmentPart(env, endpoint) + (PORTS_FRONT + (Mapping(endpoint) + FOOT)))
  }

  lemma FileParts(image: string, env: Env, endpoint: Endpoint)
    ensures ComposeFile(image, env, endpoint) ==
            IMAGE_FRONT + (ImagePart(image, env, endpoint) + Remainder(env, endpoint))
  {
    hide Print, Decimal, WireguardIp, Fill, Placed, Assemble, AllFit, LaterData;
    FileLayout(image, env, endpoint);
    SegmentsFit(image, env, endpoint);
    PlacedParts(ComposeData(image, env, endpoint), endpoint);
    assert ComposeData(image, env, endpoint)[1..] == DataBehindImage(env, endpoint);
  }

  lemma PlacedParts(data: Data, endpoint: Endpoint)
    requires |data| == 5 && AllFit(Segments(), data)
    requires PartOf(data, 2) == WireguardIp(endpoint.nodeId)
    requires PartOf(data, 3) == Decimal(endpoint.exposedPort) && PartOf(data, 4) == Decimal(endpoint.internalPort)
    ensures Placed(Segments(), data, FOOT) ==
            IMAGE_FRONT + (PartOf(data, 0) + (ENVIRONMENT_FRONT + (PartOf(data, 1) + (PORTS_FRONT + (Mapping(endpoint) + FOOT)))))
  {
    hide Decimal, WireguardIp, PartOf, AllFit, Placed, Mapping;
    var segments := Segments();
    PlacedFrom(segments, data, 0);
    PlacedFrom(segments, data, 1);
    PlacedFrom(segments, data, 2);
    PlacedFrom(segments, data, 3);
    PlacedFrom(segments, data, 4);
    assert segments[0..] == segments;
    MappingParts(endpoint);
  }

  lemma MappingParts(endpoint: Endpoint)
    ensures Mapping(endpoint) + FOOT ==
            WireguardIp(endpoint.nodeId) +
            (":" + (Decimal(endpoint.exposedPort) + (":" + (Decimal(endpoint.internalPort) + FOOT))))
  {
  }

  lemma AllFitFrom(segments: seq<Segment>, data: Data, at: nat)
    requires at <= |segments| && AllFit(segments, data)
    ensures AllFit(segments[at..], data)
  {
  }

  lemma PlacedFrom(segments: seq<Segment>, data: Data, at: nat)
    requires at < |segments| && AllFit(segments, data)
    ensures segments[at].at < |data| && AllFit(segments[at..], data) && AllFit(segments[at + 1..], data)
    ensures Placed(segments[at..], data, FOOT) ==
            segments[at].front + (PartOf(data, segments[at].at) + Placed(segments[at + 1..], data, FOOT))
    ensures segments[at + 1..] == [] ==> Placed(segments[at + 1..], data, FOOT) == FOOT
  {
    assert Fits(segments[at], data);
    hide PartOf, Fits, AllFit;
    AllFitFrom(segments, data, at);
    AllFitFrom(segments, data, at + 1);
    assert segments[at..][1..] == segments[at + 1..] && segments[at..][0] == segments[at];
  }

  lemma RemainderStart(image: string, env: Env, endpoint: Endpoint)
    ensures var behind := Remainder(env, endpoint); behind != "" && IsBreak(behind[0])
  {
  }

  /** Behind an image that stands in its line, the environment and the port mapping are read. */
  lemma RemainderBack(image: string, env: Env, endpoint: Endpoint)
    requires PlainString(image)
    ensures var tail := PORTS_FRONT + (Mapping(endpoint) + FOOT);
            var read := ReadBlock(EnvironmentPart(env, endpoint) + tail);
            ReadFile(IMAGE_FRONT + (image + Remainder(env, endpoint))) ==
            if read.None? then None
            else
              var mapping := ReadMapping(read.value.1);
              if mapping.None? then None else Some(Content(image, read.value.0, mapping.value))
  {
    hide PlainString, EnvironmentPart, Mapping, ReadBlock, ReadMapping, LineOf, StartsWith, IsPlain;
    RemainderStart(image, env, endpoint);
    assert forall c :: c in image ==> !IsBreak(c) by {
      PlainStringHasNoBreak(image);
    }
    LineEnds(image, Remainder(env, endpoint));
    SplitAt(IMAGE_FRONT, image + Remainder(env, endpoint));
    SplitAt(image, Remainder(env, endpoint));
    SplitAt(ENVIRONMENT_FRONT, EnvironmentPart(env, endpoint) + (PORTS_FRONT + (Mapping(endpoint) + FOOT)));
  }

  lemma PlainStringHasNoBreak(s: string)
    requires PlainString(s)
    ensures forall c :: c in s ==> !IsBreak(c)
  {
    PlainHasNoBreak(s);
  }

  /** The line of the image is what is read as the image. */
  lemma ImageOfFile(text: string)
    requires ReadFile(IMAGE_FRONT + text).Some?
    ensures var content := ReadFile(IMAGE_FRONT + text).value;
            content.image == LineOf(text) && PlainString(content.image)
  {
    hide PlainString, LineOf, ReadBlock, ReadMapping;
    SplitAt(IMAGE_FRONT, text);
  }

  /** Reading the generated file gives image, environment and port mapping back exactly when the image stands for itself and
      contains no later tag, every key is read, the characters of every value are tabs or come from the space on, and no
      value contains a later tag. */
  lemma FileSurvives(image: string, env: Env, endpoint: Endpoint)
    requires KeysWellFormed(env)
    ensures ReadFile(ComposeFile(image, env, endpoint)) == Some(Content(image, env, Mapping(endpoint))) <==>
            ImageKept(image, env, endpoint) && EnvironmentKept(env, endpoint)
  {
    hide PlainString, EnvironmentPart, Mapping, ReadBlock, ReadMapping, LineOf, ReadFile, ComposeFile, ImagePart, Remainder,
         IsEnvKey, EnvironmentKept, ContainsAny, DataBehindImage;
    FileParts(image, env, endpoint);
    RemainderStart(image, env, endpoint);
    var behind := Remainder(env, endpoint);
    ImageLine(image, env, endpoint, behind);
    if ImageKept(image, env, endpoint) {
      var tail := PORTS_FRONT + (Mapping(endpoint) + FOOT);
      RemainderBack(image, env, endpoint);
      EnvironmentSurvives(env, endpoint, tail);
      MappingBack(endpoint);
    } else if ReadFile(ComposeFile(image, env, endpoint)).Some? {
      ImageOfFile(ImagePart(image, env, endpoint) + behind);
    }
  }

  /** The same for every web service of a registry that keeps the invariant, as its schema enforces well-formed names. */
  lemma DeployedFileSurvives(services: Registry, id: string, nodeId: nat)
    requires RegistryInvariant(services) && id in services && services[id].Web?
    ensures services[id].exposedPort >= 0 && services[id].internalPort >= 0
    ensures var service := services[id];
            var endpoint := Endpoint(nodeId, service.exposedPort, service.internalPort);
            ReadFile(ComposeFile(service.image, service.env, endpoint)) ==
              Some(Content(service.image, service.env, Mapping(endpoint))) <==>
            ImageKept(service.image, service.env, endpoint) && EnvironmentKept(service.env, endpoint)
  {
    hide ReadFile, ComposeFile, ImageKept, EnvironmentKept, Mapping, IsEnvKey, Trim, IsServiceId, IsHealthPath,
         PortsDisjoint;
    var service := services[id];
    assert SchemaAccepts(service);
    FileSurvives(service.image, service.env, Endpoint(nodeId, service.exposedPort, service.internalPort));
  }

  lemma TagInImage(env: Env, endpoint: Endpoint)
    ensures ContainsAny("web{EXPOSED_PORT}", DataBehindImage(env, endpoint))
  {
    hide Decimal, WireguardIp, Print, Contains;
    TagBehindName("web", "EXPOSED_PORT");
    assert "web" + Tag("EXPOSED_PORT") == "web{EXPOSED_PORT}";
    assert DataBehindImage(env, endpoint)[2].0 == "EXPOSED_PORT";
  }

  lemma NoPlainStrings()
    ensures !PlainString("{ENVIRONMENT}") && !PlainString("a: b") && !PlainString("null")
  {
    hide IsNumber;
    assert "{ENVIRONMENT}"[0] == '{' == INDICATORS[6];
    assert !PlainAt("a: b", 1);
    assert "null" == WORDS[0];
  }

  const LOST_IMAGES := ["{ENVIRONMENT}", "web{EXPOSED_PORT}", "a: b", "null"]

  /** Images that the schema accepts and that the file does not give back. */
  lemma ImagesLost(env: Env, endpoint: Endpoint)
    requires KeysWellFormed(env)
    ensures forall image :: image in LOST_IMAGES ==>
              && NotBlank(image)
              && ReadFile(ComposeFile(image, env, endpoint)) != Some(Content(image, env, Mapping(endpoint)))
  {
    hide ReadFile, ComposeFile, Mapping, EnvironmentKept, KeysWellFormed, DataBehindImage, PlainString, ContainsAny;
    TagInImage(env, endpoint);
    NoPlainStrings();
    forall image | image in LOST_IMAGES
      ensures NotBlank(image) && ReadFile(ComposeFile(image, env, endpoint)) != Some(Content(image, env, Mapping(endpoint)))
    {
      assert !IsSpace(image[0]);
      FileSurvives(image, env, endpoint);
    }
  }

  lemma {:induction false} TagBehindName(front: string, name: string)
    ensures Contains(front + Tag(name), Tag(name))
  {
    if front == "" {
      assert front + Tag(name) == Tag(name);
    } else {
      assert (front + Tag(name))[1..] == front[1..] + Tag(name);
      TagBehindName(front[1..], name);
    }
  }

  /** A value that names a later tag does not survive. */
  lemma TagInValueIsReplaced(image: string, endpoint: Endpoint)
    ensures var env: Env := map["PLACE" := "{EXPOSED_PORT}"];
            && KeysWellFormed(env)
            && ReadFile(ComposeFile(image, env, endpoint)) != Some(Content(image, env, Mapping(endpoint)))
  {
    hide ReadFile, ComposeFile, Mapping, ImageKept, Decimal, WireguardIp, Survives, KeyReads;
    var value, data := "{EXPOSED_PORT}", LaterData(endpoint);
    var env: Env := map["PLACE" := value];
    assert Tag(data[1].0) == value && Contains(value, value);
    FileSurvives(image, env, endpoint);
    assert env["PLACE"] == value;
  }

  /** The file as it is written: for an image without later tags, the template with image, environment, address and ports. */
  lemma FileText(image: string, env: Env, endpoint: Endpoint)
    requires !ContainsAny(image, DataBehindImage(env, endpoint))
    ensures ComposeFile(image, env, endpoint) ==
            "services:\n  web:\n    image: " + (image + ("\n    restart: unless-stopped\n" + (EnvironmentPart(env, endpoint) +
            ("\n    ports:\n      - \"" + ("10.0.0." + Decimal(endpoint.nodeId) + ":" + Decimal(endpoint.exposedPort) + ":" +
            Decimal(endpoint.internalPort) + "\"\n")))))
  {
    hide Decimal, Fill, EnvironmentPart, ContainsAny, DataBehindImage;
    FileParts(image, env, endpoint);
    FillUnchanged(image, DataBehindImage(env, endpoint));
  }
}

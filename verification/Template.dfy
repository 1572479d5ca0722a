/** Filling a template by replacing one tag after the other (`generateTemplateFromFile` of src/utils/serviceConfig.ts). */
module Templates {
  import opened Texts

  function Tag(name: string): string { "{" + name + "}" }

  /** `text.split(tag).join(value)` */
  function Replace(text: string, tag: string, value: string): string
    requires tag != ""
  {
    if text == "" then ""
    else if StartsWith(text, tag) then value + Replace(text[|tag|..], tag, value)
    else [text[0]] + Replace(text[1..], tag, value)
  }

  /** Tag names and their values, in the order in which they are replaced. */
  type Data = seq<(string, string)>

  function Fill(template: string, data: Data): string
    decreases |data|
  {
    if data == [] then template else Fill(Replace(template, Tag(data[0].0), data[0].1), data[1..])
  }

  method GenerateTemplate(text: string, data: Data) returns (template: string)
    ensures template == Fill(text, data)
  {
    template := text;
    for i := 0 to |data|
      invariant Fill(template, data[i..]) == Fill(text, data)
    {
      var (tag, value) := data[i];
      assert data[i..][1..] == data[i + 1..];
      template := Replace(template, Tag(tag), value);
    }
  }

  predicate Contains(text: string, tag: string) {
    text != "" && (StartsWith(text, tag) || Contains(text[1..], tag))
  }

  // Filling part by part

  /** `c` occurs in no tag, so that no tag reaches across it. */
  predicate Separates(c: char, data: Data) {
    c != '{' && c != '}' && forall i :: 0 <= i < |data| ==> c !in data[i].0
  }

  lemma {:induction false} ReplaceConcat(a: string, b: string, name: string, value: string)
    requires b != "" && b[0] !in Tag(name)
    ensures Replace(a + b, Tag(name), value) == Replace(a, Tag(name), value) + Replace(b, Tag(name), value)
    ensures Replace(b, Tag(name), value) != "" && Replace(b, Tag(name), value)[0] == b[0]
  {
    var tag, text := Tag(name), a + b;
    assert tag[0] == '{';
    if a == "" {
      assert text == b;
    } else {
      NoTagAcross(a, b, tag);
      if StartsWith(a, tag) {
        assert text[|tag|..] == a[|tag|..] + b;
        ReplaceConcat(a[|tag|..], b, name, value);
      } else {
        assert text[1..] == a[1..] + b;
        ReplaceConcat(a[1..], b, name, value);
      }
    }
  }

  lemma NoTagAcross(a: string, b: string, tag: string)
    requires b != "" && b[0] !in tag
    ensures StartsWith(a + b, tag) <==> StartsWith(a, tag)
  {
    if |tag| <= |a| {
      assert (a + b)[..|tag|] == a[..|tag|];
    } else if |tag| <= |a + b| {
      assert (a + b)[..|tag|][|a|] == b[0];
    }
  }

  lemma {:induction false} FillConcat(a: string, b: string, data: Data)
    requires b != "" && Separates(b[0], data)
    ensures Fill(a + b, data) == Fill(a, data) + Fill(b, data)
    decreases |data|
  {
    hide Replace;
    if data != [] {
      var (name, value) := data[0];
      ReplaceConcat(a, b, name, value);
      FillConcat(Replace(a, Tag(name), value), Replace(b, Tag(name), value), data[1..]);
    }
  }

  /** A text without braces is kept, and no tag reaches from it into what follows. */
  lemma {:induction false} ReplaceBehind(a: string, b: string, name: string, value: string)
    requires '{' !in a
    ensures Replace(a + b, Tag(name), value) == a + Replace(b, Tag(name), value)
  {
    if a == "" {
      assert a + b == b;
    } else {
      assert (a + b)[1..] == a[1..] + b;
      assert Tag(name)[0] == '{' && a[0] in a;
      ReplaceBehind(a[1..], b, name, value);
    }
  }

  lemma {:induction false} FillBehind(a: string, b: string, data: Data)
    requires '{' !in a
    ensures Fill(a + b, data) == a + Fill(b, data)
    decreases |data|
  {
    hide Replace;
    if data != [] {
      var (name, value) := data[0];
      ReplaceBehind(a, b, name, value);
      FillBehind(a, Replace(b, Tag(name), value), data[1..]);
    }
  }

  lemma FillPlain(a: string, data: Data)
    requires '{' !in a
    ensures Fill(a, data) == a
  {
    FillBehind(a, "", data);
    FillNothing(data);
    assert a + "" == a;
  }

  lemma {:induction false} FillNothing(data: Data)
    ensures Fill("", data) == ""
    decreases |data|
  {
    if data != [] {
      FillNothing(data[1..]);
    }
  }

  // What filling changes

  ghost predicate ContainsAny(text: string, data: Data) {
    exists i :: 0 <= i < |data| && Contains(text, Tag(data[i].0))
  }

  predicate PlainValues(data: Data) {
    forall i :: 0 <= i < |data| ==> '{' !in data[i].1
  }

  lemma {:induction false} ReplaceUnchanged(text: string, tag: string, value: string)
    requires tag != "" && !Contains(text, tag)
    ensures Replace(text, tag, value) == text
  {
    if text != "" {
      ReplaceUnchanged(text[1..], tag, value);
    }
  }

  /** Replacing by a value without braces takes away the braces of every tag it finds. */
  lemma {:induction false} ReplaceLosesBraces(text: string, name: string, value: string)
    requires '{' !in value
    ensures Count(Replace(text, Tag(name), value), IsBrace) <= Count(text, IsBrace)
    ensures Contains(text, Tag(name)) ==> Count(Replace(text, Tag(name), value), IsBrace) < Count(text, IsBrace)
  {
    var tag := Tag(name);
    if text == "" {
    } else if StartsWith(text, tag) {
      var rest := text[|tag|..];
      ReplaceLosesBraces(rest, name, value);
      CountsNone(value, IsBrace);
      CountConcat(value, Replace(rest, tag, value), IsBrace);
      assert text == tag + rest;
      CountConcat(tag, rest, IsBrace);
      assert tag[0] == '{';
    } else {
      ReplaceLosesBraces(text[1..], name, value);
      var replaced := Replace(text[1..], tag, value);
      assert ([text[0]] + replaced)[1..] == replaced;
    }
  }

  /** A text that contains none of the tags stays as it is, whatever the values. */
  lemma {:induction false} FillUnchanged(text: string, data: Data)
    requires !ContainsAny(text, data)
    ensures Fill(text, data) == text
    decreases |data|
  {
    hide Replace, Contains;
    if data != [] {
      ReplaceUnchanged(text, Tag(data[0].0), data[0].1);
      assert forall i :: 0 < i < |data| ==> data[i] == data[1..][i - 1];
      FillUnchanged(text, data[1..]);
    }
  }

  /** With values that hold no brace, a text that contains one of the tags is changed. */
  lemma {:induction false} FillLosesBraces(text: string, data: Data)
    requires PlainValues(data)
    ensures Count(Fill(text, data), IsBrace) <= Count(text, IsBrace)
    ensures ContainsAny(text, data) ==> Count(Fill(text, data), IsBrace) < Count(text, IsBrace)
    decreases |data|
  {
    hide Replace, Contains;
    if data != [] {
      var (name, value) := data[0];
      ReplaceLosesBraces(text, name, value);
      FillLosesBraces(Replace(text, Tag(name), value), data[1..]);
      if !Contains(text, Tag(name)) {
        ReplaceUnchanged(text, Tag(name), value);
        assert forall i :: 0 < i < |data| ==> data[i] == data[1..][i - 1];
      }
    }
  }

  // Filling a tag

  ghost predicate PlainNames(data: Data) {
    forall i :: 0 <= i < |data| ==> '{' !in data[i].0 && '}' !in data[i].0
  }

  ghost predicate TagsDistinct(data: Data) {
    forall i, j :: 0 <= i < j < |data| ==> data[i].0 != data[j].0
  }

  lemma TagStart(name: string, other: string)
    requires '}' !in name && '}' !in other && StartsWith(Tag(name), Tag(other))
    ensures name == other
  {
    assert forall i :: 0 <= i < |name| ==> Tag(name)[i + 1] == name[i] && name[i] in name;
    assert Tag(name)[|other| + 1] == Tag(other)[|other| + 1] == '}';
    assert name == Tag(name)[1..|name| + 1] && other == Tag(other)[1..|other| + 1];
  }

  lemma OtherTag(name: string, other: string)
    requires name != other && '}' !in name && '}' !in other && '{' !in name
    ensures !Contains(Tag(name), Tag(other))
  {
    if StartsWith(Tag(name), Tag(other)) {
      TagStart(name, other);
      assert false;
    }
    assert Tag(name)[1..] == name + "}";
    NoBraceNoTag(name + "}", other);
  }

  lemma {:induction false} NoBraceNoTag(text: string, other: string)
    requires '{' !in text
    ensures !Contains(text, Tag(other))
  {
    if text != "" {
      assert text[0] in text && Tag(other)[0] == '{';
      NoBraceNoTag(text[1..], other);
    }
  }

  /** A tag becomes its value, in which the later tags are then replaced. */
  lemma {:induction false} FillTag(data: Data, at: nat)
    requires at < |data| && PlainNames(data) && TagsDistinct(data)
    ensures Fill(Tag(data[at].0), data) == Fill(data[at].1, data[at + 1..])
    decreases |data|
  {
    hide Replace;
    var (name, value) := data[0];
    if at == 0 {
      ReplaceTag(name, value);
    } else {
      OtherTag(data[at].0, name);
      ReplaceUnchanged(Tag(data[at].0), Tag(name), value);
      assert data[1..][at - 1] == data[at] && data[1..][at..] == data[at + 1..];
      FillTag(data[1..], at - 1);
    }
  }

  lemma ReplaceTag(name: string, value: string)
    ensures Replace(Tag(name), Tag(name), value) == value
  {
  }

  // Templates whose tags are kept apart by text

  /** Text, and the tag behind it; `at` is the place of the tag in the data. */
  datatype Segment = Segment(front: string, name: string, at: nat)

  function Assemble(segments: seq<Segment>, foot: string): string {
    if segments == [] then foot
    else segments[0].front + (Tag(segments[0].name) + Assemble(segments[1..], foot))
  }

  /** What the tag at this place becomes: its value, in which the later tags are replaced as well. */
  function PartOf(data: Data, at: nat): string
    requires at < |data|
  {
    Fill(data[at].1, data[at + 1..])
  }

  predicate Fits(segment: Segment, data: Data) {
    && segment.at < |data| && segment.name == data[segment.at].0
    && segment.front != "" && '{' !in segment.front && Separates(segment.front[0], data)
  }

  predicate AllFit(segments: seq<Segment>, data: Data) {
    forall i :: 0 <= i < |segments| ==> Fits(segments[i], data)
  }

  function Placed(segments: seq<Segment>, data: Data, foot: string): string
    requires AllFit(segments, data)
  {
    if segments == [] then foot
    else segments[0].front + (PartOf(data, segments[0].at) + Placed(segments[1..], data, foot))
  }

  /** Replacing tag after tag puts every value into its place and touches nothing of the template; only inside the values
      may later tags be replaced. */
  lemma {:induction false} FillPlaces(segments: seq<Segment>, data: Data, foot: string)
    requires AllFit(segments, data) && PlainNames(data) && TagsDistinct(data)
    requires foot != "" && '{' !in foot && Separates(foot[0], data)
    ensures Fill(Assemble(segments, foot), data) == Placed(segments, data, foot)
    ensures Assemble(segments, foot) != "" && Separates(Assemble(segments, foot)[0], data)
  {
    hide Fill, PlainNames, TagsDistinct, Separates, Tag;
    if segments == [] {
      FillPlain(foot, data);
    } else {
      var segment, rest := segments[0], Assemble(segments[1..], foot);
      FillPlaces(segments[1..], data, foot);
      assert Fits(segment, data);
      FillSegment(segment, rest, data);
      assert Assemble(segments, foot)[0] == segment.front[0];
    }
  }

  lemma FillSegment(segment: Segment, rest: string, data: Data)
    requires Fits(segment, data) && PlainNames(data) && TagsDistinct(data)
    requires rest != "" && Separates(rest[0], data)
    ensures Fill(segment.front + (Tag(segment.name) + rest), data) ==
            segment.front + (PartOf(data, segment.at) + Fill(rest, data))
  {
    hide Fill, PlainNames, TagsDistinct, Separates, Tag;
    FillBehind(segment.front, Tag(segment.name) + rest, data);
    FillConcat(Tag(segment.name), rest, data);
    FillTag(data, segment.at);
  }
}

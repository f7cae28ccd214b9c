/**
 The CQ codec of OneBot 11: message segments to a CQ string and back. A segment's data keeps its
 keys in insertion order.
 */
module CqCodec {
  import opened Common
  import opened CqText

  datatype Parameter = Parameter(key: string, value: string)

  datatype Segment = Segment(kind: string, data: seq<Parameter>)

  function Lookup(data: seq<Parameter>, key: string): Option<string> {
    if data == [] then None
    else if data[0].key == key then Some(data[0].value) else Lookup(data[1..], key)
  }

  /** `data[key] = value`: a known key keeps its place. */
  function SetKey(data: seq<Parameter>, key: string, value: string): seq<Parameter> {
    if data == [] then [Parameter(key, value)]
    else if data[0].key == key then [Parameter(key, value)] + data[1..]
    else [data[0]] + SetKey(data[1..], key, value)
  }

  function TextSegment(text: string): Segment {
    Segment("text", [Parameter("text", text)])
  }

  function TextValue(s: Segment): string {
    match Lookup(s.data, "text")
    case Some(text) => text
    case None => ""
  }

  // ---------------------------------------------------------------- encoding

  function EncodeParameter(p: Parameter): string {
    p.key + "=" + EscapeParameter(p.value)
  }

  function EncodeParameters(data: seq<Parameter>): string {
    if data == [] then "" else "," + (EncodeParameter(data[0]) + EncodeParameters(data[1..]))
  }

  function EncodeCode(s: Segment): string {
    "[CQ:" + (s.kind + (EncodeParameters(s.data) + "]"))
  }

  function EncodeSegment(s: Segment): string {
    if s.kind == "text" then EscapeText(TextValue(s)) else EncodeCode(s)
  }

  function Encode(segments: seq<Segment>): string {
    if segments == [] then "" else EncodeSegment(segments[0]) + Encode(segments[1..])
  }

  // ---------------------------------------------------------------- parsing

  predicate NameChar(c: char) {
    'a' <= c <= 'z' || 'A' <= c <= 'Z' || '0' <= c <= '9' || c == '_' || c == '-'
  }

  function NameLength(s: string): (n: nat)
    ensures n <= |s| && forall i | 0 <= i < n :: NameChar(s[i])
    ensures n < |s| ==> !NameChar(s[n])
  {
    if s == "" || !NameChar(s[0]) then 0 else 1 + NameLength(s[1..])
  }

  function IndexOf(s: string, c: char): (r: Option<nat>)
    ensures r.None? <==> c !in s
    ensures r.Some? ==> r.value < |s| && s[r.value] == c && c !in s[..r.value]
  {
    if s == "" then None
    else if s[0] == c then Some(0)
    else match IndexOf(s[1..], c)
         case None => None
         case Some(i) => assert s[..i + 1] == [s[0]] + s[1..][..i]; Some(i + 1)
  }

  datatype Match = Match(kind: string, parameters: string, length: nat)

  /** A name, then nothing or a comma and anything up to the bracket; `length` counts from the opening bracket. */
  function MatchName(rest: string): (r: Option<Match>)
    ensures r.Some? ==> 5 < r.value.length <= |rest| + 4
  {
    var n := NameLength(rest);
    if n == 0 || n == |rest| then None
    else if rest[n] == ']' then Some(Match(rest[..n], "", n + 5))
    else if rest[n] != ',' then None
    else match IndexOf(rest[n..], ']')
         case None => None
         case Some(k) => Some(Match(rest[..n], rest[n..][..k], n + k + 5))
  }

  /** The CQ code a text starts with. */
  function MatchHere(s: string): (r: Option<Match>)
    ensures r.Some? ==> 0 < r.value.length <= |s|
  {
    if StartsWith(s, "[CQ:") then MatchName(s[4..]) else None
  }

  /** Where the first CQ code of a text begins. */
  function FirstMatch(s: string): (r: Option<nat>)
    ensures r.Some? ==> r.value < |s| && MatchHere(s[r.value..]).Some?
  {
    if s == "" then None
    else if MatchHere(s).Some? then assert s[0..] == s; Some(0)
    else match FirstMatch(s[1..])
         case None => None
         case Some(i) => assert s[1..][i..] == s[i + 1..]; Some(i + 1)
  }

  function Split(s: string): seq<string>
    decreases |s|
  {
    match IndexOf(s, ',')
    case None => [s]
    case Some(i) => [s[..i]] + Split(s[i + 1..])
  }

  function AddParameter(data: seq<Parameter>, raw: string): seq<Parameter> {
    match IndexOf(raw, '=')
    case None => data
    case Some(i) => if i == 0 then data else SetKey(data, raw[..i], UnescapeParameter(raw[i + 1..]))
  }

  function AddParameters(data: seq<Parameter>, parts: seq<string>): seq<Parameter>
    decreases |parts|
  {
    if parts == [] then data else AddParameters(AddParameter(data, parts[0]), parts[1..])
  }

  function ParseParameters(raw: string): seq<Parameter> {
    if raw == "" then [] else AddParameters([], Split(raw[1..]))
  }

  function TextBefore(text: string): seq<Segment> {
    if text == "" then [] else [TextSegment(UnescapeText(text))]
  }

  function Parse(s: string): seq<Segment>
    decreases |s|
  {
    match FirstMatch(s)
    case None => TextBefore(s)
    case Some(i) =>
      var m := MatchHere(s[i..]).value;
      TextBefore(s[..i]) + [Segment(m.kind, ParseParameters(m.parameters))] + Parse(s[i..][m.length..])
  }

  /** The parser's loops: a cursor over the text, and one pass over the parameters of each code. */
  method ParseSegments(content: string) returns (segments: seq<Segment>)
    ensures segments == Parse(content)
  {
    hide Parse, FirstMatch, MatchHere, ParseParameters, UnescapeText;
    segments := [];
    var cursor := 0;
    assert content[0..] == content;
    while true
      invariant 0 <= cursor <= |content|
      invariant segments + Parse(content[cursor..]) == Parse(content)
      decreases |content| - cursor
    {
      var rest := content[cursor..];
      ParseSteps(rest);
      var next := FirstMatch(rest);
      if next.None? { break; }
      var index := next.value;
      var found := MatchHere(rest[index..]).value;
      ghost var before := segments;
      if index > 0 {
        segments := segments + [TextSegment(UnescapeText(rest[..index]))];
      }
      assert segments == before + TextBefore(rest[..index]);
      var data := ParseParameterList(found.parameters);
      segments := segments + [Segment(found.kind, data)];
      assert rest[index..][found.length..] == content[cursor + index + found.length..];
      cursor := cursor + index + found.length;
    }
    if cursor < |content| {
      segments := segments + [TextSegment(UnescapeText(content[cursor..]))];
    }
  }

  lemma ParseSteps(s: string)
    ensures Parse(s) == match FirstMatch(s)
                        case None => TextBefore(s)
                        case Some(i) =>
                          var m := MatchHere(s[i..]).value;
                          TextBefore(s[..i]) + [Segment(m.kind, ParseParameters(m.parameters))] + Parse(s[i..][m.length..])
  {
  }

  method ParseParameterList(raw: string) returns (data: seq<Parameter>)
    ensures data == ParseParameters(raw)
  {
    data := [];
    if raw == "" { return; }
    var parts := Split(raw[1..]);
    var i := 0;
    while i < |parts|
      invariant 0 <= i <= |parts|
      invariant AddParameters(data, parts[i..]) == AddParameters([], parts)
    {
      var separator := IndexOf(parts[i], '=');
      assert parts[i..][1..] == parts[i + 1..];
      if separator.Some? && separator.value > 0 {
        data := SetKey(data, parts[i][..separator.value], UnescapeParameter(parts[i][separator.value + 1..]));
      }
      i := i + 1;
    }
  }

  // ---------------------------------------------------------------- what round-trips

  predicate IsName(s: string) {
    s != "" && forall i | 0 <= i < |s| :: NameChar(s[i])
  }

  predicate IsKey(key: string) {
    key != "" && ',' !in key && '=' !in key && ']' !in key
  }

  predicate DistinctKeys(data: seq<Parameter>) {
    forall i, k | 0 <= i < k < |data| :: data[i].key != data[k].key
  }

  /** A text segment is any segment of that type; another one needs a name and plain, distinct keys. */
  predicate WellFormedSegment(s: Segment) {
    s.kind != "text" ==> IsName(s.kind) && DistinctKeys(s.data) && forall i | 0 <= i < |s.data| :: IsKey(s.data[i].key)
  }

  predicate WellFormed(segments: seq<Segment>) {
    forall i | 0 <= i < |segments| :: WellFormedSegment(segments[i])
  }

  function Texts(text: string): seq<Segment> {
    if text == "" then [] else [TextSegment(text)]
  }

  /** The segments with `before` in front of them, adjacent texts merged and empty ones dropped. */
  function Merge(before: string, segments: seq<Segment>): seq<Segment>
    decreases |segments|
  {
    if segments == [] then Texts(before)
    else if segments[0].kind == "text" then Merge(before + TextValue(segments[0]), segments[1..])
    else Texts(before) + [segments[0]] + Merge("", segments[1..])
  }

  function Normalize(segments: seq<Segment>): seq<Segment> {
    Merge("", segments)
  }

  // ---------------------------------------------------------------- finding a code

  lemma NoOpening(s: string)
    requires s == "" || s[0] != '['
    ensures MatchHere(s).None?
  {
  }

  /** No code begins inside a text without brackets. */
  lemma {:induction false} NoCodeInText(text: string, rest: string)
    requires '[' !in text
    ensures FirstMatch(text + rest)
         == match FirstMatch(rest) case None => None case Some(i) => Some(|text| + i)
  {
    hide MatchHere;
    if text == "" {
      assert text + rest == rest;
    } else {
      NoCodeInText(text[1..], rest);
      assert (text + rest)[1..] == text[1..] + rest;
      NoOpening(text + rest);
    }
  }

  lemma {:induction false} NameRun(name: string, rest: string)
    requires (forall i | 0 <= i < |name| :: NameChar(name[i])) && (rest == "" || !NameChar(rest[0]))
    ensures NameLength(name + rest) == |name|
  {
    if name == "" {
      assert name + rest == rest;
    } else {
      NameRun(name[1..], rest);
      assert (name + rest)[1..] == name[1..] + rest;
    }
  }

  lemma {:induction false} IndexAfter(before: string, c: char, rest: string)
    requires c !in before
    ensures IndexOf(before + [c] + rest, c) == Some(|before|)
  {
    if before == "" {
      assert before + [c] + rest == [c] + rest;
    } else {
      IndexAfter(before[1..], c, rest);
      assert (before + [c] + rest)[1..] == before[1..] + [c] + rest;
    }
  }

  lemma {:induction false} ParametersClean(data: seq<Parameter>)
    requires forall i | 0 <= i < |data| :: IsKey(data[i].key)
    ensures ']' !in EncodeParameters(data)
  {
    if data != [] {
      ParametersClean(data[1..]);
      EscapeOnePass(data[0].value);
      EscapedIsClean(data[0].value, PARAMETER);
    }
  }

  /** The parser finds an encoded code again, with its name and its parameters. */
  lemma CodeMatches(s: Segment, rest: string)
    requires s.kind != "text" && WellFormedSegment(s)
    ensures MatchHere(EncodeCode(s) + rest) == Some(Match(s.kind, EncodeParameters(s.data), |EncodeCode(s)|))
    ensures (EncodeCode(s) + rest)[|EncodeCode(s)|..] == rest
  {
    hide EncodeParameters, DistinctKeys, IsKey, MatchHere;
    ParametersClean(s.data);
    ParametersStart(s.data);
    var parameters := EncodeParameters(s.data);
    var text, tail := EncodeCode(s) + rest, parameters + ("]" + rest);
    CodeParts(s, rest);
    NameMatches(s.kind, parameters, rest);
    assert |EncodeCode(s)| == 5 + |s.kind| + |parameters|;
  }

  lemma CodeParts(s: Segment, rest: string)
    ensures EncodeCode(s) + rest == "[CQ:" + (s.kind + (EncodeParameters(s.data) + ("]" + rest)))
    ensures (EncodeCode(s) + rest)[|EncodeCode(s)|..] == rest
  {
    hide EncodeParameters;
    var parameters := EncodeParameters(s.data);
    assert (parameters + "]") + rest == parameters + ("]" + rest);
    assert (s.kind + (parameters + "]")) + rest == s.kind + (parameters + ("]" + rest));
  }

  lemma NameMatches(kind: string, parameters: string, rest: string)
    requires IsName(kind) && ']' !in parameters && (parameters != "" ==> parameters[0] == ',')
    ensures MatchHere("[CQ:" + (kind + (parameters + ("]" + rest)))) == Some(Match(kind, parameters, 5 + |kind| + |parameters|))
  {
    hide MatchName;
    var tail := parameters + ("]" + rest);
    var text := "[CQ:" + (kind + tail);
    assert text[..4] == "[CQ:" && text[4..] == kind + tail;
    NameEnds(kind, parameters, rest);
  }

  lemma NameEnds(kind: string, parameters: string, rest: string)
    requires IsName(kind) && ']' !in parameters && (parameters != "" ==> parameters[0] == ',')
    ensures MatchName(kind + (parameters + ("]" + rest))) == Some(Match(kind, parameters, 5 + |kind| + |parameters|))
  {
    hide NameLength, IndexOf;
    var tail := parameters + ("]" + rest);
    assert tail[0] == if parameters == "" then ']' else ',';
    NameRun(kind, tail);
    assert (kind + tail)[..|kind|] == kind;
    assert (kind + tail)[|kind|..] == tail && (kind + tail)[|kind|] == tail[0];
    if parameters != "" {
      IndexAfter(parameters, ']', rest);
      assert tail == parameters + [']'] + rest;
      assert tail[..|parameters|] == parameters;
    }
  }

  lemma ParametersStart(data: seq<Parameter>)
    ensures data == [] <==> EncodeParameters(data) == ""
    ensures data != [] ==> EncodeParameters(data)[0] == ','
  {
  }

  // ---------------------------------------------------------------- reading parameters back

  lemma {:induction false} SetAppends(data: seq<Parameter>, key: string, value: string)
    requires forall i | 0 <= i < |data| :: data[i].key != key
    ensures SetKey(data, key, value) == data + [Parameter(key, value)]
  {
    if data != [] { SetAppends(data[1..], key, value); }
  }

  lemma AddEncoded(data: seq<Parameter>, p: Parameter)
    requires IsKey(p.key) && forall i | 0 <= i < |data| :: data[i].key != p.key
    ensures AddParameter(data, EncodeParameter(p)) == data + [p]
  {
    hide IndexOf, SetKey;
    var raw := EncodeParameter(p);
    EscapeOnePass(p.value);
    UnescapeOnePass(EscapeParameter(p.value));
    UnescapeEscape(p.value, PARAMETER);
    assert raw == p.key + ['='] + EscapeParameter(p.value);
    IndexAfter(p.key, '=', EscapeParameter(p.value));
    assert raw[..|p.key|] == p.key && raw[|p.key| + 1..] == EscapeParameter(p.value);
    hide EscapeParameter, UnescapeParameter;
    SetAppends(data, p.key, p.value);
  }

  function Parts(data: seq<Parameter>): seq<string> {
    if data == [] then [] else [EncodeParameter(data[0])] + Parts(data[1..])
  }

  /** A list of parameters, without its leading comma, splits into its parameters. */
  lemma {:induction false} SplitEncoded(data: seq<Parameter>)
    requires data != [] && forall i | 0 <= i < |data| :: IsKey(data[i].key)
    ensures EncodeParameters(data) != "" && Split(EncodeParameters(data)[1..]) == Parts(data)
  {
    hide EncodeParameter, IsKey, IndexOf, Split;
    var p, more := EncodeParameter(data[0]), EncodeParameters(data[1..]);
    assert EncodeParameters(data)[1..] == p + more;
    NoComma(data[0]);
    if |data| == 1 {
      assert p + more == p && Parts(data) == [p];
      SplitLast(p);
    } else {
      SplitEncoded(data[1..]);
      ParametersStart(data[1..]);
      assert p + more == p + [','] + more[1..];
      SplitFirst(p, more[1..]);
    }
  }

  lemma NoComma(p: Parameter)
    requires IsKey(p.key)
    ensures ',' !in EncodeParameter(p)
  {
    EscapeOnePass(p.value);
    EscapedIsClean(p.value, PARAMETER);
    hide EscapeParameter, Escape;
  }

  lemma SplitLast(p: string)
    requires ',' !in p
    ensures Split(p) == [p]
  {
  }

  lemma SplitFirst(p: string, rest: string)
    requires ',' !in p
    ensures Split(p + [','] + rest) == [p] + Split(rest)
  {
    hide IndexOf;
    IndexAfter(p, ',', rest);
    assert (p + [','] + rest)[..|p|] == p && (p + [','] + rest)[|p| + 1..] == rest;
  }

  lemma {:induction false} AddAll(before: seq<Parameter>, data: seq<Parameter>)
    requires DistinctKeys(before + data) && forall i | 0 <= i < |data| :: IsKey(data[i].key)
    ensures AddParameters(before, Parts(data)) == before + data
    decreases |data|
  {
    hide EncodeParameter, IsKey, AddParameter;
    if data == [] {
      assert before + data == before;
    } else {
      forall i | 0 <= i < |before| ensures before[i].key != data[0].key {
        assert (before + data)[i] == before[i] && (before + data)[|before|] == data[0];
      }
      AddEncoded(before, data[0]);
      assert before + data == before + [data[0]] + data[1..];
      assert Parts(data)[1..] == Parts(data[1..]);
      AddAll(before + [data[0]], data[1..]);
    }
  }

  lemma ParametersReadBack(data: seq<Parameter>)
    requires DistinctKeys(data) && forall i | 0 <= i < |data| :: IsKey(data[i].key)
    ensures ParseParameters(EncodeParameters(data)) == data
  {
    ParametersStart(data);
    hide IsKey, EncodeParameters, EncodeParameter, Split, AddParameters;
    if data != [] {
      SplitEncoded(data);
      assert [] + data == data;
      AddAll([], data);
    }
  }

  // ---------------------------------------------------------------- round trips

  lemma EscapeBoth(a: string, b: string)
    ensures EscapeText(a) + EscapeText(b) == EscapeText(a + b) && '[' !in EscapeText(a)
    ensures UnescapeText(EscapeText(a)) == a && (EscapeText(a) == "" <==> a == "")
  {
    EscapeOnePass(a);
    EscapeOnePass(b);
    EscapeOnePass(a + b);
    EscapeAppend(a, b, TEXT);
    EscapedIsClean(a, TEXT);
    UnescapeOnePass(EscapeText(a));
    UnescapeEscape(a, TEXT);
    hide Escape, Unescape, EscapeText, UnescapeText;
    assert a == "" ==> Escape(a, TEXT) == "" by { EscapeEmpty(); }
  }

  lemma EscapeEmpty()
    ensures Escape("", TEXT) == ""
  {
  }

  lemma {:induction false} ParseEncoded(before: string, segments: seq<Segment>)
    requires WellFormed(segments)
    ensures Parse(EscapeText(before) + Encode(segments)) == Merge(before, segments)
    decreases |segments|
  {
    hide EscapeText, UnescapeText, Parse, FirstMatch, MatchHere, WellFormedSegment, ParseParameters, EncodeParameters;
    EscapeBoth(before, "");
    if segments == [] {
      assert EscapeText(before) + Encode(segments) == EscapeText(before);
      assert EscapeText(before) + "" == EscapeText(before);
      NoCodeInText(EscapeText(before), "");
      NoCodeInNothing();
      ParseSteps(EscapeText(before));
    } else {
      var s, rest := segments[0], Encode(segments[1..]);
      assert WellFormed(segments[1..]);
      if s.kind == "text" {
        EscapeBoth(before, TextValue(s));
        assert EscapeText(before) + Encode(segments) == EscapeText(before + TextValue(s)) + rest;
        ParseEncoded(before + TextValue(s), segments[1..]);
      } else {
        ParseCode(before, s, rest);
        ParseEncoded("", segments[1..]);
        EscapeBoth("", "");
        assert EscapeText("") + rest == rest;
        assert EscapeText(before) + Encode(segments) == EscapeText(before) + (EncodeCode(s) + rest);
      }
    }
  }

  lemma NoCodeInNothing()
    ensures FirstMatch("") == None
  {
  }

  /** A text, then a code: the parser takes both and goes on behind the code. */
  lemma ParseCode(before: string, s: Segment, rest: string)
    requires WellFormedSegment(s) && s.kind != "text"
    ensures Parse(EscapeText(before) + (EncodeCode(s) + rest)) == Texts(before) + [s] + Parse(rest)
  {
    hide EscapeText, UnescapeText, Parse, FirstMatch, MatchHere, ParseParameters, EncodeParameters, IsKey;
    EscapeBoth(before, "");
    var text, code := EscapeText(before), EncodeCode(s) + rest;
    CodeMatches(s, rest);
    MatchIsFirst(code);
    NoCodeInText(text, code);
    ParseSteps(text + code);
    ParametersReadBack(s.data);
    assert (text + code)[..|text|] == text && (text + code)[|text|..] == code;
  }

  lemma MatchIsFirst(s: string)
    requires MatchHere(s).Some?
    ensures FirstMatch(s) == Some(0)
  {
    hide MatchHere;
  }

  /** Parsing an encoding gives the segments back, with adjacent texts merged and empty ones dropped. */
  lemma ParseUndoesEncode(segments: seq<Segment>)
    requires WellFormed(segments)
    ensures Parse(Encode(segments)) == Normalize(segments)
  {
    ParseEncoded("", segments);
    EscapeBoth("", "");
    assert EscapeText("") + Encode(segments) == Encode(segments);
  }

  // ---------------------------------------------------------------- every string

  lemma {:induction false} SetKeepsKeys(data: seq<Parameter>, key: string, value: string)
    requires DistinctKeys(data)
    ensures DistinctKeys(SetKey(data, key, value))
    ensures forall p | p in SetKey(data, key, value) :: p.key == key || exists q :: q in data && q.key == p.key
  {
    if data != [] && data[0].key != key {
      SetKeepsKeys(data[1..], key, value);
      var rest := SetKey(data[1..], key, value);
      forall k | 0 <= k < |rest| ensures rest[k].key != data[0].key {
        assert rest[k] in rest;
        if rest[k].key != key {
          var q :| q in data[1..] && q.key == rest[k].key;
          var i :| 0 <= i < |data[1..]| && data[1..][i] == q;
          assert data[i + 1] == q;
        }
      }
      forall p | p in SetKey(data, key, value) ensures p.key == key || exists q :: q in data && q.key == p.key {
        if p != data[0] && p.key != key {
          assert p in rest;
          var q :| q in data[1..] && q.key == p.key;
          assert q in data;
        } else if p == data[0] {
          assert data[0] in data;
        }
      }
    }
  }

  ghost predicate GoodData(data: seq<Parameter>) {
    DistinctKeys(data) && forall p | p in data :: IsKey(p.key)
  }

  lemma AddIsGood(data: seq<Parameter>, raw: string)
    requires GoodData(data) && ',' !in raw && ']' !in raw
    ensures GoodData(AddParameter(data, raw))
  {
    hide UnescapeParameter, SetKey, DistinctKeys;
    match IndexOf(raw, '=')
    case None =>
    case Some(i) =>
      if i > 0 {
        assert IsKey(raw[..i]);
        hide IsKey;
        SetKeepsKeys(data, raw[..i], UnescapeParameter(raw[i + 1..]));
      }
  }

  lemma {:induction false} SplitIsClean(s: string)
    requires ']' !in s
    ensures forall part | part in Split(s) :: ',' !in part && ']' !in part
    decreases |s|
  {
    hide IndexOf;
    match IndexOf(s, ',')
    case None =>
    case Some(i) =>
      assert ',' !in s[..i] && ']' !in s[..i] && ']' !in s[i + 1..];
      SplitIsClean(s[i + 1..]);
  }

  lemma {:induction false} AddAllIsGood(data: seq<Parameter>, parts: seq<string>)
    requires GoodData(data) && forall part | part in parts :: ',' !in part && ']' !in part
    ensures GoodData(AddParameters(data, parts))
    decreases |parts|
  {
    hide GoodData, AddParameter;
    if parts != [] {
      assert parts[0] in parts;
      AddIsGood(data, parts[0]);
      AddAllIsGood(AddParameter(data, parts[0]), parts[1..]);
    }
  }

  lemma ParsedCodeIsGood(s: string)
    requires MatchHere(s).Some?
    ensures IsName(MatchHere(s).value.kind) && GoodData(ParseParameters(MatchHere(s).value.parameters))
  {
    var raw := MatchHere(s).value.parameters;
    assert ']' !in raw && IsName(MatchHere(s).value.kind);
    hide MatchHere, AddParameters, Split;
    if raw != "" {
      assert ']' !in raw[1..];
      SplitIsClean(raw[1..]);
      AddAllIsGood([], Split(raw[1..]));
    }
  }

  lemma {:induction false} ParsedIsWellFormed(s: string)
    ensures WellFormed(Parse(s))
    decreases |s|
  {
    hide MatchHere, FirstMatch, ParseParameters, UnescapeText, IsName, IsKey, DistinctKeys;
    ParseSteps(s);
    match FirstMatch(s)
    case None =>
    case Some(i) =>
      ParsedCodeIsGood(s[i..]);
      ParsedIsWellFormed(s[i..][MatchHere(s[i..]).value.length..]);
  }

  /** For every string, encoding and parsing its segments again changes no more than merging texts does. */
  lemma ReparseIsStable(s: string)
    ensures Parse(Encode(Parse(s))) == Normalize(Parse(s))
  {
    ParsedIsWellFormed(s);
    ParseUndoesEncode(Parse(s));
  }
}

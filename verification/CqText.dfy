/**
 CQ escaping. The source escapes and unescapes by chains of whole-string replacements; here each
 chain is proved equal to one pass over the characters, and unescaping undoes escaping.
 */
module CqText {

  predicate StartsWith(s: string, p: string) {
    |p| <= |s| && s[..|p|] == p
  }

  lemma StartsCons(s: string, w: string)
    requires s != "" && w != ""
    ensures StartsWith(s, w) <==> s[0] == w[0] && StartsWith(s[1..], w[1..])
  {
    if StartsWith(s[1..], w[1..]) && s[0] == w[0] {
      assert s[..|w|] == [s[0]] + s[1..][..|w| - 1];
      assert w == [w[0]] + w[1..];
    }
  }

  /** `s.replaceAll(find, put)` for a non-empty text to find. */
  function ReplaceAll(s: string, find: string, put: string): string
    requires find != ""
  {
    if s == "" then ""
    else if StartsWith(s, find) then put + ReplaceAll(s[|find|..], find, put)
    else [s[0]] + ReplaceAll(s[1..], find, put)
  }

  function EscapeText(s: string): string {
    ReplaceAll(ReplaceAll(ReplaceAll(s, "&", "&amp;"), "[", "&#91;"), "]", "&#93;")
  }

  function EscapeParameter(s: string): string {
    ReplaceAll(EscapeText(s), ",", "&#44;")
  }

  function UnescapeText(s: string): string {
    ReplaceAll(ReplaceAll(ReplaceAll(s, "&#91;", "["), "&#93;", "]"), "&amp;", "&")
  }

  function UnescapeParameter(s: string): string {
    UnescapeText(ReplaceAll(s, "&#44;", ","))
  }

  // ---------------------------------------------------------------- escaping, one pass

  datatype Entity = Ampersand | Open | Close | Comma

  function TextOf(e: Entity): string {
    match e
    case Ampersand => "&amp;"
    case Open => "&#91;"
    case Close => "&#93;"
    case Comma => "&#44;"
  }

  function CharOf(e: Entity): char {
    match e
    case Ampersand => '&'
    case Open => '['
    case Close => ']'
    case Comma => ','
  }

  predicate Escaped(c: char, es: set<Entity>) {
    (c == '&' && Ampersand in es) || (c == '[' && Open in es) || (c == ']' && Close in es) || (c == ',' && Comma in es)
  }

  function EscapeChar(c: char, es: set<Entity>): string {
    if !Escaped(c, es) then [c]
    else if c == '&' then TextOf(Ampersand) else if c == '[' then TextOf(Open) else if c == ']' then TextOf(Close) else TextOf(Comma)
  }

  function Escape(s: string, es: set<Entity>): string {
    if s == "" then "" else EscapeChar(s[0], es) + Escape(s[1..], es)
  }

  /** Replacing a run of characters none of which is the one to find changes nothing. */
  lemma {:induction false} ReplaceBeside(s: string, c: char, put: string, rest: string)
    requires c !in s
    ensures ReplaceAll(s + rest, [c], put) == s + ReplaceAll(rest, [c], put)
  {
    if s == "" {
      assert s + rest == rest;
    } else {
      ReplaceBeside(s[1..], c, put, rest);
      assert (s + rest)[1..] == s[1..] + rest;
      assert !StartsWith(s + rest, [c]);
    }
  }

  /** One more replacement escapes one more character, as long as the ampersand was escaped before. */
  lemma {:induction false} EscapeMore(s: string, es: set<Entity>, e: Entity)
    requires Ampersand in es && e !in es
    ensures ReplaceAll(Escape(s, es), [CharOf(e)], TextOf(e)) == Escape(s, es + {e})
  {
    if s != "" {
      var c := s[0];
      EscapeMore(s[1..], es, e);
      if c == CharOf(e) {
        assert EscapeChar(c, es) == [c] && EscapeChar(c, es + {e}) == TextOf(e);
        assert Escape(s, es)[1..] == Escape(s[1..], es);
      } else {
        assert EscapeChar(c, es + {e}) == EscapeChar(c, es);
        ReplaceBeside(EscapeChar(c, es), CharOf(e), TextOf(e), Escape(s[1..], es));
      }
    }
  }

  lemma {:induction false} EscapeFirst(s: string)
    ensures ReplaceAll(s, "&", "&amp;") == Escape(s, {Ampersand})
  {
    if s != "" {
      EscapeFirst(s[1..]);
      assert StartsWith(s, "&") <==> s[0] == '&';
    }
  }

  const TEXT: set<Entity> := {Ampersand, Open, Close}
  const PARAMETER: set<Entity> := {Ampersand, Open, Close, Comma}

  lemma EscapeOnePass(s: string)
    ensures EscapeText(s) == Escape(s, TEXT) && EscapeParameter(s) == Escape(s, PARAMETER)
  {
    EscapeFirst(s);
    EscapeMore(s, {Ampersand}, Open);
    EscapeMore(s, {Ampersand, Open}, Close);
    EscapeMore(s, TEXT, Comma);
    assert {Ampersand, Open} + {Close} == TEXT && {Ampersand} + {Open} == {Ampersand, Open} && TEXT + {Comma} == PARAMETER;
  }

  lemma {:induction false} EscapeAppend(s: string, t: string, es: set<Entity>)
    ensures Escape(s + t, es) == Escape(s, es) + Escape(t, es)
  {
    if s == "" {
      assert s + t == t;
    } else {
      EscapeAppend(s[1..], t, es);
      assert (s + t)[1..] == s[1..] + t;
    }
  }

  /** An escaped text holds none of the characters that were escaped, but for the ampersand. */
  lemma {:induction false} EscapedIsClean(s: string, es: set<Entity>)
    ensures Open in es ==> '[' !in Escape(s, es)
    ensures Close in es ==> ']' !in Escape(s, es)
    ensures Comma in es ==> ',' !in Escape(s, es)
    ensures |Escape(s, es)| >= |s|
  {
    if s != "" { EscapedIsClean(s[1..], es); }
  }

  // ---------------------------------------------------------------- unescaping, one pass

  /** The first decoded character and how much text it takes. */
  function Head(s: string, es: set<Entity>): (r: (char, nat))
    requires s != ""
    ensures 1 <= r.1 <= |s|
  {
    if Ampersand in es && StartsWith(s, TextOf(Ampersand)) then ('&', 5)
    else if Open in es && StartsWith(s, TextOf(Open)) then ('[', 5)
    else if Close in es && StartsWith(s, TextOf(Close)) then (']', 5)
    else if Comma in es && StartsWith(s, TextOf(Comma)) then (',', 5)
    else (s[0], 1)
  }

  /** One left-to-right decode of the entities in `es`. */
  function Unescape(s: string, es: set<Entity>): string {
    if s == "" then "" else [Head(s, es).0] + Unescape(s[Head(s, es).1..], es)
  }

  lemma {:induction false} UnescapeNone(s: string)
    ensures Unescape(s, {}) == s
  {
    if s != "" { UnescapeNone(s[1..]); }
  }

  /** Characters that are neither `&` nor written by an entity come out only where they went in. */
  lemma {:induction false} PlainPrefix(s: string, es: set<Entity>, w: string)
    requires es <= {Open, Close, Comma}
    requires forall i | 0 <= i < |w| :: w[i] !in {'&', '[', ']', ','}
    ensures StartsWith(Unescape(s, es), w) <==> StartsWith(s, w)
    ensures StartsWith(s, w) ==> Unescape(s, es) == w + Unescape(s[|w|..], es)
  {
    if w != "" && s != "" {
      var c, n := Head(s, es).0, Head(s, es).1;
      EntityStarts(s);
      assert n > 1 ==> s[0] == '&' && c in {'[', ']', ','};
      assert n == 1 ==> c == s[0];
      hide Head;
      assert Unescape(s, es)[1..] == Unescape(s[n..], es);
      StartsCons(s, w);
      StartsCons(Unescape(s, es), w);
      hide StartsWith;
      if n == 1 {
        PlainPrefix(s[1..], es, w[1..]);
        assert w == [w[0]] + w[1..];
        if StartsWith(s, w) { PlainRest(s, es, w); }
      }
    }
  }

  lemma PlainRest(s: string, es: set<Entity>, w: string)
    requires s != "" && w != "" && |w| <= |s|
    ensures s[1..][|w[1..]|..] == s[|w|..]
  {
  }

  lemma EntityStarts(s: string)
    ensures forall e | StartsWith(s, TextOf(e)) :: s[0] == '&' && |s| >= 5
  {
    forall e | StartsWith(s, TextOf(e)) ensures s[0] == '&' && |s| >= 5 {
      assert s[..5] == TextOf(e) && s[..5][0] == s[0];
    }
  }

  /** One more replacement decodes one more entity, as long as the ampersand comes last. */
  lemma {:induction false} UnescapeMore(s: string, es: set<Entity>, e: Entity)
    requires es <= {Open, Close, Comma} && e !in es
    ensures ReplaceAll(Unescape(s, es), TextOf(e), [CharOf(e)]) == Unescape(s, es + {e})
    decreases |s|
  {
    if s != "" {
      var u := Unescape(s, es);
      var n := Head(s, es).1;
      EntityHead(s, es, e);
      if StartsWith(s, TextOf(e)) {
        assert s[1..][4..] == s[5..];
        UnescapeMore(s[5..], es, e);
        assert u[5..] == Unescape(s[5..], es);
      } else {
        UnescapeMore(s[n..], es, e);
        assert u[1..] == Unescape(s[n..], es);
      }
    }
  }

  lemma EntityHead(s: string, es: set<Entity>, e: Entity)
    requires es <= {Open, Close, Comma} && e !in es && s != ""
    ensures StartsWith(Unescape(s, es), TextOf(e)) <==> StartsWith(s, TextOf(e))
    ensures StartsWith(s, TextOf(e)) ==> |s| >= 5 && Unescape(s, es) == TextOf(e) + Unescape(s[5..], es) && Head(s, es + {e}) == (CharOf(e), 5)
    ensures !StartsWith(s, TextOf(e)) ==> Head(s, es + {e}) == Head(s, es)
  {
    hide Head, CharOf, TextOf, StartsWith, Unescape;
    HeadCases(s, es, e);
    EntityShape(e);
    UnescapeSplit(s, es);
    StartsCons(s, TextOf(e));
    StartsCons(Unescape(s, es), TextOf(e));
    if Head(s, es).1 == 1 {
      PlainPrefix(s[1..], es, TextOf(e)[1..]);
      if StartsWith(s, TextOf(e)) {
        LongEnough(s, TextOf(e));
        PlainRest(s, es, TextOf(e));
        Regroup(TextOf(e), Unescape(s[5..], es));
      }
    }
  }

  lemma UnescapeSplit(s: string, es: set<Entity>)
    requires s != ""
    ensures Unescape(s, es) != "" && Unescape(s, es)[0] == Head(s, es).0
    ensures Unescape(s, es)[1..] == Unescape(s[Head(s, es).1..], es)
    ensures Unescape(s, es) == [Head(s, es).0] + Unescape(s[Head(s, es).1..], es)
  {
    hide Head;
  }

  lemma Regroup(w: string, rest: string)
    requires w != ""
    ensures [w[0]] + (w[1..] + rest) == w + rest
  {
  }

  lemma LongEnough(s: string, w: string)
    ensures StartsWith(s, w) ==> |s| >= |w|
  {
  }

  lemma EntityShape(e: Entity)
    ensures |TextOf(e)| == 5 && TextOf(e)[0] == '&' && TextOf(e) == ['&'] + TextOf(e)[1..]
    ensures forall i | 1 <= i < 5 :: TextOf(e)[i] !in {'&', '[', ']', ','}
  {
  }

  lemma HeadCases(s: string, es: set<Entity>, e: Entity)
    requires es <= {Open, Close, Comma} && e !in es && s != ""
    ensures var n := Head(s, es).1;
            && (n > 1 ==> Head(s, es).0 != '&' && !StartsWith(s, TextOf(e))) && (n == 1 ==> Head(s, es) == (s[0], 1))
    ensures Head(s, es + {e}) == if StartsWith(s, TextOf(e)) then (CharOf(e), 5) else Head(s, es)
  {
    OneEntity(s);
    hide StartsWith, TextOf;
  }

  /** Entities differ, so a text starts with at most one of them. */
  lemma OneEntity(s: string)
    ensures forall e, f | StartsWith(s, TextOf(e)) && StartsWith(s, TextOf(f)) :: e == f
  {
    forall e, f | StartsWith(s, TextOf(e)) && StartsWith(s, TextOf(f)) ensures e == f {
      assert |TextOf(e)| == 5 && |TextOf(f)| == 5;
      assert TextOf(e) == s[..5] == TextOf(f);
      assert TextOf(e)[1] == TextOf(f)[1] && TextOf(e)[2] == TextOf(f)[2] && TextOf(e)[3] == TextOf(f)[3];
    }
  }

  /** The chained replacements are a single left-to-right decode. */
  lemma UnescapeOnePass(s: string)
    ensures UnescapeText(s) == Unescape(s, TEXT) && UnescapeParameter(s) == Unescape(s, PARAMETER)
  {
    UnescapeNone(s);
    UnescapeMore(s, {}, Open);
    UnescapeMore(s, {Open}, Close);
    UnescapeMore(s, {Open, Close}, Ampersand);
    UnescapeMore(s, {}, Comma);
    UnescapeMore(s, {Comma}, Open);
    UnescapeMore(s, {Comma, Open}, Close);
    UnescapeMore(s, {Comma, Open, Close}, Ampersand);
    assert {} + {Open} == {Open} && {Open} + {Close} == {Open, Close} && {Open, Close} + {Ampersand} == TEXT;
    assert {} + {Comma} == {Comma} && {Comma} + {Open} == {Comma, Open} && {Comma, Open} + {Close} == {Comma, Open, Close};
    assert {Comma, Open, Close} + {Ampersand} == PARAMETER;
  }

  /** Decoding undoes encoding, for any text that escapes the ampersand. */
  lemma {:induction false} UnescapeEscape(s: string, es: set<Entity>)
    requires Ampersand in es
    ensures Unescape(Escape(s, es), es) == s
  {
    if s != "" {
      UnescapeEscape(s[1..], es);
      EscapedHead(s[0], es, Escape(s[1..], es));
    }
  }

  lemma EscapedHead(c: char, es: set<Entity>, rest: string)
    requires Ampersand in es
    ensures var t := EscapeChar(c, es) + rest;
            Head(t, es) == (c, |EscapeChar(c, es)|) && t[|EscapeChar(c, es)|..] == rest
  {
    var t := EscapeChar(c, es) + rest;
    OneEntity(t);
    EntityStarts(t);
    assert t[..|EscapeChar(c, es)|] == EscapeChar(c, es) && t[|EscapeChar(c, es)|..] == rest;
    if Escaped(c, es) {
      var e := if c == '&' then Ampersand else if c == '[' then Open else if c == ']' then Close else Comma;
      assert EscapeChar(c, es) == TextOf(e) && |TextOf(e)| == 5 && e in es && CharOf(e) == c;
      assert StartsWith(t, TextOf(e));
    } else {
      assert t[0] == c != '&';
    }
  }
}

/**
 Session ids of external conversations: a text built from the percent-encoded parts of a route.
 Distinct routes never share a session id.
 */
module SessionKey {
  import opened Common

  datatype ConversationKind = Direct | Group | Channel

  datatype Route = Route(channelId: string, conversationKind: ConversationKind, conversationId: string, threadId: Option<string>)

  function KindText(kind: ConversationKind): string {
    match kind
    case Direct => "direct"
    case Group => "group"
    case Channel => "channel"
  }

  /** The characters `encodeURIComponent` leaves alone. */
  predicate Unreserved(c: char) {
    || 'A' <= c <= 'Z' || 'a' <= c <= 'z' || '0' <= c <= '9'
    || c in {'-', '_', '.', '!', '~', '*', '\'', '(', ')'}
  }

  /** UTF-8 bytes of a scalar value. */
  function Utf8(c: char): (bytes: seq<nat>)
    ensures bytes != [] && forall i | 0 <= i < |bytes| :: bytes[i] < 256
  {
    var n := c as nat;
    if n < 0x80 then [n]
    else if n < 0x800 then [0xC0 + n / 0x40, 0x80 + n % 0x40]
    else if n < 0x10000 then [0xE0 + n / 0x1000, 0x80 + n / 0x40 % 0x40, 0x80 + n % 0x40]
    else [0xF0 + n / 0x40000, 0x80 + n / 0x1000 % 0x40, 0x80 + n / 0x40 % 0x40, 0x80 + n % 0x40]
  }

  function HexDigit(n: nat): char
    requires n < 16
  {
    if n < 10 then '0' + n as char else 'A' + (n - 10) as char
  }

  /** Section 2.1 of RFC 3986. */
  function Percent(bytes: seq<nat>): string
    requires forall i | 0 <= i < |bytes| :: bytes[i] < 256
  {
    if bytes == [] then "" else ['%', HexDigit(bytes[0] / 16), HexDigit(bytes[0] % 16)] + Percent(bytes[1..])
  }

  function EncodeChar(c: char): string {
    if Unreserved(c) then [c] else Percent(Utf8(c))
  }

  function Encode(s: string): string {
    if s == "" then "" else EncodeChar(s[0]) + Encode(s[1..])
  }

  /** `channel:<channel>:<kind>:<conversation>`, and `:thread:<thread>` for a thread. */
  function SessionIdFor(route: Route): string {
    "channel:" + (Encode(route.channelId) + (":" + KindAndRest(route)))
  }

  function KindAndRest(r: Route): string {
    KindText(r.conversationKind) + (":" + ConversationAndThread(r))
  }

  function ConversationAndThread(r: Route): string {
    Encode(r.conversationId) + ThreadText(r)
  }

  function ThreadText(r: Route): string {
    if r.threadId.None? then "" else ":thread:" + Encode(r.threadId.value)
  }

  // ---------------------------------------------------------------- decoding

  function Utf8Value(bytes: seq<int>): int {
    match |bytes|
    case 1 => bytes[0]
    case 2 => (bytes[0] - 0xC0) * 0x40 + (bytes[1] - 0x80)
    case 3 => (bytes[0] - 0xE0) * 0x1000 + (bytes[1] - 0x80) * 0x40 + (bytes[2] - 0x80)
    case 4 => (bytes[0] - 0xF0) * 0x40000 + (bytes[1] - 0x80) * 0x1000 + (bytes[2] - 0x80) * 0x40 + (bytes[3] - 0x80)
    case _ => 0
  }

  lemma Sixty4(n: nat)
    ensures n == n / 0x40 * 0x40 + n % 0x40 && n / 0x40 / 0x40 == n / 0x1000 && n / 0x1000 / 0x40 == n / 0x40000
  {
  }

  lemma Utf8Length(c: char)
    ensures var first := Utf8(c)[0]; |Utf8(c)| == if first < 0x80 then 1 else if first < 0xE0 then 2 else if first < 0xF0 then 3 else 4
  {
  }

  lemma Utf8Decodes(c: char)
    ensures Utf8Value(Utf8(c)) == c as int
  {
    var n := c as nat;
    Sixty4(n);
    Sixty4(n / 0x40);
    Sixty4(n / 0x1000);
    var a, b, d := n / 0x40, n / 0x1000, n / 0x40000;
    var r, q, p := n % 0x40, a % 0x40, b % 0x40;
    if 0x800 <= n < 0x10000 {
      assert Utf8(c) == [0xE0 + b, 0x80 + q, 0x80 + r];
    } else if 0x10000 <= n {
      assert Utf8(c) == [0xF0 + d, 0x80 + p, 0x80 + q, 0x80 + r];
    }
  }

  lemma Utf8Injective(c: char, d: char)
    requires Utf8(c) == Utf8(d)
    ensures c == d
  {
    Utf8Decodes(c);
    Utf8Decodes(d);
    hide Utf8, Utf8Value;
  }

  lemma {:induction false} PercentLength(bytes: seq<nat>)
    requires forall i | 0 <= i < |bytes| :: bytes[i] < 256
    ensures |Percent(bytes)| == 3 * |bytes|
  {
    if bytes != [] { PercentLength(bytes[1..]); }
  }

  lemma {:induction false} PercentInjective(a: seq<nat>, b: seq<nat>)
    requires (forall i | 0 <= i < |a| :: a[i] < 256) && (forall i | 0 <= i < |b| :: b[i] < 256)
    requires |a| == |b| && Percent(a) == Percent(b)
    ensures a == b
  {
    if a != [] {
      FirstByte(a, b, "", "");
      assert Percent(a)[3..] == Percent(a[1..]) && Percent(b)[3..] == Percent(b[1..]);
      PercentInjective(a[1..], b[1..]);
      assert a == [a[0]] + a[1..] && b == [b[0]] + b[1..];
    }
  }

  lemma FirstByte(a: seq<nat>, b: seq<nat>, u: string, v: string)
    requires (forall i | 0 <= i < |a| :: a[i] < 256) && (forall i | 0 <= i < |b| :: b[i] < 256)
    requires a != [] && b != [] && Percent(a) + u == Percent(b) + v
    ensures a[0] == b[0]
  {
    var x, y := Percent(a) + u, Percent(b) + v;
    assert x[1] == Percent(a)[1] == HexDigit(a[0] / 16) && x[2] == Percent(a)[2] == HexDigit(a[0] % 16);
    assert y[1] == Percent(b)[1] == HexDigit(b[0] / 16) && y[2] == Percent(b)[2] == HexDigit(b[0] % 16);
  }

  lemma EncodeCharStart(c: char, u: string)
    ensures EncodeChar(c) != "" && (EncodeChar(c) + u)[0] == EncodeChar(c)[0] && EncodeChar(c)[0] != ':'
    ensures EncodeChar(c)[0] == '%' <==> !Unreserved(c)
  {
    hide Utf8;
  }

  /** The encodings of characters are prefix-free. */
  lemma EncodeCharDecode(c: char, d: char, u: string, v: string)
    requires EncodeChar(c) + u == EncodeChar(d) + v
    ensures c == d && u == v
  {
    hide Utf8, Utf8Value, Percent;
    EncodeCharStart(c, u);
    EncodeCharStart(d, v);
    if !Unreserved(c) {
      FirstByte(Utf8(c), Utf8(d), u, v);
      Utf8Length(c);
      Utf8Length(d);
      PercentLength(Utf8(c));
      PercentLength(Utf8(d));
    }
    hide Unreserved;
    assert EncodeChar(c) == (EncodeChar(c) + u)[..|EncodeChar(c)|] && EncodeChar(d) == (EncodeChar(d) + v)[..|EncodeChar(d)|];
    assert u == (EncodeChar(c) + u)[|EncodeChar(c)|..] && v == (EncodeChar(d) + v)[|EncodeChar(d)|..];
    if !Unreserved(c) {
      PercentInjective(Utf8(c), Utf8(d));
      Utf8Injective(c, d);
    }
  }

  predicate Stops(x: string) {
    x == "" || x[0] == ':'
  }

  lemma EncodeStart(s: string, x: string)
    ensures s != "" ==> Encode(s) + x != "" && (Encode(s) + x)[0] != ':'
    ensures s != "" ==> Encode(s) + x == EncodeChar(s[0]) + (Encode(s[1..]) + x)
  {
    hide EncodeChar;
    if s != "" {
      EncodeCharStart(s[0], Encode(s[1..]) + x);
      assert Encode(s) + x == EncodeChar(s[0]) + (Encode(s[1..]) + x);
    }
  }

  lemma {:induction false} EncodeDecode(s: string, t: string, x: string, y: string)
    requires Encode(s) + x == Encode(t) + y && Stops(x) && Stops(y)
    ensures s == t && x == y
  {
    hide EncodeChar;
    EncodeStart(s, x);
    EncodeStart(t, y);
    if s == "" || t == "" {
      assert s == "" ==> Encode(s) + x == x;
      assert t == "" ==> Encode(t) + y == y;
    } else {
      EncodeCharDecode(s[0], t[0], Encode(s[1..]) + x, Encode(t[1..]) + y);
      EncodeDecode(s[1..], t[1..], x, y);
      assert s == [s[0]] + s[1..] && t == [t[0]] + t[1..];
    }
  }

  lemma IdParts(r: Route)
    ensures |SessionIdFor(r)| >= 8 && SessionIdFor(r)[8..] == Encode(r.channelId) + (":" + KindAndRest(r))
  {
    hide Encode, KindAndRest;
    assert |"channel:"| == 8;
  }

  /** Two routes with the same session id are the same route. */
  lemma SessionIdInjective(a: Route, b: Route)
    ensures SessionIdFor(a) == SessionIdFor(b) <==> a == b
  {
    hide Encode, KindAndRest, SessionIdFor;
    if SessionIdFor(a) == SessionIdFor(b) {
      IdParts(a);
      IdParts(b);
      EncodeDecode(a.channelId, b.channelId, ":" + KindAndRest(a), ":" + KindAndRest(b));
      assert (":" + KindAndRest(a))[1..] == KindAndRest(a) && (":" + KindAndRest(b))[1..] == KindAndRest(b);
      KindDecode(a, b);
      assert ThreadText(a) != "" ==> ThreadText(a)[0] == ':';
      assert ThreadText(b) != "" ==> ThreadText(b)[0] == ':';
      EncodeDecode(a.conversationId, b.conversationId, ThreadText(a), ThreadText(b));
      if a.threadId.Some? {
        assert ThreadText(a)[8..] == Encode(a.threadId.value) + "" && ThreadText(b)[8..] == Encode(b.threadId.value) + "";
        EncodeDecode(a.threadId.value, b.threadId.value, "", "");
      }
    }
  }

  lemma KindDecode(a: Route, b: Route)
    requires KindAndRest(a) == KindAndRest(b)
    ensures a.conversationKind == b.conversationKind && ConversationAndThread(a) == ConversationAndThread(b)
  {
    hide ConversationAndThread;
    assert KindAndRest(a)[0] == KindText(a.conversationKind)[0] && KindAndRest(b)[0] == KindText(b.conversationKind)[0];
    var n := |KindText(a.conversationKind)| + 1;
    assert KindAndRest(a)[n..] == ConversationAndThread(a) && KindAndRest(b)[n..] == ConversationAndThread(b);
  }
}

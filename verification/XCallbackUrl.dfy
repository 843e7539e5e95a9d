/**
 x-callback-url printing and parsing (chrome/common/x_callback_url.cc).

 Assumed of the libraries it calls: a name or value is appended percent-encoded,
 upper-case hex, '+' for space, with the unreserved characters of section 2.3 of RFC 3986
 kept (AppendQueryParameter); a query is cut at '&', each piece at its first '=', and in a
 value '+' and the percent-encoded characters that may be shown are decoded, a character
 being an ASCII one or a well-formed UTF-8 sequence (QueryIterator). Which of !'()* stay
 as they are in the query of the finished URL, and which characters besides printable
 ASCII may be shown, is the library's choice: the theorems hold for every choice. For
 the rest the finished URL holds its query as it was appended.
 */
module XCallbackUrl {
  import opened Prelude

  type Text = string

  /** A std::string holds bytes. */
  predicate Bytes(s: Text) {
    forall i :: 0 <= i < |s| ==> s[i] as int < 256
  }

  datatype Pair = Pair(key: Text, value: Text)

  /** What the libraries are free to choose. */
  datatype Library = Library(
    keeps: char -> bool,    // which of !'()* are not encoded
    shows: Text -> bool)    // which characters that are not printable ASCII are decoded

  predicate Unreserved(c: char) {
    || 'a' <= c <= 'z' || 'A' <= c <= 'Z' || '0' <= c <= '9'
    || c == '-' || c == '.' || c == '_' || c == '~'
  }

  predicate Kept(lib: Library, c: char) {
    Unreserved(c) || ((c == '!' || c == '\'' || c == '(' || c == ')' || c == '*') && lib.keeps(c))
  }

  predicate Printable(c: char) {
    ' ' <= c <= '~'
  }

  predicate Shows(lib: Library, c: Text) {
    (|c| == 1 && Printable(c[0])) || lib.shows(c)
  }

  // ---- UTF-8, section 4 of RFC 3629 ----

  predicate In(s: Text, i: nat, low: nat, high: nat) {
    i < |s| && low <= s[i] as nat <= high
  }

  predicate ThreeBytes(s: Text) {
    && In(s, 2, 0x80, 0xBF)
    && (|| (In(s, 0, 0xE0, 0xE0) && In(s, 1, 0xA0, 0xBF))
        || (In(s, 0, 0xE1, 0xEC) && In(s, 1, 0x80, 0xBF))
        || (In(s, 0, 0xED, 0xED) && In(s, 1, 0x80, 0x9F))
        || (In(s, 0, 0xEE, 0xEF) && In(s, 1, 0x80, 0xBF)))
  }

  predicate FourBytes(s: Text) {
    && In(s, 2, 0x80, 0xBF) && In(s, 3, 0x80, 0xBF)
    && (|| (In(s, 0, 0xF0, 0xF0) && In(s, 1, 0x90, 0xBF))
        || (In(s, 0, 0xF1, 0xF3) && In(s, 1, 0x80, 0xBF))
        || (In(s, 0, 0xF4, 0xF4) && In(s, 1, 0x80, 0x8F)))
  }

  /** The length of the well-formed character a text starts with; zero if there is none. */
  function CharLength(s: Text): (k: nat)
    ensures k <= |s| && k <= 4
    ensures forall i :: 0 < i < k ==> s[i] as nat >= 0x80
  {
    if In(s, 0, 0, 0x7F) then 1
    else if In(s, 0, 0xC2, 0xDF) && In(s, 1, 0x80, 0xBF) then 2
    else if ThreeBytes(s) then 3
    else if FourBytes(s) then 4
    else 0
  }

  /** Well-formed UTF-8 made of characters that are decoded. */
  predicate Readable(lib: Library, s: Text)
    decreases |s|
  {
    s == [] || (CharLength(s) > 0 && Shows(lib, s[..CharLength(s)]) && Readable(lib, s[CharLength(s)..]))
  }

  /** Four bytes are enough to see a character, and an ASCII byte ends any other. */
  lemma CutCharLength(s: Text, m: nat)
    requires 0 < m <= |s| && (m == 4 || m == |s| || (m < 4 && s[m] as nat < 0x80))
    ensures CharLength(s[..m]) == CharLength(s)
  {
    assert forall i, low: nat, high: nat :: 0 <= i < m ==> (In(s[..m], i, low, high) <==> In(s, i, low, high));
    if m < 4 && m < |s| {
      assert forall high: nat :: !In(s, m, 0x80, high) && !In(s, m, 0x90, high) && !In(s, m, 0xA0, high);
    }
  }

  // ---- escaping ----

  function HexValue(c: char): (n: Option<nat>)
    ensures n.Some? ==> n.value < 16
  {
    if '0' <= c <= '9' then Some((c - '0') as nat)
    else if 'A' <= c <= 'F' then Some((c - 'A') as nat + 10)
    else if 'a' <= c <= 'f' then Some((c - 'a') as nat + 10)
    else None
  }

  function Hex(n: nat): (c: char)
    requires n < 16
    ensures HexValue(c) == Some(n)
  {
    if n < 10 then '0' + n as char else 'A' + (n - 10) as char
  }

  function EscapeOne(lib: Library, c: char): Text {
    if c == ' ' then ['+']
    else if Kept(lib, c) then [c]
    else ['%', Hex(c as nat / 16 % 16), Hex(c as nat % 16)]
  }

  function Escape(lib: Library, s: Text): Text {
    if s == [] then [] else EscapeOne(lib, s[0]) + Escape(lib, s[1..])
  }

  /** A percent sign and two hexadecimal digits. */
  predicate Triple(s: Text) {
    |s| >= 3 && s[0] == '%' && HexValue(s[1]).Some? && HexValue(s[2]).Some?
  }

  /** The bytes of up to `n` encoded bytes in a row. */
  function Lead(s: Text, n: nat): (b: Text)
    ensures |b| <= n && 3 * |b| <= |s|
    ensures 0 < n && Triple(s) ==> b != []
    decreases n
  {
    if n == 0 || !Triple(s) then []
    else [(16 * HexValue(s[1]).value + HexValue(s[2]).value) as char] + Lead(s[3..], n - 1)
  }

  /** A character that is not decoded, and a byte that starts none, stay encoded. */
  function Unescape(lib: Library, s: Text): Text
    decreases |s|
  {
    if s == [] then []
    else if s[0] == '+' then [' '] + Unescape(lib, s[1..])
    else if Triple(s) then
      var b := Lead(s, 4);
      var k := CharLength(b);
      if k == 0 then s[..3] + Unescape(lib, s[3..])
      else (if Shows(lib, b[..k]) then b[..k] else s[..3 * k]) + Unescape(lib, s[3 * k..])
    else [s[0]] + Unescape(lib, s[1..])
  }

  predicate AllPrintable(s: Text) {
    forall i :: 0 <= i < |s| ==> Printable(s[i])
  }

  predicate AllKept(lib: Library, s: Text) {
    forall i :: 0 <= i < |s| ==> Kept(lib, s[i])
  }

  lemma HexRoundTrip(c: char)
    requires c as int < 256
    ensures 16 * (c as nat / 16 % 16) + c as nat % 16 == c as nat
  {
    var hi := c as nat / 16;
    assert hi < 16 && hi % 16 == hi;
  }

  predicate Encoded(lib: Library, c: char) {
    c != ' ' && !Kept(lib, c)
  }

  /** The encoding of a text that starts with encoded characters only. */
  lemma {:induction false} EscapeSkip(lib: Library, s: Text, k: nat)
    requires k <= |s| && forall i :: 0 <= i < k ==> Encoded(lib, s[i])
    ensures 3 * k <= |Escape(lib, s)| && Escape(lib, s)[3 * k..] == Escape(lib, s[k..])
  {
    if k > 0 {
      assert forall i :: 0 <= i < k - 1 ==> s[1..][i] == s[i + 1];
      EscapeSkip(lib, s[1..], k - 1);
      assert |EscapeOne(lib, s[0])| == 3;
      assert Escape(lib, s)[3..] == Escape(lib, s[1..]);
      assert Escape(lib, s)[3 * k..] == Escape(lib, s)[3..][3 * (k - 1)..];
      assert s[1..][k - 1..] == s[k..];
    }
  }

  lemma EscapeTriple(lib: Library, s: Text)
    requires Bytes(s) && s != []
    ensures Triple(Escape(lib, s)) <==> Encoded(lib, s[0])
    ensures Encoded(lib, s[0]) ==> Escape(lib, s)[3..] == Escape(lib, s[1..])
    ensures Encoded(lib, s[0]) ==> 16 * HexValue(Escape(lib, s)[1]).value + HexValue(Escape(lib, s)[2]).value == s[0] as nat
  {
    assert Escape(lib, s)[0] == EscapeOne(lib, s[0])[0];
    if Encoded(lib, s[0]) {
      HexRoundTrip(s[0]);
      assert Escape(lib, s)[1] == EscapeOne(lib, s[0])[1] && Escape(lib, s)[2] == EscapeOne(lib, s[0])[2];
    }
  }

  /** `b` is the start of `s`, up to a character that is not encoded. */
  predicate LeadFits(lib: Library, s: Text, b: Text, n: nat) {
    && b <= s
    && (forall i :: 0 <= i < |b| ==> Encoded(lib, b[i]))
    && (|b| == n || |b| == |s| || !Encoded(lib, s[|b|]))
  }

  lemma LeadFitsMore(lib: Library, c: char, s: Text, b: Text, n: nat)
    requires Encoded(lib, c) && LeadFits(lib, s, b, n)
    ensures LeadFits(lib, [c] + s, [c] + b, n + 1)
  {
    assert forall i :: 1 <= i < |[c] + b| ==> ([c] + b)[i] == b[i - 1];
  }

  /** What the decoder collects from an encoded text. */
  lemma {:induction false} LeadOfEscape(lib: Library, s: Text, n: nat)
    requires Bytes(s)
    ensures LeadFits(lib, s, Lead(Escape(lib, s), n), n)
    decreases n
  {
    if n > 0 && s != [] {
      EscapeTriple(lib, s);
      if Encoded(lib, s[0]) {
        assert Bytes(s[1..]);
        LeadOfEscape(lib, s[1..], n - 1);
        LeadFitsMore(lib, s[0], s[1..], Lead(Escape(lib, s[1..]), n - 1), n - 1);
        assert s == [s[0]] + s[1..];
        assert Lead(Escape(lib, s), n) == [s[0]] + Lead(Escape(lib, s[1..]), n - 1);
      }
    }
  }

  lemma UnescapeTriple(lib: Library, e: Text)
    requires Triple(e)
    ensures var b := Lead(e, 4);
      var k := CharLength(b);
      Unescape(lib, e) == if k == 0 then e[..3] + Unescape(lib, e[3..])
                          else (if Shows(lib, b[..k]) then b[..k] else e[..3 * k]) + Unescape(lib, e[3 * k..])
  {
  }

  lemma HeadDecoded(lib: Library, s: Text, e: Text, b: Text, k: nat)
    requires s != [] && Triple(e) && b == Lead(e, 4) && k == CharLength(b) && k <= |s| && b[..k] == s[..k]
    requires 3 * k <= |e| && e[3..] == Escape(lib, s[1..]) && e[3 * k..] == Escape(lib, s[k..])
    ensures Unescape(lib, e) ==
      if k == 0 then e[..3] + Unescape(lib, Escape(lib, s[1..]))
      else (if Shows(lib, s[..k]) then s[..k] else e[..3 * k]) + Unescape(lib, Escape(lib, s[k..]))
  {
    UnescapeTriple(lib, e);
  }

  lemma PlainIsAscii(lib: Library, c: char)
    ensures !Encoded(lib, c) ==> Printable(c)
  {
  }

  lemma LeadCharOf(lib: Library, s: Text, b: Text)
    requires b != [] && |b| <= 4 && LeadFits(lib, s, b, 4)
    ensures var k := CharLength(s);
      CharLength(b) == k <= |b| && b[..k] == s[..k] && forall i :: 0 <= i < k ==> Encoded(lib, s[i])
  {
    if |b| < |s| { PlainIsAscii(lib, s[|b|]); }
    CutCharLength(s, |b|);
    var k := CharLength(b);
    assert b[..k] == s[..k];
  }

  /** The decoder sees the character the text starts with. */
  lemma LeadChar(lib: Library, s: Text)
    requires Bytes(s) && s != [] && Encoded(lib, s[0])
    ensures var b, k := Lead(Escape(lib, s), 4), CharLength(s);
      CharLength(b) == k <= |b| && b[..k] == s[..k] && forall i :: 0 <= i < k ==> Encoded(lib, s[i])
  {
    EscapeTriple(lib, s);
    LeadOfEscape(lib, s, 4);
    LeadCharOf(lib, s, Lead(Escape(lib, s), 4));
  }

  /** One encoded character at the head of a text. */
  lemma UnescapeHead(lib: Library, s: Text, e: Text, k: nat)
    requires Bytes(s) && s != [] && Encoded(lib, s[0]) && e == Escape(lib, s) && k == CharLength(s)
    ensures 3 * k <= |e| && 3 <= |e|
    ensures Unescape(lib, e) ==
      if k == 0 then e[..3] + Unescape(lib, Escape(lib, s[1..]))
      else (if Shows(lib, s[..k]) then s[..k] else e[..3 * k]) + Unescape(lib, Escape(lib, s[k..]))
  {
    LeadChar(lib, s);
    EscapeSkip(lib, s, k);
    EscapeTriple(lib, s);
    HeadDecoded(lib, s, e, Lead(e, 4), k);
  }

  lemma SplitEqual(s: Text, k: nat, a: Text, b: Text)
    requires k <= |s| && a == s[..k]
    ensures a + b == s <==> b == s[k..]
  {
    if a + b == s { assert (a + b)[k..] == b; }
    assert s == s[..k] + s[k..];
  }

  lemma UnescapePlain(lib: Library, s: Text)
    requires s != [] && !Encoded(lib, s[0])
    ensures Unescape(lib, Escape(lib, s)) == [s[0]] + Unescape(lib, Escape(lib, s[1..]))
    ensures CharLength(s) == 1 && Shows(lib, s[..1])
  {
    assert Escape(lib, s)[1..] == Escape(lib, s[1..]);
  }

  /** Decoding an encoded value gives it back exactly when it is readable. */
  lemma {:induction false} UnescapeEscape(lib: Library, s: Text)
    requires Bytes(s)
    ensures |s| <= |Unescape(lib, Escape(lib, s))|
    ensures Unescape(lib, Escape(lib, s)) == s <==> Readable(lib, s)
    ensures Unescape(lib, Escape(lib, s)) != s ==> |s| < |Unescape(lib, Escape(lib, s))|
    decreases |s|
  {
    if s == [] {
    } else if Encoded(lib, s[0]) {
      var k := CharLength(s);
      UnescapeHead(lib, s, Escape(lib, s), k);
      var n := if k == 0 then 1 else k;
      assert Bytes(s[n..]);
      UnescapeEscape(lib, s[n..]);
      SplitEqual(s, k, s[..k], Unescape(lib, Escape(lib, s[n..])));
    } else {
      assert Bytes(s[1..]);
      UnescapeEscape(lib, s[1..]);
      UnescapePlain(lib, s);
      assert s == [s[0]] + s[1..] && s[..1] == [s[0]];
    }
  }

  /** Printable ASCII is readable whatever the library chooses. */
  lemma {:induction false} PrintableReadable(lib: Library, s: Text)
    requires AllPrintable(s)
    ensures Readable(lib, s)
    decreases |s|
  {
    if s != [] { PrintableReadable(lib, s[1..]); }
  }

  predicate ShownAt(lib: Library, s: Text, i: nat)
    requires i < |s|
  {
    Shows(lib, [s[i]])
  }

  /** Of ASCII text exactly what is shown byte by byte is readable. */
  lemma {:induction false} AsciiReadable(lib: Library, s: Text)
    requires forall i :: 0 <= i < |s| ==> s[i] as nat < 0x80
    ensures Readable(lib, s) <==> forall i :: 0 <= i < |s| ==> ShownAt(lib, s, i)
    decreases |s|
  {
    if s != [] {
      var rest := s[1..];
      AsciiReadable(lib, rest);
      assert s[..1] == [s[0]];
      assert forall i :: 0 <= i < |rest| ==> (ShownAt(lib, rest, i) <==> ShownAt(lib, s, i + 1));
      assert forall i :: 1 <= i < |s| ==> (ShownAt(lib, s, i) <==> ShownAt(lib, rest, i - 1));
      assert CharLength(s) == 1 && (Readable(lib, s) <==> ShownAt(lib, s, 0) && Readable(lib, rest));
    }
  }

  /** A name goes through unchanged exactly when it needs no encoding. */
  lemma {:induction false} EscapeKept(lib: Library, s: Text)
    ensures |s| <= |Escape(lib, s)|
    ensures Escape(lib, s) == s <==> AllKept(lib, s)
  {
    if s != [] {
      EscapeKept(lib, s[1..]);
      assert s == [s[0]] + s[1..];
      if Escape(lib, s) == s {
        assert |EscapeOne(lib, s[0])| == 1;
        assert Escape(lib, s)[1..] == Escape(lib, s[1..]);
        assert s[0] == EscapeOne(lib, s[0])[0];
        assert forall i :: 1 <= i < |s| ==> s[i] == s[1..][i - 1];
      }
    }
  }

  lemma {:induction false} EscapeHasNoSeparators(lib: Library, s: Text)
    ensures '&' !in Escape(lib, s) && '=' !in Escape(lib, s)
  {
    if s != [] {
      EscapeHasNoSeparators(lib, s[1..]);
      assert '&' !in EscapeOne(lib, s[0]) && '=' !in EscapeOne(lib, s[0]);
    }
  }

  // ---- queries ----

  function KeyEnd(s: Text, i: nat): (k: nat)
    requires i <= |s|
    ensures i <= k <= |s|
    ensures forall j :: i <= j < k ==> s[j] != '&' && s[j] != '='
    ensures k < |s| ==> s[k] == '&' || s[k] == '='
    decreases |s| - i
  {
    if i == |s| || s[i] == '&' || s[i] == '=' then i else KeyEnd(s, i + 1)
  }

  function ValueEnd(s: Text, i: nat): (e: nat)
    requires i <= |s|
    ensures i <= e <= |s|
    ensures forall j :: i <= j < e ==> s[j] != '&'
    ensures e < |s| ==> s[e] == '&'
    decreases |s| - i
  {
    if i == |s| || s[i] == '&' then i else ValueEnd(s, i + 1)
  }

  function ValueStart(s: Text): (v: nat)
    ensures KeyEnd(s, 0) <= v <= |s|
  {
    var k := KeyEnd(s, 0);
    if k < |s| && s[k] == '=' then k + 1 else k
  }

  /** The first key and value of a query, and what is left after the separator. */
  function Head(s: Text): Pair {
    var v := ValueStart(s);
    Pair(s[..KeyEnd(s, 0)], s[v..ValueEnd(s, v)])
  }

  function Tail(s: Text): Text {
    var e := ValueEnd(s, ValueStart(s));
    if e < |s| then s[e + 1..] else []
  }

  lemma TailShrinks(s: Text)
    requires s != []
    ensures |Tail(s)| < |s|
  {
  }

  function Parse(s: Text): seq<Pair>
    decreases |s|
  {
    if s == [] then []
    else
      TailShrinks(s);
      [Head(s)] + Parse(Tail(s))
  }

  /** The empty pair a trailing '&' leaves when another piece follows. */
  function Gap(s: Text): seq<Pair> {
    if s != [] && s[|s| - 1] == '&' then [Pair([], [])] else []
  }

  function AppendQuery(lib: Library, query: Text, name: Text, value: Text): Text {
    (if query == [] then [] else query + ['&']) + Escape(lib, name) + ['='] + Escape(lib, value)
  }

  lemma KeyEndIs(s: Text, i: nat, k: nat)
    requires i <= k <= |s|
    requires forall j :: i <= j < k ==> s[j] != '&' && s[j] != '='
    requires k < |s| ==> s[k] == '&' || s[k] == '='
    ensures KeyEnd(s, i) == k
  {
    var a := KeyEnd(s, i);
    assert a < |s| ==> s[a] == '&' || s[a] == '=';
  }

  lemma ValueEndIs(s: Text, i: nat, k: nat)
    requires i <= k <= |s|
    requires forall j :: i <= j < k ==> s[j] != '&'
    requires k < |s| ==> s[k] == '&'
    ensures ValueEnd(s, i) == k
  {
    var b := ValueEnd(s, i);
    assert b < |s| ==> s[b] == '&';
  }

  /** Head and Tail, given where the cuts are. */
  lemma CutAt(s: Text, k: nat, v: nat, e: nat)
    requires k == KeyEnd(s, 0) && v == ValueStart(s) && e == ValueEnd(s, v)
    ensures Head(s) == Pair(s[..k], s[v..e]) && Tail(s) == if e < |s| then s[e + 1..] else []
  {
  }

  lemma CutsAppend(a: Text, b: Text)
    requires a != []
    ensures var s := a + ['&'] + b;
      && KeyEnd(s, 0) == KeyEnd(a, 0) && ValueStart(s) == ValueStart(a)
      && ValueEnd(s, ValueStart(s)) == ValueEnd(a, ValueStart(a))
  {
    var s := a + ['&'] + b;
    assert forall j :: 0 <= j < |a| ==> s[j] == a[j];
    assert s[|a|] == '&';
    KeyEndIs(s, 0, KeyEnd(a, 0));
    ValueEndIs(s, ValueStart(a), ValueEnd(a, ValueStart(a)));
  }

  lemma SliceAppend(a: Text, b: Text, i: nat, j: nat)
    requires i <= j <= |a|
    ensures (a + ['&'] + b)[i..j] == a[i..j]
    ensures (a + ['&'] + b)[..j] == a[..j]
    ensures (a + ['&'] + b)[j + 1..] == if j == |a| then b else a[j + 1..] + ['&'] + b
  {
  }

  /** The first cut of a query does not see what follows a separator. */
  lemma HeadAppend(a: Text, b: Text)
    requires a != []
    ensures Head(a + ['&'] + b) == Head(a)
  {
    var k, v, e := KeyEnd(a, 0), ValueStart(a), ValueEnd(a, ValueStart(a));
    CutsAppend(a, b);
    CutAt(a, k, v, e);
    CutAt(a + ['&'] + b, k, v, e);
    SliceAppend(a, b, 0, k);
    SliceAppend(a, b, v, e);
  }

  lemma TailAppend(a: Text, b: Text)
    requires a != []
    ensures Tail(a + ['&'] + b) == if ValueEnd(a, ValueStart(a)) == |a| then b else Tail(a) + ['&'] + b
  {
    var k, v, e := KeyEnd(a, 0), ValueStart(a), ValueEnd(a, ValueStart(a));
    CutsAppend(a, b);
    CutAt(a, k, v, e);
    CutAt(a + ['&'] + b, k, v, e);
    SliceAppend(a, b, v, e);
  }

  lemma ParseEmptyPiece(b: Text)
    ensures Parse(['&'] + b) == [Pair([], [])] + Parse(b)
  {
    var t := ['&'] + b;
    KeyEndIs(t, 0, 0);
    ValueEndIs(t, 0, 0);
    assert t[1..] == b;
  }

  lemma GapAtEnd(a: Text)
    requires a != []
    ensures var e := ValueEnd(a, ValueStart(a));
      if e == |a| then Gap(a) == []
      else if Tail(a) == [] then Gap(a) == [Pair([], [])]
      else Gap(a) == Gap(Tail(a))
  {
    var k, v, e := KeyEnd(a, 0), ValueStart(a), ValueEnd(a, ValueStart(a));
    assert e == |a| && v < |a| ==> a[|a| - 1] != '&';
    assert e == |a| && v == |a| && k < |a| ==> a[|a| - 1] == '=';
    assert k == |a| ==> a[|a| - 1] != '&';
  }

  lemma EmptyLeft(t: Text, b: Text)
    requires t == []
    ensures t + ['&'] + b == ['&'] + b
  {
  }

  lemma PieceAfterGap(t: Text, b: Text)
    requires t == []
    ensures Parse(t + ['&'] + b) == Parse(t) + [Pair([], [])] + Parse(b)
  {
    ParseEmptyPiece(b);
    EmptyLeft(t, b);
  }

  lemma ParseStep(s: Text)
    requires s != []
    ensures Parse(s) == [Head(s)] + Parse(Tail(s))
  {
  }

  lemma Glue(h: seq<Pair>, p: seq<Pair>, g: seq<Pair>, q: seq<Pair>)
    ensures h + (p + g + q) == h + p + g + q
  {
  }

  /** Cutting a query at one of its separators cuts its pairs there. */
  lemma {:induction false} ParseAppend(a: Text, b: Text)
    requires a != []
    ensures Parse(a + ['&'] + b) == Parse(a) + Gap(a) + Parse(b)
    decreases |a|, 1
  {
    ParseTailAppend(a, b);
    HeadAppend(a, b);
    ParseStep(a + ['&'] + b);
    ParseStep(a);
    Glue([Head(a)], Parse(Tail(a)), Gap(a), Parse(b));
  }

  lemma ParseTailAppend(a: Text, b: Text)
    requires a != []
    ensures Parse(Tail(a + ['&'] + b)) == Parse(Tail(a)) + Gap(a) + Parse(b)
    decreases |a|, 0
  {
    TailAppend(a, b);
    GapAtEnd(a);
    TailShrinks(a);
    if ValueEnd(a, ValueStart(a)) < |a| {
      if Tail(a) == [] {
        PieceAfterGap(Tail(a), b);
      } else {
        ParseAppend(Tail(a), b);
      }
    } else {
      assert Parse(Tail(a)) + Gap(a) == [];
    }
  }

  lemma ParsePiece(n: Text, v: Text)
    requires '&' !in n && '=' !in n && '&' !in v
    ensures Parse(n + ['='] + v) == [Pair(n, v)]
  {
    var s := n + ['='] + v;
    assert forall j :: 0 <= j < |n| ==> s[j] == n[j];
    assert forall j :: |n| + 1 <= j < |s| ==> s[j] == v[j - |n| - 1];
    KeyEndIs(s, 0, |n|);
    ValueEndIs(s, |n| + 1, |s|);
    assert s[..|n|] == n && s[|n| + 1..|s|] == v;
    assert Parse([]) == [];
  }

  lemma ParseSegment(lib: Library, name: Text, value: Text)
    ensures Parse(Escape(lib, name) + ['='] + Escape(lib, value)) == [Pair(Escape(lib, name), Escape(lib, value))]
  {
    EscapeHasNoSeparators(lib, name);
    EscapeHasNoSeparators(lib, value);
    ParsePiece(Escape(lib, name), Escape(lib, value));
  }

  function AppendAll(lib: Library, query: Text, entries: seq<Pair>): Text
    decreases |entries|
  {
    if entries == [] then query
    else AppendAll(lib, AppendQuery(lib, query, entries[0].key, entries[0].value), entries[1..])
  }

  function EscapedPairs(lib: Library, entries: seq<Pair>): seq<Pair> {
    if entries == [] then []
    else [Pair(Escape(lib, entries[0].key), Escape(lib, entries[0].value))] + EscapedPairs(lib, entries[1..])
  }

  lemma AppendQueryIs(lib: Library, query: Text, name: Text, value: Text)
    ensures AppendQuery(lib, query, name, value) ==
      (if query == [] then [] else query + ['&']) + (Escape(lib, name) + ['='] + Escape(lib, value))
  {
  }

  lemma SegmentEnds(lib: Library, name: Text, value: Text)
    ensures var s := Escape(lib, name) + ['='] + Escape(lib, value); s[|s| - 1] != '&'
  {
    EscapeHasNoSeparators(lib, value);
    if Escape(lib, value) != [] {
      assert Escape(lib, value)[|Escape(lib, value)| - 1] in Escape(lib, value);
    }
  }

  lemma GapIsLast(a: Text, b: Text)
    requires b != []
    ensures Gap(a + b) == Gap(b)
  {
    assert (a + b)[|a + b| - 1] == b[|b| - 1];
  }

  lemma ParseAppendSegment(query: Text, segment: Text)
    requires query != [] && segment != [] && segment[|segment| - 1] != '&'
    ensures Parse(query + ['&'] + segment) == Parse(query) + Gap(query) + Parse(segment)
    ensures Gap(query + ['&'] + segment) == []
  {
    ParseAppend(query, segment);
    GapIsLast(query + ['&'], segment);
  }

  lemma ParseAppendOne(lib: Library, query: Text, name: Text, value: Text)
    ensures Parse(AppendQuery(lib, query, name, value)) ==
      Parse(query) + Gap(query) + [Pair(Escape(lib, name), Escape(lib, value))]
    ensures Gap(AppendQuery(lib, query, name, value)) == []
  {
    ParseSegment(lib, name, value);
    SegmentEnds(lib, name, value);
    AppendQueryIs(lib, query, name, value);
    if query == [] {
      assert AppendQuery(lib, query, name, value) == Escape(lib, name) + ['='] + Escape(lib, value);
    } else {
      assert AppendQuery(lib, query, name, value) == query + ['&'] + (Escape(lib, name) + ['='] + Escape(lib, value));
      ParseAppendSegment(query, Escape(lib, name) + ['='] + Escape(lib, value));
    }
  }

  lemma Regroup(p: seq<Pair>, g: seq<Pair>, x: Pair, q: seq<Pair>)
    ensures p + g + [x] + [] + q == p + g + ([x] + q)
  {
  }

  /** Everything appended is parsed back behind everything that was there before. */
  lemma {:induction false} ParseAppendAll(lib: Library, query: Text, entries: seq<Pair>)
    ensures Parse(AppendAll(lib, query, entries)) ==
      Parse(query) + (if entries == [] then [] else Gap(query)) + EscapedPairs(lib, entries)
    decreases |entries|
  {
    if entries != [] {
      var e := entries[0];
      ParseAppendOne(lib, query, e.key, e.value);
      ParseAppendAll(lib, AppendQuery(lib, query, e.key, e.value), entries[1..]);
      Regroup(Parse(query), Gap(query), Pair(Escape(lib, e.key), Escape(lib, e.value)), EscapedPairs(lib, entries[1..]));
    }
  }

  // ---- maps ----

  /** std::map::insert over a sequence of decoded pairs: the first of a key stays. */
  function FirstWins(lib: Library, pairs: seq<Pair>): map<Text, Text> {
    if pairs == [] then map[]
    else FirstWins(lib, pairs[1..])[pairs[0].key := Unescape(lib, pairs[0].value)]
  }

  lemma InsertKeepsFirst(lib: Library, pairs: seq<Pair>, m: map<Text, Text>)
    requires pairs != []
    ensures FirstWins(lib, pairs) + m ==
      FirstWins(lib, pairs[1..]) + if pairs[0].key in m then m else m[pairs[0].key := Unescape(lib, pairs[0].value)]
  {
  }

  // ---- URLs ----

  /** The parts of a GURL this code looks at. For a standard scheme the authority is
      parsed into `host`; otherwise it stays in the path. */
  datatype Url = Url(valid: bool, standard: bool, host: Text, path: Text, query: Text)

  /** A callback target: valid or not, and its spec. */
  datatype Target = Target(valid: bool, spec: Text)

  const HOST: Text := "x-callback-url"
  const SUCCESS: Text := "x-success"
  const ERROR: Text := "x-error"
  const CANCEL: Text := "x-cancel"

  function IndexOf(s: Text, c: char, i: nat): (k: nat)
    requires i <= |s|
    ensures i <= k <= |s|
    ensures forall j :: i <= j < k ==> s[j] != c
    ensures k < |s| ==> s[k] == c
    decreases |s| - i
  {
    if i == |s| || s[i] == c then i else IndexOf(s, c, i + 1)
  }

  /** The part of the action before a fragment, and its own query if it has one. */
  function ActionPath(action: Text): Text {
    var body := action[..IndexOf(action, '#', 0)];
    body[..IndexOf(body, '?', 0)]
  }

  function ActionQuery(action: Text): Text {
    var body := action[..IndexOf(action, '#', 0)];
    var k := IndexOf(body, '?', 0);
    if k < |body| then body[k + 1..] else []
  }

  /** GURL of scheme://x-callback-url/action for a well-formed scheme. */
  function BaseUrl(standard: bool, action: Text): Url {
    if standard then Url(true, true, HOST, ['/'] + ActionPath(action), ActionQuery(action))
    else Url(true, false, [], ['/', '/'] + HOST + ['/'] + ActionPath(action), ActionQuery(action))
  }

  /** `p` is what an action says before its first '?' or '#'. */
  predicate PathOf(action: Text, p: Text) {
    p <= action && '?' !in p && '#' !in p && (p == action || action[|p|] == '?' || action[|p|] == '#')
  }

  predicate QueryAt(action: Text, q: Text, k: nat) {
    && k <= |action| && PathOf(action, action[..k])
    && if k == |action| || action[k] == '#' then q == []
       else q <= action[k + 1..] && '#' !in q && (k + 1 + |q| == |action| || action[k + 1 + |q|] == '#')
  }

  /** `q` is what it says between a '?' and the next '#'; empty if a '#' comes first. */
  ghost predicate QueryOf(action: Text, q: Text) {
    exists k: nat :: QueryAt(action, q, k)
  }

  lemma IndexOfIs(s: Text, c: char, k: nat)
    requires k <= |s| && c !in s[..k] && (k == |s| || s[k] == c)
    ensures IndexOf(s, c, 0) == k
  {
    var j := IndexOf(s, c, 0);
    assert forall i :: 0 <= i < k ==> s[i] in s[..k];
  }

  lemma ActionCut(action: Text, k: nat)
    requires k <= |action| && PathOf(action, action[..k])
    ensures ActionPath(action) == action[..k]
    ensures var body := action[..IndexOf(action, '#', 0)]; k <= |body| && IndexOf(body, '?', 0) == k
  {
    var h := IndexOf(action, '#', 0);
    assert forall i :: 0 <= i < k ==> action[i] in action[..k];
    var body := action[..h];
    assert body[..k] == action[..k];
    assert k < |body| ==> body[k] == action[k];
    IndexOfIs(body, '?', k);
  }

  lemma QueryUnique(action: Text, q: Text, k: nat)
    requires QueryAt(action, q, k)
    requires var body := action[..IndexOf(action, '#', 0)]; k <= |body| && IndexOf(body, '?', 0) == k
    ensures q == ActionQuery(action)
  {
    if k < |action| && action[k] != '#' {
      var h := k + 1 + |q|;
      assert action[..h] == action[..k] + [action[k]] + q;
      IndexOfIs(action, '#', h);
      assert action[..h][k + 1..] == q;
    } else {
      assert action[..k] <= action;
      if k < |action| { IndexOfIs(action, '#', k); }
    }
  }

  /** The path and the query of an action are cut where the first '?' and '#' stand. */
  lemma ActionParts(action: Text)
    ensures forall p :: PathOf(action, p) <==> p == ActionPath(action)
    ensures forall q :: QueryOf(action, q) <==> q == ActionQuery(action)
  {
    var body := action[..IndexOf(action, '#', 0)];
    var n := IndexOf(body, '?', 0);
    assert body[..n] == action[..n];
    assert PathOf(action, action[..n]) && ActionPath(action) == action[..n];
    forall p | PathOf(action, p) ensures p == ActionPath(action) {
      assert action[..|p|] == p;
      ActionCut(action, |p|);
    }
    assert QueryAt(action, ActionQuery(action), n) by {
      if n < |body| { assert action[n + 1..][..|body| - n - 1] == ActionQuery(action); }
    }
    forall q | QueryOf(action, q) ensures q == ActionQuery(action) {
      var k: nat :| QueryAt(action, q, k);
      ActionCut(action, k);
      QueryUnique(action, q, k);
    }
  }

  predicate IsXCallbackURL(url: Url) {
    if !url.valid then false
    else if url.standard then url.host == HOST
    else
      var path := if ['/', '/'] <= url.path then url.path[2..] else url.path;
      path[..IndexOf(path, '/', 0)] == HOST
  }

  function One(name: Text, t: Target): seq<Pair> {
    if t.valid then [Pair(name, t.spec)] else []
  }

  function Reserved(success: Target, error: Target, cancel: Target): seq<Pair> {
    One(SUCCESS, success) + One(ERROR, error) + One(CANCEL, cancel)
  }

  function Listed(parameters: map<Text, Text>, order: seq<Text>): seq<Pair>
    requires forall i :: 0 <= i < |order| ==> order[i] in parameters
  {
    seq(|order|, i requires 0 <= i < |order| => Pair(order[i], parameters[order[i]]))
  }

  /** `order` is how the map is walked: each key once. */
  ghost predicate Walks(order: seq<Text>, parameters: map<Text, Text>) {
    && (forall i :: 0 <= i < |order| ==> order[i] in parameters)
    && (forall k :: k in parameters ==> k in order)
    && (forall i, j :: 0 <= i < j < |order| ==> order[i] != order[j])
  }

  lemma AppendFirst(lib: Library, query: Text, p: Pair, rest: seq<Pair>)
    ensures AppendAll(lib, query, [p] + rest) == AppendAll(lib, AppendQuery(lib, query, p.key, p.value), rest)
  {
    assert ([p] + rest)[1..] == rest;
  }

  /** One `if` block at the head of the printer. */
  method AppendValid(lib: Library, query: Text, name: Text, t: Target, ghost rest: seq<Pair>) returns (query': Text)
    ensures AppendAll(lib, query', rest) == AppendAll(lib, query, One(name, t) + rest)
  {
    query' := query;
    if t.valid {
      AppendFirst(lib, query, Pair(name, t.spec), rest);
      query' := AppendQuery(lib, query, name, t.spec);
    } else {
      assert One(name, t) + rest == rest;
    }
  }

  lemma Associate(a: seq<Pair>, b: seq<Pair>, c: seq<Pair>, d: seq<Pair>)
    ensures a + b + c + d == a + (b + (c + d))
  {
  }

  /** The three `if` blocks. */
  method AppendReserved(lib: Library, query: Text, success: Target, error: Target, cancel: Target, ghost rest: seq<Pair>)
    returns (query': Text)
    ensures AppendAll(lib, query', rest) == AppendAll(lib, query, Reserved(success, error, cancel) + rest)
  {
    query' := AppendValid(lib, query, SUCCESS, success, One(ERROR, error) + (One(CANCEL, cancel) + rest));
    query' := AppendValid(lib, query', ERROR, error, One(CANCEL, cancel) + rest);
    query' := AppendValid(lib, query', CANCEL, cancel, rest);
    Associate(One(SUCCESS, success), One(ERROR, error), One(CANCEL, cancel), rest);
  }

  function Created(lib: Library, standard: bool, action: Text, success: Target, error: Target, cancel: Target,
                   parameters: map<Text, Text>, order: seq<Text>): Url
    requires forall i :: 0 <= i < |order| ==> order[i] in parameters
  {
    BaseUrl(standard, action).(
      query := AppendAll(lib, ActionQuery(action), Reserved(success, error, cancel) + Listed(parameters, order)))
  }

  /** The loop over the remaining parameters. */
  method AppendParameters(lib: Library, query: Text, parameters: map<Text, Text>, order: seq<Text>) returns (query': Text)
    requires Walks(order, parameters)
    ensures query' == AppendAll(lib, query, Listed(parameters, order))
  {
    ghost var listed := Listed(parameters, order);
    query' := query;
    var i := 0;
    assert listed[0..] == listed;
    while i < |order|
      invariant 0 <= i <= |order|
      invariant AppendAll(lib, query', listed[i..]) == AppendAll(lib, query, listed)
    {
      assert listed[i..] == [listed[i]] + listed[i + 1..];
      AppendFirst(lib, query', listed[i], listed[i + 1..]);
      query' := AppendQuery(lib, query', order[i], parameters[order[i]]);
      i := i + 1;
    }
  }

  lemma CreatedIsXCallback(standard: bool, action: Text, query: Text)
    ensures IsXCallbackURL(BaseUrl(standard, action).(query := query))
  {
    if !standard {
      var path := HOST + ['/'] + ActionPath(action);
      var full := BaseUrl(standard, action).path;
      assert full == ['/', '/'] + path && full[2..] == path;
      assert path[|HOST|] == '/' && path[..|HOST|] == HOST;
      assert forall j :: 0 <= j < |HOST| ==> path[j] == HOST[j] && HOST[j] != '/';
      assert IndexOf(path, '/', 0) == |HOST|;
    }
  }

  method CreateXCallbackURLWithParameters(
    lib: Library, standard: bool, action: Text, success: Target, error: Target, cancel: Target,
    parameters: map<Text, Text>, order: seq<Text>)
    returns (url: Url)
    requires Walks(order, parameters)
    ensures url == Created(lib, standard, action, success, error, cancel, parameters, order)
    ensures IsXCallbackURL(url) && url.valid && url.standard == standard
    ensures url.host == if standard then HOST else []
    ensures forall p :: PathOf(action, p) ==> url.path == (if standard then ['/'] else ['/', '/'] + HOST + ['/']) + p
    ensures forall q :: QueryOf(action, q) ==>
      url.query == AppendAll(lib, q, Reserved(success, error, cancel) + Listed(parameters, order))
  {
    ActionParts(action);
    ghost var listed := Listed(parameters, order);
    url := BaseUrl(standard, action);
    var query := AppendReserved(lib, url.query, success, error, cancel, listed);
    query := AppendParameters(lib, query, parameters, order);
    url := url.(query := query);
    CreatedIsXCallback(standard, action, query);
  }

  lemma HostHasNoSlash()
    ensures '/' !in HOST
  {
  }

  lemma SlashAt(path: Text, host: Text)
    requires '/' !in host && (path == host || host + ['/'] <= path)
    ensures IndexOf(path, '/', 0) == |host| && path[..|host|] == host
  {
    var k := IndexOf(path, '/', 0);
    assert forall j :: 0 <= j < |host| ==> path[j] == host[j];
    assert path != host ==> path[|host|] == (host + ['/'])[|host|];
  }

  lemma UpToSlash(path: Text, host: Text)
    requires '/' !in host
    ensures path[..IndexOf(path, '/', 0)] == host <==> path == host || host + ['/'] <= path
  {
    var k := IndexOf(path, '/', 0);
    if path[..k] == host {
      assert k < |path| ==> path[..k + 1] == host + ['/'];
    }
    if path == host || host + ['/'] <= path {
      SlashAt(path, host);
    }
  }

  /** Which URLs are recognised: valid ones whose authority is the reserved host. With a
      non-standard scheme that is the path up to its first '/', after an optional "//". */
  lemma RecognisedIff(url: Url)
    ensures IsXCallbackURL(url) <==>
      var path := if ['/', '/'] <= url.path then url.path[2..] else url.path;
      url.valid && if url.standard then url.host == HOST else path == HOST || HOST + ['/'] <= path
  {
    HostHasNoSlash();
    UpToSlash(if ['/', '/'] <= url.path then url.path[2..] else url.path, HOST);
  }

  method ExtractQueryParametersFromXCallbackURL(lib: Library, url: Url) returns (parameters: map<Text, Text>)
    ensures parameters == FirstWins(lib, Parse(url.query))
  {
    parameters := map[];
    var rest := url.query;
    while rest != []
      invariant FirstWins(lib, Parse(rest)) + parameters == FirstWins(lib, Parse(url.query))
      decreases |rest|
    {
      TailShrinks(rest);
      var pair := Head(rest);
      InsertKeepsFirst(lib, Parse(rest), parameters);
      if pair.key !in parameters {
        parameters := parameters[pair.key := Unescape(lib, pair.value)];
      }
      rest := Tail(rest);
    }
    assert FirstWins(lib, Parse([])) + parameters == parameters;
  }

  // ---- printing, then parsing ----

  lemma UpdateMerged(a: map<Text, Text>, b: map<Text, Text>, k: Text, v: Text)
    ensures (a + b)[k := v] == a + b[k := v]
  {
  }

  lemma {:induction false} FirstWinsConcat(lib: Library, ps: seq<Pair>, qs: seq<Pair>)
    ensures FirstWins(lib, ps + qs) == FirstWins(lib, qs) + FirstWins(lib, ps)
  {
    if ps == [] {
      assert ps + qs == qs;
    } else {
      assert (ps + qs)[1..] == ps[1..] + qs;
      FirstWinsConcat(lib, ps[1..], qs);
      UpdateMerged(FirstWins(lib, qs), FirstWins(lib, ps[1..]), ps[0].key, Unescape(lib, ps[0].value));
    }
  }

  lemma {:induction false} FirstWinsKeys(lib: Library, ps: seq<Pair>, k: Text)
    ensures k in FirstWins(lib, ps) <==> exists i :: 0 <= i < |ps| && ps[i].key == k
  {
    if ps != [] {
      FirstWinsKeys(lib, ps[1..], k);
      if i :| 0 <= i < |ps[1..]| && ps[1..][i].key == k {
        assert ps[i + 1].key == k;
      }
      if i :| 0 <= i < |ps| && ps[i].key == k {
        assert i > 0 ==> ps[1..][i - 1].key == k;
      }
    }
  }

  lemma {:induction false} FirstWinsAt(lib: Library, ps: seq<Pair>, i: nat)
    requires i < |ps| && forall j :: 0 <= j < i ==> ps[j].key != ps[i].key
    ensures ps[i].key in FirstWins(lib, ps) && FirstWins(lib, ps)[ps[i].key] == Unescape(lib, ps[i].value)
  {
    if i > 0 {
      FirstWinsAt(lib, ps[1..], i - 1);
    }
  }

  lemma {:induction false} EscapedPairsAt(lib: Library, entries: seq<Pair>, i: nat)
    requires i < |entries|
    ensures |EscapedPairs(lib, entries)| == |entries|
    ensures EscapedPairs(lib, entries)[i] == Pair(Escape(lib, entries[i].key), Escape(lib, entries[i].value))
  {
    if i == 0 {
      if |entries| > 1 { EscapedPairsAt(lib, entries[1..], 0); }
    } else {
      EscapedPairsAt(lib, entries[1..], i - 1);
    }
  }

  lemma {:induction false} EscapedPairsConcat(lib: Library, ps: seq<Pair>, qs: seq<Pair>)
    ensures EscapedPairs(lib, ps + qs) == EscapedPairs(lib, ps) + EscapedPairs(lib, qs)
  {
    if ps == [] {
      assert ps + qs == qs;
    } else {
      assert (ps + qs)[1..] == ps[1..] + qs;
      EscapedPairsConcat(lib, ps[1..], qs);
    }
  }

  lemma OneByte(lib: Library, c: char, d: char, r: Text, s: Text)
    requires c as int < 256 && d as int < 256
    requires EscapeOne(lib, c) + r == EscapeOne(lib, d) + s
    ensures c == d && r == s
  {
    var e, f := EscapeOne(lib, c) + r, EscapeOne(lib, d) + s;
    assert e[0] == EscapeOne(lib, c)[0] && f[0] == EscapeOne(lib, d)[0];
    if e[0] == '%' {
      assert HexValue(e[1]) == Some(c as nat / 16 % 16) && HexValue(f[1]) == Some(d as nat / 16 % 16);
      assert HexValue(e[2]) == Some(c as nat % 16) && HexValue(f[2]) == Some(d as nat % 16);
      HexRoundTrip(c);
      HexRoundTrip(d);
    }
    assert e[|EscapeOne(lib, c)|..] == r && f[|EscapeOne(lib, d)|..] == s;
  }

  lemma {:induction false} EscapeInjective(lib: Library, a: Text, b: Text)
    requires Bytes(a) && Bytes(b) && Escape(lib, a) == Escape(lib, b)
    ensures a == b
  {
    EscapeKept(lib, a);
    EscapeKept(lib, b);
    if a != [] && b != [] {
      OneByte(lib, a[0], b[0], Escape(lib, a[1..]), Escape(lib, b[1..]));
      EscapeInjective(lib, a[1..], b[1..]);
      assert a == [a[0]] + a[1..] && b == [b[0]] + b[1..];
    }
  }

  lemma {:induction false} EscapeAt(lib: Library, s: Text, i: nat)
    requires i < |s| && !Kept(lib, s[i])
    ensures exists j :: 0 <= j < |Escape(lib, s)| && (Escape(lib, s)[j] == '+' || Escape(lib, s)[j] == '%')
  {
    if i == 0 {
      assert Escape(lib, s)[0] == EscapeOne(lib, s[0])[0];
    } else {
      EscapeAt(lib, s[1..], i - 1);
      var j :| 0 <= j < |Escape(lib, s[1..])| && (Escape(lib, s[1..])[j] == '+' || Escape(lib, s[1..])[j] == '%');
      assert Escape(lib, s)[|EscapeOne(lib, s[0])| + j] == Escape(lib, s[1..])[j];
    }
  }

  lemma {:induction false} EscapeGrows(lib: Library, s: Text, j: nat)
    requires j < |s| && (s[j] == '+' || s[j] == '%')
    ensures |s| < |Escape(lib, s)|
  {
    EscapeKept(lib, s[1..]);
    if j > 0 { EscapeGrows(lib, s[1..], j - 1); }
  }

  /** A name that needs encoding still needs it once encoded, and then grows. */
  lemma {:induction false} EscapeAgain(lib: Library, s: Text)
    requires !AllKept(lib, s)
    ensures !AllKept(lib, Escape(lib, s)) && |Escape(lib, s)| < |Escape(lib, Escape(lib, s))|
  {
    EscapeKept(lib, Escape(lib, s));
    var i :| 0 <= i < |s| && !Kept(lib, s[i]);
    EscapeAt(lib, s, i);
    var j :| 0 <= j < |Escape(lib, s)| && (Escape(lib, s)[j] == '+' || Escape(lib, s)[j] == '%');
    EscapeGrows(lib, Escape(lib, s), j);
  }

  /** A finite set of names cannot be closed under encoding the names that need it. */
  lemma {:induction false} EncodingLeaves(lib: Library, names: set<Text>, name: Text)
    requires name in names && !AllKept(lib, name)
    requires forall k :: k in names && !AllKept(lib, k) ==> Escape(lib, k) in names
    ensures false
    decreases names
  {
    var longer := set k | k in names && |Escape(lib, k)| > |Escape(lib, name)|;
    EscapeAgain(lib, name);
    forall k | k in longer && !AllKept(lib, k) ensures Escape(lib, k) in longer { EscapeAgain(lib, k); }
    assert name !in longer && longer < names;
    EncodingLeaves(lib, longer, Escape(lib, name));
  }

  /** Parameter `k` comes back under its encoded name with its decoded value. */
  predicate Comes(lib: Library, listed: map<Text, Text>, parameters: map<Text, Text>, k: Text)
    requires k in parameters
  {
    Escape(lib, k) in listed && listed[Escape(lib, k)] == Unescape(lib, Escape(lib, parameters[k]))
  }

  ghost predicate From(lib: Library, parameters: map<Text, Text>, x: Text) {
    exists k :: k in parameters && Escape(lib, k) == x
  }

  /** `listed` is how the parameters come back when nothing lies over them. */
  ghost predicate ComesAs(lib: Library, listed: map<Text, Text>, parameters: map<Text, Text>) {
    && (forall k {:trigger Comes(lib, listed, parameters, k)} :: k in parameters ==> Comes(lib, listed, parameters, k))
    && (forall x {:trigger From(lib, parameters, x)} :: x in listed ==> From(lib, parameters, x))
  }

  /** What a walk over a map comes back as: encoded names, decoded values. */
  lemma ListedComesBackAs(lib: Library, parameters: map<Text, Text>, order: seq<Text>)
    requires Walks(order, parameters) && forall k :: k in parameters ==> Bytes(k)
    ensures ComesAs(lib, FirstWins(lib, EscapedPairs(lib, Listed(parameters, order))), parameters)
  {
    var entries := Listed(parameters, order);
    var ps := EscapedPairs(lib, entries);
    if order == [] { assert ps == []; }
    forall i | 0 <= i < |order|
      ensures |ps| == |order| && ps[i] == Pair(Escape(lib, order[i]), Escape(lib, parameters[order[i]]))
    {
      EscapedPairsAt(lib, entries, i);
    }
    forall k | k in parameters ensures Comes(lib, FirstWins(lib, ps), parameters, k)
    {
      var i :| 0 <= i < |order| && order[i] == k;
      forall j | 0 <= j < i ensures ps[j].key != ps[i].key {
        if ps[j].key == ps[i].key { EscapeInjective(lib, order[j], order[i]); }
      }
      FirstWinsAt(lib, ps, i);
    }
    forall x | x in FirstWins(lib, ps) ensures From(lib, parameters, x) {
      FirstWinsKeys(lib, ps, x);
      var i :| 0 <= i < |ps| && ps[i].key == x;
      assert order[i] in parameters;
    }
  }

  function OneEntry(name: Text, t: Target): map<Text, Text> {
    if t.valid then map[name := t.spec] else map[]
  }

  /** The entries the printer reserves: those of the valid callback URLs. */
  function Callbacks(success: Target, error: Target, cancel: Target): map<Text, Text> {
    OneEntry(SUCCESS, success) + OneEntry(ERROR, error) + OneEntry(CANCEL, cancel)
  }

  /** A target as it comes back: its spec encoded and decoded. */
  function Back(lib: Library, t: Target): Target {
    t.(spec := Unescape(lib, Escape(lib, t.spec)))
  }

  predicate ReadableTarget(lib: Library, t: Target) {
    t.valid ==> Readable(lib, t.spec)
  }

  lemma OnePair(lib: Library, key: Text, value: Text)
    ensures EscapedPairs(lib, [Pair(key, value)]) == [Pair(Escape(lib, key), Escape(lib, value))]
    ensures FirstWins(lib, [Pair(Escape(lib, key), Escape(lib, value))]) ==
      map[Escape(lib, key) := Unescape(lib, Escape(lib, value))]
  {
    assert [Pair(key, value)][1..] == [];
    assert [Pair(Escape(lib, key), Escape(lib, value))][1..] == [];
  }

  lemma OneReservedComesBack(lib: Library, key: Text, t: Target)
    requires AllKept(lib, key)
    ensures FirstWins(lib, EscapedPairs(lib, One(key, t))) == OneEntry(key, Back(lib, t))
  {
    if t.valid {
      EscapeKept(lib, key);
      OnePair(lib, key, t.spec);
    }
  }

  lemma ReservedNames(lib: Library)
    ensures SUCCESS != ERROR && SUCCESS != CANCEL && ERROR != CANCEL
    ensures AllKept(lib, SUCCESS) && AllKept(lib, ERROR) && AllKept(lib, CANCEL)
  {
    assert SUCCESS[2] == 's' && ERROR[2] == 'e' && CANCEL[2] == 'c';
  }

  lemma ThreeParts(lib: Library, s: seq<Pair>, e: seq<Pair>, c: seq<Pair>)
    ensures FirstWins(lib, EscapedPairs(lib, s + e + c)) ==
      FirstWins(lib, EscapedPairs(lib, c)) + (FirstWins(lib, EscapedPairs(lib, e)) + FirstWins(lib, EscapedPairs(lib, s)))
  {
    EscapedPairsConcat(lib, s + e, c);
    EscapedPairsConcat(lib, s, e);
    FirstWinsConcat(lib, EscapedPairs(lib, s) + EscapedPairs(lib, e), EscapedPairs(lib, c));
    FirstWinsConcat(lib, EscapedPairs(lib, s), EscapedPairs(lib, e));
  }

  lemma MergeOrder(a: Text, s: Target, b: Text, e: Target, d: Text, c: Target)
    requires a != b && a != d && b != d
    ensures OneEntry(d, c) + (OneEntry(b, e) + OneEntry(a, s)) == OneEntry(a, s) + OneEntry(b, e) + OneEntry(d, c)
  {
  }

  /** The reserved entries as they come back. */
  function CallbacksBack(lib: Library, success: Target, error: Target, cancel: Target): map<Text, Text> {
    Callbacks(Back(lib, success), Back(lib, error), Back(lib, cancel))
  }

  lemma ReservedComesBack(lib: Library, success: Target, error: Target, cancel: Target)
    ensures FirstWins(lib, EscapedPairs(lib, Reserved(success, error, cancel))) == CallbacksBack(lib, success, error, cancel)
  {
    ReservedNames(lib);
    OneReservedComesBack(lib, SUCCESS, success);
    OneReservedComesBack(lib, ERROR, error);
    OneReservedComesBack(lib, CANCEL, cancel);
    ThreeParts(lib, One(SUCCESS, success), One(ERROR, error), One(CANCEL, cancel));
    MergeOrder(SUCCESS, Back(lib, success), ERROR, Back(lib, error), CANCEL, Back(lib, cancel));
  }

  /** Parsing what was printed, for every action and every text: the pairs of the
      action's own query come first, then the callbacks, then the parameters. */
  lemma CreatedParses(lib: Library, standard: bool, action: Text, success: Target, error: Target, cancel: Target,
                      parameters: map<Text, Text>, order: seq<Text>)
    requires forall i :: 0 <= i < |order| ==> order[i] in parameters
    ensures var entries := Reserved(success, error, cancel) + Listed(parameters, order);
      Parse(Created(lib, standard, action, success, error, cancel, parameters, order).query) ==
        Parse(ActionQuery(action)) + (if entries == [] then [] else Gap(ActionQuery(action))) + EscapedPairs(lib, entries)
  {
    ParseAppendAll(lib, ActionQuery(action), Reserved(success, error, cancel) + Listed(parameters, order));
  }

  /** What the parser returns for any action and any text: what the action's own query
      says, over the callbacks, over the parameters. */
  lemma Precedence(lib: Library, standard: bool, action: Text, success: Target, error: Target, cancel: Target,
                   parameters: map<Text, Text>, order: seq<Text>)
    requires Walks(order, parameters)
    ensures var entries := Reserved(success, error, cancel) + Listed(parameters, order);
      var own := Parse(ActionQuery(action)) + if entries == [] then [] else Gap(ActionQuery(action));
      FirstWins(lib, Parse(Created(lib, standard, action, success, error, cancel, parameters, order).query)) ==
        FirstWins(lib, EscapedPairs(lib, Listed(parameters, order))) + CallbacksBack(lib, success, error, cancel) + FirstWins(lib, own)
  {
    var reserved, listed := Reserved(success, error, cancel), Listed(parameters, order);
    CreatedParses(lib, standard, action, success, error, cancel, parameters, order);
    EscapedPairsConcat(lib, reserved, listed);
    FirstWinsConcat(lib, EscapedPairs(lib, reserved), EscapedPairs(lib, listed));
    FirstWinsConcat(lib, Parse(ActionQuery(action)) + (if reserved + listed == [] then [] else Gap(ActionQuery(action))),
                    EscapedPairs(lib, reserved + listed));
    ReservedComesBack(lib, success, error, cancel);
  }

  predicate AllBytes(success: Target, error: Target, cancel: Target, parameters: map<Text, Text>) {
    && Bytes(success.spec) && Bytes(error.spec) && Bytes(cancel.spec)
    && forall k :: k in parameters ==> Bytes(k) && Bytes(parameters[k])
  }

  /** The texts that survive the trip: names that need no encoding, readable specs, and
      readable values where no callback takes the name. */
  predicate Survives(lib: Library, success: Target, error: Target, cancel: Target, parameters: map<Text, Text>) {
    && ReadableTarget(lib, success) && ReadableTarget(lib, error) && ReadableTarget(lib, cancel)
    && forall k :: k in parameters ==>
         AllKept(lib, k) && (Readable(lib, parameters[k]) || k in Callbacks(success, error, cancel))
  }

  lemma BackIsReadable(lib: Library, t: Target)
    requires Bytes(t.spec)
    ensures Back(lib, t) == t <==> Readable(lib, t.spec)
  {
    UnescapeEscape(lib, t.spec);
  }

  lemma EntriesAt(a: Text, s: Target, b: Text, e: Target, d: Text, c: Target)
    requires a != b && a != d && b != d
    ensures var m := OneEntry(a, s) + OneEntry(b, e) + OneEntry(d, c);
      && m.Keys == (if s.valid then {a} else {}) + (if e.valid then {b} else {}) + (if c.valid then {d} else {})
      && (s.valid ==> m[a] == s.spec) && (e.valid ==> m[b] == e.spec) && (c.valid ==> m[d] == c.spec)
  {
  }

  /** Three entries under different names are equal only one by one. */
  lemma ThreeEntries(lib: Library, a: Text, s: Target, s': Target, b: Text, e: Target, e': Target,
                     d: Text, c: Target, c': Target)
    requires a != b && a != d && b != d && AllKept(lib, a) && AllKept(lib, b) && AllKept(lib, d)
    requires s'.valid == s.valid && e'.valid == e.valid && c'.valid == c.valid
    ensures var m, n := OneEntry(a, s) + OneEntry(b, e) + OneEntry(d, c), OneEntry(a, s') + OneEntry(b, e') + OneEntry(d, c');
      && n.Keys == m.Keys && (forall k :: k in m ==> AllKept(lib, k))
      && (n == m <==> (s.valid ==> s' == s) && (e.valid ==> e' == e) && (c.valid ==> c' == c))
  {
    EntriesAt(a, s, b, e, d, c);
    EntriesAt(a, s', b, e', d, c');
  }

  lemma CallbacksReturn(lib: Library, success: Target, error: Target, cancel: Target)
    requires Bytes(success.spec) && Bytes(error.spec) && Bytes(cancel.spec)
    ensures CallbacksBack(lib, success, error, cancel).Keys == Callbacks(success, error, cancel).Keys
    ensures forall k :: k in Callbacks(success, error, cancel) ==> AllKept(lib, k)
    ensures CallbacksBack(lib, success, error, cancel) == Callbacks(success, error, cancel)
       <==> ReadableTarget(lib, success) && ReadableTarget(lib, error) && ReadableTarget(lib, cancel)
  {
    ReservedNames(lib);
    BackIsReadable(lib, success);
    BackIsReadable(lib, error);
    BackIsReadable(lib, cancel);
    ThreeEntries(lib, SUCCESS, success, Back(lib, success), ERROR, error, Back(lib, error),
                 CANCEL, cancel, Back(lib, cancel));
  }

  lemma NamesKept(lib: Library, listed: map<Text, Text>, parameters: map<Text, Text>, over: map<Text, Text>)
    requires listed + over == parameters + over
    requires forall k :: k in parameters ==> Escape(lib, k) in listed
    requires forall k :: k in over ==> AllKept(lib, k)
    ensures forall k :: k in parameters ==> AllKept(lib, k)
  {
    forall k | k in parameters && !AllKept(lib, k) ensures Escape(lib, k) in parameters {
      EscapeAgain(lib, k);
      assert Escape(lib, k) in listed + over;
    }
    if k :| k in parameters && !AllKept(lib, k) {
      EncodingLeaves(lib, parameters.Keys, k);
    }
  }

  lemma KeptComesAs(lib: Library, listed: map<Text, Text>, parameters: map<Text, Text>, k: Text)
    requires ComesAs(lib, listed, parameters) && k in parameters && AllKept(lib, k) && Bytes(parameters[k])
    ensures k in listed && (Readable(lib, parameters[k]) <==> listed[k] == parameters[k])
  {
    assert Comes(lib, listed, parameters, k);
    EscapeKept(lib, k);
    UnescapeEscape(lib, parameters[k]);
  }

  lemma OverlayMeansKept(lib: Library, listed: map<Text, Text>, parameters: map<Text, Text>, over: map<Text, Text>)
    requires ComesAs(lib, listed, parameters) && listed + over == parameters + over
    requires forall k :: k in parameters ==> Bytes(parameters[k])
    requires forall k :: k in over ==> AllKept(lib, k)
    ensures forall k :: k in parameters ==> AllKept(lib, k) && (Readable(lib, parameters[k]) || k in over)
  {
    forall k | k in parameters ensures Escape(lib, k) in listed { assert Comes(lib, listed, parameters, k); }
    NamesKept(lib, listed, parameters, over);
    forall k | k in parameters && k !in over ensures Readable(lib, parameters[k]) {
      KeptComesAs(lib, listed, parameters, k);
      UnescapeEscape(lib, parameters[k]);
      assert (listed + over)[k] == listed[k] && (parameters + over)[k] == parameters[k];
    }
  }

  lemma KeptListed(lib: Library, listed: map<Text, Text>, parameters: map<Text, Text>, k: Text)
    requires ComesAs(lib, listed, parameters) && k in parameters && AllKept(lib, k)
    ensures k in listed
  {
    assert Comes(lib, listed, parameters, k);
    EscapeKept(lib, k);
  }

  lemma OnlyListed(lib: Library, listed: map<Text, Text>, parameters: map<Text, Text>, x: Text)
    requires ComesAs(lib, listed, parameters) && x in listed && forall k :: k in parameters ==> AllKept(lib, k)
    ensures x in parameters
  {
    assert From(lib, parameters, x);
    var k :| k in parameters && Escape(lib, k) == x;
    EscapeKept(lib, k);
  }

  lemma KeptKeys(lib: Library, listed: map<Text, Text>, parameters: map<Text, Text>)
    requires ComesAs(lib, listed, parameters) && forall k :: k in parameters ==> AllKept(lib, k)
    ensures listed.Keys == parameters.Keys
  {
    forall k | k in parameters ensures k in listed { KeptListed(lib, listed, parameters, k); }
    forall x | x in listed ensures x in parameters { OnlyListed(lib, listed, parameters, x); }
  }

  /** Differences under what lies over both do not show. */
  lemma Hidden(a: map<Text, Text>, b: map<Text, Text>, over: map<Text, Text>)
    requires a.Keys == b.Keys && forall k :: k in b ==> k in over || a[k] == b[k]
    ensures a + over == b + over
  {
  }

  lemma KeptMeansOverlay(lib: Library, listed: map<Text, Text>, parameters: map<Text, Text>, over: map<Text, Text>)
    requires ComesAs(lib, listed, parameters)
    requires forall k :: k in parameters ==> Bytes(parameters[k])
    requires forall k :: k in parameters ==> AllKept(lib, k) && (Readable(lib, parameters[k]) || k in over)
    ensures listed + over == parameters + over
  {
    KeptKeys(lib, listed, parameters);
    forall k | k in parameters && k !in over ensures listed[k] == parameters[k] {
      KeptComesAs(lib, listed, parameters, k);
    }
    Hidden(listed, parameters, over);
  }

  lemma NothingOver(lib: Library, m: map<Text, Text>)
    ensures m + FirstWins(lib, []) == m
  {
  }

  lemma NoOwnQuery(lib: Library, standard: bool, action: Text, success: Target, error: Target, cancel: Target,
                   parameters: map<Text, Text>, order: seq<Text>)
    requires Walks(order, parameters) && ActionQuery(action) == []
    ensures FirstWins(lib, Parse(Created(lib, standard, action, success, error, cancel, parameters, order).query)) ==
      FirstWins(lib, EscapedPairs(lib, Listed(parameters, order))) + CallbacksBack(lib, success, error, cancel)
  {
    Precedence(lib, standard, action, success, error, cancel, parameters, order);
    NothingOver(lib, FirstWins(lib, EscapedPairs(lib, Listed(parameters, order))) + CallbacksBack(lib, success, error, cancel));
  }

  lemma SameOverlay(a: map<Text, Text>, b: map<Text, Text>, c: map<Text, Text>, d: map<Text, Text>)
    requires b.Keys == d.Keys && a + b == c + d
    ensures b == d
  {
    forall k | k in b ensures k in d && b[k] == d[k] {
      assert (a + b)[k] == b[k] && k in d && (c + d)[k] == d[k];
    }
  }

  lemma OverlayIff(lib: Library, listed: map<Text, Text>, parameters: map<Text, Text>,
                   back: map<Text, Text>, given: map<Text, Text>)
    requires ComesAs(lib, listed, parameters) && back.Keys == given.Keys
    requires forall k :: k in parameters ==> Bytes(parameters[k])
    requires forall k :: k in given ==> AllKept(lib, k)
    ensures listed + back == parameters + given
       <==> back == given && forall k :: k in parameters ==> AllKept(lib, k) && (Readable(lib, parameters[k]) || k in given)
  {
    if listed + back == parameters + given {
      SameOverlay(listed, back, parameters, given);
      OverlayMeansKept(lib, listed, parameters, given);
    } else if forall k :: k in parameters ==> AllKept(lib, k) && (Readable(lib, parameters[k]) || k in given) {
      KeptMeansOverlay(lib, listed, parameters, given);
    }
  }

  lemma BothWays(lib: Library, listed: map<Text, Text>, parameters: map<Text, Text>,
                 success: Target, error: Target, cancel: Target)
    requires ComesAs(lib, listed, parameters) && AllBytes(success, error, cancel, parameters)
    ensures listed + CallbacksBack(lib, success, error, cancel) == parameters + Callbacks(success, error, cancel)
       <==> Survives(lib, success, error, cancel, parameters)
  {
    CallbacksReturn(lib, success, error, cancel);
    OverlayIff(lib, listed, parameters, CallbacksBack(lib, success, error, cancel), Callbacks(success, error, cancel));
  }

  /** Printer and parser undo each other: for an action without a query of its own the
      parser returns the parameters with the valid callbacks laid over them, for exactly
      the texts that survive. */
  lemma CreatedComesBackIff(lib: Library, standard: bool, action: Text, success: Target, error: Target, cancel: Target,
                            parameters: map<Text, Text>, order: seq<Text>)
    requires Walks(order, parameters) && ActionQuery(action) == []
    requires AllBytes(success, error, cancel, parameters)
    ensures FirstWins(lib, Parse(Created(lib, standard, action, success, error, cancel, parameters, order).query))
              == parameters + Callbacks(success, error, cancel)
       <==> Survives(lib, success, error, cancel, parameters)
  {
    NoOwnQuery(lib, standard, action, success, error, cancel, parameters, order);
    ListedComesBackAs(lib, parameters, order);
    CallbacksReturn(lib, success, error, cancel);
    BothWays(lib, FirstWins(lib, EscapedPairs(lib, Listed(parameters, order))), parameters, success, error, cancel);
  }

  predicate AllUnreserved(s: Text) {
    forall i :: 0 <= i < |s| ==> Unreserved(s[i])
  }

  predicate PlainTarget(t: Target) {
    t.valid ==> AllPrintable(t.spec)
  }

  /** Whatever the library chooses, unreserved names with printable values come back. */
  lemma PlainComesBack(lib: Library, standard: bool, action: Text, success: Target, error: Target, cancel: Target,
                       parameters: map<Text, Text>, order: seq<Text>)
    requires Walks(order, parameters) && ActionQuery(action) == []
    requires AllBytes(success, error, cancel, parameters)
    requires PlainTarget(success) && PlainTarget(error) && PlainTarget(cancel)
    requires forall k :: k in parameters ==> AllUnreserved(k) && AllPrintable(parameters[k])
    ensures FirstWins(lib, Parse(Created(lib, standard, action, success, error, cancel, parameters, order).query))
         == parameters + Callbacks(success, error, cancel)
  {
    if success.valid { PrintableReadable(lib, success.spec); }
    if error.valid { PrintableReadable(lib, error.spec); }
    if cancel.valid { PrintableReadable(lib, cancel.spec); }
    forall k | k in parameters ensures AllKept(lib, k) && Readable(lib, parameters[k]) {
      PrintableReadable(lib, parameters[k]);
    }
    CreatedComesBackIff(lib, standard, action, success, error, cancel, parameters, order);
  }

  lemma SameFront(front: Text, p: Text, q: Text)
    ensures front + p == front + q <==> p == q
  {
    if front + p == front + q {
      assert (front + p)[|front|..] == p && (front + q)[|front|..] == q;
    }
  }

  /** Actions that differ before the first '?' or '#' give URLs that differ in the path. */
  lemma DifferentActionsDiffer(lib: Library, standard: bool, one: Text, two: Text,
                               success: Target, error: Target, cancel: Target,
                               parameters: map<Text, Text>, order: seq<Text>, p: Text, q: Text)
    requires forall i :: 0 <= i < |order| ==> order[i] in parameters
    requires PathOf(one, p) && PathOf(two, q) && p != q
    ensures Created(lib, standard, one, success, error, cancel, parameters, order).path
         != Created(lib, standard, two, success, error, cancel, parameters, order).path
  {
    ActionParts(one);
    ActionParts(two);
    var front := if standard then ['/'] else ['/', '/'] + HOST + ['/'];
    SameFront(front, p, q);
  }

  /** What a callback looks like in the query; an invalid one leaves no trace. */
  function CallbackPair(lib: Library, name: Text, t: Target): seq<Pair> {
    if t.valid then [Pair(name, Escape(lib, t.spec))] else []
  }

  function ParameterPairs(lib: Library, parameters: map<Text, Text>, order: seq<Text>): seq<Pair>
    requires forall i :: 0 <= i < |order| ==> order[i] in parameters
  {
    seq(|order|, i requires 0 <= i < |order| => Pair(Escape(lib, order[i]), Escape(lib, parameters[order[i]])))
  }

  lemma NothingBefore(pairs: seq<Pair>)
    ensures Parse([]) + Gap([]) + pairs == pairs && Parse([]) + [] + pairs == pairs
  {
  }

  lemma OnePrinted(lib: Library, name: Text, t: Target)
    requires AllKept(lib, name)
    ensures EscapedPairs(lib, One(name, t)) == CallbackPair(lib, name, t)
  {
    EscapeKept(lib, name);
    if t.valid { OnePair(lib, name, t.spec); }
  }

  lemma ReservedPrinted(lib: Library, success: Target, error: Target, cancel: Target)
    ensures EscapedPairs(lib, Reserved(success, error, cancel)) ==
      CallbackPair(lib, SUCCESS, success) + CallbackPair(lib, ERROR, error) + CallbackPair(lib, CANCEL, cancel)
  {
    EscapedPairsConcat(lib, One(SUCCESS, success) + One(ERROR, error), One(CANCEL, cancel));
    EscapedPairsConcat(lib, One(SUCCESS, success), One(ERROR, error));
    ReservedNames(lib);
    OnePrinted(lib, SUCCESS, success);
    OnePrinted(lib, ERROR, error);
    OnePrinted(lib, CANCEL, cancel);
  }

  lemma {:induction false} EscapedPairsLength(lib: Library, entries: seq<Pair>)
    ensures |EscapedPairs(lib, entries)| == |entries|
  {
    if entries != [] { EscapedPairsLength(lib, entries[1..]); }
  }

  lemma ListedPrinted(lib: Library, parameters: map<Text, Text>, order: seq<Text>)
    requires forall i :: 0 <= i < |order| ==> order[i] in parameters
    ensures EscapedPairs(lib, Listed(parameters, order)) == ParameterPairs(lib, parameters, order)
  {
    var listed, printed := Listed(parameters, order), ParameterPairs(lib, parameters, order);
    EscapedPairsLength(lib, listed);
    forall i | 0 <= i < |order| ensures EscapedPairs(lib, listed)[i] == printed[i]
    {
      EscapedPairsAt(lib, listed, i);
    }
  }

  /** The callbacks come first, in the order success, error, cancel, and the parameters
      follow in the order of the map. */
  lemma PrintedInOrder(lib: Library, standard: bool, action: Text, success: Target, error: Target, cancel: Target,
                       parameters: map<Text, Text>, order: seq<Text>)
    requires forall i :: 0 <= i < |order| ==> order[i] in parameters
    requires ActionQuery(action) == []
    ensures Parse(Created(lib, standard, action, success, error, cancel, parameters, order).query) ==
      CallbackPair(lib, SUCCESS, success) + CallbackPair(lib, ERROR, error) + CallbackPair(lib, CANCEL, cancel)
      + ParameterPairs(lib, parameters, order)
  {
    CreatedParses(lib, standard, action, success, error, cancel, parameters, order);
    EscapedPairsConcat(lib, Reserved(success, error, cancel), Listed(parameters, order));
    NothingBefore(EscapedPairs(lib, Reserved(success, error, cancel) + Listed(parameters, order)));
    ReservedPrinted(lib, success, error, cancel);
    ListedPrinted(lib, parameters, order);
  }

  /** An action without '?' before a '#' has no query of its own. */
  lemma PlainActionHasNoQuery(action: Text)
    ensures '?' !in action ==> ActionQuery(action) == []
  {
    var body := action[..IndexOf(action, '#', 0)];
    var k := IndexOf(body, '?', 0);
    assert k < |body| ==> action[k] == '?';
  }
}

/** Request header assembly of the Streamable HTTP transport: the fixed
    `Content-Type` and `Accept` headers, the `Mcp-Session-Id` header when a
    session token is held, then the configured static headers, each written
    with `http.Header.Set`, so that a later write of the same (canonical)
    name replaces an earlier one. */
module Headers {

  type Header = map<string, string>

  const ContentTypeKey: string := "Content-Type"
  const AcceptKey: string := "Accept"
  const SessionKey: string := "Mcp-Session-Id"
  const JsonMediaType: string := "application/json"
  const AcceptBoth: string := "application/json, text/event-stream"

  // ---------------------------------------------------------------------------
  // Canonical header names, as `textproto.CanonicalMIMEHeaderKey` forms them.

  /** The characters of an HTTP token (tchar of RFC 7230, section 3.2.6). */
  predicate IsTokenChar(c: char) {
    || ('a' <= c <= 'z') || ('A' <= c <= 'Z') || ('0' <= c <= '9')
    || c == '!' || c == '#' || c == '$' || c == '%' || c == '&' || c == '\''
    || c == '*' || c == '+' || c == '-' || c == '.' || c == '^' || c == '_'
    || c == '`' || c == '|' || c == '~'
  }

  predicate IsToken(k: string) {
    forall i :: 0 <= i < |k| ==> IsTokenChar(k[i])
  }

  function Upper(c: char): char {
    if 'a' <= c <= 'z' then (c as int - 32) as char else c
  }

  function Lower(c: char): char {
    if 'A' <= c <= 'Z' then (c as int + 32) as char else c
  }

  /** Whether position `i` of `k` starts a word of a header name. */
  predicate WordStart(k: string, i: nat)
    requires i < |k|
  {
    i == 0 || k[i - 1] == '-'
  }

  /** Letters at the start of the name and after each hyphen in upper case,
      all other letters in lower case. */
  function CanonicalFrom(k: string, upper: bool): (r: string)
    ensures |r| == |k|
    ensures forall i :: 0 <= i < |k| ==>
      r[i] == (if (if i == 0 then upper else k[i - 1] == '-') then Upper(k[i]) else Lower(k[i]))
  {
    if k == [] then []
    else [if upper then Upper(k[0]) else Lower(k[0])] + CanonicalFrom(k[1..], k[0] == '-')
  }

  /** The canonical form of a header name; a name that is not a token is kept
      as it is. */
  function CanonicalKey(k: string): (r: string)
    ensures IsToken(k) ==> |r| == |k| && forall i :: 0 <= i < |k| ==>
      r[i] == (if WordStart(k, i) then Upper(k[i]) else Lower(k[i]))
    ensures !IsToken(k) ==> r == k
  {
    if IsToken(k) then CanonicalFrom(k, true) else k
  }

  /** Two names that differ only in the case of their letters. */
  predicate SameIgnoringCase(a: string, b: string) {
    |a| == |b| && forall i :: 0 <= i < |a| ==> Lower(a[i]) == Lower(b[i])
  }

  /** Header names are case-insensitive: two tokens that differ only in case
      have one canonical form. */
  lemma CanonicalIgnoresCase(a: string, b: string)
    requires IsToken(a) && IsToken(b) && SameIgnoringCase(a, b)
    ensures CanonicalKey(a) == CanonicalKey(b)
  {
    var ra, rb := CanonicalKey(a), CanonicalKey(b);
    forall i | 0 <= i < |a| ensures ra[i] == rb[i] {
      SameLetterIgnoringCase(a[i], b[i]);
      if i > 0 {
        SameLetterIgnoringCase(a[i - 1], b[i - 1]);
      }
    }
  }

  lemma SameLetterIgnoringCase(x: char, y: char)
    requires Lower(x) == Lower(y)
    ensures Upper(x) == Upper(y) && (x == '-' <==> y == '-')
  {
  }

  /** A canonical name is its own canonical form. */
  lemma CanonicalKeyIdempotent(k: string)
    ensures CanonicalKey(CanonicalKey(k)) == CanonicalKey(k)
  {
    var r := CanonicalKey(k);
    if IsToken(k) {
      forall i | 0 <= i < |r| ensures IsTokenChar(r[i]) && (r[i] == '-' <==> k[i] == '-') {
        assert IsTokenChar(k[i]);
      }
    }
  }

  // ---------------------------------------------------------------------------
  // Assembling the headers of one exchange.

  /** `http.Header.Set`. */
  function Set(h: Header, key: string, value: string): Header {
    h[CanonicalKey(key) := value]
  }

  /** The headers set before the static ones. */
  function BaseHeaders(session: string): Header {
    var h := Set(Set(map[], ContentTypeKey, JsonMediaType), AcceptKey, AcceptBoth);
    if session != "" then Set(h, SessionKey, session) else h
  }

  /** The static headers written in `order`, the order in which the range loop
      over the header map visits them. */
  function ApplyStatic(h: Header, extra: map<string, string>, order: seq<string>): Header
    requires forall i :: 0 <= i < |order| ==> order[i] in extra
  {
    if order == [] then h
    else
      var last := order[|order| - 1];
      Set(ApplyStatic(h, extra, order[..|order| - 1]), last, extra[last])
  }

  function RequestHeaders(session: string, extra: map<string, string>, order: seq<string>): Header
    requires forall i :: 0 <= i < |order| ==> order[i] in extra
  {
    ApplyStatic(BaseHeaders(session), extra, order)
  }

  /** `order` lists every key of `extra` exactly once. */
  predicate Enumerates(order: seq<string>, extra: map<string, string>) {
    && (forall i :: 0 <= i < |order| ==> order[i] in extra)
    && (forall k :: k in extra ==> k in order)
    && (forall i, j :: 0 <= i < j < |order| ==> order[i] != order[j])
  }

  /** The header-setting code shared by requests and notifications. */
  method BuildHeaders(session: string, extra: map<string, string>, order: seq<string>)
    returns (h: Header)
    requires forall i :: 0 <= i < |order| ==> order[i] in extra
    ensures h == RequestHeaders(session, extra, order)
  {
    h := map[];
    h := Set(h, ContentTypeKey, JsonMediaType);
    h := Set(h, AcceptKey, AcceptBoth);
    if session != "" {
      h := Set(h, SessionKey, session);
    }
    for i := 0 to |order|
      invariant h == ApplyStatic(BaseHeaders(session), extra, order[..i])
    {
      assert order[..i + 1][..i] == order[..i];
      h := Set(h, order[i], extra[order[i]]);
    }
    assert order[..|order|] == order;
  }

  // ---------------------------------------------------------------------------
  // What the assembled headers hold.

  /** The names the headers end up with: the earlier ones and the canonical
      form of every static name, and nothing else. */
  lemma ApplyStaticKeys(h: Header, extra: map<string, string>, order: seq<string>)
    requires forall i :: 0 <= i < |order| ==> order[i] in extra
    ensures h.Keys <= ApplyStatic(h, extra, order).Keys
    ensures forall i :: 0 <= i < |order| ==> CanonicalKey(order[i]) in ApplyStatic(h, extra, order)
    ensures forall k :: k in ApplyStatic(h, extra, order) && k !in h ==>
      exists i :: 0 <= i < |order| && CanonicalKey(order[i]) == k
  {
    ApplyStaticKeeps(h, extra, order);
    ApplyStaticAdds(h, extra, order);
    ApplyStaticAddsOnly(h, extra, order);
  }

  lemma {:induction false} ApplyStaticKeeps(h: Header, extra: map<string, string>, order: seq<string>)
    requires forall i :: 0 <= i < |order| ==> order[i] in extra
    ensures h.Keys <= ApplyStatic(h, extra, order).Keys
    decreases |order|
  {
    if order != [] {
      ApplyStaticKeeps(h, extra, order[..|order| - 1]);
    }
  }

  lemma {:induction false} ApplyStaticAdds(h: Header, extra: map<string, string>, order: seq<string>)
    requires forall i :: 0 <= i < |order| ==> order[i] in extra
    ensures forall i :: 0 <= i < |order| ==> CanonicalKey(order[i]) in ApplyStatic(h, extra, order)
    decreases |order|
  {
    if order != [] {
      var init := order[..|order| - 1];
      var last := order[|order| - 1];
      ApplyStaticAdds(h, extra, init);
      var prev := ApplyStatic(h, extra, init);
      var next := ApplyStatic(h, extra, order);
      assert next == prev[CanonicalKey(last) := extra[last]];
      forall i | 0 <= i < |order|
        ensures CanonicalKey(order[i]) in next
      {
        if i < |init| {
          assert order[i] == init[i];
          assert CanonicalKey(init[i]) in prev;
        }
      }
    }
  }

  lemma {:induction false} ApplyStaticAddsOnly(h: Header, extra: map<string, string>, order: seq<string>)
    requires forall i :: 0 <= i < |order| ==> order[i] in extra
    ensures forall k :: k in ApplyStatic(h, extra, order) && k !in h ==>
      exists i :: 0 <= i < |order| && CanonicalKey(order[i]) == k
    decreases |order|
  {
    if order != [] {
      var init := order[..|order| - 1];
      var last := order[|order| - 1];
      ApplyStaticAddsOnly(h, extra, init);
      var prev := ApplyStatic(h, extra, init);
      var next := ApplyStatic(h, extra, order);
      assert next == prev[CanonicalKey(last) := extra[last]];
      forall k | k in next && k !in h
        ensures exists i :: 0 <= i < |order| && CanonicalKey(order[i]) == k
      {
        if k == CanonicalKey(last) {
          assert CanonicalKey(order[|order| - 1]) == k;
        } else {
          assert k in prev;
          var i :| 0 <= i < |init| && CanonicalKey(init[i]) == k;
          assert order[i] == init[i];
        }
      }
    }
  }

  /** A static header is sent with its configured value unless a later static
      header with the same canonical name replaces it. */
  lemma {:induction false} LastWriteWins(h: Header, extra: map<string, string>, order: seq<string>, i: nat)
    requires forall j :: 0 <= j < |order| ==> order[j] in extra
    requires i < |order|
    requires forall j :: i < j < |order| ==> CanonicalKey(order[j]) != CanonicalKey(order[i])
    ensures CanonicalKey(order[i]) in ApplyStatic(h, extra, order)
    ensures ApplyStatic(h, extra, order)[CanonicalKey(order[i])] == extra[order[i]]
    decreases |order|
  {
    if i < |order| - 1 {
      var init := order[..|order| - 1];
      assert init[i] == order[i];
      LastWriteWins(h, extra, init, i);
    }
  }

  /** A name that no static header writes keeps its earlier value (or stays
      absent). */
  lemma {:induction false} UnwrittenKept(h: Header, extra: map<string, string>, order: seq<string>, name: string)
    requires forall j :: 0 <= j < |order| ==> order[j] in extra
    requires forall j :: 0 <= j < |order| ==> CanonicalKey(order[j]) != name
    ensures name in ApplyStatic(h, extra, order) <==> name in h
    ensures name in h ==> ApplyStatic(h, extra, order)[name] == h[name]
    decreases |order|
  {
    if order != [] {
      UnwrittenKept(h, extra, order[..|order| - 1], name);
    }
  }

  /** A token whose letters are already in canonical case is its own
      canonical form. */
  lemma CanonicalWhenShaped(k: string)
    requires IsToken(k)
    requires forall i :: 0 <= i < |k| ==> k[i] == if WordStart(k, i) then Upper(k[i]) else Lower(k[i])
    ensures CanonicalKey(k) == k
  {
  }

  /** The three fixed names are already canonical. */
  lemma FixedNamesCanonical()
    ensures CanonicalKey(ContentTypeKey) == ContentTypeKey
    ensures CanonicalKey(AcceptKey) == AcceptKey
    ensures CanonicalKey(SessionKey) == SessionKey
  {
    ContentTypeCanonical();
    AcceptCanonical();
    SessionKeyCanonical();
  }

  lemma ContentTypeCanonical()
    ensures CanonicalKey(ContentTypeKey) == ContentTypeKey
  {
    CanonicalWhenShaped(ContentTypeKey);
  }

  lemma AcceptCanonical()
    ensures CanonicalKey(AcceptKey) == AcceptKey
  {
    CanonicalWhenShaped(AcceptKey);
  }

  lemma SessionKeyCanonical()
    ensures CanonicalKey(SessionKey) == SessionKey
  {
    CanonicalWhenShaped(SessionKey);
  }

  /** The fixed headers before any static header is written. */
  lemma BaseHeadersContent(session: string)
    ensures ContentTypeKey in BaseHeaders(session) && BaseHeaders(session)[ContentTypeKey] == JsonMediaType
    ensures AcceptKey in BaseHeaders(session) && BaseHeaders(session)[AcceptKey] == AcceptBoth
    ensures SessionKey in BaseHeaders(session) <==> session != ""
    ensures session != "" ==> BaseHeaders(session)[SessionKey] == session
  {
    FixedNamesCanonical();
    var h1 := Set(map[], ContentTypeKey, JsonMediaType);
    assert h1 == map[ContentTypeKey := JsonMediaType];
    var h2 := Set(h1, AcceptKey, AcceptBoth);
    assert h2 == h1[AcceptKey := AcceptBoth];
    assert |ContentTypeKey| != |AcceptKey| && |ContentTypeKey| != |SessionKey| && |AcceptKey| != |SessionKey|;
    assert SessionKey !in h2;
    if session != "" {
      assert BaseHeaders(session) == h2[SessionKey := session];
    } else {
      assert BaseHeaders(session) == h2;
    }
  }

  /** Every exchange carries `Content-Type: application/json` and
      `Accept: application/json, text/event-stream`, unless a static header
      of the same name overrides it. */
  lemma DefaultHeaders(session: string, extra: map<string, string>, order: seq<string>)
    requires forall j :: 0 <= j < |order| ==> order[j] in extra
    ensures (forall j :: 0 <= j < |order| ==> CanonicalKey(order[j]) != ContentTypeKey) ==>
      && ContentTypeKey in RequestHeaders(session, extra, order)
      && RequestHeaders(session, extra, order)[ContentTypeKey] == JsonMediaType
    ensures (forall j :: 0 <= j < |order| ==> CanonicalKey(order[j]) != AcceptKey) ==>
      && AcceptKey in RequestHeaders(session, extra, order)
      && RequestHeaders(session, extra, order)[AcceptKey] == AcceptBoth
  {
    BaseHeadersContent(session);
    var base := BaseHeaders(session);
    if forall j :: 0 <= j < |order| ==> CanonicalKey(order[j]) != ContentTypeKey {
      UnwrittenKept(base, extra, order, ContentTypeKey);
    }
    if forall j :: 0 <= j < |order| ==> CanonicalKey(order[j]) != AcceptKey {
      UnwrittenKept(base, extra, order, AcceptKey);
    }
  }

  /** `Mcp-Session-Id` is sent exactly when a session token is held, with
      that token, unless a static header of the same name overrides it. */
  lemma SessionHeaderSent(session: string, extra: map<string, string>, order: seq<string>)
    requires forall j :: 0 <= j < |order| ==> order[j] in extra
    requires forall j :: 0 <= j < |order| ==> CanonicalKey(order[j]) != SessionKey
    ensures SessionKey in RequestHeaders(session, extra, order) <==> session != ""
    ensures session != "" ==> RequestHeaders(session, extra, order)[SessionKey] == session
  {
    BaseHeadersContent(session);
    UnwrittenKept(BaseHeaders(session), extra, order, SessionKey);
  }
}

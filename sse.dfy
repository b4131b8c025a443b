/** The reduced server-sent-events reader of the Streamable HTTP transport.

    It follows the `text/event-stream` format of section 9.2 of the WHATWG HTML
    Living Standard only in part: a record is an `event:` line and a `data:` line
    closed by a blank line; a later field line overwrites an earlier one instead
    of appending to it, both values are space-trimmed, and a record is delivered
    only when both its name and its data are non-empty. */
module Sse {
  import opened Wrappers
  import opened Text

  /** One delivered record: its event name and its (last) data line. */
  datatype Event = Event(name: string, data: string)

  /** The two accumulators the reader keeps between lines. */
  datatype Pending = Pending(event: string, data: string)

  const Idle: Pending := Pending("", "")

  /** How the body stream ended after its last complete line: at end of input,
      on a read error, or because the exchange's context was cancelled (observed
      before the next read). */
  datatype StreamEnd = EndOfStream | ReadFailure | Cancelled

  predicate Complete(p: Pending) {
    p.event != "" && p.data != ""
  }

  predicate WellFormed(e: Event) {
    e.name != "" && e.data != ""
  }

  // ---------------------------------------------------------------------------
  // Reading lines: `bufio.Reader.ReadString('\n')` until it reports an error.

  predicate NoNewline(s: string) {
    forall k :: 0 <= k < |s| ==> s[k] != '\n'
  }

  /** A complete line as `ReadString('\n')` returns it: ending in its only LF. */
  predicate IsLine(l: string) {
    |l| > 0 && l[|l| - 1] == '\n' && NoNewline(l[..|l| - 1])
  }

  function Concat(ls: seq<string>): string {
    if ls == [] then "" else ls[0] + Concat(ls[1..])
  }

  /** The index of the first LF in `s`, if there is one. */
  function NewlineIndex(s: string): (r: Option<nat>)
    ensures r.Some? ==> r.value < |s| && s[r.value] == '\n' && NoNewline(s[..r.value])
    ensures r.None? ==> NoNewline(s)
  {
    if s == [] then None
    else if s[0] == '\n' then Some(0)
    else match NewlineIndex(s[1..])
      case None => None
      case Some(i) => assert s[..i + 1] == [s[0]] + s[1..][..i]; Some(i + 1)
  }

  /** Splits a body into the complete lines successive `ReadString('\n')` calls
      return and the unterminated tail that the last call returns together with
      its error. The lines and the tail put together are the body again. */
  function SplitLines(s: string): (seq<string>, string)
    decreases |s|
  {
    match NewlineIndex(s)
    case None => ([], s)
    case Some(n) =>
      var rest := SplitLines(s[n + 1..]);
      ([s[..n + 1]] + rest.0, rest.1)
  }

  /** The split is a split: lines and tail put back together are the body,
      each line ends in its only LF and the tail holds none. */
  lemma {:induction false} SplitLinesSpec(s: string)
    ensures Concat(SplitLines(s).0) + SplitLines(s).1 == s
    ensures AllLines(SplitLines(s).0)
    ensures NoNewline(SplitLines(s).1)
    decreases |s|
  {
    match NewlineIndex(s)
    case None =>
    case Some(n) =>
      SplitLinesSpec(s[n + 1..]);
      var rest := SplitLines(s[n + 1..]);
      LineThenRest(s, n, rest.0, rest.1);
  }

  /** A line ending at the first LF of `s`, followed by the split of the rest,
      is a split of `s`. */
  lemma LineThenRest(s: string, n: nat, lines: seq<string>, tail: string)
    requires n < |s| && s[n] == '\n' && NoNewline(s[..n])
    requires Concat(lines) + tail == s[n + 1..]
    requires AllLines(lines)
    ensures Concat([s[..n + 1]] + lines) + tail == s
    ensures AllLines([s[..n + 1]] + lines)
  {
    var line := s[..n + 1];
    ConcatCons(line, lines);
    assert (line + Concat(lines)) + tail == line + (Concat(lines) + tail);
    assert line + s[n + 1..] == s;
    LineUpToNewline(s, n);
    ConsAllLines(line, lines);
  }

  lemma LineUpToNewline(s: string, n: nat)
    requires n < |s| && s[n] == '\n' && NoNewline(s[..n])
    ensures IsLine(s[..n + 1])
  {
    assert s[..n + 1][..n] == s[..n];
  }

  predicate AllLines(ls: seq<string>) {
    forall i :: 0 <= i < |ls| ==> IsLine(ls[i])
  }

  lemma ConsAllLines(line: string, lines: seq<string>)
    requires IsLine(line) && AllLines(lines)
    ensures AllLines([line] + lines)
  {
    forall i | 0 <= i < |[line] + lines|
      ensures IsLine(([line] + lines)[i])
    {
      if i > 0 {
        assert ([line] + lines)[i] == lines[i - 1];
      }
    }
  }

  lemma ConcatCons(l: string, ls: seq<string>)
    ensures Concat([l] + ls) == l + Concat(ls)
  {
    assert ([l] + ls)[1..] == ls;
  }

  // ---------------------------------------------------------------------------
  // The decoder, as a specification over the lines read.

  /** What one line does to the accumulators, and the event it emits, if any. */
  function Step(p: Pending, raw: string): (Pending, seq<Event>) {
    var line := TrimLineEnd(raw);
    if line == "" then
      if Complete(p) then (Idle, [Event(p.event, p.data)]) else (p, [])
    else if HasPrefix(line, "event:") then
      (p.(event := TrimSpace(TrimPrefix(line, "event:"))), [])
    else if HasPrefix(line, "data:") then
      (p.(data := TrimSpace(TrimPrefix(line, "data:"))), [])
    else
      (p, [])
  }

  /** The accumulators after `lines`, starting from `p`, and the events emitted. */
  function Run(p: Pending, lines: seq<string>): (Pending, seq<Event>)
    decreases |lines|
  {
    if lines == [] then (p, [])
    else
      var (p1, e1) := Step(p, lines[0]);
      var (p2, e2) := Run(p1, lines[1..]);
      (p2, e1 + e2)
  }

  /** The events delivered for the complete lines `lines` of a body that ended
      as `end` says: on end of input a complete pending record is delivered
      once more; on a read error or a cancellation it is not. */
  function Decode(lines: seq<string>, end: StreamEnd): seq<Event> {
    var (p, evs) := Run(Idle, lines);
    if end == EndOfStream && Complete(p) then evs + [Event(p.event, p.data)] else evs
  }

  /** The events delivered for a whole body. */
  function DecodeBody(body: string, end: StreamEnd): seq<Event> {
    Decode(SplitLines(body).0, end)
  }

  // ---------------------------------------------------------------------------
  // The reader loop.

  /** `readSSE`: reads the lines one by one, keeps the two accumulators and
      collects the events it hands to its callback, in order. */
  method ReadSse(lines: seq<string>, end: StreamEnd) returns (events: seq<Event>)
    ensures events == Decode(lines, end)
    ensures forall i :: 0 <= i < |events| ==> WellFormed(events[i])
  {
    var event, data := "", "";
    events := [];
    var i := 0;
    while i < |lines|
      invariant 0 <= i <= |lines|
      invariant (Pending(event, data), events) == Run(Idle, lines[..i])
      invariant forall k :: 0 <= k < |events| ==> WellFormed(events[k])
    {
      ghost var before := (Pending(event, data), events);
      var line := TrimLineEnd(lines[i]);
      if line == "" {
        if event != "" && data != "" {
          events := events + [Event(event, data)];
          event, data := "", "";
        } else {
          assert events == before.1 + [];
        }
      } else if HasPrefix(line, "event:") {
        event := TrimSpace(TrimPrefix(line, "event:"));
        assert events == before.1 + [];
      } else if HasPrefix(line, "data:") {
        data := TrimSpace(TrimPrefix(line, "data:"));
        assert events == before.1 + [];
      } else {
        assert events == before.1 + [];
      }
      assert Pending(event, data) == Step(before.0, lines[i]).0;
      assert events == before.1 + Step(before.0, lines[i]).1;
      RunSnoc(Idle, lines[..i], lines[i]);
      assert lines[..i + 1] == lines[..i] + [lines[i]];
      i := i + 1;
    }
    assert lines[..i] == lines;
    if end == EndOfStream && event != "" && data != "" {
      events := events + [Event(event, data)];
    }
  }

  // ---------------------------------------------------------------------------
  // Properties of the decoder.

  /** Running over two pieces of input is running over the first, then over the
      second from where the first left the accumulators. */
  lemma {:induction false} RunAppend(p: Pending, a: seq<string>, b: seq<string>)
    ensures Run(p, a + b) == (Run(Run(p, a).0, b).0, Run(p, a).1 + Run(Run(p, a).0, b).1)
    decreases |a|
  {
    if a == [] {
      assert a + b == b;
      assert [] + Run(p, b).1 == Run(p, b).1;
    } else {
      assert (a + b)[0] == a[0] && (a + b)[1..] == a[1..] + b;
      var p1 := Step(p, a[0]).0;
      var e1 := Step(p, a[0]).1;
      RunAppend(p1, a[1..], b);
      var x := Run(p1, a[1..]);
      var y := Run(x.0, b);
      assert Run(p, a) == (x.0, e1 + x.1);
      assert e1 + (x.1 + y.1) == (e1 + x.1) + y.1;
    }
  }

  /** Running over one more line is taking one more step. */
  lemma RunSnoc(p: Pending, lines: seq<string>, raw: string)
    ensures Run(p, lines + [raw])
         == (Step(Run(p, lines).0, raw).0, Run(p, lines).1 + Step(Run(p, lines).0, raw).1)
  {
    RunAppend(p, lines, [raw]);
    RunOne(Run(p, lines).0, raw);
  }

  lemma RunOne(p: Pending, raw: string)
    ensures Run(p, [raw]) == Step(p, raw)
  {
    assert [raw][1..] == [];
    assert Step(p, raw).1 + [] == Step(p, raw).1;
  }

  /** Every delivered event has a non-empty name and non-empty data. */
  lemma {:induction false} RunEventsWellFormed(p: Pending, lines: seq<string>)
    ensures forall i :: 0 <= i < |Run(p, lines).1| ==> WellFormed(Run(p, lines).1[i])
    decreases |lines|
  {
    if lines != [] {
      RunEventsWellFormed(Step(p, lines[0]).0, lines[1..]);
    }
  }

  lemma DecodedEventsWellFormed(lines: seq<string>, end: StreamEnd)
    ensures forall i :: 0 <= i < |Decode(lines, end)| ==> WellFormed(Decode(lines, end)[i])
  {
    RunEventsWellFormed(Idle, lines);
  }

  /** A line carrying a prefix starts with the prefix's first character. */
  lemma PrefixHead(line: string, prefix: string)
    ensures HasPrefix(line, prefix) && prefix != [] ==> line[0] == prefix[0]
  {
    if HasPrefix(line, prefix) && prefix != [] {
      assert line[..|prefix|][0] == line[0];
    }
  }

  /** An `event:` line overwrites the name with the trimmed remainder of the
      line, keeps the data and emits nothing. */
  lemma EventLineOverwrites(p: Pending, raw: string)
    requires HasPrefix(TrimLineEnd(raw), "event:")
    ensures Step(p, raw) == (p.(event := TrimSpace(TrimPrefix(TrimLineEnd(raw), "event:"))), [])
  {
  }

  /** A `data:` line overwrites the data with the trimmed remainder of the
      line, keeps the name and emits nothing. */
  lemma DataLineOverwrites(p: Pending, raw: string)
    requires HasPrefix(TrimLineEnd(raw), "data:")
    ensures Step(p, raw) == (p.(data := TrimSpace(TrimPrefix(TrimLineEnd(raw), "data:"))), [])
  {
    PrefixHead(TrimLineEnd(raw), "data:");
    PrefixHead(TrimLineEnd(raw), "event:");
  }

  /** A first line that emits nothing only moves the accumulators on. */
  lemma SilentStep(p: Pending, lines: seq<string>)
    requires lines != [] && Step(p, lines[0]).1 == []
    ensures Run(p, lines) == Run(Step(p, lines[0]).0, lines[1..])
  {
    var r := Run(Step(p, lines[0]).0, lines[1..]);
    assert [] + r.1 == r.1;
  }

  /** Two states on which the first line acts alike give the same run. */
  lemma SameFirstStep(p: Pending, q: Pending, lines: seq<string>)
    requires lines != [] && Step(p, lines[0]) == Step(q, lines[0])
    ensures Run(p, lines) == Run(q, lines)
  {
  }

  /** Of two `data:` lines in a row only the second one counts, unlike the
      standard, which joins data lines. */
  lemma LaterDataLineWins(p: Pending, lines: seq<string>)
    requires |lines| >= 2
    requires HasPrefix(TrimLineEnd(lines[0]), "data:") && HasPrefix(TrimLineEnd(lines[1]), "data:")
    ensures Run(p, lines) == Run(p, lines[1..])
  {
    var p1 := Step(p, lines[0]).0;
    DataLineOverwrites(p, lines[0]);
    DataLineOverwrites(p1, lines[1]);
    DataLineOverwrites(p, lines[1]);
    SilentStep(p, lines);
    SameFirstStep(p1, p, lines[1..]);
  }

  /** Of two `event:` lines in a row only the second one counts. */
  lemma LaterEventLineWins(p: Pending, lines: seq<string>)
    requires |lines| >= 2
    requires HasPrefix(TrimLineEnd(lines[0]), "event:") && HasPrefix(TrimLineEnd(lines[1]), "event:")
    ensures Run(p, lines) == Run(p, lines[1..])
  {
    var p1 := Step(p, lines[0]).0;
    EventLineOverwrites(p, lines[0]);
    EventLineOverwrites(p1, lines[1]);
    EventLineOverwrites(p, lines[1]);
    SilentStep(p, lines);
    SameFirstStep(p1, p, lines[1..]);
  }

  /** A non-blank line that is neither an `event:` nor a `data:` line (a comment,
      `id:`, `retry:`, a field without its colon) is ignored. */
  lemma OtherLineIgnored(p: Pending, lines: seq<string>)
    requires lines != [] && TrimLineEnd(lines[0]) != ""
    requires !HasPrefix(TrimLineEnd(lines[0]), "event:") && !HasPrefix(TrimLineEnd(lines[0]), "data:")
    ensures Run(p, lines) == Run(p, lines[1..])
  {
    SilentStep(p, lines);
  }

  /** A blank line (only CR and LF characters) emits the pending record and
      resets both accumulators exactly when both are non-empty; otherwise it
      does nothing at all. */
  lemma BlankLineBoundary(p: Pending, raw: string)
    requires forall k :: 0 <= k < |raw| ==> IsLineEnd(raw[k])
    ensures Step(p, raw).1 != [] <==> Complete(p)
    ensures Complete(p) ==> Step(p, raw) == (Idle, [Event(p.event, p.data)])
    ensures !Complete(p) ==> Step(p, raw) == (p, [])
  {
    LineEndsTrimAway(raw);
  }

  /** End of input flushes a complete pending record exactly once; a read error
      or a cancellation delivers only what blank lines already emitted. */
  lemma EndOfInput(lines: seq<string>)
    ensures Decode(lines, ReadFailure) == Decode(lines, Cancelled) == Run(Idle, lines).1
    ensures var p := Run(Idle, lines).0;
      Decode(lines, EndOfStream) ==
        Run(Idle, lines).1 + (if Complete(p) then [Event(p.event, p.data)] else [])
  {
  }

  /** Splitting concatenated complete lines gives those lines back. */
  lemma {:induction false} SplitConcat(ls: seq<string>, tail: string)
    requires AllLines(ls)
    requires NoNewline(tail)
    ensures SplitLines(Concat(ls) + tail) == (ls, tail)
    decreases |ls|
  {
    var s := Concat(ls) + tail;
    if ls == [] {
      assert s == tail;
    } else {
      var l := ls[0];
      var rest := Concat(ls[1..]) + tail;
      assert s == l + rest;
      assert s[..|l| - 1] == l[..|l| - 1];
      assert s[|l| - 1] == '\n';
      assert NewlineIndex(s) == Some(|l| - 1);
      assert s[..|l|] == l && s[|l|..] == rest;
      SplitConcat(ls[1..], tail);
      assert [l] + ls[1..] == ls;
    }
  }

  /** A final line without its LF is dropped unparsed, whatever it holds. */
  lemma UnterminatedLineDropped(body: string, tail: string, end: StreamEnd)
    requires body == [] || body[|body| - 1] == '\n'
    requires NoNewline(tail)
    ensures DecodeBody(body + tail, end) == DecodeBody(body, end)
  {
    var (ls, t) := SplitLines(body);
    SplitLinesSpec(body);
    TerminatedBodySplitsWhole(body);
    assert body == Concat(ls);
    SplitConcat(ls, tail);
    SplitConcat(ls, "");
    assert Concat(ls) + "" == body;
  }

  /** A line of CR and LF characters only is blank once its line end is trimmed. */
  lemma {:induction false} LineEndsTrimAway(raw: string)
    requires forall k :: 0 <= k < |raw| ==> IsLineEnd(raw[k])
    ensures TrimLineEnd(raw) == ""
    decreases |raw|
  {
    if raw != [] {
      LineEndsTrimAway(raw[..|raw| - 1]);
    }
  }

  /** A body that is empty or ends in LF leaves no unterminated tail. */
  lemma {:induction false} TerminatedBodySplitsWhole(body: string)
    requires body == [] || body[|body| - 1] == '\n'
    ensures SplitLines(body).1 == ""
    decreases |body|
  {
    match NewlineIndex(body)
    case None =>
      assert body == [];
    case Some(i) =>
      var rest := body[i + 1..];
      assert |rest| == 0 || rest[|rest| - 1] == body[|body| - 1];
      TerminatedBodySplitsWhole(rest);
  }

  // ---------------------------------------------------------------------------
  // Round trip: the records a server writes are the events the reader delivers.

  /** An event a server can send as one `event:` line and one `data:` line:
      both values non-empty, free of LF and without spaces at either end. */
  predicate Sendable(e: Event) {
    && e.name != "" && e.data != ""
    && NoNewline(e.name) && NoNewline(e.data)
    && IsTrimmed(e.name) && IsTrimmed(e.data)
  }

  /** The three lines of one record, as a server writes it. */
  function RecordLines(e: Event): seq<string> {
    ["event: " + e.name + "\n", "data: " + e.data + "\n", "\n"]
  }

  function EventLines(evs: seq<Event>): seq<string> {
    if evs == [] then [] else RecordLines(evs[0]) + EventLines(evs[1..])
  }

  /** The body of a stream carrying `evs`, one record after another. */
  function Serialize(evs: seq<Event>): string {
    Concat(EventLines(evs))
  }

  /** Trimming the line end of a field line gives back its text. */
  lemma TrimLineEndOfLine(x: string)
    requires x == [] || !IsLineEnd(x[|x| - 1])
    ensures TrimLineEnd(x + "\n") == x
  {
    assert (x + "\n")[..|x|] == x;
  }

  /** The value of a field line written as `prefix: value`. */
  lemma FieldValue(prefix: string, v: string)
    requires v != [] && IsTrimmed(v)
    ensures HasPrefix(prefix + " " + v, prefix)
    ensures TrimSpace(TrimPrefix(prefix + " " + v, prefix)) == v
  {
    var line := prefix + " " + v;
    assert line[..|prefix|] == prefix;
    assert TrimPrefix(line, prefix) == " " + v;
    assert (" " + v)[1..] == v;
    assert TrimLeftSpace(" " + v) == TrimLeftSpace(v);
  }

  /** The line `event: <name>` sets the name. */
  lemma EventLineOf(p: Pending, name: string)
    requires name != [] && IsTrimmed(name)
    ensures Step(p, "event: " + name + "\n") == (p.(event := name), [])
  {
    TrimLineEndOfLine("event: " + name);
    assert "event: " + name == "event:" + " " + name;
    FieldValue("event:", name);
    EventLineOverwrites(p, "event: " + name + "\n");
  }

  /** The line `data: <data>` sets the data. */
  lemma DataLineOf(p: Pending, data: string)
    requires data != [] && IsTrimmed(data)
    ensures Step(p, "data: " + data + "\n") == (p.(data := data), [])
  {
    TrimLineEndOfLine("data: " + data);
    assert "data: " + data == "data:" + " " + data;
    FieldValue("data:", data);
    DataLineOverwrites(p, "data: " + data + "\n");
  }

  /** A record's lines are complete lines. */
  lemma RecordLinesAreLines(e: Event)
    requires Sendable(e)
    ensures AllLines(RecordLines(e))
  {
    assert ("event: " + e.name + "\n")[..|"event: " + e.name|] == "event: " + e.name;
    assert ("data: " + e.data + "\n")[..|"data: " + e.data|] == "data: " + e.data;
  }

  /** The first two lines of a record, read from an idle reader, leave the
      record pending. */
  lemma RecordHeadPending(e: Event)
    requires Sendable(e)
    ensures Run(Idle, RecordLines(e)[..2]) == (Pending(e.name, e.data), [])
  {
    var ls := RecordLines(e)[..2];
    var p1 := Pending(e.name, "");
    EventLineOf(Idle, e.name);
    DataLineOf(p1, e.data);
    SilentStep(Idle, ls);
    assert ls[1..] == [ls[1]];
    RunOne(p1, ls[1]);
  }

  /** One record, read from an idle reader, delivers its event and leaves the
      reader idle. */
  lemma RecordDelivered(e: Event)
    requires Sendable(e)
    ensures Run(Idle, RecordLines(e)) == (Idle, [e])
  {
    var ls := RecordLines(e);
    RecordHeadPending(e);
    RunAppend(Idle, ls[..2], [ls[2]]);
    assert ls[..2] + [ls[2]] == ls;
    assert ls[2] == "\n";
    BlankLineBoundary(Pending(e.name, e.data), "\n");
    RunOne(Pending(e.name, e.data), "\n");
    assert Run(Pending(e.name, e.data), [ls[2]]) == (Idle, [e]);
    assert [] + [e] == [e];
  }

  lemma {:induction false} EventLinesRun(evs: seq<Event>)
    requires forall i :: 0 <= i < |evs| ==> Sendable(evs[i])
    ensures Run(Idle, EventLines(evs)) == (Idle, evs)
    decreases |evs|
  {
    if evs != [] {
      var e := evs[0];
      RecordDelivered(e);
      EventLinesRun(evs[1..]);
      RunAppend(Idle, RecordLines(e), EventLines(evs[1..]));
      assert [e] + evs[1..] == evs;
    }
  }

  lemma {:induction false} EventLinesAreLines(evs: seq<Event>)
    requires forall i :: 0 <= i < |evs| ==> Sendable(evs[i])
    ensures AllLines(EventLines(evs))
    decreases |evs|
  {
    if evs != [] {
      RecordLinesAreLines(evs[0]);
      EventLinesAreLines(evs[1..]);
      AppendAllLines(RecordLines(evs[0]), EventLines(evs[1..]));
    }
  }

  /** Reading the body of a stream of sendable events delivers exactly those
      events, in order, however the stream then ends. */
  lemma SerializeRoundTrip(evs: seq<Event>, end: StreamEnd)
    requires forall i :: 0 <= i < |evs| ==> Sendable(evs[i])
    ensures DecodeBody(Serialize(evs), end) == evs
  {
    EventLinesRun(evs);
    EventLinesAreLines(evs);
    SplitConcat(EventLines(evs), "");
    assert Serialize(evs) + "" == Serialize(evs);
  }

  /** A last record that the server does not close with a blank line is still
      delivered when the stream reaches end of input, but not after a read error. */
  lemma UnclosedRecordOnEndOfInput(evs: seq<Event>, e: Event)
    requires forall i :: 0 <= i < |evs| ==> Sendable(evs[i])
    requires Sendable(e)
    ensures DecodeBody(Serialize(evs) + Concat(RecordLines(e)[..2]), EndOfStream) == evs + [e]
    ensures DecodeBody(Serialize(evs) + Concat(RecordLines(e)[..2]), ReadFailure) == evs
  {
    var head := RecordLines(e)[..2];
    var ls := EventLines(evs) + head;
    LinesOfRecords(evs, e);
    assert DecodeBody(Serialize(evs) + Concat(head), EndOfStream) == Decode(ls, EndOfStream);
    assert DecodeBody(Serialize(evs) + Concat(head), ReadFailure) == Decode(ls, ReadFailure);
    EventLinesRun(evs);
    RunAppend(Idle, EventLines(evs), head);
    RecordHeadPending(e);
    assert Run(Idle, ls) == (Pending(e.name, e.data), evs + []);
    assert evs + [] == evs;
  }

  /** The body of `evs` followed by the head of `e` splits into their lines. */
  lemma LinesOfRecords(evs: seq<Event>, e: Event)
    requires forall i :: 0 <= i < |evs| ==> Sendable(evs[i])
    requires Sendable(e)
    ensures SplitLines(Serialize(evs) + Concat(RecordLines(e)[..2])).0
         == EventLines(evs) + RecordLines(e)[..2]
  {
    var head := RecordLines(e)[..2];
    var body := EventLines(evs);
    EventLinesAreLines(evs);
    RecordHeadAreLines(e);
    SplitTwoParts(body, head);
  }

  lemma RecordHeadAreLines(e: Event)
    requires Sendable(e)
    ensures AllLines(RecordLines(e)[..2])
  {
    RecordLinesAreLines(e);
    var ls := RecordLines(e);
    assert ls[..2][0] == ls[0] && ls[..2][1] == ls[1];
  }

  /** Two runs of complete lines, written one after the other, split back
      into both runs. */
  lemma SplitTwoParts(a: seq<string>, b: seq<string>)
    requires AllLines(a) && AllLines(b)
    ensures SplitLines(Concat(a) + Concat(b)).0 == a + b
  {
    var ls := a + b;
    AppendAllLines(a, b);
    ConcatAppend(a, b);
    SplitConcat(ls, "");
    assert Concat(ls) + "" == Concat(ls);
  }

  lemma AppendAllLines(a: seq<string>, b: seq<string>)
    requires AllLines(a) && AllLines(b)
    ensures AllLines(a + b)
  {
    forall i | 0 <= i < |a + b|
      ensures IsLine((a + b)[i])
    {
      if i >= |a| {
        assert (a + b)[i] == b[i - |a|];
      }
    }
  }

  lemma {:induction false} ConcatAppend(a: seq<string>, b: seq<string>)
    ensures Concat(a + b) == Concat(a) + Concat(b)
    decreases |a|
  {
    if a == [] {
      assert a + b == b;
    } else {
      assert (a + b)[0] == a[0] && (a + b)[1..] == a[1..] + b;
      ConcatAppend(a[1..], b);
    }
  }
}

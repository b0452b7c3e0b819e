/** The event stream of the server, and the parser of the standard (section 9.2.6 of
    the WHATWG HTML Standard) that every browser runs on it. */
module SseFraming {
  import opened Wrappers

  const LF: char := '\n'
  const CR: char := '\r'

  // ----- what the server writes -----------------------------------------------------------

  /** The lines between line feeds; always at least one. */
  function SplitLines(s: string): (lines: seq<string>)
    ensures lines != []
  {
    if s == [] then [[]]
    else if s[0] == LF then [[]] + SplitLines(s[1..])
    else
      var rest := SplitLines(s[1..]);
      [[s[0]] + rest[0]] + rest[1..]
  }

  function DataLines(lines: seq<string>): string {
    if lines == [] then [] else "data: " + lines[0] + [LF] + DataLines(lines[1..])
  }

  /** One message on the stream. */
  function Framed(message: string): string {
    DataLines(SplitLines(message)) + [LF]
  }

  datatype Item = Ping | Message(text: string)

  function Chunk(item: Item): string {
    match item
    case Ping => ": ping\n\n"
    case Message(text) => Framed(text)
  }

  function Written(items: seq<Item>): string {
    if items == [] then [] else Chunk(items[0]) + Written(items[1..])
  }

  /** A whole stream: the ready comment, then pings and messages. */
  function Stream(items: seq<Item>): string {
    ": ready\n\n" + Written(items)
  }

  class SseWriter {
    var out: string

    constructor ()
      ensures out == Stream([])
    {
      out := ": ready\n\n";
      assert ": ready\n\n" + [] == ": ready\n\n";
    }

    /** writeSSEMessage */
    method WriteMessage(data: string)
      modifies this
      ensures out == old(out) + Framed(data)
    {
      hide DataLines;
      var lines := Split(data);
      NoLines();
      for i := 0 to |lines|
        invariant out == old(out) + DataLines(lines[..i])
      {
        OneMoreLine(lines, i);
        out := out + "data: ";
        out := out + lines[i];
        out := out + [LF];
      }
      assert lines[..|lines|] == lines;
      out := out + [LF];
    }

    /** Splits at line feeds. */
    method Split(data: string) returns (lines: seq<string>)
      ensures lines == SplitLines(data)
    {
      hide SplitLines;
      var current := [];
      lines := [];
      NoLines();
      for i := 0 to |data|
        invariant lines + [current] == SplitLines(data[..i])
      {
        assert data[..i + 1] == data[..i] + [data[i]];
        OneMoreChar(data[..i], data[i]);
        if data[i] == LF {
          lines, current := lines + [current], [];
        } else {
          current := current + [data[i]];
        }
      }
      assert data[..|data|] == data;
      lines := lines + [current];
    }

    /** writeSSE: one item after the other until the channel is closed. */
    method WriteAll(items: seq<Item>)
      modifies this
      ensures out == old(out) + Written(items)
    {
      hide Written, Framed;
      NoLines();
      for i := 0 to |items|
        invariant out == old(out) + Written(items[..i])
      {
        OneMoreItem(items, i);
        match items[i] {
          case Ping => out := out + ": ping\n\n";
          case Message(text) => WriteMessage(text);
        }
      }
      assert items[..|items|] == items;
    }
  }

  lemma NoLines()
    ensures DataLines([]) == [] && SplitLines([]) == [[]] && Written([]) == []
  {}

  lemma {:induction false} OneMoreLine(lines: seq<string>, i: nat)
    requires i < |lines|
    ensures DataLines(lines[..i + 1]) == DataLines(lines[..i]) + "data: " + lines[i] + [LF]
  {
    if i == 0 {
      assert lines[..1][1..] == [];
    } else {
      OneMoreLine(lines[1..], i - 1);
      assert lines[..i + 1][1..] == lines[1..][..i] && lines[..i][1..] == lines[1..][..i - 1];
    }
  }

  function Prefixed(c: char, lines: seq<string>): seq<string>
    requires lines != []
  {
    [[c] + lines[0]] + lines[1..]
  }

  lemma SplitFirst(s: string)
    requires s != []
    ensures SplitLines(s) == if s[0] == LF then [[]] + SplitLines(s[1..]) else Prefixed(s[0], SplitLines(s[1..]))
  {}

  /** The lines with one more character at the end. */
  function Extended(lines: seq<string>, c: char): seq<string>
    requires lines != []
  {
    var n := |lines| - 1;
    if c == LF then lines + [[]] else lines[..n] + [lines[n] + [c]]
  }

  lemma ExtendPrefixed(d: char, lines: seq<string>, c: char)
    requires lines != []
    ensures Extended(Prefixed(d, lines), c) == Prefixed(d, Extended(lines, c))
    ensures Extended([[]] + lines, c) == [[]] + Extended(lines, c)
  {
    if |lines| == 1 && c != LF {
      assert [d] + lines[0] + [c] == [d] + (lines[0] + [c]);
    }
  }

  lemma {:induction false} OneMoreChar(s: string, c: char)
    ensures SplitLines(s + [c]) == Extended(SplitLines(s), c)
  {
    hide SplitLines, Prefixed;
    if s == [] {
      NoLines();
      assert [] + [c] == [c] && [c][1..] == [];
      SplitFirst([c]);
      OneChar(c);
    } else {
      assert (s + [c])[1..] == s[1..] + [c] && (s + [c])[0] == s[0];
      SplitFirst(s);
      SplitFirst(s + [c]);
      OneMoreChar(s[1..], c);
      ExtendPrefixed(s[0], SplitLines(s[1..]), c);
    }
  }

  lemma OneChar(c: char)
    ensures c != LF ==> Prefixed(c, [[]]) == Extended([[]], c)
  {
    if c != LF {
      assert [c] + [] == [] + [c];
    }
  }

  lemma {:induction false} OneMoreItem(items: seq<Item>, i: nat)
    requires i < |items|
    ensures Written(items[..i + 1]) == Written(items[..i]) + Chunk(items[i])
  {
    hide Chunk;
    if i == 0 {
      assert items[..1][1..] == [];
    } else {
      OneMoreItem(items[1..], i - 1);
      assert items[..i + 1][1..] == items[1..][..i] && items[..i][1..] == items[1..][..i - 1];
    }
  }

  // ----- the standard parser ------------------------------------------------------------------

  datatype Event = Event(kind: string, data: string, lastEventId: string)

  /** The buffers of the parser; `retry` is the reconnection time, if one was sent. */
  datatype State = State(data: string, kind: string, lastEventId: string, retry: Option<string>)

  const START: State := State("", "", "", None)

  /** The first line and what follows its end: a line feed, a carriage return, or both. */
  function FirstLine(s: string): Option<(string, string)> {
    if s == [] then None
    else if s[0] == LF then Some(([], s[1..]))
    else if s[0] == CR then Some(([], if |s| > 1 && s[1] == LF then s[2..] else s[1..]))
    else match FirstLine(s[1..])
         case None => None
         case Some((line, rest)) => Some(([s[0]] + line, rest))
  }

  lemma {:induction false} LineShorter(s: string)
    requires FirstLine(s).Some?
    ensures |FirstLine(s).value.1| < |s|
  {
    if s[0] != LF && s[0] != CR {
      LineShorter(s[1..]);
    }
  }

  function Colon(line: string): nat {
    if line == [] || line[0] == ':' then 0 else 1 + Colon(line[1..])
  }

  lemma {:induction false} ColonFits(line: string)
    ensures Colon(line) <= |line|
  {
    if line != [] && line[0] != ':' {
      ColonFits(line[1..]);
    }
  }

  function FieldName(line: string): string {
    ColonFits(line);
    line[..Colon(line)]
  }

  /** What follows the first colon, without one leading space; empty if there is no colon. */
  function FieldValue(line: string): string {
    ColonFits(line);
    if Colon(line) == |line| then []
    else
      var v := line[Colon(line) + 1..];
      if v != [] && v[0] == ' ' then v[1..] else v
  }

  predicate Digits(s: string) {
    forall c :: c in s ==> '0' <= c <= '9'
  }

  function SetField(st: State, name: string, value: string): State {
    if name == "event" then st.(kind := value)
    else if name == "data" then st.(data := st.data + value + [LF])
    else if name == "id" then if '\0' in value then st else st.(lastEventId := value)
    else if name == "retry" then if value != [] && Digits(value) then st.(retry := Some(value)) else st
    else st
  }

  /** An empty line dispatches what has been collected, if there is any data. */
  function Dispatch(st: State): seq<Event> {
    if st.data == [] then []
    else [Event(if st.kind == [] then "message" else st.kind,
                if st.data[|st.data| - 1] == LF then st.data[..|st.data| - 1] else st.data,
                st.lastEventId)]
  }

  function Process(st: State, line: string): (State, seq<Event>) {
    if line == [] then (st.(data := "", kind := ""), Dispatch(st))
    else if line[0] == ':' then (st, [])
    else (SetField(st, FieldName(line), FieldValue(line)), [])
  }

  /** The events of a stream; a block that the end of the stream cuts off is discarded. */
  function ParseFrom(st: State, s: string): seq<Event>
    decreases |s|
  {
    match FirstLine(s)
    case None => []
    case Some((line, rest)) =>
      LineShorter(s);
      Process(st, line).1 + ParseFrom(Process(st, line).0, rest)
  }

  function Parse(s: string): seq<Event> {
    ParseFrom(START, if |s| > 0 && s[0] == '\U{FEFF}' then s[1..] else s)
  }

  // ----- the parser inverts the writer ------------------------------------------------------------

  predicate PlainLine(l: string) {
    LF !in l && CR !in l
  }

  lemma {:induction false} LineBreak(l: string, rest: string)
    requires PlainLine(l)
    ensures FirstLine(l + [LF] + rest) == Some((l, rest))
  {
    var s := l + [LF] + rest;
    if l == [] {
      assert s == [LF] + rest;
    } else {
      assert s[1..] == l[1..] + [LF] + rest;
      LineBreak(l[1..], rest);
      assert [l[0]] + l[1..] == l;
    }
  }

  lemma DataField(l: string)
    ensures FieldName("data: " + l) == "data" && FieldValue("data: " + l) == l
  {
    var line := "data: " + l;
    var l1, l2, l3, l4 := line[1..], line[2..], line[3..], line[4..];
    assert l1[1..] == l2 && l2[1..] == l3 && l3[1..] == l4 && l4[0] == ':';
    assert Colon(l4) == 0 && Colon(l3) == 1 && Colon(l2) == 2 && Colon(l1) == 3 && Colon(line) == 4;
    assert line[..4] == "data" && line[5..][1..] == l;
  }

  /** A line that is terminated by a line feed is processed, then the rest. */
  lemma ParseLine(st: State, line: string, rest: string)
    requires PlainLine(line)
    ensures ParseFrom(st, line + [LF] + rest) == Process(st, line).1 + ParseFrom(Process(st, line).0, rest)
  {
    LineBreak(line, rest);
  }

  function Terminated(lines: seq<string>): string {
    if lines == [] then [] else lines[0] + [LF] + Terminated(lines[1..])
  }

  lemma {:induction false} SplitTerminates(s: string)
    ensures Terminated(SplitLines(s)) == s + [LF]
  {
    hide SplitLines, Terminated, Prefixed;
    NoLines();
    if s == [] {
      TerminatedFirst([], []);
    } else {
      SplitFirst(s);
      SplitTerminates(s[1..]);
      TerminatedFirst([], SplitLines(s[1..]));
      TerminatedPrefixed(s[0], SplitLines(s[1..]));
      assert [s[0]] + (s[1..] + [LF]) == s + [LF];
    }
  }

  lemma TerminatedFirst(l: string, lines: seq<string>)
    ensures Terminated([l] + lines) == l + [LF] + Terminated(lines)
    ensures lines == [] ==> Terminated([l]) == l + [LF]
  {
    assert ([l] + lines)[1..] == lines && [l] + [] == [l];
  }

  lemma TerminatedPrefixed(c: char, lines: seq<string>)
    requires lines != []
    ensures Terminated(Prefixed(c, lines)) == [c] + Terminated(lines)
  {
    hide Terminated;
    TerminatedFirst(lines[0], lines[1..]);
    TerminatedFirst([c] + lines[0], lines[1..]);
    assert [lines[0]] + lines[1..] == lines;
    assert [c] + lines[0] + [LF] + Terminated(lines[1..]) == [c] + (lines[0] + [LF] + Terminated(lines[1..]));
  }

  lemma {:induction false} SplitPlain(s: string)
    requires CR !in s
    ensures forall i :: 0 <= i < |SplitLines(s)| ==> PlainLine(SplitLines(s)[i])
  {
    hide SplitLines;
    if s == [] {
      NoLines();
    } else {
      assert s[0] in s && s[0] != CR;
      SplitFirst(s);
      SplitPlain(s[1..]);
      PlainPrefixed(s[0], SplitLines(s[1..]));
    }
  }

  lemma PlainPrefixed(c: char, lines: seq<string>)
    requires lines != [] && c != CR && forall i :: 0 <= i < |lines| ==> PlainLine(lines[i])
    ensures c != LF ==> forall i :: 0 <= i < |Prefixed(c, lines)| ==> PlainLine(Prefixed(c, lines)[i])
    ensures forall i :: 0 <= i < |[[]] + lines| ==> PlainLine(([[]] + lines)[i])
  {}

  /** The data lines of one message collect in the data buffer. */
  lemma {:induction false} LinesCollect(st: State, lines: seq<string>, rest: string)
    requires forall i :: 0 <= i < |lines| ==> PlainLine(lines[i])
    ensures ParseFrom(st, DataLines(lines) + rest) == ParseFrom(st.(data := st.data + Terminated(lines)), rest)
    decreases |lines|
  {
    hide ParseFrom, FieldName, FieldValue;
    if lines == [] {
      assert st.data + [] == st.data && DataLines(lines) + rest == rest;
    } else {
      var l, tail := "data: " + lines[0], DataLines(lines[1..]) + rest;
      assert DataLines(lines) + rest == l + [LF] + tail;
      assert PlainLine(l);
      ParseLine(st, l, tail);
      DataField(lines[0]);
      var next := st.(data := st.data + lines[0] + [LF]);
      assert l[0] == 'd' && Process(st, l) == (next, []);
      LinesCollect(next, lines[1..], rest);
      assert next.data + Terminated(lines[1..]) == st.data + Terminated(lines);
    }
  }

  lemma FramedParses(text: string, rest: string)
    requires CR !in text
    ensures ParseFrom(START, Framed(text) + rest) == [Event("message", text, "")] + ParseFrom(START, rest)
  {
    hide ParseFrom, DataLines, Terminated, SplitLines;
    var lines := SplitLines(text);
    SplitTerminates(text);
    SplitPlain(text);
    assert Framed(text) + rest == DataLines(lines) + ([LF] + rest);
    LinesCollect(START, lines, [LF] + rest);
    var st := START.(data := text + [LF]);
    assert START.data + Terminated(lines) == st.data;
    assert [] + [LF] + rest == [LF] + rest;
    ParseLine(st, [], rest);
    assert st.data[..|st.data| - 1] == text;
  }

  /** A comment and the empty line after it leave no trace. */
  lemma CommentSkipped(comment: string, rest: string)
    requires PlainLine(comment)
    ensures ParseFrom(START, ":" + comment + [LF, LF] + rest) == ParseFrom(START, rest)
  {
    hide ParseFrom, FieldName, FieldValue;
    var line := ":" + comment;
    assert line + [LF, LF] + rest == line + [LF] + ([LF] + rest);
    ParseLine(START, line, [LF] + rest);
    assert [] + [LF] + rest == [LF] + rest;
    ParseLine(START, [], rest);
  }

  function Texts(items: seq<Item>): seq<string> {
    if items == [] then []
    else (match items[0] case Ping => [] case Message(text) => [text]) + Texts(items[1..])
  }

  function Messages(texts: seq<string>): seq<Event> {
    seq(|texts|, i requires 0 <= i < |texts| => Event("message", texts[i], ""))
  }

  lemma {:induction false} WrittenParses(items: seq<Item>)
    requires forall i :: 0 <= i < |items| && items[i].Message? ==> CR !in items[i].text
    ensures ParseFrom(START, Written(items)) == Messages(Texts(items))
  {
    hide ParseFrom, Framed, Written, Messages;
    NoLines();
    if items == [] {
      assert Messages([]) == [] by { NoMessages(); }
      assert ParseFrom(START, []) == [] by { NothingParses(START); }
    } else {
      WrittenParses(items[1..]);
      WrittenFirst(items);
      match items[0]
      case Ping =>
        assert ": ping\n\n" == ":" + " ping" + [LF, LF];
        CommentSkipped(" ping", Written(items[1..]));
        assert [] + Texts(items[1..]) == Texts(items[1..]);
      case Message(text) =>
        FramedParses(text, Written(items[1..]));
        MoreMessages(text, Texts(items[1..]));
    }
  }

  lemma NoMessages()
    ensures Messages([]) == []
  {}

  lemma MoreMessages(text: string, texts: seq<string>)
    ensures Messages([text] + texts) == [Event("message", text, "")] + Messages(texts)
  {}

  lemma WrittenFirst(items: seq<Item>)
    requires items != []
    ensures Written(items) == Chunk(items[0]) + Written(items[1..])
  {
    hide Chunk;
  }

  lemma NothingParses(st: State)
    ensures ParseFrom(st, []) == []
  {}

  lemma StreamIs(items: seq<Item>)
    ensures Parse(Stream(items)) == ParseFrom(START, Written(items))
  {
    assert ": ready\n\n" == ":" + " ready" + [LF, LF];
    CommentSkipped(" ready", Written(items));
  }

  // ----- and never invents a carriage return ---------------------------------------------------------

  lemma {:induction false} LinesArePlain(s: string)
    requires FirstLine(s).Some?
    ensures PlainLine(FirstLine(s).value.0)
  {
    if s[0] != LF && s[0] != CR {
      LinesArePlain(s[1..]);
    }
  }

  lemma {:induction false} NoReturns(st: State, s: string)
    requires CR !in st.data
    ensures forall i :: 0 <= i < |ParseFrom(st, s)| ==> CR !in ParseFrom(st, s)[i].data
    decreases |s|
  {
    match FirstLine(s)
    case None =>
    case Some((line, rest)) =>
      LineShorter(s);
      LinesArePlain(s);
      ColonFits(line);
      NoReturns(Process(st, line).0, rest);
  }

  lemma {:induction false} TextOf(items: seq<Item>, i: nat)
    requires i < |items| && items[i].Message?
    ensures items[i].text in Texts(items)
  {
    if i > 0 {
      TextOf(items[1..], i - 1);
    }
  }

  /** A stream parses to exactly its messages, in order and unchanged, if and only if
      none of them contains a carriage return. */
  lemma StreamRoundTrip(items: seq<Item>)
    ensures Parse(Stream(items)) == Messages(Texts(items))
       <==> forall i :: 0 <= i < |items| && items[i].Message? ==> CR !in items[i].text
  {
    StreamIs(items);
    if forall i :: 0 <= i < |items| && items[i].Message? ==> CR !in items[i].text {
      WrittenParses(items);
    } else {
      var i :| 0 <= i < |items| && items[i].Message? && CR in items[i].text;
      TextOf(items, i);
      var texts := Texts(items);
      var j :| 0 <= j < |texts| && texts[j] == items[i].text;
      NoReturns(START, Written(items));
      assert Messages(texts)[j].data == texts[j];
    }
  }

  // ----- a connection that breaks off ------------------------------------------------------------------

  /** More input only ever adds to what follows the first line. */
  lemma {:induction false} LineStays(a: string, b: string)
    requires FirstLine(a).Some?
    ensures FirstLine(a + b).Some? && FirstLine(a + b).value.0 == FirstLine(a).value.0
    ensures FirstLine(a + b).value.1 == FirstLine(a).value.1 + b
         || (FirstLine(a).value.1 == [] && b != [] && FirstLine(a + b).value.1 == b[1..])
  {
    if a[0] == LF {
      assert (a + b)[1..] == a[1..] + b;
    } else if a[0] == CR {
      if |a| > 1 {
        assert (a + b)[1] == a[1] && (a + b)[2..] == a[2..] + b && (a + b)[1..] == a[1..] + b;
      } else {
        assert a + b == [CR] + b;
      }
    } else {
      assert (a + b)[1..] == a[1..] + b;
      LineStays(a[1..], b);
    }
  }

  lemma {:induction false} PrefixParses(st: State, a: string, b: string)
    ensures ParseFrom(st, a) <= ParseFrom(st, a + b)
    decreases |a|
  {
    match FirstLine(a)
    case None =>
    case Some((line, rest)) =>
      LineShorter(a);
      LineStays(a, b);
      if FirstLine(a + b).value.1 == rest + b {
        PrefixParses(Process(st, line).0, rest, b);
      }
  }

  /** However early the connection breaks, what arrived parses to the first of the
      messages: none is cut short, lost in between, or changed. */
  lemma BrokenStreamIsPrefix(items: seq<Item>, n: nat)
    requires n <= |Stream(items)| && forall i :: 0 <= i < |items| && items[i].Message? ==> CR !in items[i].text
    ensures Parse(Stream(items)[..n]) <= Messages(Texts(items))
  {
    StreamRoundTrip(items);
    var s := Stream(items);
    assert s[..n] + s[n..] == s && s[0] == ':';
    PrefixParses(START, s[..n], s[n..]);
  }
}

/**
 The read loop of the web client's event-source hook, and the two server-side
 writers that feed it. The wire format is the `data` field of an event stream
 (sections 9.2.5 and 9.2.6 of the WHATWG HTML Standard), one line per message.
 */
module EventStream {
  import opened Common

  const NEWLINE := '\n'
  const DATA_PREFIX := "data: "

  /** JavaScript's `s.split('\n')`: never empty, the last element is the unfinished line. */
  function SplitLines(s: string): (lines: seq<string>)
    ensures |lines| >= 1
  {
    if s == "" then [""] else Prepend(s[0], SplitLines(s[1..]))
  }

  /** The lines of a text once the character `c` is put in front of it. */
  function Prepend(c: char, lines: seq<string>): (r: seq<string>)
    requires |lines| >= 1
    ensures |r| >= 1
  {
    if c == NEWLINE then [""] + lines else [[c] + lines[0]] + lines[1..]
  }

  lemma PrependAppend(c: char, x: seq<string>, y: seq<string>)
    requires |x| >= 1
    ensures Prepend(c, x + y) == Prepend(c, x) + y
  {
    assert c != NEWLINE ==> (x + y)[1..] == x[1..] + y;
  }

  /** The lines of a stream that are closed by a newline. */
  function CompleteLines(s: string): seq<string> {
    var lines := SplitLines(s);
    lines[..|lines| - 1]
  }

  /** What follows the last newline of a stream. */
  function UnfinishedTail(s: string): string {
    var lines := SplitLines(s);
    lines[|lines| - 1]
  }

  function JoinLines(lines: seq<string>): string
    requires |lines| >= 1
  {
    if |lines| == 1 then lines[0] else lines[0] + [NEWLINE] + JoinLines(lines[1..])
  }

  predicate IsDataLine(line: string) {
    DATA_PREFIX <= line
  }

  /** The texts handed to the JSON parser, in order. */
  function Payloads(lines: seq<string>): seq<string> {
    if lines == [] then []
    else (if IsDataLine(lines[0]) then [lines[0][|DATA_PREFIX|..]] else []) + Payloads(lines[1..])
  }

  /** The values that survive parsing; malformed texts are skipped. */
  function Parsed<T>(parse: string -> Option<T>, texts: seq<string>): seq<T> {
    if texts == [] then []
    else (if parse(texts[0]).Some? then [parse(texts[0]).value] else []) + Parsed(parse, texts[1..])
  }

  function Concat(pieces: seq<string>): string {
    if pieces == [] then "" else pieces[0] + Concat(pieces[1..])
  }

  /** The connection state of the hook: the text buffer and every value passed to `setData`. */
  class Reader<T> {
    const parse: string -> Option<T>
    var buffer: string
    var handed: seq<string>
    var updates: seq<T>

    constructor (parse: string -> Option<T>)
      ensures this.parse == parse
      ensures buffer == "" && handed == [] && updates == []
    {
      this.parse := parse;
      buffer, handed, updates := "", [], [];
    }

    /** The state the hook should be in after the decoded text `stream`. */
    ghost predicate HasRead(stream: string)
      reads this
    {
      && buffer == UnfinishedTail(stream)
      && handed == Payloads(CompleteLines(stream))
      && updates == Parsed(parse, handed)
    }

    /** One line of the loop body: hand over a data line, update when it parses. */
    method HandleLine(line: string)
      modifies this`handed, this`updates
      ensures handed == old(handed) + Payloads([line])
      ensures updates == old(updates) + Parsed(parse, Payloads([line]))
    {
      if DATA_PREFIX <= line {
        var text := line[|DATA_PREFIX|..];
        handed := handed + [text];
        var parsed := parse(text);
        if parsed.Some? {
          updates := updates + [parsed.value];
        }
      }
    }

    /** One decoded read, in whatever state the stream has left the buffer. */
    method Feed(piece: string, ghost stream: string)
      requires HasRead(stream)
      modifies this
      ensures HasRead(stream + piece)
    {
      buffer := buffer + piece;
      var lines := SplitLines(buffer);
      buffer := lines[|lines| - 1];
      lines := lines[..|lines| - 1];
      SplitAppendParts(stream, piece);
      assert CompleteLines(stream + piece) == CompleteLines(stream) + lines;
      assert CompleteLines(stream) + lines[..0] == CompleteLines(stream);

      var i := 0;
      while i < |lines|
        invariant 0 <= i <= |lines|
        invariant buffer == UnfinishedTail(stream + piece)
        invariant handed == Payloads(CompleteLines(stream) + lines[..i])
        invariant updates == Parsed(parse, handed)
      {
        PayloadsAppend(CompleteLines(stream) + lines[..i], [lines[i]]);
        ParsedAppend(parse, handed, Payloads([lines[i]]));
        assert CompleteLines(stream) + lines[..i] + [lines[i]] == CompleteLines(stream) + lines[..i + 1];
        HandleLine(lines[i]);
        i := i + 1;
      }
      assert lines[..i] == lines;
    }

    /** The whole loop: the decoded reads of one connection, until the stream ends or the hook unmounts. */
    method Connect(pieces: seq<string>)
      requires buffer == "" && handed == [] && updates == []
      modifies this
      ensures HasRead(Concat(pieces))
    {
      var i := 0;
      while i < |pieces|
        invariant 0 <= i <= |pieces|
        invariant HasRead(Concat(pieces[..i]))
      {
        Feed(pieces[i], Concat(pieces[..i]));
        ConcatLast(pieces[..i], pieces[i]);
        assert pieces[..i] + [pieces[i]] == pieces[..i + 1];
        i := i + 1;
      }
      assert pieces[..i] == pieces;
    }
  }

  /** Splitting is incremental: old complete lines stay, only the unfinished tail is split again. */
  lemma {:induction false} SplitAppend(a: string, b: string)
    ensures SplitLines(a + b) == CompleteLines(a) + SplitLines(UnfinishedTail(a) + b)
  {
    if a == "" {
      assert a + b == b;
      assert CompleteLines(a) == [] && UnfinishedTail(a) == "";
      assert [] + SplitLines(b) == SplitLines(b);
    } else {
      var c, rest := a[0], a[1..];
      assert (a + b)[1..] == rest + b;
      SplitAppend(rest, b);
      SplitPrepend(c, CompleteLines(rest), UnfinishedTail(rest), b);
      assert SplitLines(rest) == CompleteLines(rest) + [UnfinishedTail(rest)];
    }
  }

  /** Putting a character in front of both sides of a split. */
  lemma SplitPrepend(c: char, init: seq<string>, tail: string, b: string)
    ensures var lines := Prepend(c, init + [tail]);
            Prepend(c, init + SplitLines(tail + b)) == lines[..|lines| - 1] + SplitLines(lines[|lines| - 1] + b)
  {
    if init != [] {
      PrependAppend(c, init, SplitLines(tail + b));
      PrependAppend(c, init, [tail]);
    } else {
      assert [] + SplitLines(tail + b) == SplitLines(tail + b) && [] + [tail] == [tail];
      if c == NEWLINE {
        assert Prepend(c, [tail]) == ["", tail];
      } else {
        assert Prepend(c, [tail]) == [[c] + tail];
        assert [c] + tail + b == [c] + (tail + b);
        assert ([c] + (tail + b))[1..] == tail + b;
      }
    }
  }

  /** The same step, said of the two parts the reader keeps. */
  lemma SplitAppendParts(a: string, b: string)
    ensures CompleteLines(a + b) == CompleteLines(a) + CompleteLines(UnfinishedTail(a) + b)
    ensures UnfinishedTail(a + b) == UnfinishedTail(UnfinishedTail(a) + b)
  {
    SplitAppend(a, b);
  }

  /** Splitting loses nothing: the lines joined by newlines are the stream, and no line holds a newline. */
  lemma {:induction false} SplitIsJoinInverse(s: string)
    ensures JoinLines(SplitLines(s)) == s
    ensures forall line :: line in SplitLines(s) ==> NEWLINE !in line
  {
    if s != "" {
      SplitIsJoinInverse(s[1..]);
      var rest := SplitLines(s[1..]);
      JoinPrepended(s[0], rest);
      PrependedHoldNone(s[0], rest);
      assert s == [s[0]] + s[1..];
    }
  }

  lemma JoinCons(first: string, rest: seq<string>)
    ensures JoinLines([first] + rest) == if rest == [] then first else first + [NEWLINE] + JoinLines(rest)
  {
    assert ([first] + rest)[1..] == rest;
  }

  lemma JoinPrepended(c: char, lines: seq<string>)
    requires |lines| >= 1
    ensures JoinLines(Prepend(c, lines)) == [c] + JoinLines(lines)
  {
    var first, rest := lines[0], lines[1..];
    assert lines == [first] + rest;
    JoinCons("", lines);
    JoinCons(first, rest);
    JoinCons([c] + first, rest);
    if rest != [] { JoinFirst(c, first, [NEWLINE], JoinLines(rest)); }
  }

  lemma JoinFirst(c: char, first: string, separator: string, rest: string)
    ensures ([c] + first) + separator + rest == [c] + (first + separator + rest)
  {
  }

  lemma PrependedHoldNone(c: char, lines: seq<string>)
    requires |lines| >= 1 && forall line :: line in lines ==> NEWLINE !in line
    ensures forall line :: line in Prepend(c, lines) ==> NEWLINE !in line
  {
    if c != NEWLINE {
      assert lines[0] in lines && NEWLINE !in [c] + lines[0];
      assert forall line :: line in lines[1..] ==> line in lines;
    }
  }

  lemma {:induction false} PayloadsAppend(a: seq<string>, b: seq<string>)
    ensures Payloads(a + b) == Payloads(a) + Payloads(b)
  {
    if a == [] {
      assert a + b == b;
    } else {
      assert (a + b)[1..] == a[1..] + b;
      PayloadsAppend(a[1..], b);
    }
  }

  lemma {:induction false} ParsedAppend<T>(parse: string -> Option<T>, a: seq<string>, b: seq<string>)
    ensures Parsed(parse, a + b) == Parsed(parse, a) + Parsed(parse, b)
  {
    if a == [] {
      assert a + b == b;
    } else {
      assert (a + b)[0] == a[0] && (a + b)[1..] == a[1..] + b;
      ParsedAppend(parse, a[1..], b);
      var first := if parse(a[0]).Some? then [parse(a[0]).value] else [];
      AppendAssociates(first, Parsed(parse, a[1..]), Parsed(parse, b));
    }
  }

  lemma {:induction false} ConcatLast(pieces: seq<string>, last: string)
    ensures Concat(pieces + [last]) == Concat(pieces) + last
  {
    if pieces != [] {
      assert (pieces + [last])[1..] == pieces[1..] + [last];
      ConcatLast(pieces[1..], last);
    }
  }

  // ---- The writers -------------------------------------------------------

  /** One message as the server writes it. */
  function Frame(message: string): string {
    DATA_PREFIX + message + "\n\n"
  }

  function Frames(messages: seq<string>): string {
    if messages == [] then "" else Frame(messages[0]) + Frames(messages[1..])
  }

  /** Everything the connection manager writes to one client. */
  function ServerStream(messages: seq<string>): string {
    ": connected\n\n" + Frames(messages)
  }

  function FirstLine(s: string): (line: string)
    ensures line <= s
    ensures NEWLINE !in s <==> line == s
  {
    if s == "" || s[0] == NEWLINE then ""
    else
      var rest := FirstLine(s[1..]);
      assert s == [s[0]] + s[1..];
      [s[0]] + rest
  }

  /** Up to its first newline a text is its own first line. */
  lemma {:induction false} SplitFirstLine(s: string)
    ensures SplitLines(s)[0] == FirstLine(s)
    ensures NEWLINE !in s ==> SplitLines(s) == [s]
  {
    if s != "" && s[0] != NEWLINE {
      SplitFirstLine(s[1..]);
      assert s == [s[0]] + s[1..];
    }
  }

  lemma FirstLineOfPrefixed(p: string, s: string)
    requires NEWLINE !in p
    ensures FirstLine(p + s) == p + FirstLine(s)
  {
    if p != "" {
      assert (p + s)[1..] == p[1..] + s;
      FirstLineOfPrefixed(p[1..], s);
      assert p == [p[0]] + p[1..];
    } else {
      assert p + s == s;
    }
  }

  lemma {:induction false} FirstLineBeforeBreak(m: string, rest: string)
    ensures FirstLine(m + "\n\n" + rest) == FirstLine(m)
  {
    if m != "" && m[0] != NEWLINE {
      assert (m + "\n\n" + rest)[1..] == m[1..] + "\n\n" + rest;
      FirstLineBeforeBreak(m[1..], rest);
    }
  }

  /** A stream that starts with whole lines hands over their payloads first. */
  lemma PayloadsOfWholeLine(line: string, rest: string)
    requires NEWLINE !in line
    ensures CompleteLines(line + "\n\n" + rest) == [line, ""] + CompleteLines(rest)
    ensures UnfinishedTail(line + "\n\n" + rest) == UnfinishedTail(rest)
  {
    SplitBreakAfter(line);
    SplitAppendParts(line + "\n\n", rest);
    assert "" + rest == rest;
  }

  lemma SplitBreakAfter(line: string)
    requires NEWLINE !in line
    ensures SplitLines(line + "\n\n") == [line, "", ""]
  {
    if line == "" {
      assert "\n\n"[1..] == "\n" && "\n"[1..] == "";
      assert SplitLines("\n") == ["", ""];
      assert line + "\n\n" == "\n\n";
    } else {
      assert (line + "\n\n")[1..] == line[1..] + "\n\n";
      SplitBreakAfter(line[1..]);
      assert line == [line[0]] + line[1..];
    }
  }

  /**
   End to end, for every way the network cuts the stream: the client hands its
   parser exactly the messages that were sent if and only if no message
   contains a newline.
   */
  lemma {:induction false} DeliveryIsExactIffSingleLine(messages: seq<string>)
    ensures Payloads(CompleteLines(Frames(messages))) == messages <==>
            forall m :: m in messages ==> NEWLINE !in m
    ensures (forall m :: m in messages ==> NEWLINE !in m) ==> UnfinishedTail(Frames(messages)) == ""
  {
    if messages != [] {
      var m, rest := messages[0], messages[1..];
      assert messages == [m] + rest;
      var stream := Frames(messages);
      assert stream == (DATA_PREFIX + m) + "\n\n" + Frames(rest);
      if NEWLINE !in m {
        PayloadsOfWholeLine(DATA_PREFIX + m, Frames(rest));
        PayloadsAppend([DATA_PREFIX + m, ""], CompleteLines(Frames(rest)));
        assert Payloads([DATA_PREFIX + m, ""]) == [m] by {
          assert [DATA_PREFIX + m, ""][1..] == [""];
          assert Payloads([""]) == [];
          assert (DATA_PREFIX + m)[|DATA_PREFIX|..] == m;
        }
        DeliveryIsExactIffSingleLine(rest);
        assert Payloads(CompleteLines(stream))[1..] == Payloads(CompleteLines(Frames(rest)));
      } else {
        BrokenMessage(m, Frames(rest));
        assert m in messages;
      }
    }
  }

  /** A message with a newline arrives cut at its first line. */
  lemma BrokenMessage(m: string, rest: string)
    requires NEWLINE in m
    ensures var handed := Payloads(CompleteLines((DATA_PREFIX + m) + "\n\n" + rest));
            |handed| >= 1 && handed[0] == FirstLine(m) != m
  {
    var stream := (DATA_PREFIX + m) + "\n\n" + rest;
    FirstLineBeforeBreak(DATA_PREFIX + m, rest);
    FirstLineOfPrefixed(DATA_PREFIX, m);
    HasCompleteLine(stream, |DATA_PREFIX| + |m|);
    var whole := CompleteLines(stream);
    assert whole[0] == DATA_PREFIX + FirstLine(m);
    assert whole[0][|DATA_PREFIX|..] == FirstLine(m);
  }

  lemma {:induction false} HasCompleteLine(s: string, at: nat)
    requires at < |s| && s[at] == NEWLINE
    ensures |CompleteLines(s)| >= 1 && CompleteLines(s)[0] == FirstLine(s)
  {
    SplitFirstLine(s);
    if s[0] != NEWLINE {
      HasCompleteLine(s[1..], at - 1);
    }
  }

  /** The greeting comment of the connection manager is never handed over. */
  lemma GreetingIsSilent(messages: seq<string>)
    ensures Payloads(CompleteLines(ServerStream(messages))) == Payloads(CompleteLines(Frames(messages)))
  {
    PayloadsOfWholeLine(": connected", Frames(messages));
    assert ServerStream(messages) == ": connected" + "\n\n" + Frames(messages);
    PayloadsAppend([": connected", ""], CompleteLines(Frames(messages)));
    assert [": connected", ""][1..] == [""];
    assert Payloads([""]) == [];
  }

  /** A message without a newline is written as one data field and the blank line that dispatches it. */
  lemma LinesOfFrame(message: string)
    requires NEWLINE !in message
    ensures SplitLines(Frame(message)) == ["data: " + message, "", ""]
  {
    SplitBreakAfter(DATA_PREFIX + message);
  }
}

/** The SMTP client: dot-stuffing a message, wrapping base64 lines, and framing the server's replies. */
module Smtp {
  import opened Common
  import opened Digits

  const CRLF: string := "\r\n"

  predicate AtCrlf(s: string) {
    |s| >= 2 && s[0] == '\r' && s[1] == '\n'
  }

  /** `s.split(CRLF)`: always at least one part. */
  function Split(s: string): (parts: seq<string>)
    ensures parts != []
  {
    if s == [] then [[]]
    else if AtCrlf(s) then [[]] + Split(s[2..])
    else
      var rest := Split(s[1..]);
      [[s[0]] + rest[0]] + rest[1..]
  }

  /** `parts.join(CRLF)`. */
  function Join(parts: seq<string>): string {
    if parts == [] then []
    else if |parts| == 1 then parts[0]
    else parts[0] + CRLF + Join(parts[1..])
  }

  /** No line break inside. */
  predicate OneLine(s: string) {
    forall i :: 0 <= i < |s| - 1 ==> !(s[i] == '\r' && s[i + 1] == '\n')
  }

  predicate Lines(parts: seq<string>) {
    forall i :: 0 <= i < |parts| ==> OneLine(parts[i])
  }

  lemma {:induction false} JoinOfSplit(s: string)
    ensures Join(Split(s)) == s && Lines(Split(s))
  {
    if s == [] {
    } else if AtCrlf(s) {
      JoinOfSplit(s[2..]);
      assert Split(s)[1..] == Split(s[2..]);
      assert s == CRLF + s[2..];
      assert [] + CRLF + Join(Split(s[2..])) == s;
      assert OneLine([]);
      ConsLines([], Split(s[2..]));
    } else {
      var rest := Split(s[1..]);
      JoinOfSplit(s[1..]);
      HeadGrows(s[0], rest);
      assert s == [s[0]] + s[1..];
      FirstLine(s, rest);
    }
  }

  lemma ConsLines(line: string, rest: seq<string>)
    requires OneLine(line) && Lines(rest)
    ensures Lines([line] + rest)
  {
  }

  lemma {:induction false} HeadGrows(c: char, rest: seq<string>)
    requires rest != []
    ensures Join([[c] + rest[0]] + rest[1..]) == [c] + Join(rest)
  {
    var grown := [[c] + rest[0]] + rest[1..];
    assert grown[1..] == rest[1..];
    if |rest| > 1 {
      assert ([c] + rest[0]) + CRLF + Join(rest[1..]) == [c] + (rest[0] + CRLF + Join(rest[1..]));
    }
  }

  /** Putting a character before a first line that does not begin the text with a break makes no break. */
  lemma {:induction false} FirstLine(s: string, rest: seq<string>)
    requires s != [] && !AtCrlf(s) && rest != [] && Lines(rest) && Join(rest) == s[1..]
    ensures Lines([[s[0]] + rest[0]] + rest[1..])
  {
    var line := [s[0]] + rest[0];
    if rest[0] != [] {
      JoinStarts(rest);
      assert s[1] == rest[0][0];
    }
    forall i | 0 <= i < |line| - 1 ensures !(line[i] == '\r' && line[i + 1] == '\n') {
      if i > 0 {
        assert line[i] == rest[0][i - 1] && line[i + 1] == rest[0][i];
      }
    }
    assert OneLine(line);
    forall i | 1 <= i < |rest| ensures OneLine(rest[i]) {}
  }

  lemma {:induction false} JoinStarts(rest: seq<string>)
    requires rest != []
    ensures |rest[0]| <= |Join(rest)| && Join(rest)[..|rest[0]|] == rest[0]
  {
  }

  /** Splitting undoes joining lines, even where a line ends in a carriage return. */
  lemma {:induction false} SplitOfJoin(parts: seq<string>)
    requires parts != [] && Lines(parts)
    ensures Split(Join(parts)) == parts
    decreases |parts|
  {
    if |parts| == 1 {
      SplitLine(parts[0]);
      assert parts == [parts[0]];
    } else {
      SplitOfJoin(parts[1..]);
      SplitFirst(parts[0], Join(parts[1..]));
      assert parts == [parts[0]] + parts[1..];
    }
  }

  lemma {:induction false} SplitLine(s: string)
    requires OneLine(s)
    ensures Split(s) == [s]
  {
    if s != [] {
      TailIsOneLine(s);
      SplitLine(s[1..]);
      assert s == [s[0]] + s[1..];
    }
  }

  lemma TailIsOneLine(s: string)
    requires OneLine(s) && s != []
    ensures OneLine(s[1..]) && !AtCrlf(s)
  {
  }

  lemma {:induction false} SplitFirst(line: string, rest: string)
    requires OneLine(line)
    ensures Split(line + CRLF + rest) == [line] + Split(rest)
  {
    var s := line + CRLF + rest;
    if line == [] {
      assert s[2..] == rest && AtCrlf(s);
    } else {
      TailIsOneLine(line);
      SplitFirst(line[1..], rest);
      assert s[1..] == line[1..] + CRLF + rest;
      assert s[0] == line[0] && s[1] == if |line| > 1 then line[1] else '\r';
      assert line == [line[0]] + line[1..];
      assert ([line[1..]] + Split(rest))[1..] == Split(rest);
    }
  }

  // ---------------------------------------------------------------- dot-stuffing

  function StuffedLine(line: string): string {
    if line != [] && line[0] == '.' then "." + line else line
  }

  function StuffedLines(lines: seq<string>): (r: seq<string>)
    ensures |r| == |lines|
  {
    if lines == [] then [] else [StuffedLine(lines[0])] + StuffedLines(lines[1..])
  }

  /** What is sent after DATA: the stuffed text, a break, the lone dot and the command's own break. */
  function Transmitted(raw: string): string {
    Join(StuffedLines(Split(raw))) + CRLF + "." + CRLF
  }

  /** The receiver of section 4.5.2 of RFC 5321: stop at a lone dot, drop one leading dot of other lines. */
  function Received(lines: seq<string>): Option<seq<string>> {
    if lines == [] then None
    else if lines[0] == "." then Some([])
    else
      match Received(lines[1..])
      case None => None
      case Some(rest) => Some([if lines[0] != [] && lines[0][0] == '.' then lines[0][1..] else lines[0]] + rest)
  }

  lemma StuffedIsNotDot(line: string)
    ensures StuffedLine(line) != "."
    ensures StuffedLine(line) != [] && StuffedLine(line)[0] == '.' ==> StuffedLine(line)[1..] == line
    ensures !(StuffedLine(line) != [] && StuffedLine(line)[0] == '.') ==> StuffedLine(line) == line
    ensures OneLine(line) ==> OneLine(StuffedLine(line))
  {
    var s := StuffedLine(line);
    if OneLine(line) && s != line {
      forall i | 0 <= i < |s| - 1 ensures !(s[i] == '\r' && s[i + 1] == '\n') {
        assert i > 0 ==> s[i] == line[i - 1] && s[i + 1] == line[i];
      }
    }
  }

  /** The text is sent line for line, in order; exactly the lines that begin with a dot get one more. */
  lemma {:induction false} OnlyDotsAreStuffed(lines: seq<string>, i: nat)
    requires i < |lines|
    ensures StuffedLines(lines)[i] == (if lines[i] != [] && lines[i][0] == '.' then "." else "") + lines[i]
  {
    assert "" + lines[i] == lines[i];
    if i > 0 {
      OnlyDotsAreStuffed(lines[1..], i - 1);
      assert "" + lines[1..][i - 1] == lines[i];
    }
  }

  lemma {:induction false} StuffedAreLines(lines: seq<string>)
    requires Lines(lines)
    ensures Lines(StuffedLines(lines))
  {
    if lines != [] {
      assert Lines(lines[1..]) by { assert forall i :: 0 <= i < |lines| - 1 ==> lines[1..][i] == lines[i + 1]; }
      StuffedAreLines(lines[1..]);
      assert OneLine(lines[0]);
      StuffedIsNotDot(lines[0]);
      ConsLines(StuffedLine(lines[0]), StuffedLines(lines[1..]));
    }
  }

  lemma {:induction false} ReceivedStuffed(lines: seq<string>, rest: seq<string>)
    ensures Received(StuffedLines(lines) + ["."] + rest) == Some(lines)
  {
    var sent := StuffedLines(lines) + ["."] + rest;
    if lines == [] {
      assert sent[0] == ".";
    } else {
      ReceivedStuffed(lines[1..], rest);
      StuffedIsNotDot(lines[0]);
      assert sent[0] == StuffedLine(lines[0]);
      assert sent[1..] == StuffedLines(lines[1..]) + ["."] + rest;
      assert lines == [lines[0]] + lines[1..];
    }
  }

  lemma {:induction false} JoinAppend(lines: seq<string>, last: seq<string>)
    requires lines != [] && last != []
    ensures Join(lines + last) == Join(lines) + CRLF + Join(last)
    decreases |lines|
  {
    if |lines| == 1 {
      assert (lines + last)[1..] == last;
    } else {
      JoinAppend(lines[1..], last);
      assert (lines + last)[1..] == lines[1..] + last;
      assert (lines + last)[0] == lines[0];
    }
  }

  /** On the wire: exactly the stuffed lines, the lone dot and an empty rest. */
  lemma {:induction false} TransmittedLines(raw: string)
    ensures Split(Transmitted(raw)) == StuffedLines(Split(raw)) + [".", ""]
  {
    hide Split, Join, StuffedLines;
    JoinOfSplit(raw);
    var lines := StuffedLines(Split(raw));
    StuffedAreLines(Split(raw));
    TwoLines();
    JoinAppend(lines, [".", ""]);
    assert Transmitted(raw) == Join(lines + [".", ""]);
    assert Lines(lines + [".", ""]);
    SplitOfJoin(lines + [".", ""]);
  }

  lemma TwoLines()
    ensures Join([".", ""]) == "." + CRLF && OneLine(".") && OneLine("")
  {
    assert [".", ""][1..] == [""];
    assert "." + CRLF + "" == "." + CRLF;
  }

  /** The receiver recovers every message text exactly. */
  lemma MessageArrives(raw: string)
    ensures Received(Split(Transmitted(raw))).Some?
    ensures Join(Received(Split(Transmitted(raw))).value) == raw
  {
    hide Split, Join, StuffedLines, Received;
    TransmittedLines(raw);
    var lines := Split(raw);
    assert StuffedLines(lines) + [".", ""] == StuffedLines(lines) + ["."] + [""];
    ReceivedStuffed(lines, [""]);
    JoinOfSplit(raw);
  }

  /** No line of the message is the lone dot that ends it. */
  lemma {:induction false} NoLoneDot(lines: seq<string>, i: nat)
    requires i < |lines|
    ensures StuffedLines(lines)[i] != "."
  {
    if i == 0 {
      StuffedIsNotDot(lines[0]);
    } else {
      NoLoneDot(lines[1..], i - 1);
    }
  }

  /** Split, stuff each line, join: with the closing dot behind it, no line ends the text early and the receiver has the message. */
  method Stuff(raw: string) returns (stuffed: string)
    ensures forall i :: 0 <= i < |Split(stuffed)| ==> Split(stuffed)[i] != "."
    ensures var sent := Received(Split(stuffed + CRLF + "." + CRLF)); sent.Some? && Join(sent.value) == raw
  {
    var lines := Split(raw);
    stuffed := Join(StuffedLines(lines));
    MessageArrives(raw);
    JoinOfSplit(raw);
    StuffedAreLines(lines);
    SplitOfJoin(StuffedLines(lines));
    forall i | 0 <= i < |lines| ensures StuffedLines(lines)[i] != "." {
      NoLoneDot(lines, i);
    }
  }

  // ---------------------------------------------------------------- base64 lines

  const WIDTH: nat := 76

  function Flat(chunks: seq<string>): string {
    if chunks == [] then [] else Flat(chunks[..|chunks| - 1]) + chunks[|chunks| - 1]
  }

  /** Cut into lines of 76; joined by breaks they read back as the same text. */
  method Base64Lines(encoded: string) returns (chunks: seq<string>, text: string)
    requires '\r' !in encoded
    ensures Flat(chunks) == encoded && text == Join(chunks)
    ensures forall i :: 0 <= i < |chunks| ==> 0 < |chunks[i]| <= WIDTH
    ensures forall i :: 0 <= i < |chunks| - 1 ==> |chunks[i]| == WIDTH
    ensures chunks != [] ==> Split(text) == chunks
  {
    chunks := [];
    var i := 0;
    while i < |encoded|
      invariant 0 <= i && Flat(chunks) == encoded[..if i < |encoded| then i else |encoded|]
      invariant forall j :: 0 <= j < |chunks| ==> 0 < |chunks[j]| <= WIDTH
      invariant i < |encoded| ==> forall j :: 0 <= j < |chunks| ==> |chunks[j]| == WIDTH
      invariant forall j :: 0 <= j < |chunks| - 1 ==> |chunks[j]| == WIDTH
      invariant Lines(chunks)
    {
      var end := if i + WIDTH <= |encoded| then i + WIDTH else |encoded|;
      var chunk := encoded[i..end];
      assert '\r' !in chunk;
      ghost var before := chunks;
      chunks := chunks + [chunk];
      assert chunks[..|chunks| - 1] == before;
      assert encoded[..i] + chunk == encoded[..end];
      i := i + WIDTH;
    }
    assert encoded[..|encoded|] == encoded;
    text := Join(chunks);
    if chunks != [] {
      SplitOfJoin(chunks);
    }
  }

  // ---------------------------------------------------------------- framing replies

  datatype Reply = Reply(code: nat, lines: seq<string>)

  /** `/^\d{3}(?: |$)/`: the last line of a reply. */
  predicate EndsReply(line: string) {
    |line| >= 3 && AllDigits(line[..3]) && (|line| == 3 || line[3] == ' ')
  }

  /** A line ends a reply exactly when it is a three-digit code, alone or before a space and any text. */
  lemma EndsReplyIff(line: string)
    ensures EndsReply(line) <==>
      exists code, text :: |code| == 3 && AllDigits(code) && (line == code || line == code + (" " + text))
  {
    if EndsReply(line) {
      var code, text := line[..3], if |line| == 3 then "" else line[4..];
      assert line == code || line == code + (" " + text);
    }
    forall code, text | |code| == 3 && AllDigits(code) && (line == code || line == code + (" " + text)) ensures EndsReply(line) {
      assert line[..3] == code;
    }
  }

  /** Cut the first reply off the complete lines, if there is one. */
  function FirstReply(lines: seq<string>): Option<(Reply, seq<string>)> {
    if |lines| <= 1 then None
    else if EndsReply(lines[0]) then Some((Reply(Value(lines[0][..3]), [lines[0]]), lines[1..]))
    else
      match FirstReply(lines[1..])
      case None => None
      case Some((reply, rest)) => Some((Reply(reply.code, [lines[0]] + reply.lines), rest))
  }

  /** What one look at the buffer finds: a reply and what stays in the buffer. */
  function TakeReply(buffer: string): Option<(Reply, string)> {
    match FirstReply(Split(buffer))
    case None => None
    case Some((reply, rest)) => Some((reply, Join(rest)))
  }

  lemma {:induction false} SplitMore(s: string, more: string)
    ensures var a, b := Split(s), Split(s + more);
      && |a| <= |b| && a[..|a| - 1] == b[..|a| - 1]
      && Join(b[|a| - 1..]) == a[|a| - 1] + more
    decreases |s|, 1
  {
    if s == [] {
      assert s + more == more;
      JoinOfSplit(more);
      assert Split(more)[0..] == Split(more);
    } else if AtCrlf(s) {
      SplitMore(s[2..], more);
      assert (s + more)[2..] == s[2..] + more && AtCrlf(s + more);
      SplitMoreBreak(s, more);
    } else {
      SplitMoreChar(s, more);
    }
  }

  lemma {:induction false} SplitMoreBreak(s: string, more: string)
    requires AtCrlf(s) && AtCrlf(s + more) && (s + more)[2..] == s[2..] + more
    requires var a, b := Split(s[2..]), Split(s[2..] + more);
      |a| <= |b| && a[..|a| - 1] == b[..|a| - 1] && Join(b[|a| - 1..]) == a[|a| - 1] + more
    ensures var a, b := Split(s), Split(s + more);
      |a| <= |b| && a[..|a| - 1] == b[..|a| - 1] && Join(b[|a| - 1..]) == a[|a| - 1] + more
  {
    var a, b := Split(s[2..]), Split(s[2..] + more);
    assert Split(s) == [[]] + a && Split(s + more) == [[]] + b;
    assert ([[]] + a)[..|a|] == [[]] + a[..|a| - 1];
    assert ([[]] + b)[..|a|] == [[]] + b[..|a| - 1];
    assert ([[]] + b)[|a|..] == b[|a| - 1..];
  }

  /** The break may be cut in two: the text ends in its carriage return and `more` begins with its line feed. */
  lemma {:induction false} SplitMoreChar(s: string, more: string)
    requires s != [] && !AtCrlf(s)
    ensures var a, b := Split(s), Split(s + more);
      |a| <= |b| && a[..|a| - 1] == b[..|a| - 1] && Join(b[|a| - 1..]) == a[|a| - 1] + more
    decreases |s|, 0
  {
    if |s| == 1 {
      SplitLine(s);
      JoinOfSplit(s + more);
      assert Split(s + more)[0..] == Split(s + more);
    } else {
      assert (s + more)[1..] == s[1..] + more && !AtCrlf(s + more);
      SplitMore(s[1..], more);
      GrowFirst(s[0], Split(s[1..]), Split(s[1..] + more), more);
    }
  }

  lemma GrowFirst(c: char, a: seq<string>, b: seq<string>, more: string)
    requires a != [] && |a| <= |b| && a[..|a| - 1] == b[..|a| - 1] && Join(b[|a| - 1..]) == a[|a| - 1] + more
    ensures var x, y := [[c] + a[0]] + a[1..], [[c] + b[0]] + b[1..];
      |x| <= |y| && x[..|x| - 1] == y[..|x| - 1] && Join(y[|x| - 1..]) == x[|x| - 1] + more
  {
    var x, y := [[c] + a[0]] + a[1..], [[c] + b[0]] + b[1..];
    if |a| == 1 {
      assert y[0..] == y && b[0..] == b;
      HeadGrows(c, b);
      assert [c] + (a[0] + more) == [c] + a[0] + more;
    } else {
      assert a[0] == a[..|a| - 1][0] == b[..|a| - 1][0] == b[0];
      assert forall i :: 1 <= i < |a| - 1 ==> a[i] == a[..|a| - 1][i] == b[..|a| - 1][i] == b[i];
      assert y[|x| - 1..] == b[|a| - 1..];
    }
  }

  lemma {:induction false} FirstReplyStable(a: seq<string>, b: seq<string>)
    requires a != [] && |a| <= |b| && a[..|a| - 1] == b[..|a| - 1] && FirstReply(a).Some?
    ensures FirstReply(b).Some? && FirstReply(b).value.0 == FirstReply(a).value.0
    ensures var k := |a| - |FirstReply(a).value.1|;
      && 0 < k < |a| && FirstReply(a).value.1 == a[k..] && FirstReply(b).value.1 == b[k..]
  {
    assert a[0] == a[..|a| - 1][0] == b[..|a| - 1][0] == b[0];
    if !EndsReply(a[0]) {
      assert a[1..][..|a| - 2] == a[..|a| - 1][1..] == b[..|a| - 1][1..] == b[1..][..|a| - 2];
      FirstReplyStable(a[1..], b[1..]);
    }
  }

  lemma {:induction false} JoinTail(a: seq<string>, b: seq<string>, k: nat, more: string)
    requires k < |a| <= |b| && a[..|a| - 1] == b[..|a| - 1] && Join(b[|a| - 1..]) == a[|a| - 1] + more
    ensures Join(b[k..]) == Join(a[k..]) + more
    decreases |a| - k
  {
    if k == |a| - 1 {
      assert a[k..] == [a[k]];
    } else {
      JoinTail(a, b, k + 1, more);
      assert a[k] == a[..|a| - 1][k] == b[..|a| - 1][k] == b[k];
      assert a[k..][1..] == a[k + 1..] && b[k..][1..] == b[k + 1..];
      assert a[k..][0] == a[k] && b[k..][0] == b[k];
      assert a[k] + CRLF + (Join(a[k + 1..]) + more) == a[k] + CRLF + Join(a[k + 1..]) + more;
    }
  }

  /**
   * A reply that can be read can be read however the bytes after it are cut: the same reply, with the
   * later bytes added to what stays behind.
   */
  lemma ReplyIsStable(buffer: string, more: string)
    requires TakeReply(buffer).Some?
    ensures TakeReply(buffer + more) == Some((TakeReply(buffer).value.0, TakeReply(buffer).value.1 + more))
  {
    hide Split, Join, FirstReply;
    var a, b := Split(buffer), Split(buffer + more);
    SplitMore(buffer, more);
    FirstReplyStable(a, b);
    JoinTail(a, b, |a| - |FirstReply(a).value.1|, more);
  }

  /** A conversation: bytes not read yet, whether a command waits for its reply, and replies handed over. */
  datatype Session = Session(buffer: string, waiting: bool, answered: seq<Reply>, dropped: seq<Reply>)

  /** `onData`: at most one reply is taken per chunk, since its receiver runs only later. */
  function OnData(s: Session, chunk: string): Session {
    match TakeReply(s.buffer + chunk)
    case None => s.(buffer := s.buffer + chunk)
    case Some((reply, rest)) =>
      if s.waiting then Session(rest, false, s.answered + [reply], s.dropped)
      else Session(rest, false, s.answered, s.dropped + [reply])
  }

  /** `read`: a command starts to wait. */
  function Await(s: Session): Session {
    s.(waiting := true)
  }

  /** A chunk may be cut in two anywhere: the answer taken and what is left over do not change. */
  lemma ChunksDoNotMatter(s: Session, first: string, second: string)
    requires TakeReply(s.buffer + first).Some?
    ensures OnData(s, first + second) == OnData(s, first).(buffer := OnData(s, first).buffer + second)
  {
    hide TakeReply;
    assert s.buffer + (first + second) == s.buffer + first + second;
    ReplyIsStable(s.buffer + first, second);
  }

  /** …and when the first part holds no reply yet, the two parts together are read as one. */
  lemma ChunksAddUp(s: Session, first: string, second: string)
    requires TakeReply(s.buffer + first).None?
    ensures OnData(OnData(s, first), second) == OnData(s, first + second)
  {
    hide TakeReply;
    assert s.buffer + (first + second) == s.buffer + first + second;
  }

  // ---------------------------------------------------------------- a whole conversation

  lemma {:induction false} JoinShrinks(lines: seq<string>, k: nat)
    requires 0 < k < |lines|
    ensures |Join(lines[k..])| < |Join(lines)|
  {
    assert |Join(lines)| == |lines[0]| + 2 + |Join(lines[1..])|;
    if k > 1 {
      JoinShrinks(lines[1..], k - 1);
      assert lines[1..][k - 1..] == lines[k..];
    }
  }

  lemma TakingShrinks(buffer: string)
    requires TakeReply(buffer).Some?
    ensures |TakeReply(buffer).value.1| < |buffer|
  {
    var a := Split(buffer);
    FirstReplyStable(a, a);
    JoinShrinks(a, |a| - |FirstReply(a).value.1|);
    JoinOfSplit(buffer);
  }

  /** All replies in a text, in order. */
  function Replies(text: string): seq<Reply>
    decreases |text|
  {
    match TakeReply(text)
    case None => []
    case Some((reply, rest)) =>
      TakingShrinks(text);
      [reply] + Replies(rest)
  }

  datatype Event = Waits | Arrives(chunk: string)

  const START: Session := Session("", false, [], [])

  function Step(s: Session, e: Event): Session {
    match e
    case Waits => Await(s)
    case Arrives(chunk) => OnData(s, chunk)
  }

  function Run(es: seq<Event>): Session {
    if es == [] then START else Step(Run(es[..|es| - 1]), es[|es| - 1])
  }

  /** All bytes that arrived. */
  function Stream(es: seq<Event>): string {
    if es == [] then []
    else Stream(es[..|es| - 1]) + (if es[|es| - 1].Arrives? then es[|es| - 1].chunk else [])
  }

  /** The replies taken off the buffer, handed over or not. */
  function Taken(es: seq<Event>): seq<Reply> {
    if es == [] then []
    else
      var s, e := Run(es[..|es| - 1]), es[|es| - 1];
      var took := if e.Arrives? then TakeReply(s.buffer + e.chunk) else None;
      Taken(es[..|es| - 1]) + (if took.Some? then [took.value.0] else [])
  }

  lemma {:induction false} RepliesAfter(text: string, more: string)
    requires TakeReply(text).Some?
    ensures Replies(text + more) == [TakeReply(text).value.0] + Replies(TakeReply(text).value.1 + more)
  {
    hide TakeReply;
    ReplyIsStable(text, more);
  }

  /** What was taken and what is still in the buffer are the replies of the byte stream, whatever follows. */
  lemma {:induction false} StreamIsRead(es: seq<Event>, more: string)
    ensures Replies(Stream(es) + more) == Taken(es) + Replies(Run(es).buffer + more)
  {
    hide TakeReply, Replies;
    if es == [] {
      assert Taken([]) + Replies("" + more) == Replies("" + more);
    } else {
      var front, e := es[..|es| - 1], es[|es| - 1];
      var s := Run(front);
      if e.Arrives? {
        StreamIsRead(front, e.chunk + more);
        assert Stream(front) + (e.chunk + more) == Stream(es) + more;
        assert s.buffer + (e.chunk + more) == s.buffer + e.chunk + more;
        if TakeReply(s.buffer + e.chunk).Some? {
          RepliesAfter(s.buffer + e.chunk, more);
          var r := TakeReply(s.buffer + e.chunk).value;
          assert Taken(front) + ([r.0] + Replies(r.1 + more)) == Taken(es) + Replies(r.1 + more);
        } else {
          assert Taken(es) == Taken(front);
        }
      } else {
        StreamIsRead(front, more);
        assert Stream(es) == Stream(front) && Taken(es) == Taken(front);
      }
    }
  }

  /** No reply becomes complete while nothing waits for it. */
  predicate AlwaysAwaited(es: seq<Event>) {
    es == [] || (
      var front, e := es[..|es| - 1], es[|es| - 1];
      AlwaysAwaited(front)
      && (e.Arrives? && TakeReply(Run(front).buffer + e.chunk).Some? ==> Run(front).waiting))
  }

  lemma {:induction false} DroppedIff(es: seq<Event>)
    ensures |Taken(es)| == |Run(es).answered| + |Run(es).dropped|
    ensures Run(es).dropped == [] <==> AlwaysAwaited(es)
    ensures AlwaysAwaited(es) ==> Run(es).answered == Taken(es)
  {
    hide TakeReply;
    if es != [] {
      DroppedIff(es[..|es| - 1]);
    }
  }

  /**
   * Over any interleaving of commands and chunks: the commands are answered by the replies of the
   * byte stream, in order and without a gap, the rest still being in the buffer, exactly when no
   * reply becomes complete while nothing waits.
   */
  lemma {:induction false} NoReplyIsLostIff(es: seq<Event>)
    ensures Run(es).answered + Replies(Run(es).buffer) == Replies(Stream(es)) <==> AlwaysAwaited(es)
  {
    hide Replies, Taken, AlwaysAwaited, Run, Stream;
    StreamIsRead(es, "");
    assert Stream(es) + "" == Stream(es) && Run(es).buffer + "" == Run(es).buffer;
    DroppedIff(es);
  }

  /** Two replies in one chunk: the first answers the command, the second stays in the buffer even when the next command waits. */
  lemma CoalescedReplyStays()
    ensures var s := Run([Waits, Arrives("250 a" + CRLF + "250 b" + CRLF), Waits]);
      && s.answered == [Reply(250, ["250 a"])] && s.dropped == [] && s.waiting
      && s.buffer == "250 b" + CRLF && Replies(s.buffer) == [Reply(250, ["250 b"])]
  {
    hide Split, Join, Value, Replies;
    var text := "250 a" + CRLF + "250 b" + CRLF;
    TwoReplies();
    var es := [Waits, Arrives(text), Waits];
    assert es[..2] == [Waits, Arrives(text)] && es[..2][..1] == [Waits] && [Waits][..0] == [];
    assert Run([]) == START && Run([Waits]) == Session("", true, [], []);
    assert "" + text == text;
    assert Run(es[..2]) == OnData(Run([Waits]), text);
  }

  lemma CodeValue()
    ensures AllDigits("250") && Value("250") == 250
  {
    assert "250"[..2] == "25" && "25"[..1] == "2" && "2"[..0] == "";
  }

  lemma TwoReplies()
    ensures TakeReply("250 a" + CRLF + "250 b" + CRLF) == Some((Reply(250, ["250 a"]), "250 b" + CRLF))
    ensures Replies("250 b" + CRLF) == [Reply(250, ["250 b"])]
  {
    hide Split, Join, Value, Replies;
    CodeValue();
    OneReply("250 a", ["250 b", ""]);
    OneReply("250 b", [""]);
    BufferLines();
    LastReply();
  }

  lemma {:induction false} OneReply(line: string, rest: seq<string>)
    requires |line| == 5 && line[..3] == "250" && line[3] == ' ' && rest != [] && Value("250") == 250
    ensures FirstReply([line] + rest) == Some((Reply(250, [line]), rest))
  {
    hide Value;
    assert ([line] + rest)[1..] == rest;
  }

  lemma BufferLines()
    ensures Split("250 b" + CRLF) == ["250 b", ""] && Join([""]) == ""
    ensures Split("250 a" + CRLF + "250 b" + CRLF) == ["250 a"] + ["250 b", ""] && Join(["250 b", ""]) == "250 b" + CRLF
  {
    hide Split, Join;
    SplitLine("");
    SplitFirst("250 b", "");
    SplitFirst("250 a", "250 b" + CRLF);
    JoinOfSplit("250 b" + CRLF);
    JoinOfSplit("");
    assert "250 b" + CRLF + "" == "250 b" + CRLF;
    assert "250 a" + CRLF + ("250 b" + CRLF) == "250 a" + CRLF + "250 b" + CRLF;
    assert ["250 b"] + [""] == ["250 b", ""];
  }

  lemma LastReply()
    ensures Replies("250 b" + CRLF) == [Reply(250, ["250 b"])]
  {
    hide Split, Join, Value;
    CodeValue();
    BufferLines();
    OneReply("250 b", [""]);
    assert ["250 b"] + [""] == ["250 b", ""];
    SplitLine("");
    assert FirstReply([""]) == None;
    assert TakeReply("250 b" + CRLF) == Some((Reply(250, ["250 b"]), ""));
    assert Replies("") == [];
  }

  class SmtpSession {
    var buffer: string
    var waiting: bool
    var answered: seq<Reply>
    var dropped: seq<Reply>

    function View(): Session
      reads this
    {
      Session(buffer, waiting, answered, dropped)
    }

    constructor ()
      ensures View() == Session("", false, [], [])
    {
      buffer, waiting, answered, dropped := "", false, [], [];
    }

    method Read()
      modifies this
      ensures View() == Await(old(View()))
    {
      waiting := true;
    }

    /** Look for the line that ends a reply among the complete lines; hand the reply over. */
    method Receive(chunk: string)
      modifies this
      ensures View() == OnData(old(View()), chunk)
    {
      hide Split, Join;
      buffer := buffer + chunk;
      var lines := Split(buffer);
      var i := 0;
      PrependNothing(lines);
      while i < |lines| - 1 && !EndsReply(lines[i])
        invariant 0 <= i < |lines|
        invariant FirstReply(lines) == Prepended(lines[..i], FirstReply(lines[i..]))
        modifies {}
      {
        PrependStep(lines, i);
        i := i + 1;
      }
      if i == |lines| - 1 {
        assert FirstReply(lines[i..]).None?;
        return;
      }
      var reply := Reply(Value(lines[i][..3]), lines[..i + 1]);
      assert lines[i..][0] == lines[i] && lines[i..][1..] == lines[i + 1..];
      assert lines[..i] + [lines[i]] == lines[..i + 1];
      assert FirstReply(lines[i..]) == Some((Reply(Value(lines[i][..3]), [lines[i]]), lines[i + 1..]));
      assert FirstReply(lines) == Some((reply, lines[i + 1..]));
      buffer := Join(lines[i + 1..]);
      if waiting {
        waiting := false;
        answered := answered + [reply];
      } else {
        dropped := dropped + [reply];
      }
    }
  }

  /** The reply found further on, with the lines before it. */
  function Prepended(front: seq<string>, r: Option<(Reply, seq<string>)>): Option<(Reply, seq<string>)> {
    match r
    case None => None
    case Some((reply, rest)) => Some((Reply(reply.code, front + reply.lines), rest))
  }

  lemma {:induction false} PrependNothing(lines: seq<string>)
    ensures FirstReply(lines) == Prepended(lines[..0], FirstReply(lines[0..]))
  {
    hide EndsReply;
    assert lines[0..] == lines;
    var r := FirstReply(lines);
    if r.Some? {
      assert lines[..0] + r.value.0.lines == r.value.0.lines;
    }
  }

  lemma PrependStep(lines: seq<string>, i: nat)
    requires i < |lines| - 1 && !EndsReply(lines[i])
    ensures Prepended(lines[..i], FirstReply(lines[i..])) == Prepended(lines[..i + 1], FirstReply(lines[i + 1..]))
  {
    hide EndsReply;
    assert lines[i..][0] == lines[i] && lines[i..][1..] == lines[i + 1..];
    var r := FirstReply(lines[i + 1..]);
    if r.Some? {
      assert lines[..i] + ([lines[i]] + r.value.0.lines) == lines[..i + 1] + r.value.0.lines;
    }
  }
}

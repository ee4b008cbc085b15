/** The event-stream frame reader, against the frames a server prints (sections
    9.2.5 and 9.2.6 of the WHATWG HTML Standard). */
module Sse {
  import opened Prelude

  datatype Frame = Frame(name: string, data: string)

  // ------------------------------------------------------------------ lines

  /** How many characters `read_line` takes: up to and including the first LF. */
  function LineLength(text: string): (n: nat)
    requires text != ""
    ensures 1 <= n <= |text|
  {
    if text[0] == '\n' || |text| == 1 then 1 else 1 + LineLength(text[1..])
  }

  /** The lines of a stream, each with its LF; the last may lack one. */
  function Lines(text: string): seq<string> {
    if text == "" then []
    else [text[..LineLength(text)]] + Lines(text[LineLength(text)..])
  }

  function LinesFrom(text: string, pos: nat): seq<string>
    requires pos <= |text|
  {
    Lines(text[pos..])
  }

  predicate IsEol(c: char) { c == '\n' || c == '\r' }

  /** `trim_end_matches(['\n', '\r'])`. */
  function TrimEol(line: string): (t: string)
    ensures |t| <= |line|
    ensures t != "" ==> !IsEol(t[|t| - 1])
  {
    if line != "" && IsEol(line[|line| - 1]) then TrimEol(line[..|line| - 1]) else line
  }

  // ----------------------------------------------------------------- fields

  function Field(line: string): string {
    if line == "" || line[0] == ':' then "" else [line[0]] + Field(line[1..])
  }

  /** Everything after the first colon, if there is one. */
  function After(line: string): Option<string> {
    if line == "" then None else if line[0] == ':' then Some(line[1..]) else After(line[1..])
  }

  /** The value of a field line: one leading space is dropped. */
  function Value(line: string): string {
    match After(line)
    case None => ""
    case Some(v) => if v != "" && v[0] == ' ' then v[1..] else v
  }

  // ----------------------------------------------------------------- reader

  /** What the reader has gathered since the last blank line. */
  datatype Reader = Reader(name: string, data: string, inFrame: bool)

  const IDLE := Reader("", "", false)

  function AppendData(data: string, value: string): string {
    if data == "" then value else data + "\n" + value
  }

  function Fed(r: Reader, line: string): Reader {
    var t := TrimEol(line);
    if t == "" then IDLE
    else if t[0] == ':' then r
    else if Field(t) == "event" then Reader(Value(t), r.data, true)
    else if Field(t) == "data" then Reader(r.name, AppendData(r.data, Value(t)), true)
    else r.(inFrame := true)
  }

  /** The frame a line dispatches, if any. */
  function Dispatch(r: Reader, line: string): seq<Frame> {
    if TrimEol(line) == "" && r.inFrame then [Frame(r.name, r.data)] else []
  }

  function FedAll(r: Reader, lines: seq<string>): Reader
    decreases |lines|
  {
    if lines == [] then r else FedAll(Fed(r, lines[0]), lines[1..])
  }

  function Frames(r: Reader, lines: seq<string>): seq<Frame>
    decreases |lines|
  {
    if lines == [] then [] else Dispatch(r, lines[0]) + Frames(Fed(r, lines[0]), lines[1..])
  }

  function Read(text: string): seq<Frame> {
    Frames(IDLE, Lines(text))
  }

  /** One `read_line`: from `pos` through the next LF or the end of the stream. */
  method ReadLine(text: string, pos: nat) returns (line: string)
    requires pos < |text|
    ensures |line| == LineLength(text[pos..]) && line == text[pos..][..|line|]
  {
    var end := pos;
    while end + 1 < |text| && text[end] != '\n'
      invariant pos <= end < |text|
      invariant end - pos + LineLength(text[end..]) == LineLength(text[pos..])
    {
      assert text[end..][1..] == text[end + 1..];
      end := end + 1;
    }
    line := text[pos..end + 1];
  }

  /** `read_frames`, stopped after `turns` turns of its loop. */
  method ReadFrames(text: string, turns: nat) returns (frames: seq<Frame>)
    ensures frames == Frames(IDLE, Take(Lines(text), turns))
  {
    var eventName, data, inFrame := "", "", false;
    var pos: nat, turn: nat := 0, 0;
    frames := [];
    ghost var todo := Take(Lines(text), turns);
    ghost var total := Frames(IDLE, todo);
    ghost var left: nat := turns;
    assert text[0..] == text;
    while turn < turns && pos < |text|
      invariant turn + left == turns && pos <= |text|
      invariant Remaining(todo, text, pos, left)
      invariant Dispatched(frames, Reader(eventName, data, inFrame), todo, total)
    {
      NotDone(todo, text, pos, left);
      FramesNext(Reader(eventName, data, inFrame), todo, frames, total);
      var seen;
      pos, eventName, data, inFrame, seen := ReadOne(text, pos, eventName, data, inFrame, todo, left);
      frames := frames + seen;
      turn, left, todo := turn + 1, left - 1, todo[1..];
    }
  }

  /** One turn of the loop: read a line and take it in. */
  method ReadOne(text: string, pos: nat, eventName: string, data: string, inFrame: bool,
                 ghost todo: seq<string>, ghost left: nat)
    returns (pos': nat, eventName': string, data': string, inFrame': bool, seen: seq<Frame>)
    requires Remaining(todo, text, pos, left) && pos < |text| && left > 0
    ensures todo != [] && Remaining(todo[1..], text, pos', left - 1)
    ensures Reader(eventName', data', inFrame') == Fed(Reader(eventName, data, inFrame), todo[0])
    ensures seen == Dispatch(Reader(eventName, data, inFrame), todo[0])
  {
    var line := ReadLine(text, pos);
    TakeNext(todo, text, pos, left, |line|);
    pos' := pos + |line|;
    eventName', data', inFrame', seen := TakeLine(eventName, data, inFrame, line);
  }

  /** What is dispatched so far, plus what the lines to come dispatch, is the total. */
  ghost predicate Dispatched(frames: seq<Frame>, r: Reader, todo: seq<string>, total: seq<Frame>) {
    frames + Frames(r, todo) == total
  }

  lemma {:induction false} FramesNext(r: Reader, todo: seq<string>, frames: seq<Frame>, total: seq<Frame>)
    requires todo != [] && Dispatched(frames, r, todo, total)
    ensures Dispatched(frames + Dispatch(r, todo[0]), Fed(r, todo[0]), todo[1..], total)
  {
    Regroup(frames, Dispatch(r, todo[0]), Frames(Fed(r, todo[0]), todo[1..]));
  }

  /** The lines the loop may still read in `n` turns. */
  ghost predicate Remaining(todo: seq<string>, text: string, pos: nat, n: nat) {
    pos <= |text| && todo == Take(LinesFrom(text, pos), n)
  }

  lemma NotDone(todo: seq<string>, text: string, pos: nat, n: nat)
    requires Remaining(todo, text, pos, n) && pos < |text| && n > 0
    ensures todo != []
  {
  }

  lemma {:induction false} TakeNext(todo: seq<string>, text: string, pos: nat, n: nat, k: nat)
    requires Remaining(todo, text, pos, n) && pos < |text| && n > 0 && k == LineLength(text[pos..])
    ensures todo != [] && todo[0] == text[pos..][..k] && Remaining(todo[1..], text, pos + k, n - 1)
  {
    assert text[pos..][k..] == text[pos + k..];
    TakeRest(LinesFrom(text, pos), n);
  }

  lemma TakeRest<T>(xs: seq<T>, n: nat)
    requires xs != [] && n > 0
    ensures Take(xs, n) != [] && Take(xs, n)[0] == xs[0] && Take(xs, n)[1..] == Take(xs[1..], n - 1)
  {
  }

  /** One turn of the loop, after the read. */
  method TakeLine(eventName: string, data: string, inFrame: bool, line: string)
    returns (eventName': string, data': string, inFrame': bool, seen: seq<Frame>)
    ensures Reader(eventName', data', inFrame') == Fed(Reader(eventName, data, inFrame), line)
    ensures seen == Dispatch(Reader(eventName, data, inFrame), line)
  {
    eventName', data', inFrame', seen := eventName, data, inFrame, [];
    var trimmed := TrimEol(line);
    if trimmed == "" {
      if inFrame {
        seen := [Frame(eventName, data)];
      }
      eventName', data', inFrame' := "", "", false;
      return;
    }
    if trimmed[0] == ':' {
      return;
    }
    inFrame' := true;
    var field, value := Field(trimmed), Value(trimmed);
    if field == "event" {
      eventName' := value;
    } else if field == "data" {
      if data' != "" {
        data' := data' + "\n";
      }
      data' := data' + value;
    }
  }

  // ------------------------------------------------------------ composition

  lemma {:induction false} FedAppend(r: Reader, a: seq<string>, b: seq<string>)
    ensures FedAll(r, a + b) == FedAll(FedAll(r, a), b)
    ensures Frames(r, a + b) == Frames(r, a) + Frames(FedAll(r, a), b)
    decreases |a|
  {
    if a == [] {
      assert a + b == b;
    } else {
      assert (a + b)[0] == a[0] && (a + b)[1..] == a[1..] + b;
      FedAppend(Fed(r, a[0]), a[1..], b);
      Regroup(Dispatch(r, a[0]), Frames(Fed(r, a[0]), a[1..]), Frames(FedAll(r, a), b));
    }
  }

  predicate Terminated(text: string) {
    text == "" || text[|text| - 1] == '\n'
  }

  lemma {:induction false} LineOfAppend(a: string, b: string)
    requires a != "" && Terminated(a)
    ensures LineLength(a + b) == LineLength(a)
  {
    if a[0] != '\n' {
      assert (a + b)[1..] == a[1..] + b;
      LineOfAppend(a[1..], b);
    }
  }

  /** Text up to a line boundary splits off its own lines. */
  lemma {:induction false} LinesAppend(a: string, b: string)
    requires Terminated(a)
    ensures Lines(a + b) == Lines(a) + Lines(b)
    decreases |a|
  {
    if a == "" {
      assert a + b == b;
    } else {
      var n := LineLength(a);
      LineOfAppend(a, b);
      Prefix(a, b, n);
      LinesAppend(a[n..], b);
      Regroup([a[..n]], Lines(a[n..]), Lines(b));
    }
  }

  lemma Prefix(a: string, b: string, n: nat)
    requires n <= |a|
    ensures (a + b)[..n] == a[..n] && (a + b)[n..] == a[n..] + b
  {
  }

  lemma {:induction false} OneLine(line: string)
    requires '\n' !in line
    ensures Lines(line + "\n") == [line + "\n"]
  {
    LineLengthOf(line);
    assert (line + "\n")[..|line| + 1] == line + "\n" && (line + "\n")[|line| + 1..] == "";
  }

  lemma {:induction false} LineLengthOf(line: string)
    requires '\n' !in line
    ensures LineLength(line + "\n") == |line| + 1
  {
    if line != "" {
      assert (line + "\n")[1..] == line[1..] + "\n";
      LineLengthOf(line[1..]);
    }
  }

  // ----------------------------------------------------- comments, keep-alives

  predicate Comment(line: string) {
    var t := TrimEol(line);
    t != "" && t[0] == ':'
  }

  predicate NotComment(line: string) { !Comment(line) }

  /** Comment lines are invisible wherever they stand: any stream reads like the
      stream without them. */
  lemma {:induction false} CommentsIgnored(r: Reader, lines: seq<string>)
    ensures Frames(r, lines) == Frames(r, Filter(lines, NotComment))
    ensures FedAll(r, lines) == FedAll(r, Filter(lines, NotComment))
    decreases |lines|
  {
    if lines != [] {
      CommentsIgnored(Fed(r, lines[0]), lines[1..]);
      assert lines == [lines[0]] + lines[1..];
      FilterCons(lines[0], lines[1..], NotComment);
    }
  }

  /** Outside a frame nothing has been gathered. */
  predicate Clean(r: Reader) { !r.inFrame ==> r == IDLE }

  lemma {:induction false} StaysClean(r: Reader, lines: seq<string>)
    requires Clean(r)
    ensures Clean(FedAll(r, lines))
    decreases |lines|
  {
    if lines != [] {
      StaysClean(Fed(r, lines[0]), lines[1..]);
    }
  }

  /** Between frames a blank line changes nothing, so neither does a keep-alive
      block of comments and blank lines. */
  lemma {:induction false} KeepAlive(r: Reader, block: seq<string>)
    requires Clean(r) && !r.inFrame
    requires forall l :: l in block ==> Comment(l) || TrimEol(l) == ""
    ensures FedAll(r, block) == r && Frames(r, block) == []
    decreases |block|
  {
    if block != [] {
      assert block[0] in block;
      KeepAlive(r, block[1..]);
    }
  }

  /** So such a block can be inserted wherever no frame is open, in any stream. */
  lemma QuietBlockIgnored(before: seq<string>, block: seq<string>, rest: seq<string>)
    requires !FedAll(IDLE, before).inFrame
    requires forall l :: l in block ==> Comment(l) || TrimEol(l) == ""
    ensures Frames(IDLE, before + block + rest) == Frames(IDLE, before + rest)
  {
    var r := FedAll(IDLE, before);
    StaysClean(IDLE, before);
    KeepAlive(r, block);
    FedAppend(IDLE, before, block);
    FedAppend(IDLE, before + block, rest);
    FedAppend(IDLE, before, rest);
  }

  // ---------------------------------------------------------------- printing

  function DataLine(l: string): string { "data: " + l + "\n" }

  function EventLine(name: string): string { "event: " + name + "\n" }

  /** A data line per line of the payload, as the hub's server writes it. */
  function DataLines(lines: seq<string>): seq<string> {
    MapSeq(lines, DataLine)
  }

  /** The lines of one printed frame. */
  function Printed(f: Frame): seq<string> {
    [EventLine(f.name)] + DataLines(Split(f.data, '\n')) + ["\n"]
  }

  function Concat(lines: seq<string>): string {
    if lines == [] then "" else lines[0] + Concat(lines[1..])
  }

  function Print(f: Frame): string {
    Concat(Printed(f))
  }

  lemma {:induction false} TrimAfter(p: string, s: string)
    requires p != "" && !IsEol(p[|p| - 1])
    ensures TrimEol(p + s) == p + TrimEol(s)
  {
    if s == "" {
      assert p + s == p;
    } else if IsEol(s[|s| - 1]) {
      assert (p + s)[..|p + s| - 1] == p + s[..|s| - 1];
      TrimAfter(p, s[..|s| - 1]);
    }
  }

  lemma TrimNewline(s: string)
    ensures TrimEol(s + "\n") == TrimEol(s)
  {
    assert (s + "\n")[..|s|] == s;
  }

  lemma {:induction false} TrimShortens(s: string)
    ensures TrimEol(s) <= s
  {
    if s != "" {
      TrimShortens(s[..|s| - 1]);
    }
  }

  lemma {:induction false} FieldOf(key: string, v: string)
    requires ':' !in key
    ensures Field(key + ":" + v) == key && After(key + ":" + v) == Some(v)
  {
    var line := key + ":" + v;
    if key == "" {
      assert line[1..] == v;
    } else {
      FieldOf(key[1..], v);
      assert line[1..] == key[1..] + ":" + v;
    }
  }

  /** A printed field line reads back as its value without trailing CRs. */
  lemma FieldLine(key: string, v: string)
    requires ':' !in key && key != ""
    ensures var t := TrimEol(key + ": " + v + "\n");
      t != "" && t[0] != ':' && Field(t) == key && Value(t) == TrimEol(v)
  {
    TrimNewline(key + ": " + v);
    TrimAfter(key + ": ", v);
    FieldOf(key, " " + TrimEol(v));
    ColonSpace(key, TrimEol(v));
  }

  lemma ColonSpace(key: string, v: string)
    ensures key + ":" + (" " + v) == key + ": " + v && (" " + v)[1..] == v
  {
  }

  /** What the reader makes of the data lines, in order. */
  function Gathered(data: string, values: seq<string>): string
    decreases |values|
  {
    if values == [] then data else Gathered(AppendData(data, values[0]), values[1..])
  }

  lemma Prefixes()
    ensures "data" + ": " == "data: " && "event" + ": " == "event: "
  {
  }

  lemma FedData(r: Reader, l: string)
    ensures Fed(r, DataLine(l)) == Reader(r.name, AppendData(r.data, TrimEol(l)), true)
    ensures Dispatch(r, DataLine(l)) == []
  {
    FieldLine("data", l);
    Prefixes();
  }

  lemma FedEvent(r: Reader, name: string)
    ensures Fed(r, EventLine(name)) == Reader(TrimEol(name), r.data, true)
    ensures Dispatch(r, EventLine(name)) == []
  {
    FieldLine("event", name);
    Prefixes();
  }

  lemma FedOne(r: Reader, line: string)
    ensures FedAll(r, [line]) == Fed(r, line) && Frames(r, [line]) == Dispatch(r, line)
  {
    assert [line][1..] == [];
  }

  lemma {:induction false} DataRead(r: Reader, lines: seq<string>)
    ensures var after := FedAll(r, DataLines(lines));
      && after.name == r.name && after.data == Gathered(r.data, MapSeq(lines, TrimEol))
      && (r.inFrame ==> after.inFrame)
    ensures Frames(r, DataLines(lines)) == []
    decreases |lines|
  {
    if lines != [] {
      FedData(r, lines[0]);
      assert DataLines(lines)[1..] == DataLines(lines[1..]);
      assert MapSeq(lines, TrimEol)[1..] == MapSeq(lines[1..], TrimEol);
      DataRead(Fed(r, DataLines(lines)[0]), lines[1..]);
    }
  }

  /** The frame the reader delivers for a printed one. */
  function Received(f: Frame): Frame {
    Frame(TrimEol(f.name), Gathered("", MapSeq(Split(f.data, '\n'), TrimEol)))
  }

  lemma OneFrame(f: Frame)
    ensures FedAll(IDLE, Printed(f)) == IDLE
    ensures Frames(IDLE, Printed(f)) == [Received(f)]
  {
    var first, body, last := [EventLine(f.name)], DataLines(Split(f.data, '\n')), ["\n"];
    var r := Reader(TrimEol(f.name), "", true);
    FedOne(IDLE, EventLine(f.name));
    FedEvent(IDLE, f.name);
    DataRead(r, Split(f.data, '\n'));
    FedAppend(IDLE, first, body);
    FedAppend(IDLE, first + body, last);
    FedOne(FedAll(r, body), "\n");
    TrimNewline("");
  }

  // ------------------------------------------------- what comes back, exactly

  /** A frame that survives printing and reading: its name and the lines of its
      payload do not end in CR, and the payload does not start with LF. */
  predicate Faithful(f: Frame) {
    TrimEol(f.name) == f.name && MapSeq(Split(f.data, '\n'), TrimEol) == Split(f.data, '\n') &&
    (f.data == "" || f.data[0] != '\n')
  }

  function Tail(lines: seq<string>): string {
    if lines == [] then "" else "\n" + lines[0] + Tail(lines[1..])
  }

  lemma {:induction false} SplitTail(s: string)
    ensures var lines := Split(s, '\n'); s == lines[0] + Tail(lines[1..])
  {
    if s != "" {
      SplitTail(s[1..]);
      var rest := Split(s[1..], '\n');
      assert s == [s[0]] + s[1..];
      if s[0] == '\n' {
        assert ([""] + rest)[1..] == rest;
        assert Tail(rest) == "\n" + rest[0] + Tail(rest[1..]);
      } else {
        assert ([[s[0]] + rest[0]] + rest[1..])[1..] == rest[1..];
      }
    }
  }

  lemma {:induction false} GatheredAfter(data: string, values: seq<string>)
    requires data != ""
    ensures Gathered(data, values) == data + Tail(values)
    decreases |values|
  {
    if values != [] {
      GatheredAfter(data + "\n" + values[0], values[1..]);
      Regroup(data, "\n" + values[0], Tail(values[1..]));
      Regroup(data, "\n", values[0]);
    }
  }

  /** Dropped line feeds make the gathered payload shorter than the printed one. */
  lemma {:induction false} GatheredShort(values: seq<string>)
    requires values != []
    ensures |Gathered("", values)| < |Tail(values)|
    decreases |values|
  {
    if values[0] != "" {
      GatheredAfter(values[0], values[1..]);
    } else if |values| > 1 {
      GatheredShort(values[1..]);
    }
  }

  lemma {:induction false} TailTrimmed(lines: seq<string>)
    ensures |Tail(MapSeq(lines, TrimEol))| <= |Tail(lines)|
    ensures |Tail(MapSeq(lines, TrimEol))| == |Tail(lines)| ==> MapSeq(lines, TrimEol) == lines
  {
    if lines != [] {
      TailTrimmed(lines[1..]);
      TrimShortens(lines[0]);
      assert lines == [lines[0]] + lines[1..];
      MapCons(lines[0], lines[1..], TrimEol);
    }
  }

  /** The payload comes back exactly under the two conditions on it. */
  lemma PayloadKept(data: string)
    ensures Gathered("", MapSeq(Split(data, '\n'), TrimEol)) == data <==> Faithful(Frame("", data))
  {
    var lines := Split(data, '\n');
    var trimmed := MapSeq(lines, TrimEol);
    SplitTail(data);
    SplitParts(data, '\n');
    assert lines[0] in lines && lines == [lines[0]] + lines[1..];
    MapCons(lines[0], lines[1..], TrimEol);
    TailTrimmed(lines[1..]);
    TrimShortens(lines[0]);
    if trimmed[0] != "" {
      GatheredAfter(trimmed[0], trimmed[1..]);
    } else if |lines| > 1 {
      GatheredShort(trimmed[1..]);
    }
  }

  /** A printed frame is delivered unchanged exactly when it is faithful. */
  lemma FrameRoundTrip(f: Frame)
    ensures Frames(IDLE, Printed(f)) == [f] <==> Faithful(f)
  {
    OneFrame(f);
    PayloadKept(f.data);
    assert TrimEol("") == "";
  }

  function WithoutLeadingLf(s: string): string {
    if s != "" && s[0] == '\n' then WithoutLeadingLf(s[1..]) else s
  }

  /** For a payload without CR the one loss is its leading line feeds. */
  lemma {:induction false} LeadingLfDropped(data: string)
    requires '\r' !in data
    ensures Gathered("", MapSeq(Split(data, '\n'), TrimEol)) == WithoutLeadingLf(data)
  {
    if data != "" && data[0] == '\n' {
      LeadingLfDropped(data[1..]);
      MapCons("", Split(data[1..], '\n'), TrimEol);
    } else {
      NoEolIn(data);
      PayloadKept(data);
    }
  }

  lemma {:induction false} NoEolIn(data: string)
    requires '\r' !in data
    ensures MapSeq(Split(data, '\n'), TrimEol) == Split(data, '\n')
  {
    var lines := Split(data, '\n');
    SplitParts(data, '\n');
    SplitWithout(data, '\n', '\r');
    forall i | 0 <= i < |lines| ensures TrimEol(lines[i]) == lines[i] {
      assert lines[i] in lines;
    }
  }

  lemma {:induction false} SplitWithout(s: string, at: char, c: char)
    requires c !in s
    ensures forall part :: part in Split(s, at) ==> c !in part
  {
    if s != "" {
      SplitWithout(s[1..], at, c);
      assert Split(s[1..], at)[0] in Split(s[1..], at);
    }
  }

  // ----------------------------------------------------------------- streams

  /** What a server writes: frames, and keep-alive blocks of comments and blank
      lines between them. */
  datatype Piece = Sent(frame: Frame) | Quiet(block: seq<string>)

  predicate Proper(p: Piece) {
    p.Quiet? ==> forall l :: l in p.block ==> Comment(l) || TrimEol(l) == ""
  }

  function PieceLines(p: Piece): seq<string> {
    match p
    case Sent(f) => Printed(f)
    case Quiet(block) => block
  }

  function StreamLines(pieces: seq<Piece>): seq<string> {
    if pieces == [] then [] else PieceLines(pieces[0]) + StreamLines(pieces[1..])
  }

  function SentFrames(pieces: seq<Piece>): seq<Frame> {
    if pieces == [] then []
    else (if pieces[0].Sent? then [pieces[0].frame] else []) + SentFrames(pieces[1..])
  }

  lemma {:induction false} StreamRead(pieces: seq<Piece>)
    requires forall p :: p in pieces ==> Proper(p)
    ensures Frames(IDLE, StreamLines(pieces)) == MapSeq(SentFrames(pieces), Received)
    ensures FedAll(IDLE, StreamLines(pieces)) == IDLE
  {
    if pieces != [] {
      assert Proper(pieces[0]);
      StreamRead(pieces[1..]);
      FedAppend(IDLE, PieceLines(pieces[0]), StreamLines(pieces[1..]));
      match pieces[0]
      case Sent(f) =>
        OneFrame(f);
        MapCons(f, SentFrames(pieces[1..]), Received);
      case Quiet(block) => KeepAlive(IDLE, block);
    }
  }

  lemma FaithfulReceived(f: Frame)
    requires Faithful(f)
    ensures Received(f) == f
  {
    PayloadKept(f.data);
    assert TrimEol("") == "";
  }

  lemma AllReceived(sent: seq<Frame>)
    requires forall f :: f in sent ==> Faithful(f)
    ensures MapSeq(sent, Received) == sent
  {
    forall i | 0 <= i < |sent| ensures Received(sent[i]) == sent[i] {
      FaithfulReceived(sent[i]);
    }
  }

  /** Whatever comment lines are inserted and wherever, and whatever keep-alive
      blocks stand between frames, the reader delivers the frames that were sent,
      in order; faithful ones unchanged. */
  lemma StreamDelivered(text: string, pieces: seq<Piece>)
    requires forall p :: p in pieces ==> Proper(p)
    requires Filter(Lines(text), NotComment) == Filter(StreamLines(pieces), NotComment)
    ensures Read(text) == MapSeq(SentFrames(pieces), Received)
    ensures (forall f :: f in SentFrames(pieces) ==> Faithful(f)) ==> Read(text) == SentFrames(pieces)
  {
    CommentsIgnored(IDLE, Lines(text));
    CommentsIgnored(IDLE, StreamLines(pieces));
    StreamRead(pieces);
    if forall f :: f in SentFrames(pieces) ==> Faithful(f) {
      AllReceived(SentFrames(pieces));
    }
  }

  predicate LineText(l: string) {
    l != "" && l[|l| - 1] == '\n' && '\n' !in l[..|l| - 1]
  }

  /** A text written line by line is read line by line. */
  lemma {:induction false} LinesConcat(lines: seq<string>)
    requires forall l :: l in lines ==> LineText(l)
    ensures Lines(Concat(lines)) == lines
  {
    if lines != [] {
      var l := lines[0];
      assert LineText(l) && l == l[..|l| - 1] + "\n";
      OneLine(l[..|l| - 1]);
      LinesAppend(l, Concat(lines[1..]));
      LinesConcat(lines[1..]);
      assert lines == [l] + lines[1..];
    }
  }

  lemma {:induction false} PrintedLineText(f: Frame)
    requires '\n' !in f.name
    ensures forall l :: l in Printed(f) ==> LineText(l)
  {
    var lines := Split(f.data, '\n');
    SplitParts(f.data, '\n');
    forall i | 0 <= i < |lines| ensures LineText(DataLine(lines[i])) {
      assert lines[i] in lines;
    }
    assert LineText(EventLine(f.name));
  }

  /** A frame printed as text, its name being one line, is read back as the frame
      it delivers. */
  lemma PrintRead(f: Frame)
    requires '\n' !in f.name
    ensures Read(Print(f)) == [Received(f)]
    ensures Read(Print(f)) == [f] <==> Faithful(f)
  {
    PrintedLineText(f);
    LinesConcat(Printed(f));
    OneFrame(f);
    FrameRoundTrip(f);
  }
}

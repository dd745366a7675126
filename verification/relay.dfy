/**
 * The streaming relay (`stream_generator` in app.py): it reads the upstream's
 * event stream line by line and re-emits every line in the relay's own
 * `data: <payload>\n\n` framing, replaces lines it does not recognise by an
 * error event, turns a transport failure into one final error event, and
 * closes the upstream response exactly once however the loop ends.
 *
 * The generator is modelled as a function from everything the upstream
 * delivers to everything the client receives; the close of the response is
 * an explicit counter threaded through the loop.
 */
module Relay {
  import opened Wrappers
  import opened Json

  /** One step of `response.iter_lines()`, as the relay's loop sees it. */
  datatype Item =
    | Line(text: string)     // a line, decoded as UTF-8; empty for a blank line
    | Fail(message: string)  // reading raised a RequestException; message is its str()
    | Abort                  // any other exception left the loop: an undecodable line, or the client went away

  const DataPrefix := "data: "
  const Terminator := "\n\n"
  const InvalidChunk := "Invalid chunk format"

  /**
   * The fixed event for a line without the `data: ` prefix, the JSON object
   * `{"error": "Invalid chunk format"}` framed; InvalidChunkIsErrorEvent shows
   * it is ErrorEvent(InvalidChunk).
   */
  const InvalidChunkEvent := DataPrefix + ErrorOpen + InvalidChunk + ErrorClose + Terminator

  /** Wraps a payload in event-stream framing. */
  function Frame(payload: string): string {
    DataPrefix + payload + Terminator
  }

  /** The payload of a framed event, or None when the text is not one. */
  function Unframe(e: string): Option<string> {
    if |e| < |DataPrefix| + |Terminator| || e[..|DataPrefix|] != DataPrefix
       || e[|e| - |Terminator|..] != Terminator
    then None
    else Some(e[|DataPrefix|..|e| - |Terminator|])
  }

  lemma UnframeFrame(payload: string)
    ensures Unframe(Frame(payload)) == Some(payload)
  {
    var e := Frame(payload);
    assert e[..|DataPrefix|] == DataPrefix;
    assert e[|e| - |Terminator|..] == Terminator;
    assert e[|DataPrefix|..|e| - |Terminator|] == payload;
  }

  /** The event the relay synthesises for a failure: an `{"error": message}` object. */
  function ErrorEvent(message: string): string {
    Frame(ErrorObject(message))
  }

  /** An error event carries its message exactly: unframing and reading the JSON gives it back. */
  lemma ErrorEventRoundTrip(message: string)
    ensures Unframe(ErrorEvent(message)).Some?
    ensures ParseErrorObject(Unframe(ErrorEvent(message)).value) == Some(message)
  {
    UnframeFrame(ErrorObject(message));
    ErrorObjectRoundTrip(message);
  }

  lemma InvalidChunkIsErrorEvent()
    ensures InvalidChunkEvent == ErrorEvent(InvalidChunk)
  {
    InvalidChunkEventLayout();
    InvalidChunkObject();
  }

  lemma InvalidChunkEventLayout()
    ensures InvalidChunkEvent == Frame(ErrorOpen + InvalidChunk + ErrorClose)
  {
  }

  lemma InvalidChunkObject()
    ensures ErrorObject(InvalidChunk) == ErrorOpen + InvalidChunk + ErrorClose
  {
    InvalidChunkVerbatim();
    ErrorObjectVerbatim(InvalidChunk);
  }

  lemma InvalidChunkVerbatim()
    ensures forall i :: 0 <= i < |InvalidChunk| ==> Verbatim(InvalidChunk[i])
  {
  }

  /**
   * The one event a non-empty upstream line becomes: a `data: ` line keeps
   * its payload; any other line becomes InvalidChunkEvent.
   */
  function LineEvent(line: string): (e: string)
    ensures DataPrefix <= line ==> Unframe(e) == Some(line[|DataPrefix|..])
  {
    if DataPrefix <= line then
      UnframeFrame(line[|DataPrefix|..]);
      Frame(line[|DataPrefix|..])
    else
      InvalidChunkEvent
  }

  /** The events the loop body yields for one line: nothing for a blank line. */
  function LineEvents(line: string): (r: seq<string>)
    ensures |r| == (if line == [] then 0 else 1)
  {
    if line == [] then [] else [LineEvent(line)]
  }

  /** What the generator has done: events yielded, closes of the upstream response, whether an exception escaped. */
  datatype Run = Run(events: seq<string>, closes: nat, raised: bool)

  /** The `finally` block: the response is closed when it was opened in streaming mode. */
  function Finally(r: Run, stream: bool): Run {
    r.(closes := r.closes + if stream then 1 else 0)
  }

  /** The `try` loop over the items not yet read, having yielded `emitted`, then the `finally` block. */
  function Drive(rest: seq<Item>, stream: bool, emitted: seq<string>): (r: Run)
    ensures r.closes == (if stream then 1 else 0)
    ensures emitted <= r.events
    ensures |r.events| <= |emitted| + |rest|
    decreases |rest|
  {
    if rest == [] then Finally(Run(emitted, 0, false), stream)
    else match rest[0]
      case Line(text) => Drive(rest[1..], stream, emitted + LineEvents(text))
      case Fail(message) => Finally(Run(emitted + [ErrorEvent(message)], 0, false), stream)
      case Abort => Finally(Run(emitted, 0, true), stream)
  }

  /**
   * `stream_generator(response, stream)` run to its end over `items`. The
   * response is closed exactly once in streaming mode and never otherwise,
   * whether the upstream ran out, failed, or an exception escaped; no item
   * produces more than one event.
   */
  function StreamGenerator(items: seq<Item>, stream: bool): (r: Run)
    ensures r.closes == (if stream then 1 else 0)
    ensures |r.events| <= |items|
  {
    Drive(items, stream, [])
  }

  // ---------------------------------------------------------------------------
  // A reference description of the output, without the loop.

  /** Whether every item is a line: the upstream neither failed nor was interrupted. */
  predicate AllLines(items: seq<Item>) {
    items == [] || (items[0].Line? && AllLines(items[1..]))
  }

  /** Position of the first item that ends the loop, or |items| when none does. */
  function Stop(items: seq<Item>): (k: nat)
    ensures k <= |items|
  {
    if items == [] || !items[0].Line? then 0 else 1 + Stop(items[1..])
  }

  /** The non-empty lines among `items`, in upstream order. */
  function NonEmptyLines(items: seq<Item>): seq<string> {
    if items == [] then []
    else (if items[0].Line? && items[0].text != [] then [items[0].text] else []) + NonEmptyLines(items[1..])
  }

  /** One event per non-empty line, in the same order. */
  function Reframe(lines: seq<string>): seq<string> {
    seq(|lines|, i requires 0 <= i < |lines| => LineEvent(lines[i]))
  }

  /** The non-empty lines the loop reads before it ends. */
  function Before(items: seq<Item>): seq<string> {
    NonEmptyLines(items[..Stop(items)])
  }

  /** The error event for the transport failure that ends the loop, if one does. */
  function Ending(items: seq<Item>): seq<string> {
    var k := Stop(items);
    if k < |items| && items[k].Fail? then [ErrorEvent(items[k].message)] else []
  }

  /** Whether the loop ends with an exception that escapes the generator. */
  predicate Raises(items: seq<Item>) {
    Stop(items) < |items| && items[Stop(items)].Abort?
  }

  /**
   * What the client receives, stated directly: the events of the non-empty
   * lines before the first item that ends the loop, then one error event if
   * that item is a transport failure; the response closed once in streaming mode.
   */
  function Expected(items: seq<Item>, stream: bool): Run {
    Run(Reframe(Before(items)) + Ending(items), if stream then 1 else 0, Raises(items))
  }

  lemma ReframeAppend(a: seq<string>, b: seq<string>)
    ensures Reframe(a + b) == Reframe(a) + Reframe(b)
  {
    var l, r := Reframe(a + b), Reframe(a) + Reframe(b);
    assert |l| == |r|;
    forall i | 0 <= i < |l| ensures l[i] == r[i] {
      if i < |a| {
        assert (a + b)[i] == a[i];
      } else {
        assert (a + b)[i] == b[i - |a|];
      }
    }
  }

  lemma {:induction false} NonEmptyLinesAppend(a: seq<Item>, b: seq<Item>)
    ensures NonEmptyLines(a + b) == NonEmptyLines(a) + NonEmptyLines(b)
  {
    if a == [] {
      assert a + b == b;
    } else {
      assert (a + b)[1..] == a[1..] + b;
      NonEmptyLinesAppend(a[1..], b);
    }
  }

  lemma {:induction false} StopAppend(a: seq<Item>, b: seq<Item>)
    requires AllLines(a)
    ensures Stop(a + b) == |a| + Stop(b)
  {
    if a == [] {
      assert a + b == b;
    } else {
      assert (a + b)[1..] == a[1..] + b;
      StopAppend(a[1..], b);
    }
  }

  /** The loop stops at k when the k items before it are lines and item k is not. */
  lemma StopAt(items: seq<Item>, k: nat)
    requires k <= |items| && AllLines(items[..k])
    requires k < |items| ==> !items[k].Line?
    ensures Stop(items) == k
    ensures Stop(items[..k]) == k
  {
    assert items == items[..k] + items[k..];
    StopAppend(items[..k], items[k..]);
    StopAppend(items[..k], []);
    assert items[..k] + [] == items[..k];
  }

  lemma BeforeAfterLine(rest: seq<Item>)
    requires rest != [] && rest[0].Line?
    ensures Before(rest) == NonEmptyLines([rest[0]]) + Before(rest[1..])
    ensures Ending(rest) == Ending(rest[1..])
    ensures Raises(rest) == Raises(rest[1..])
  {
    var k := Stop(rest);
    var tail := rest[1..];
    assert k == 1 + Stop(tail);
    assert rest[..k] == [rest[0]] + tail[..k - 1];
    NonEmptyLinesAppend([rest[0]], tail[..k - 1]);
    assert k < |rest| ==> rest[k] == tail[k - 1];
  }

  /** Stripping one leading line from the items strips its events from the reference description. */
  lemma ExpectedAfterLine(rest: seq<Item>, stream: bool)
    requires rest != [] && rest[0].Line?
    ensures var x, y := Expected(rest, stream), Expected(rest[1..], stream);
      x == y.(events := LineEvents(rest[0].text) + y.events)
  {
    var head := NonEmptyLines([rest[0]]);
    BeforeAfterLine(rest);
    ReframeAppend(head, Before(rest[1..]));
    HeadEvents(rest[0]);
    assert Reframe(Before(rest)) == LineEvents(rest[0].text) + Reframe(Before(rest[1..]));
  }

  /** The events of a single line, as the reference description frames it. */
  lemma HeadEvents(item: Item)
    requires item.Line?
    ensures Reframe(NonEmptyLines([item])) == LineEvents(item.text)
  {
    assert [item][1..] == [];
    assert NonEmptyLines([item]) == (if item.text != [] then [item.text] else []);
  }

  /** The loop, started after `emitted`, yields `emitted` followed by what the reference prescribes. */
  lemma {:induction false} DriveMeetsSpec(rest: seq<Item>, stream: bool, emitted: seq<string>)
    ensures var x := Expected(rest, stream); Drive(rest, stream, emitted) == x.(events := emitted + x.events)
    decreases |rest|
  {
    if rest != [] && rest[0].Line? {
      var head := LineEvents(rest[0].text);
      DriveMeetsSpec(rest[1..], stream, emitted + head);
      DriveLine(rest, stream, emitted);
      ExpectedAfterLine(rest, stream);
      Shift(Drive(rest[1..], stream, emitted + head), Expected(rest, stream), Expected(rest[1..], stream), emitted, head);
    } else {
      DriveStops(rest, stream, emitted);
    }
  }

  /** A leading line adds its events and the loop carries on with the rest. */
  lemma DriveLine(rest: seq<Item>, stream: bool, emitted: seq<string>)
    requires rest != [] && rest[0].Line?
    ensures Drive(rest, stream, emitted) == Drive(rest[1..], stream, emitted + LineEvents(rest[0].text))
  {
  }

  /** Bookkeeping for the induction step: the events emitted so far move in front. */
  lemma Shift(d: Run, x: Run, y: Run, emitted: seq<string>, head: seq<string>)
    requires d == y.(events := (emitted + head) + y.events)
    requires x == y.(events := head + y.events)
    ensures d == x.(events := emitted + x.events)
  {
    assert (emitted + head) + y.events == emitted + (head + y.events);
  }

  /** The base cases: the items run out, or the first item ends the loop. */
  lemma DriveStops(rest: seq<Item>, stream: bool, emitted: seq<string>)
    requires rest == [] || !rest[0].Line?
    ensures var x := Expected(rest, stream); Drive(rest, stream, emitted) == x.(events := emitted + x.events)
  {
    assert Stop(rest) == 0;
    assert rest[..0] == [];
  }

  /** The generator does exactly what the reference description says. */
  lemma StreamGeneratorMeetsSpec(items: seq<Item>, stream: bool)
    ensures StreamGenerator(items, stream) == Expected(items, stream)
  {
    DriveMeetsSpec(items, stream, []);
  }

  // ---------------------------------------------------------------------------
  // Properties of the relay.

  /** A `data: ` line is relayed as one event whose payload is the rest of the line. */
  lemma DataLineRelayed(line: string, stream: bool)
    requires DataPrefix <= line
    ensures StreamGenerator([Line(line)], stream).events == [DataPrefix + line[6..] + Terminator]
    ensures Unframe(StreamGenerator([Line(line)], stream).events[0]) == Some(line[6..])
  {
    assert [Line(line)][1..] == [];
  }

  /** Any other non-empty line becomes exactly one `{"error": "Invalid chunk format"}` event. */
  lemma InvalidLineRelayed(line: string, stream: bool)
    requires line != [] && !(DataPrefix <= line)
    ensures StreamGenerator([Line(line)], stream).events == [InvalidChunkEvent]
  {
    assert [Line(line)][1..] == [];
  }

  /** A blank line yields nothing. */
  lemma BlankLineSkipped(stream: bool)
    ensures StreamGenerator([Line([])], stream).events == []
  {
    assert [Line([])][1..] == [];
  }

  /** Items that are all lines run to the end: every non-empty line relayed, nothing after. */
  lemma LinesOnly(a: seq<Item>)
    requires AllLines(a)
    ensures Before(a) == NonEmptyLines(a) && Ending(a) == [] && !Raises(a)
  {
    assert a[..|a|] == a;
    StopAt(a, |a|);
  }

  /**
   * Without failures, every non-empty line yields exactly one event, in
   * order, and an unrecognised line does not stop the lines after it.
   */
  lemma RelayWithoutFailure(items: seq<Item>, stream: bool)
    requires AllLines(items)
    ensures var r := StreamGenerator(items, stream);
      && |r.events| == |NonEmptyLines(items)|
      && (forall j :: 0 <= j < |r.events| ==> r.events[j] == LineEvent(NonEmptyLines(items)[j]))
      && !r.raised
  {
    StreamGeneratorMeetsSpec(items, stream);
    LinesOnly(items);
  }

  /**
   * A transport failure after k lines: the events of those k lines, then
   * exactly one error event carrying the failure's message, then nothing,
   * whatever the upstream would have sent afterwards.
   */
  lemma FailureEndsStream(items: seq<Item>, k: nat, stream: bool)
    requires k < |items| && items[k].Fail? && AllLines(items[..k])
    ensures var r := StreamGenerator(items, stream);
      && r.events == StreamGenerator(items[..k], stream).events + [ErrorEvent(items[k].message)]
      && !r.raised
  {
    StreamGeneratorMeetsSpec(items, stream);
    StreamGeneratorMeetsSpec(items[..k], stream);
    StopAt(items, k);
    LinesOnly(items[..k]);
  }

  /** Any other exception after k lines: the events of those k lines and nothing more, and the exception escapes. */
  lemma AbortEndsStream(items: seq<Item>, k: nat, stream: bool)
    requires k < |items| && items[k].Abort? && AllLines(items[..k])
    ensures var r := StreamGenerator(items, stream);
      && r.events == StreamGenerator(items[..k], stream).events
      && r.raised
  {
    StreamGeneratorMeetsSpec(items, stream);
    StreamGeneratorMeetsSpec(items[..k], stream);
    StopAt(items, k);
    LinesOnly(items[..k]);
  }

  /**
   * The relay does not buffer: after a run of lines, the client has already
   * received their events, and what follows is relayed as if on its own.
   */
  lemma RelayIsIncremental(a: seq<Item>, b: seq<Item>, stream: bool)
    requires AllLines(a)
    ensures var r := StreamGenerator(a + b, stream);
      && r.events == StreamGenerator(a, stream).events + StreamGenerator(b, stream).events
      && r.raised == StreamGenerator(b, stream).raised
  {
    StreamGeneratorMeetsSpec(a + b, stream);
    StreamGeneratorMeetsSpec(a, stream);
    StreamGeneratorMeetsSpec(b, stream);
    ExpectedAppend(a, b, stream);
  }

  lemma ExpectedAppend(a: seq<Item>, b: seq<Item>, stream: bool)
    requires AllLines(a)
    ensures Expected(a + b, stream).events == Expected(a, stream).events + Expected(b, stream).events
    ensures Expected(a + b, stream).raised == Expected(b, stream).raised
  {
    var ra, rb, tail := Reframe(NonEmptyLines(a)), Reframe(Before(b)), Ending(b);
    LinesOnly(a);
    assert Expected(a, stream).events == ra + [] == ra;
    BeforeAppend(a, b);
    ReframeAppend(NonEmptyLines(a), Before(b));
    assert Reframe(Before(a + b)) == ra + rb;
    EndingAppend(a, b);
    assert (ra + rb) + tail == ra + (rb + tail);
  }

  lemma BeforeAppend(a: seq<Item>, b: seq<Item>)
    requires AllLines(a)
    ensures Before(a + b) == NonEmptyLines(a) + Before(b)
  {
    var k := Stop(b);
    StopAppend(a, b);
    var front := (a + b)[..|a| + k];
    assert Before(a + b) == NonEmptyLines(front);
    assert front == a + b[..k];
    NonEmptyLinesAppend(a, b[..k]);
  }

  lemma EndingAppend(a: seq<Item>, b: seq<Item>)
    requires AllLines(a)
    ensures Ending(a + b) == Ending(b)
    ensures Raises(a + b) == Raises(b)
  {
    var k := Stop(b);
    StopAppend(a, b);
    assert k < |b| ==> (a + b)[|a| + k] == b[k];
  }

  /**
   * Every event is well framed: when no upstream line holds a newline, each
   * event is `data: <payload>\n\n` with a payload free of newlines, so the
   * client can split the stream back into the same events.
   */
  lemma EventsAreFramed(items: seq<Item>, stream: bool)
    requires forall i :: 0 <= i < |items| && items[i].Line? ==> '\n' !in items[i].text
    ensures forall e :: e in StreamGenerator(items, stream).events ==>
      Unframe(e).Some? && '\n' !in Unframe(e).value
  {
    StreamGeneratorMeetsSpec(items, stream);
    var lines := Before(items);
    NoNewlineInLines(items[..Stop(items)]);
    forall e | e in Reframe(lines)
      ensures Unframe(e).Some? && '\n' !in Unframe(e).value
    {
      var j :| 0 <= j < |lines| && e == LineEvent(lines[j]);
      LineEventFramed(lines[j]);
    }
    forall e | e in Ending(items)
      ensures Unframe(e).Some? && '\n' !in Unframe(e).value
    {
      ErrorEventFramed(items[Stop(items)].message);
    }
  }

  lemma LineEventFramed(line: string)
    requires '\n' !in line
    ensures Unframe(LineEvent(line)).Some? && '\n' !in Unframe(LineEvent(line)).value
  {
    if !(DataPrefix <= line) {
      InvalidChunkIsErrorEvent();
      ErrorEventFramed(InvalidChunk);
    }
  }

  lemma ErrorEventFramed(message: string)
    ensures Unframe(ErrorEvent(message)) == Some(ErrorObject(message))
    ensures '\n' !in ErrorObject(message)
  {
    UnframeFrame(ErrorObject(message));
  }

  lemma {:induction false} NoNewlineInLines(items: seq<Item>)
    requires forall i :: 0 <= i < |items| && items[i].Line? ==> '\n' !in items[i].text
    ensures forall j :: 0 <= j < |NonEmptyLines(items)| ==> '\n' !in NonEmptyLines(items)[j]
  {
    if items != [] {
      NoNewlineInLines(items[1..]);
    }
  }
}

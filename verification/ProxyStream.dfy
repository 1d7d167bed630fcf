/** `streamProxy`: from the chunks of a response to the events and the message its reader gets. */
module ProxyStream {
  import opened Types
  import opened Proxy
  import opened Framing

  /** `JSON.parse` of a payload, which may throw. */
  type Decoder = string -> Attempt<ProxyEvent>

  /** What there is of a stream: the message under construction, the events passed on, whether the stream takes any
      more, and the message as it was when it was handed out as the result. */
  datatype Session = Session(partial: Partial, queue: seq<MessageEvent>, done: bool, result: Option<Partial>)

  const NEW_SESSION: Session := Session(EMPTY_PARTIAL, [], false, None)

  /** `push`: nothing is taken any more behind a completing event. */
  function Push(s: Session, e: MessageEvent): Session {
    if s.done then s
    else if e.Completes? then Session(s.partial, s.queue + [e], true, Some(s.partial))
    else s.(queue := s.queue + [e])
  }

  function HandleEvent(s: Session, e: ProxyEvent, parse: Parser): (Session, Option<string>) {
    var (p, outcome) := Process(s.partial, e, parse);
    match outcome
    case Threw(error) => (s.(partial := p), Some(error))
    case Returned(None) => (s.(partial := p), None)
    case Returned(Some(event)) => (Push(s.(partial := p), event), None)
  }

  /** The body of the loop over lines; an error leaves it. */
  function HandleLine(s: Session, line: string, decode: Decoder, parse: Parser): (Session, Option<string>) {
    if Payload(line).None? then (s, None)
    else
      match decode(Payload(line).value)
      case Threw(error) => (s, Some(error))
      case Returned(e) => HandleEvent(s, e, parse)
  }

  function HandleLines(s: Session, lines: seq<string>, decode: Decoder, parse: Parser): (Session, Option<string>) {
    if lines == [] then (s, None)
    else
      var (s', error) := HandleLines(s, lines[..|lines| - 1], decode, parse);
      if error.Some? then (s', error) else HandleLine(s', lines[|lines| - 1], decode, parse)
  }

  /** The handler of everything thrown. */
  function Fail(s: Session, error: string, aborted: bool): Session {
    var reason := if aborted then Aborted else StopReason.Error;
    Push(s.(partial := s.partial.(stopReason := reason, errorMessage := Some(error))), Completes(reason)).(done := true)
  }

  /** What the reader of the body hands out: decoded text, and whether the abort signal is up when it is looked at, or
      an error. */
  datatype Read = Chunk(text: string, aborted: bool) | ReadFails(error: string)

  const ABORTED: string := "Request aborted by user"

  /** Trouble with the connection, if any. */
  function Trouble(body: seq<Read>): Option<string> {
    if body == [] then None
    else if Trouble(body[..|body| - 1]).Some? then Trouble(body[..|body| - 1])
    else
      match body[|body| - 1]
      case Chunk(_, aborted) => if aborted then Some(ABORTED) else None
      case ReadFails(error) => Some(error)
  }

  /** The text that arrives before it. */
  function TextBefore(body: seq<Read>): string {
    if body == [] then ""
    else
      var last := body[|body| - 1];
      TextBefore(body[..|body| - 1]) + if Trouble(body).None? && last.Chunk? then last.text else ""
  }

  /** What surrounds a stream: the error of a request that fails or is turned down, the reads, and the abort signal as
      seen behind the last read and when an error is handled. */
  datatype Response = Response(refused: Option<string>, body: seq<Read>, abortedAtEnd: bool, abortedAtError: bool)

  /** The stream in terms of the whole text, without chunks: its terminated lines are handled in order. */
  function WholeStream(r: Response, decode: Decoder, parse: Parser): Session {
    if r.refused.Some? then Fail(NEW_SESSION, r.refused.value, r.abortedAtError)
    else
      var (s, error) := HandleLines(NEW_SESSION, Lines(TextBefore(r.body)), decode, parse);
      if error.Some? then Fail(s, error.value, r.abortedAtError)
      else if Trouble(r.body).Some? then Fail(s, Trouble(r.body).value, r.abortedAtError)
      else if r.abortedAtEnd then Fail(s, ABORTED, r.abortedAtError)
      else s.(done := true)
  }

  // ----- The stream, step by step -----

  /** The event stream between the proxy and its reader. The result is the message object itself; `handedOut` keeps
      what it was then. */
  class EventStream {
    var queue: seq<MessageEvent>
    var done: bool
    var result: PartialMessage?
    ghost var handedOut: Option<Partial>

    constructor ()
      ensures queue == [] && !done && result == null && handedOut == None
    {
      queue, done, result, handedOut := [], false, null, None;
    }

    ghost function Value(partial: PartialMessage): Session
      reads this, partial
    {
      Session(partial.Value(), queue, done, handedOut)
    }

    ghost predicate Valid(partial: PartialMessage)
      reads this
    {
      if handedOut.Some? then result == partial else result == null
    }

    method PushEvent(e: MessageEvent, partial: PartialMessage)
      requires Valid(partial)
      modifies this
      ensures Valid(partial) && Value(partial) == Push(old(Value(partial)), e)
    {
      if done {
        return;
      }
      if e.Completes? {
        done := true;
        result := partial;
        handedOut := Some(partial.Value());
      }
      queue := queue + [e];
    }

    method End()
      modifies this`done
      ensures done
    {
      done := true;
    }
  }

  method ProcessLine(line: string, partial: PartialMessage, stream: EventStream, decode: Decoder, parse: Parser)
    returns (error: Option<string>)
    requires stream.Valid(partial)
    modifies partial, stream
    ensures stream.Valid(partial)
    ensures (stream.Value(partial), error) == HandleLine(old(stream.Value(partial)), line, decode, parse)
  {
    hide Process, Payload;
    error := None;
    var payload := Payload(line);
    if payload.Some? {
      var decoded := decode(payload.value);
      if decoded.Threw? {
        return Some(decoded.message);
      }
      var outcome := ProcessProxyEvent(decoded.value, partial, parse);
      match outcome {
        case Threw(message) => error := Some(message);
        case Returned(None) =>
        case Returned(Some(event)) => stream.PushEvent(event, partial);
      }
    }
  }

  method ProcessLines(lines: seq<string>, partial: PartialMessage, stream: EventStream, decode: Decoder, parse: Parser)
    returns (error: Option<string>)
    requires stream.Valid(partial)
    modifies partial, stream
    ensures stream.Valid(partial)
    ensures (stream.Value(partial), error) == HandleLines(old(stream.Value(partial)), lines, decode, parse)
  {
    hide HandleLine;
    error := None;
    for k := 0 to |lines|
      invariant stream.Valid(partial) && error.None?
      invariant (stream.Value(partial), None) == HandleLines(old(stream.Value(partial)), lines[..k], decode, parse)
    {
      error := ProcessLine(lines[k], partial, stream, decode, parse);
      HandleSnoc(old(stream.Value(partial)), lines[..k], lines[k], decode, parse);
      assert lines[..k] + [lines[k]] == lines[..k + 1];
      if error.Some? {
        HandleStops(old(stream.Value(partial)), lines[..k + 1], lines[k + 1..], decode, parse);
        assert lines[..k + 1] + lines[k + 1..] == lines;
        return;
      }
    }
    assert lines[..|lines|] == lines;
  }

  lemma HandleSnoc(s: Session, lines: seq<string>, line: string, decode: Decoder, parse: Parser)
    ensures HandleLines(s, lines + [line], decode, parse)
         == var (s', error) := HandleLines(s, lines, decode, parse);
            if error.Some? then (s', error) else HandleLine(s', line, decode, parse)
  {
    hide HandleLine;
    assert (lines + [line])[..|lines|] == lines;
  }

  lemma {:induction false} HandleConcat(s: Session, a: seq<string>, b: seq<string>, decode: Decoder, parse: Parser)
    ensures HandleLines(s, a + b, decode, parse)
         == var (s', error) := HandleLines(s, a, decode, parse);
            if error.Some? then (s', error) else HandleLines(s', b, decode, parse)
  {
    hide HandleLine, HandleLines;
    if b == [] {
      assert a + b == a;
      NothingHandled(HandleLines(s, a, decode, parse).0, decode, parse);
    } else {
      var front, line := b[..|b| - 1], b[|b| - 1];
      assert front + [line] == b;
      Associate(a, front, [line]);
      HandleConcat(s, a, front, decode, parse);
      HandleSnoc(s, a + front, line, decode, parse);
      HandleSnoc(HandleLines(s, a, decode, parse).0, front, line, decode, parse);
    }
  }

  lemma NothingHandled(s: Session, decode: Decoder, parse: Parser)
    ensures HandleLines(s, [], decode, parse) == (s, None)
  {
  }

  lemma HandleStops(s: Session, a: seq<string>, b: seq<string>, decode: Decoder, parse: Parser)
    requires HandleLines(s, a, decode, parse).1.Some?
    ensures HandleLines(s, a + b, decode, parse) == HandleLines(s, a, decode, parse)
  {
    HandleConcat(s, a, b, decode, parse);
  }

  lemma ReadSnoc(body: seq<Read>, read: Read)
    ensures Trouble(body + [read])
         == if Trouble(body).Some? then Trouble(body)
            else if read.ReadFails? then Some(read.error)
            else if read.aborted then Some(ABORTED) else None
    ensures TextBefore(body + [read])
         == TextBefore(body) + if Trouble(body + [read]).None? && read.Chunk? then read.text else ""
  {
    assert (body + [read])[..|body|] == body;
  }

  lemma {:induction false} TroubleStays(a: seq<Read>, b: seq<Read>)
    requires Trouble(a).Some?
    ensures Trouble(a + b) == Trouble(a) && TextBefore(a + b) == TextBefore(a)
  {
    if b == [] {
      assert a + b == a;
    } else {
      var front, read := b[..|b| - 1], b[|b| - 1];
      assert a + b == (a + front) + [read];
      TroubleStays(a, front);
      ReadSnoc(a + front, read);
    }
  }

  /** What has arrived is handled as far as its lines are terminated. */
  ghost predicate Upto(s: Session, buffer: string, body: seq<Read>, decode: Decoder, parse: Parser) {
    && Trouble(body).None?
    && HandleLines(NEW_SESSION, Lines(TextBefore(body)), decode, parse) == (s, None)
    && buffer == Tail(TextBefore(body))
  }

  /** The next chunk: the buffer grows, its terminated lines are handled, and the rest is kept. */
  lemma NextChunk(
      s: Session, buffer: string, body: seq<Read>, text: string, decode: Decoder, parse: Parser)
    requires Upto(s, buffer, body, decode, parse)
    ensures var body' := body + [Chunk(text, false)];
            && Trouble(body').None?
            && HandleLines(NEW_SESSION, Lines(TextBefore(body')), decode, parse)
            == HandleLines(s, Lines(buffer + text), decode, parse)
            && Tail(buffer + text) == Tail(TextBefore(body'))
  {
    hide HandleLines, Lines, Tail, TextBefore, Trouble;
    ReadSnoc(body, Chunk(text, false));
    LinesOfConcat(TextBefore(body), text);
    HandleConcat(NEW_SESSION, Lines(TextBefore(body)), Lines(buffer + text), decode, parse);
  }

  /** An error thrown while the body is read. */
  lemma ErrorInBody(
      r: Response, k: nat, s: Session, error: string, decode: Decoder, parse: Parser)
    requires r.refused.None? && k < |r.body|
    requires var before := r.body[..k + 1];
             var handled := HandleLines(NEW_SESSION, Lines(TextBefore(before)), decode, parse);
             || (Trouble(before).None? && handled == (s, Some(error)))
             || (Trouble(before) == Some(error) && handled == (s, None))
    ensures WholeStream(r, decode, parse) == Fail(s, error, r.abortedAtError)
  {
    hide HandleLines, Lines, Tail, TextBefore, Trouble, Fail;
    var before, after := r.body[..k + 1], r.body[k + 1..];
    assert before + after == r.body;
    if Trouble(before).Some? {
      TroubleStays(before, after);
    } else {
      TextGrows(before, after);
      var more :| TextBefore(before + after) == TextBefore(before) + more;
      LinesOfConcat(TextBefore(before), more);
      HandleStops(NEW_SESSION, Lines(TextBefore(before)), Lines(Tail(TextBefore(before)) + more), decode, parse);
    }
  }

  lemma {:induction false} TextGrows(a: seq<Read>, b: seq<Read>)
    ensures exists more :: TextBefore(a + b) == TextBefore(a) + more
  {
    if b == [] {
      assert a + b == a;
      assert TextBefore(a + b) == TextBefore(a) + "";
    } else {
      var front, read := b[..|b| - 1], b[|b| - 1];
      assert a + b == (a + front) + [read];
      TextGrows(a, front);
      var more :| TextBefore(a + front) == TextBefore(a) + more;
      ReadSnoc(a + front, read);
      var next := if Trouble(a + b).None? && read.Chunk? then read.text else "";
      Associate(TextBefore(a), more, next);
      assert TextBefore(a + b) == TextBefore(a) + (more + next);
    }
  }

  method StreamProxy(r: Response, decode: Decoder, parse: Parser)
    returns (partial: PartialMessage, stream: EventStream)
    ensures fresh(partial) && fresh(stream) && stream.Valid(partial)
    ensures stream.Value(partial) == WholeStream(r, decode, parse)
  {
    hide WholeStream;
    stream := new EventStream();
    partial := new PartialMessage();
    var error := ReadBody(r, partial, stream, decode, parse);
    if error.Some? {
      var reason := if r.abortedAtError then Aborted else StopReason.Error;
      partial.stopReason := reason;
      partial.errorMessage := error;
      stream.PushEvent(Completes(reason), partial);
    }
    stream.End();
  }

  /** The part of `streamProxy` within `try`. */
  method ReadBody(r: Response, partial: PartialMessage, stream: EventStream, decode: Decoder, parse: Parser)
    returns (error: Option<string>)
    requires stream.Valid(partial) && stream.Value(partial) == NEW_SESSION
    modifies partial, stream
    ensures stream.Valid(partial)
    ensures WholeStream(r, decode, parse)
         == if error.Some? then Fail(stream.Value(partial), error.value, r.abortedAtError)
            else stream.Value(partial).(done := true)
  {
    hide HandleLines, Lines, Tail, Split, Fail;
    if r.refused.Some? {
      return r.refused;
    }
    var buffer := "";
    NoText();
    NothingHandled(NEW_SESSION, decode, parse);
    for k := 0 to |r.body|
      invariant stream.Valid(partial)
      invariant Upto(stream.Value(partial), buffer, r.body[..k], decode, parse)
    {
      hide TextBefore, Trouble;
      var read := r.body[k];
      assert r.body[..k] + [read] == r.body[..k + 1];
      ghost var s := stream.Value(partial);
      ReadSnoc(r.body[..k], read);
      assert TextBefore(r.body[..k]) + "" == TextBefore(r.body[..k]);
      if read.ReadFails? {
        ErrorInBody(r, k, s, read.error, decode, parse);
        return Some(read.error);
      }
      if read.aborted {
        ErrorInBody(r, k, s, ABORTED, decode, parse);
        return Some(ABORTED);
      }
      NextChunk(s, buffer, r.body[..k], read.text, decode, parse);
      buffer := buffer + read.text;
      SplitThenPop(buffer);
      var lines := Split(buffer);
      buffer := lines[|lines| - 1];
      lines := lines[..|lines| - 1];
      error := ProcessLines(lines, partial, stream, decode, parse);
      if error.Some? {
        ErrorInBody(r, k, stream.Value(partial), error.value, decode, parse);
        return;
      }
    }
    assert r.body[..|r.body|] == r.body;
    if r.abortedAtEnd {
      return Some(ABORTED);
    }
    error := None;
  }
}

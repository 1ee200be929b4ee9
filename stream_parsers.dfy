/** The event stream parsers of xml.kt: the drain parser, the callback parser,
    the single-tag dispatcher and the multi-tag holder. Each `parse` is a
    method over the shared outer cursor, proved against a pure function that
    says where the cursor ends, how the parse ends and which nested parsers
    and callbacks ran where. */
module StreamParsers {
  import opened XmlEvents
  import opened EventCursor
  import opened SubReader

  /** A user callback `XMLEventReader.() -> Unit`, by identity. */
  datatype Callback = Callback(id: nat)

  /** What a callback does when it runs: it reads forward over the shared
      cursor (by up to `advance` events) and then returns or throws. */
  datatype CallbackEffect = CallbackEffect(advance: nat, fails: bool)

  /** The behaviour of every callback, given where the cursor stands when it
      is invoked. User code is not part of the model. */
  type Effects = (Callback, nat) -> CallbackEffect

  /** The parser objects `build()` can produce. */
  datatype Parser =
    | NoOperation
    | UseTag(fn: Callback)
    | SingleTag(tag: string, parser: Parser)
    | MultipleTags(tags: map<string, Parser>)

  /** What a parse does besides moving the cursor: a nested parser handed a
      fresh SubXMLEventReader for `tag`, or a callback run, each with the
      cursor position at that moment. */
  datatype Invocation =
    | Dispatched(tag: string, at: nat)
    | CallbackRan(fn: Callback, at: nat)

  /** How a parse ends (normally or with the exception it throws), where the
      cursor stands afterwards, and what it invoked, in order. */
  datatype Run = Run(outcome: Result<()>, pos: nat, log: seq<Invocation>)

  /** The `XMLEventReader` a parser is given: the outer cursor itself, or a
      SubXMLEventReader over it. */
  datatype Reader = Outer | Scoped(sub: SubXMLEventReader)

  datatype Read = Read(result: Result<Event>, pos: nat)

  /** `tag` matches a start element with that local name, whatever its namespace. */
  predicate Matches(e: Event, tag: string) {
    e.StartElement? && e.name.localPart == tag
  }

  /** One `nextEvent()` on the outer cursor (`scoped` false) or on an open
      SubXMLEventReader over it (`scoped` true). */
  function ReadEvent(scoped: bool, events: seq<Event>, pos: nat): (r: Read)
    requires pos <= |events|
    ensures pos < |events| ==> r.pos == pos + 1
    ensures pos == |events| ==> r == Read(Err(NoSuchElement), pos)
    ensures r.result.Ok? ==> pos < |events| && r.result.value == events[pos]
    ensures scoped && r.result.Ok? ==> !IsElement(r.result.value)
    ensures !scoped && pos < |events| ==> r.result.Ok?
  {
    if pos == |events| then Read(Err(NoSuchElement), pos)
    else if scoped && IsElement(events[pos]) then Read(Err(NotImplemented), pos + 1)
    else Read(Ok(events[pos]), pos + 1)
  }

  /** `NoOperationStreamParser.parse`: `nextEvent()` while `hasNext()`. */
  function Drain(scoped: bool, events: seq<Event>, pos: nat): (r: Run)
    requires pos <= |events|
    ensures pos <= r.pos <= |events| && r.log == []
    decreases |events| - pos
  {
    if pos == |events| then Run(Ok(()), pos, [])
    else
      var next := ReadEvent(scoped, events, pos);
      if next.result.Err? then Run(Err(next.result.error), next.pos, [])
      else Drain(scoped, events, next.pos)
  }

  /** `parse` of any parser, on the outer cursor or on an open sub reader. */
  function ParseSpec(p: Parser, scoped: bool, events: seq<Event>, pos: nat, effects: Effects): (r: Run)
    requires pos <= |events|
    ensures pos <= r.pos <= |events|
    decreases p, 0, 0
  {
    match p
    case NoOperation => Drain(scoped, events, pos)
    case UseTag(fn) =>
      var eff := effects(fn, pos);
      var stop := if pos + eff.advance <= |events| then pos + eff.advance else |events|;
      Run(if eff.fails then Err(CallbackFailed) else Ok(()), stop, [CallbackRan(fn, pos)])
    case SingleTag(tag, nested) => SingleLoop(tag, nested, scoped, events, pos, effects)
    case MultipleTags(_) => Run(Err(NotImplemented), pos, [])
  }

  /** `SingleTagEventStreamParser.parse` from position `pos` on. */
  function SingleLoop(tag: string, nested: Parser, scoped: bool, events: seq<Event>, pos: nat,
                      effects: Effects): (r: Run)
    requires pos <= |events|
    ensures pos <= r.pos <= |events|
    decreases nested, 1, |events| - pos
  {
    if pos == |events| then Run(Ok(()), pos, [])
    else
      var next := ReadEvent(scoped, events, pos);
      if next.result.Err? then Run(Err(next.result.error), next.pos, [])
      else if Matches(next.result.value, tag) then
        var inner := ParseSpec(nested, true, events, next.pos, effects);
        var head := [Dispatched(tag, next.pos)] + inner.log;
        if inner.outcome.Err? then Run(inner.outcome, inner.pos, head)
        else
          var rest := SingleLoop(tag, nested, scoped, events, inner.pos, effects);
          Run(rest.outcome, rest.pos, head + rest.log)
      else SingleLoop(tag, nested, scoped, events, next.pos, effects)
  }

  // ---------------------------------------------------------------------
  // The parse methods

  function ReaderObjects(reader: Reader): set<object> {
    match reader
    case Outer => {}
    case Scoped(sub) => {sub}
  }

  /** `reader` reads `cursor`: it is the cursor itself or an open sub reader over it. */
  ghost predicate ReaderOver(reader: Reader, cursor: XmlCursor)
    reads cursor, ReaderObjects(reader)
  {
    && cursor.Valid()
    && (reader.Scoped? ==> reader.sub.original == cursor && reader.sub.open && reader.sub.Valid())
  }

  /** `hasNext()` on the given reader. */
  method HasNextOn(reader: Reader, cursor: XmlCursor) returns (more: bool)
    requires ReaderOver(reader, cursor)
    ensures more == (cursor.pos < |cursor.events|)
  {
    match reader
    case Outer => more := cursor.HasNext();
    case Scoped(sub) => more := sub.HasNext();
  }

  /** `nextEvent()` on the given reader. */
  method NextEventOn(reader: Reader, cursor: XmlCursor) returns (r: Result<Event>)
    requires ReaderOver(reader, cursor)
    modifies cursor
    ensures ReaderOver(reader, cursor)
    ensures Read(r, cursor.pos) == ReadEvent(reader.Scoped?, cursor.events, old(cursor.pos))
  {
    match reader
    case Outer => r := cursor.NextEvent();
    case Scoped(sub) => r := sub.NextEvent();
  }

  /** `parse(events)`, dispatched on the parser's class. */
  method Parse(p: Parser, reader: Reader, cursor: XmlCursor, effects: Effects)
    returns (r: Result<()>, log: seq<Invocation>)
    requires ReaderOver(reader, cursor)
    modifies cursor
    ensures ReaderOver(reader, cursor)
    ensures Run(r, cursor.pos, log) == ParseSpec(p, reader.Scoped?, cursor.events, old(cursor.pos), effects)
    decreases p, 0
  {
    match p
    case NoOperation =>
      r := ParseNoOperation(reader, cursor);
      log := [];
    case UseTag(fn) =>
      r, log := ParseUseTag(fn, reader, cursor, effects);
    case SingleTag(tag, nested) =>
      r, log := ParseSingleTag(tag, nested, reader, cursor, effects);
    case MultipleTags(_) =>
      r, log := Err(NotImplemented), [];
  }

  /** `NoOperationStreamParser.parse`: skips every event until `hasNext()`
      is false. On the outer cursor that is the end of the stream. */
  method ParseNoOperation(reader: Reader, cursor: XmlCursor) returns (r: Result<()>)
    requires ReaderOver(reader, cursor)
    modifies cursor
    ensures ReaderOver(reader, cursor)
    ensures Run(r, cursor.pos, []) == Drain(reader.Scoped?, cursor.events, old(cursor.pos))
    ensures reader.Outer? ==> r == Ok(()) && !cursor.HasNext()
  {
    ghost var start := cursor.pos;
    var more := HasNextOn(reader, cursor);
    while more
      invariant ReaderOver(reader, cursor)
      invariant more == (cursor.pos < |cursor.events|)
      invariant Drain(reader.Scoped?, cursor.events, start) == Drain(reader.Scoped?, cursor.events, cursor.pos)
      decreases |cursor.events| - cursor.pos
    {
      var event := NextEventOn(reader, cursor);
      if event.Err? {
        return Err(event.error);
      }
      more := HasNextOn(reader, cursor);
    }
    r := Ok(());
    if reader.Outer? {
      DrainOuterExhausts(cursor.events, start);
    }
  }

  /** `UseTagXmlEventStreamParser.parse`: runs the callback on the reader it
      is given; the model records only the position it runs at. */
  method ParseUseTag(fn: Callback, reader: Reader, cursor: XmlCursor, effects: Effects)
    returns (r: Result<()>, log: seq<Invocation>)
    requires ReaderOver(reader, cursor)
    modifies cursor
    ensures ReaderOver(reader, cursor)
    ensures Run(r, cursor.pos, log) == ParseSpec(UseTag(fn), reader.Scoped?, cursor.events, old(cursor.pos), effects)
    ensures log == [CallbackRan(fn, old(cursor.pos))]
  {
    var eff := effects(fn, cursor.pos);
    log := [CallbackRan(fn, cursor.pos)];
    cursor.Advance(eff.advance);
    r := if eff.fails then Err(CallbackFailed) else Ok(());
  }

  /** `SingleTagEventStreamParser.parse`: reads events while `hasNext()`;
      after a start element named `tag` it hands a fresh SubXMLEventReader
      over the same cursor to the nested parser. */
  method ParseSingleTag(tag: string, nested: Parser, reader: Reader, cursor: XmlCursor, effects: Effects)
    returns (r: Result<()>, log: seq<Invocation>)
    requires ReaderOver(reader, cursor)
    modifies cursor
    ensures ReaderOver(reader, cursor)
    ensures Run(r, cursor.pos, log) == SingleLoop(tag, nested, reader.Scoped?, cursor.events, old(cursor.pos), effects)
    decreases nested, 2
  {
    ghost var start := cursor.pos;
    ghost var scoped := reader.Scoped?;
    ghost var events := cursor.events;
    log := [];
    var more := HasNextOn(reader, cursor);
    while more
      invariant ReaderOver(reader, cursor) && cursor.events == events
      invariant more == (cursor.pos < |events|)
      invariant SingleLoop(tag, nested, scoped, events, start, effects)
                  == After(log, SingleLoop(tag, nested, scoped, events, cursor.pos, effects))
      decreases |events| - cursor.pos
    {
      ghost var log0 := log;
      ghost var before := cursor.pos;
      var stop, outcome, turn := SingleTagTurn(tag, nested, reader, cursor, effects);
      log := log + turn;
      AfterAfter(log0, turn, SingleLoop(tag, nested, scoped, events, cursor.pos, effects));
      if stop {
        return outcome, log;
      }
      more := HasNextOn(reader, cursor);
    }
    r := Ok(());
  }

  /** The body of the `while (events.hasNext())` loop of
      `SingleTagEventStreamParser.parse`: read one event and, on a start
      element named `tag`, run the nested parser on a fresh sub reader.
      `stop` is set when the turn ends the parse with an exception. */
  method SingleTagTurn(tag: string, nested: Parser, reader: Reader, cursor: XmlCursor, effects: Effects)
    returns (stop: bool, r: Result<()>, log: seq<Invocation>)
    requires ReaderOver(reader, cursor) && cursor.pos < |cursor.events|
    modifies cursor
    ensures ReaderOver(reader, cursor) && old(cursor.pos) < cursor.pos
    ensures stop ==> r.Err? && SingleLoop(tag, nested, reader.Scoped?, cursor.events, old(cursor.pos), effects)
                                 == Run(r, cursor.pos, log)
    ensures !stop ==> SingleLoop(tag, nested, reader.Scoped?, cursor.events, old(cursor.pos), effects)
                        == After(log, SingleLoop(tag, nested, reader.Scoped?, cursor.events, cursor.pos, effects))
    decreases nested, 1
  {
    ghost var before := cursor.pos;
    var event := NextEventOn(reader, cursor);
    SingleLoopStep(tag, nested, reader.Scoped?, cursor.events, before, effects);
    if event.Err? {
      return true, Err(event.error), [];
    }
    var e := event.value;
    stop, r, log := false, Ok(()), [];
    if e.StartElement? && e.name.localPart == tag {
      // A sub reader never yields a start element: this is the outer cursor.
      assert reader.Outer?;
      var sub := new SubXMLEventReader(cursor, e.name.localPart);
      var entry := cursor.pos;
      var inner, innerLog := Parse(nested, Scoped(sub), cursor, effects);
      SingleLoopAfterMatch(tag, nested, false, cursor.events, before, effects);
      stop, r, log := inner.Err?, inner, [Dispatched(tag, entry)] + innerLog;
    }
  }

  /** `run`, preceded by the invocations in `log`. */
  function After(log: seq<Invocation>, run: Run): Run {
    Run(run.outcome, run.pos, log + run.log)
  }

  lemma AfterAfter(a: seq<Invocation>, b: seq<Invocation>, run: Run)
    ensures After(a, After(b, run)) == After(a + b, run)
  {
    assert a + (b + run.log) == (a + b) + run.log;
  }

  /** One turn of the single-tag loop that fails or does not dispatch. */
  lemma SingleLoopStep(tag: string, nested: Parser, scoped: bool, events: seq<Event>, pos: nat,
                       effects: Effects)
    requires pos < |events|
    ensures var next := ReadEvent(scoped, events, pos);
      && (next.result.Err? ==> SingleLoop(tag, nested, scoped, events, pos, effects)
                                 == Run(Err(next.result.error), next.pos, []))
      && (next.result.Ok? && !Matches(next.result.value, tag) ==>
            SingleLoop(tag, nested, scoped, events, pos, effects)
              == SingleLoop(tag, nested, scoped, events, next.pos, effects))
  {
  }

  /** One turn of the single-tag loop that dispatches. */
  lemma SingleLoopAfterMatch(tag: string, nested: Parser, scoped: bool, events: seq<Event>, pos: nat,
                             effects: Effects)
    requires pos < |events|
    requires ReadEvent(scoped, events, pos).result.Ok?
    requires Matches(ReadEvent(scoped, events, pos).result.value, tag)
    ensures var inner := ParseSpec(nested, true, events, pos + 1, effects);
      SingleLoop(tag, nested, scoped, events, pos, effects)
        == if inner.outcome.Err? then Run(inner.outcome, inner.pos, [Dispatched(tag, pos + 1)] + inner.log)
           else After([Dispatched(tag, pos + 1)] + inner.log,
                      SingleLoop(tag, nested, scoped, events, inner.pos, effects))
  {
  }

  // ---------------------------------------------------------------------
  // Properties of the parsers

  /** The drain parser on the outer cursor always succeeds, invokes nothing
      and leaves the cursor exhausted. */
  lemma {:induction false} DrainOuterExhausts(events: seq<Event>, pos: nat)
    requires pos <= |events|
    ensures Drain(false, events, pos) == Run(Ok(()), |events|, [])
    decreases |events| - pos
  {
    if pos < |events| {
      DrainOuterExhausts(events, pos + 1);
    }
  }

  /** The drain parser on a sub reader stops at the first start or end
      element: it consumes it and fails (the sub reader's element branches
      are not implemented); with no element left it drains to the end. */
  lemma {:induction false} DrainScopedStopsAtElement(events: seq<Event>, pos: nat)
    requires pos <= |events|
    ensures var r := Drain(true, events, pos);
      && (r.outcome.Ok? <==> forall i :: pos <= i < |events| ==> !IsElement(events[i]))
      && (r.outcome.Ok? ==> r.pos == |events|)
      && (r.outcome.Err? ==>
            && r.outcome == Err(NotImplemented)
            && pos < r.pos && IsElement(events[r.pos - 1])
            && forall i :: pos <= i < r.pos - 1 ==> !IsElement(events[i]))
    decreases |events| - pos
  {
    if pos < |events| && !IsElement(events[pos]) {
      DrainScopedStopsAtElement(events, pos + 1);
    }
  }

  /** A single-tag parser on a sub reader never reaches a start element, so
      it never dispatches: it behaves exactly like the drain parser there. */
  lemma {:induction false} ScopedSingleTagIsDrain(tag: string, nested: Parser, events: seq<Event>,
                                                  pos: nat, effects: Effects)
    requires pos <= |events|
    ensures SingleLoop(tag, nested, true, events, pos, effects) == Drain(true, events, pos)
    decreases |events| - pos
  {
    if pos < |events| && !IsElement(events[pos]) {
      ScopedSingleTagIsDrain(tag, nested, events, pos + 1, effects);
    }
  }

  /** Whatever parser runs on a sub reader, the only thing it can invoke is
      its own callback, at the position where it was handed the reader. */
  lemma ScopedParseInvokesAtEntry(p: Parser, events: seq<Event>, pos: nat, effects: Effects)
    requires pos <= |events|
    ensures ParseSpec(p, true, events, pos, effects).log == if p.UseTag? then [CallbackRan(p.fn, pos)] else []
  {
    if p.SingleTag? {
      ScopedSingleTagIsDrain(p.tag, p.parser, events, pos, effects);
    }
  }

  /** Soundness of dispatch on the outer cursor: every nested parser and
      every callback is invoked right after a start element named `tag` was
      consumed. */
  lemma {:induction false} SingleTagInvokesOnlyAfterMatch(tag: string, nested: Parser, events: seq<Event>,
                                                          pos: nat, effects: Effects)
    requires pos <= |events|
    ensures AllInvokedAfterMatch(SingleLoop(tag, nested, false, events, pos, effects).log, tag, events, pos)
    decreases |events| - pos
  {
    if pos < |events| {
      if Matches(events[pos], tag) {
        var inner := ParseSpec(nested, true, events, pos + 1, effects);
        ScopedParseInvokesAtEntry(nested, events, pos + 1, effects);
        var head := [Dispatched(tag, pos + 1)] + inner.log;
        assert forall j :: 0 <= j < |head| ==> InvokedAfterMatch(head[j], tag, events, pos);
        if inner.outcome.Ok? {
          var rest := SingleLoop(tag, nested, false, events, inner.pos, effects);
          SingleTagInvokesOnlyAfterMatch(tag, nested, events, inner.pos, effects);
          forall j | 0 <= j < |rest.log| ensures InvokedAfterMatch(rest.log[j], tag, events, pos) {
            assert InvokedAfterMatch(rest.log[j], tag, events, inner.pos);
          }
          forall j | |head| <= j < |head + rest.log|
            ensures InvokedAfterMatch((head + rest.log)[j], tag, events, pos)
          {
            assert (head + rest.log)[j] == rest.log[j - |head|];
          }
        }
      } else {
        var rest := SingleLoop(tag, nested, false, events, pos + 1, effects);
        SingleTagInvokesOnlyAfterMatch(tag, nested, events, pos + 1, effects);
        forall j | 0 <= j < |rest.log| ensures InvokedAfterMatch(rest.log[j], tag, events, pos) {
          assert InvokedAfterMatch(rest.log[j], tag, events, pos + 1);
        }
      }
    }
  }

  ghost predicate AllInvokedAfterMatch(log: seq<Invocation>, tag: string, events: seq<Event>, pos: nat) {
    forall j :: 0 <= j < |log| ==> InvokedAfterMatch(log[j], tag, events, pos)
  }

  /** `inv` happened right after a start element named `tag` at or after `pos`. */
  ghost predicate InvokedAfterMatch(inv: Invocation, tag: string, events: seq<Event>, pos: nat) {
    && pos < inv.at <= |events|
    && Matches(events[inv.at - 1], tag)
    && (inv.Dispatched? ==> inv.tag == tag)
  }

  /** The single-tag loop returns normally only once its reader reports no
      more events. */
  lemma {:induction false} SingleTagReturnsOnlyWhenExhausted(tag: string, nested: Parser, scoped: bool,
                                                             events: seq<Event>, pos: nat, effects: Effects)
    requires pos <= |events|
    ensures var r := SingleLoop(tag, nested, scoped, events, pos, effects);
      r.outcome.Ok? ==> r.pos == |events|
    decreases |events| - pos
  {
    if pos < |events| {
      var next := ReadEvent(scoped, events, pos);
      if next.result.Ok? {
        if Matches(next.result.value, tag) {
          var inner := ParseSpec(nested, true, events, next.pos, effects);
          if inner.outcome.Ok? {
            SingleTagReturnsOnlyWhenExhausted(tag, nested, scoped, events, inner.pos, effects);
          }
        } else {
          SingleTagReturnsOnlyWhenExhausted(tag, nested, scoped, events, next.pos, effects);
        }
      }
    }
  }

  /** Whatever the callbacks do, the first start element named `tag` from
      `pos` on is dispatched, and nothing is invoked before it. */
  lemma {:induction false} SingleTagDispatchesFirstMatch(tag: string, nested: Parser, events: seq<Event>,
                                                         pos: nat, i: nat, effects: Effects)
    requires pos <= i < |events| && Matches(events[i], tag)
    requires forall m :: pos <= m < i ==> !Matches(events[m], tag)
    ensures var r := SingleLoop(tag, nested, false, events, pos, effects);
      |r.log| > 0 && r.log[0] == Dispatched(tag, i + 1)
    decreases i - pos
  {
    SingleLoopStep(tag, nested, false, events, pos, effects);
    if pos < i {
      SingleTagDispatchesFirstMatch(tag, nested, events, pos + 1, i, effects);
    } else {
      SingleLoopAfterMatch(tag, nested, false, events, pos, effects);
    }
  }

  /** Reference definition: for every start element named `tag` from `pos`
      on, a dispatch and a run of `fn` right after it. */
  function MatchLog(tag: string, fn: Callback, events: seq<Event>, pos: nat): seq<Invocation>
    requires pos <= |events|
    decreases |events| - pos
  {
    if pos == |events| then []
    else (if Matches(events[pos], tag) then [Dispatched(tag, pos + 1), CallbackRan(fn, pos + 1)] else [])
         + MatchLog(tag, fn, events, pos + 1)
  }

  /** Completeness of dispatch on the outer cursor: when the callback reads
      nothing and returns, every start element named `tag` is dispatched, in
      document order, and the parse drains the stream. */
  lemma {:induction false} SingleTagDispatchesEveryMatch(tag: string, fn: Callback, events: seq<Event>,
                                                         pos: nat, effects: Effects)
    requires pos <= |events|
    requires forall at :: effects(fn, at) == CallbackEffect(0, false)
    ensures SingleLoop(tag, UseTag(fn), false, events, pos, effects)
              == Run(Ok(()), |events|, MatchLog(tag, fn, events, pos))
    decreases |events| - pos
  {
    if pos < |events| {
      SingleTagDispatchesEveryMatch(tag, fn, events, pos + 1, effects);
      if Matches(events[pos], tag) {
        assert effects(fn, pos + 1) == CallbackEffect(0, false);
        var rest := SingleLoop(tag, UseTag(fn), false, events, pos + 1, effects);
        assert [Dispatched(tag, pos + 1)] + [CallbackRan(fn, pos + 1)] + rest.log
            == [Dispatched(tag, pos + 1), CallbackRan(fn, pos + 1)] + rest.log;
      }
    }
  }
}

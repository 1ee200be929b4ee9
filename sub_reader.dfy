/** SubXMLEventReader: a view over a shared outer cursor with an `open` flag
    and a `depth` counter. Only what the Kotlin class implements is modelled:
    every read is guarded by `checkOpen`, `next()` keeps the depth count, and
    `hasNext()` does not look at the depth (there is no automatic closing at
    the end tag, whatever the class comment announces). */
module SubReader {
  import opened XmlEvents
  import opened EventCursor

  const ClosedMessage: string := "Event reader closed already"

  class SubXMLEventReader {
    const original: XmlCursor
    const closeTag: string
    var open: bool
    var depth: int
    /** The events returned through `next()`, oldest first. */
    ghost var stepped: seq<Event>

    /** The depth counter is the balance of start and end elements read
        through `next()`. */
    ghost predicate Valid()
      reads this, original
    {
      original.Valid() && depth == NetDepth(stepped)
    }

    constructor (original: XmlCursor, closeTag: string)
      requires original.Valid()
      ensures Valid()
      ensures this.original == original && this.closeTag == closeTag
      ensures open && depth == 0 && stepped == []
    {
      this.original := original;
      this.closeTag := closeTag;
      open := true;
      depth := 0;
      stepped := [];
    }

    /** `checkOpen()`: IllegalStateException once the reader is closed. */
    function CheckOpen(): (r: Result<()>)
      reads this
      ensures r.Ok? <==> open
      ensures r.Err? ==> r.error == IllegalState(ClosedMessage)
    {
      if open then Ok(()) else Err(IllegalState(ClosedMessage))
    }

    /** `nextEvent()`: consumes one outer event. The start and end element
        branches are `TODO()` in the source and fail with NotImplemented after
        the outer event has been consumed; the depth is never touched. */
    method NextEvent() returns (r: Result<Event>)
      requires Valid()
      modifies original
      ensures Valid() && open == old(open) && depth == old(depth)
      ensures !open ==> r == Err(IllegalState(ClosedMessage)) && original.pos == old(original.pos)
      ensures open && old(original.pos) == |original.events| ==>
                r == Err(NoSuchElement) && original.pos == old(original.pos)
      ensures open && old(original.pos) < |original.events| ==>
                original.pos == old(original.pos) + 1 &&
                var e := original.events[old(original.pos)];
                r == if IsElement(e) then Err(NotImplemented) else Ok(e)
    {
      var guard := CheckOpen();
      if guard.Err? {
        return Err(guard.error);
      }
      var event := original.NextEvent();
      if event.Err? {
        return event;
      }
      match event.value
      case EndElement(_) => r := Err(NotImplemented);
      case StartElement(_) => r := Err(NotImplemented);
      case _ => r := event;
    }

    /** `remove()`: guarded delegation to the outer reader. */
    method Remove(answer: Result<()>) returns (r: Result<()>)
      requires Valid()
      ensures r == if open then answer else Err(IllegalState(ClosedMessage))
    {
      var guard := CheckOpen();
      if guard.Err? {
        return Err(guard.error);
      }
      r := original.Remove(answer);
    }

    /** `getElementText()`: guarded delegation; when open, whatever the outer
        reader answers and wherever it stops. */
    method GetElementText(answer: Result<string>, stopAt: nat) returns (r: Result<string>)
      requires Valid() && original.pos <= stopAt <= |original.events|
      modifies original
      ensures Valid() && open == old(open) && depth == old(depth)
      ensures !open ==> r == Err(IllegalState(ClosedMessage)) && original.pos == old(original.pos)
      ensures open ==> r == answer && original.pos == stopAt
    {
      var guard := CheckOpen();
      if guard.Err? {
        return Err(guard.error);
      }
      r := original.ElementText(answer, stopAt);
    }

    /** `getProperty(prop)`: guarded delegation to the outer reader. */
    method GetProperty<V>(prop: string, answer: Result<V>) returns (r: Result<V>)
      requires Valid()
      ensures r == if open then answer else Err(IllegalState(ClosedMessage))
    {
      var guard := CheckOpen();
      if guard.Err? {
        return Err(guard.error);
      }
      r := original.Property(prop, answer);
    }

    /** `next()`: consumes one outer event and keeps the depth count, one up
        for a start element, one down for an end element. */
    method Next() returns (r: Result<Event>)
      requires Valid()
      modifies this, original
      ensures Valid() && open == old(open)
      ensures !open ==> r == Err(IllegalState(ClosedMessage))
      ensures !open || old(original.pos) == |original.events| ==>
                original.pos == old(original.pos) && depth == old(depth) && stepped == old(stepped)
      ensures open && old(original.pos) == |original.events| ==> r == Err(NoSuchElement)
      ensures open && old(original.pos) < |original.events| ==>
                var e := original.events[old(original.pos)];
                && r == Ok(e)
                && original.pos == old(original.pos) + 1
                && depth == old(depth) + DepthDelta(e)
                && stepped == old(stepped) + [e]
      ensures depth == Starts(stepped) - Ends(stepped)
    {
      var guard := CheckOpen();
      if guard.Err? {
        NetDepthIsStartsMinusEnds(stepped);
        return Err(guard.error);
      }
      r := original.Next();
      if r.Ok? {
        stepped := stepped + [r.value];
        match r.value
        case StartElement(_) => depth := depth + 1;
        case EndElement(_) => depth := depth - 1;
        case _ =>
      }
      NetDepthIsStartsMinusEnds(stepped);
    }

    /** `hasNext()`: open and the outer reader has more; the depth plays no part. */
    predicate HasNext()
      reads this, original
      ensures HasNext() <==> open && original.pos < |original.events|
    {
      open && original.HasNext()
    }

    /** `close()`: clears `open`; leaves the depth and the outer cursor
        alone. Only this model's methods write `open` and `depth`. */
    method Close()
      requires Valid()
      modifies this
      ensures Valid() && !open
      ensures depth == old(depth) && stepped == old(stepped)
    {
      open := false;
    }
  }

  /** Reading a closed reader: every guarded read fails, none advances the
      outer cursor, and no further event is reported. */
  method ClosedReaderRefusesReads(sub: SubXMLEventReader, text: Result<string>, prop: Result<string>)
    returns (viaNextEvent: Result<Event>, viaNext: Result<Event>, viaText: Result<string>,
             viaProperty: Result<string>, viaRemove: Result<()>, more: bool)
    requires sub.Valid() && !sub.open
    modifies sub, sub.original
    ensures viaNextEvent == viaNext == Err(IllegalState(ClosedMessage))
    ensures viaText == viaProperty == Err(IllegalState(ClosedMessage))
    ensures viaRemove == Err(IllegalState(ClosedMessage))
    ensures !more && !sub.open
    ensures sub.original.pos == old(sub.original.pos) && sub.depth == old(sub.depth)
  {
    viaNextEvent := sub.NextEvent();
    viaNext := sub.Next();
    viaText := sub.GetElementText(text, sub.original.pos);
    viaProperty := sub.GetProperty("any", prop);
    viaRemove := sub.Remove(Ok(()));
    more := sub.HasNext();
  }
}

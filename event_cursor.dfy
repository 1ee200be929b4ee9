/** The outer StAX `XMLEventReader` that the dispatch layer pulls from: a
    finite sequence of events and a read position. Its own XML decoding is
    outside the model; only the cursor behaviour the layer relies on is kept. */
module EventCursor {
  import opened XmlEvents

  class XmlCursor {
    const events: seq<Event>
    var pos: nat

    ghost predicate Valid()
      reads this
    {
      pos <= |events|
    }

    constructor (events: seq<Event>)
      ensures Valid() && this.events == events && pos == 0
    {
      this.events := events;
      pos := 0;
    }

    /** `hasNext()`: some event is left to read. */
    predicate HasNext()
      reads this
    {
      pos < |events|
    }

    /** `nextEvent()`: the event at the read position, which is consumed;
        NoSuchElementException when nothing is left. */
    method NextEvent() returns (r: Result<Event>)
      requires Valid()
      modifies this
      ensures Valid()
      ensures old(pos) < |events| ==> r == Ok(events[old(pos)]) && pos == old(pos) + 1
      ensures old(pos) == |events| ==> r == Err(NoSuchElement) && pos == old(pos)
    {
      if pos < |events| {
        r := Ok(events[pos]);
        pos := pos + 1;
      } else {
        r := Err(NoSuchElement);
      }
    }

    /** `next()`, the `Iterator` view of the same reader: the same event as
        `nextEvent()`. */
    method Next() returns (r: Result<Event>)
      requires Valid()
      modifies this
      ensures Valid()
      ensures old(pos) < |events| ==> r == Ok(events[old(pos)]) && pos == old(pos) + 1
      ensures old(pos) == |events| ==> r == Err(NoSuchElement) && pos == old(pos)
    {
      r := NextEvent();
    }

    /** `getElementText()` of the underlying StAX implementation. How it
        collects the text is foreign: the text (or the failure) it gives and
        the position it stops at are parameters, and it only reads forward. */
    method ElementText(answer: Result<string>, stopAt: nat) returns (r: Result<string>)
      requires Valid() && pos <= stopAt <= |events|
      modifies this
      ensures Valid() && r == answer && pos == stopAt
    {
      pos := stopAt;
      r := answer;
    }

    /** `getProperty(name)` of the underlying StAX implementation: a foreign
        lookup that does not move the cursor; its answer is a parameter. */
    method Property<V>(name: string, answer: Result<V>) returns (r: Result<V>)
      ensures r == answer
    {
      r := answer;
    }

    /** `remove()` of the underlying StAX implementation: a foreign call that
        does not move the cursor; its outcome is a parameter. */
    method Remove(answer: Result<()>) returns (r: Result<()>)
      ensures r == answer
    {
      r := answer;
    }

    /** The events a user callback reads, abstracted to how many it consumes:
        the cursor moves forward by at most `n`, never past the end. */
    method Advance(n: nat)
      requires Valid()
      modifies this
      ensures Valid()
      ensures pos == if old(pos) + n <= |events| then old(pos) + n else |events|
    {
      pos := if pos + n <= |events| then pos + n else |events|;
    }
  }
}

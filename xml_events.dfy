/** Events of a StAX event stream, the errors the dispatch layer raises, and
    the start/end balance that SubXMLEventReader keeps in its depth counter. */
module XmlEvents {

  /** A qualified element name; tag matching looks at the local part only. */
  datatype QName = QName(namespaceUri: string, localPart: string)

  /** The events the dispatch layer distinguishes: start and end elements,
      character data, and every other kind of event (comments, processing
      instructions, document start and end, ...) as Other. */
  datatype Event =
    | StartElement(name: QName)
    | EndElement(name: QName)
    | Characters(data: string)
    | Other

  predicate IsElement(e: Event) {
    e.StartElement? || e.EndElement?
  }

  /** The exceptions of the Kotlin code: `check` throws IllegalStateException,
      `require` throws IllegalArgumentException, `TODO()` throws
      NotImplementedError, the outer cursor throws NoSuchElementException when
      read past its end, and a user callback may throw anything. */
  datatype Error =
    | IllegalState(message: string)
    | IllegalArgument(message: string)
    | NoSuchElement
    | NotImplemented
    | CallbackFailed

  datatype Result<T> = Ok(value: T) | Err(error: Error)

  /** The change a single event makes to SubXMLEventReader's depth counter. */
  function DepthDelta(e: Event): int {
    match e
    case StartElement(_) => 1
    case EndElement(_) => -1
    case _ => 0
  }

  /** The depth counter after the given events, starting from zero. */
  function NetDepth(s: seq<Event>): int {
    if s == [] then 0 else NetDepth(s[..|s| - 1]) + DepthDelta(s[|s| - 1])
  }

  /** Independent reference counts of start and end elements. */
  function Starts(s: seq<Event>): nat {
    if s == [] then 0 else (if s[0].StartElement? then 1 else 0) + Starts(s[1..])
  }

  function Ends(s: seq<Event>): nat {
    if s == [] then 0 else (if s[0].EndElement? then 1 else 0) + Ends(s[1..])
  }

  lemma {:induction false} StartsAppend(s: seq<Event>, e: Event)
    ensures Starts(s + [e]) == Starts(s) + (if e.StartElement? then 1 else 0)
  {
    if s != [] {
      assert (s + [e])[1..] == s[1..] + [e];
      StartsAppend(s[1..], e);
    }
  }

  lemma {:induction false} EndsAppend(s: seq<Event>, e: Event)
    ensures Ends(s + [e]) == Ends(s) + (if e.EndElement? then 1 else 0)
  {
    if s != [] {
      assert (s + [e])[1..] == s[1..] + [e];
      EndsAppend(s[1..], e);
    }
  }

  /** The depth counter equals the number of start elements minus the number
      of end elements seen. */
  lemma {:induction false} NetDepthIsStartsMinusEnds(s: seq<Event>)
    ensures NetDepth(s) == Starts(s) - Ends(s)
  {
    if s != [] {
      var init, last := s[..|s| - 1], s[|s| - 1];
      assert s == init + [last];
      NetDepthIsStartsMinusEnds(init);
      StartsAppend(init, last);
      EndsAppend(init, last);
    }
  }

  /** Depth counting is compositional: reading `a` then `b` nets the sum. */
  lemma {:induction false} NetDepthConcat(a: seq<Event>, b: seq<Event>)
    ensures NetDepth(a + b) == NetDepth(a) + NetDepth(b)
  {
    if b == [] {
      assert a + b == a;
    } else {
      var init := b[..|b| - 1];
      assert (a + b)[..|a + b| - 1] == a + init;
      NetDepthConcat(a, init);
    }
  }
}

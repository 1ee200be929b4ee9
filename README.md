# kroki-xml event-stream dispatch, modelled in Dafny

kroki-xml lets a Kotlin program describe, with a small builder DSL, which XML
elements it cares about (`tag("a") { use("b") { ... } }`), compiles that
description into a tree of `XmlEventStreamParser` objects and runs it over a
StAX `XMLEventReader`. When a start element with a registered local name is
read, the matching nested parser is handed a `SubXMLEventReader`: a view over
the same outer reader with an `open` flag and a `depth` counter.

The model has five modules:

- `XmlEvents` (xml_events.dfy): StAX events, the exceptions the layer raises
  (`check` → IllegalState, `require` → IllegalArgument, `TODO()` →
  NotImplemented, reading past the end → NoSuchElement, a user callback that
  throws → CallbackFailed), and the start/end balance kept by `depth`.
- `EventCursor` (event_cursor.dfy): the outer `XMLEventReader`, a class
  holding the event sequence and a read position.
- `SubReader` (sub_reader.dfy): `SubXMLEventReader` as a class whose methods
  update `open`, `depth` and the shared outer cursor.
- `StreamParsers` (stream_parsers.dfy): the parser objects as a datatype,
  each `parse` as a method on the shared cursor, proved against a pure
  function (`ParseSpec`, `SingleLoop`, `Drain`). The pure functions give
  the final cursor position, how the parse ends, and a log of every nested
  dispatch and callback run, with the position at which it happened.
- `ParserBuilder` (parser_builder.dfy): `XmlEventStreamTagParserBuilderImpl`
  as a class over its registration map, the registrations of a builder block
  as a pure function `Register`, and `build()` as `BuildEntries`.

The model follows the code where the code and the documentation differ:

- The class comment of `SubXMLEventReader` says the reader reports no more
  events once the closing tag is reached. The code never closes it
  automatically. `hasNext()` is `open && original.hasNext()`, and `next()`
  only counts depth.
- `SubXMLEventReader.nextEvent()` throws `NotImplementedError` on a start or
  end element, after the outer reader has already consumed that element. As a
  consequence, the nested parser of a `tag` registration cannot get past its
  match. With an empty block it fails with NotImplemented at the first start or
  end element after the matched start tag; for `<a>text</a>` that is `</a>`
  itself (`TagRegistrationFailsInsideMatch`). A block with one
  registration, `tag` or `use`, behaves like the empty block: on a sub reader
  its single-tag parser only drains (`ScopedSingleTagIsDrain`), so the inner
  name is never dispatched, an inner `use` callback never runs, and the parse
  fails at the first element after the outer match
  (`SingleRegistrationNeverRunsInside`). A block with two or more
  registrations builds a multi-tag parser, which fails before reading
  anything.
- `MultipleTagsEventStreamParser.parse` is `TODO()`, so a builder with two
  or more registrations builds a parser that fails as soon as it is run.

User callbacks (`XMLEventReader.() -> Unit`) are opaque user code. They are
modelled by an `Effects` parameter that says how far each callback moves the
shared cursor and whether it throws.

## Model

| member | source | states |
|---|---|---|
| XmlEvents.NetDepthIsStartsMinusEnds | kroki-xml/src/main/kotlin/io/github/kerubistan/kroki/xml/SubXMLEventReader.kt:51-61 | the depth counter kept by `next()` equals the number of start elements minus the number of end elements read |
| XmlEvents.NetDepthConcat | kroki-xml/src/main/kotlin/io/github/kerubistan/kroki/xml/SubXMLEventReader.kt:51-61 | depth counting is compositional over consecutive reads |
| SubReader.SubXMLEventReader.constructor | kroki-xml/src/main/kotlin/io/github/kerubistan/kroki/xml/SubXMLEventReader.kt:13-16 | a new sub reader is open, at depth 0, over the given outer reader |
| SubReader.SubXMLEventReader.CheckOpen | kroki-xml/src/main/kotlin/io/github/kerubistan/kroki/xml/SubXMLEventReader.kt:18-20 | succeeds exactly when the reader is open, otherwise IllegalState "Event reader closed already" |
| SubReader.SubXMLEventReader.NextEvent | kroki-xml/src/main/kotlin/io/github/kerubistan/kroki/xml/SubXMLEventReader.kt:22-34 | closed: IllegalState and the cursor stays; at the end: NoSuchElement; otherwise one event consumed, a start or end element fails with NotImplemented, any other event is returned; depth never changes |
| SubReader.SubXMLEventReader.Remove | kroki-xml/src/main/kotlin/io/github/kerubistan/kroki/xml/SubXMLEventReader.kt:36-39 | closed: IllegalState; open: the outer reader's outcome |
| SubReader.SubXMLEventReader.GetElementText | kroki-xml/src/main/kotlin/io/github/kerubistan/kroki/xml/SubXMLEventReader.kt:41-44 | closed: IllegalState and the cursor stays; open: the outer reader's text and position |
| SubReader.SubXMLEventReader.GetProperty | kroki-xml/src/main/kotlin/io/github/kerubistan/kroki/xml/SubXMLEventReader.kt:46-49 | closed: IllegalState; open: the outer reader's answer |
| SubReader.SubXMLEventReader.Next | kroki-xml/src/main/kotlin/io/github/kerubistan/kroki/xml/SubXMLEventReader.kt:51-61 | closed: IllegalState, nothing changes; open: the next outer event is returned and consumed, depth goes up by one on a start element and down by one on an end element, so it always equals the start elements minus the end elements read through it |
| SubReader.SubXMLEventReader.HasNext | kroki-xml/src/main/kotlin/io/github/kerubistan/kroki/xml/SubXMLEventReader.kt:68 | true exactly when the reader is open and the outer reader has more events; the depth plays no part |
| SubReader.SubXMLEventReader.Close | kroki-xml/src/main/kotlin/io/github/kerubistan/kroki/xml/SubXMLEventReader.kt:70-72 | the reader is closed; depth and the outer cursor are left alone |
| SubReader.ClosedReaderRefusesReads | kroki-xml/src/main/kotlin/io/github/kerubistan/kroki/xml/SubXMLEventReader.kt:18-72 | on a closed reader every guarded read fails with IllegalState, `hasNext()` is false, and neither the cursor nor the depth moves |
| StreamParsers.HasNextOn | kroki-xml/src/main/kotlin/io/github/kerubistan/kroki/xml/SubXMLEventReader.kt:68 | `hasNext()` on the outer reader or on an open sub reader is true exactly when events remain |
| StreamParsers.ReadEvent | kroki-xml/src/main/kotlin/io/github/kerubistan/kroki/xml/SubXMLEventReader.kt:22-34 | one `nextEvent()`: the event at the position, never an element through a sub reader, NoSuchElement at the end |
| StreamParsers.NextEventOn | kroki-xml/src/main/kotlin/io/github/kerubistan/kroki/xml/SubXMLEventReader.kt:22-34 | `nextEvent()` on either reader agrees with ReadEvent and keeps the sub reader open and valid |
| StreamParsers.Drain | kroki-xml/src/main/kotlin/io/github/kerubistan/kroki/xml/xml.kt:157-163 | the drain loop only moves forward and invokes nothing |
| StreamParsers.ParseSpec | kroki-xml/src/main/kotlin/io/github/kerubistan/kroki/xml/xml.kt:144-188 | every parse leaves the cursor between its start and the end of the stream |
| StreamParsers.SingleLoop | kroki-xml/src/main/kotlin/io/github/kerubistan/kroki/xml/xml.kt:169-178 | the single-tag loop only moves the cursor forward |
| StreamParsers.Parse | kroki-xml/src/main/kotlin/io/github/kerubistan/kroki/xml/xml.kt:144-188 | `parse` on every parser kind ends where ParseSpec says, with its outcome and invocations; the multi-tag parser fails with NotImplemented |
| StreamParsers.ParseNoOperation | kroki-xml/src/main/kotlin/io/github/kerubistan/kroki/xml/xml.kt:157-163 | the drain loop agrees with Drain; on the outer reader it always succeeds and leaves no event |
| StreamParsers.ParseUseTag | kroki-xml/src/main/kotlin/io/github/kerubistan/kroki/xml/xml.kt:148-152 | runs its callback exactly once, at the current position; which reader it was handed is not observable in the model |
| StreamParsers.ParseSingleTag | kroki-xml/src/main/kotlin/io/github/kerubistan/kroki/xml/xml.kt:169-178 | the single-tag loop agrees with SingleLoop: outcome, final position and every dispatch in order |
| StreamParsers.SingleTagTurn | kroki-xml/src/main/kotlin/io/github/kerubistan/kroki/xml/xml.kt:171-176 | one loop turn: an event is consumed; on a matching start element a fresh sub reader over the same cursor goes to the nested parser; an exception ends the loop |
| StreamParsers.DrainOuterExhausts | kroki-xml/src/main/kotlin/io/github/kerubistan/kroki/xml/xml.kt:157-163 | on the outer reader the drain parser succeeds, invokes nothing and ends at the end of the stream |
| StreamParsers.DrainScopedStopsAtElement | kroki-xml/src/main/kotlin/io/github/kerubistan/kroki/xml/xml.kt:157-163 | on a sub reader the drain parser succeeds if and only if no element is left; otherwise it fails with NotImplemented right after the first element |
| StreamParsers.ScopedSingleTagIsDrain | kroki-xml/src/main/kotlin/io/github/kerubistan/kroki/xml/xml.kt:169-178 | on a sub reader the single-tag parser never dispatches and behaves exactly like the drain parser |
| StreamParsers.ScopedParseInvokesAtEntry | kroki-xml/src/main/kotlin/io/github/kerubistan/kroki/xml/xml.kt:144-188 | a parser run on a sub reader invokes at most its own callback, at the position it was handed the reader |
| StreamParsers.SingleTagInvokesOnlyAfterMatch | kroki-xml/src/main/kotlin/io/github/kerubistan/kroki/xml/xml.kt:171-176 | every dispatch and every callback run happens right after a start element with the registered local name |
| StreamParsers.SingleTagDispatchesFirstMatch | kroki-xml/src/main/kotlin/io/github/kerubistan/kroki/xml/xml.kt:171-174 | whatever the callbacks do, the first start element with the registered name is dispatched, and nothing is invoked before it |
| StreamParsers.SingleTagReturnsOnlyWhenExhausted | kroki-xml/src/main/kotlin/io/github/kerubistan/kroki/xml/xml.kt:171 | the single-tag parser returns normally only once no event is left |
| StreamParsers.SingleTagDispatchesEveryMatch | kroki-xml/src/main/kotlin/io/github/kerubistan/kroki/xml/xml.kt:165-178 | with a callback that reads nothing and returns, every start element with the registered name is dispatched once, in document order, and the stream is drained |
| ParserBuilder.Register | kroki-xml/src/main/kotlin/io/github/kerubistan/kroki/xml/xml.kt:198-212 | a builder block only appends to the registration map and keeps names unique |
| ParserBuilder.Registered | kroki-xml/src/main/kotlin/io/github/kerubistan/kroki/xml/xml.kt:198-212 | the map a builder block leaves, also when it throws: it only appends to the old map, keeps names unique, keeps the registrations made before the failing call, and a `tag` whose block throws adds nothing |
| ParserBuilder.RegisteredOnSuccess | kroki-xml/src/main/kotlin/io/github/kerubistan/kroki/xml/xml.kt:198-212 | a block that completes leaves exactly the map Register gives |
| ParserBuilder.RegisteredKeepsPrefix | kroki-xml/src/main/kotlin/io/github/kerubistan/kroki/xml/xml.kt:198-212 | when registration k is the first to throw, the block throws and the map keeps exactly what the registrations before k built |
| ParserBuilder.RepeatedNameIsRejected | kroki-xml/src/main/kotlin/io/github/kerubistan/kroki/xml/xml.kt:199-201 | a block registering the same name twice fails |
| ParserBuilder.NameAlreadyRegisteredIsRejected | kroki-xml/src/main/kotlin/io/github/kerubistan/kroki/xml/xml.kt:208-210 | registering a name already in the map fails |
| ParserBuilder.NamesCount | kroki-xml/src/main/kotlin/io/github/kerubistan/kroki/xml/xml.kt:215 | the map size is the number of registered names |
| ParserBuilder.BuildEntries | kroki-xml/src/main/kotlin/io/github/kerubistan/kroki/xml/xml.kt:214-222 | no entry: the drain parser; one: a single-tag parser for that name over its built parser; more: a multi-tag parser keyed by every name |
| ParserBuilder.MapValues | kroki-xml/src/main/kotlin/io/github/kerubistan/kroki/xml/xml.kt:221 | the built map has exactly the registered names as keys |
| ParserBuilder.MapValuesAt | kroki-xml/src/main/kotlin/io/github/kerubistan/kroki/xml/xml.kt:221 | each name maps to its own builder's built parser |
| ParserBuilder.BuildNode | kroki-xml/src/main/kotlin/io/github/kerubistan/kroki/xml/xml.kt:190-191 | a use-tag builder builds the parser of its own callback, and only such a builder builds a callback parser; a tag builder builds the drain parser exactly when nothing is registered in it, and a single-tag parser over its entry when it has exactly one |
| ParserBuilder.XmlEventStreamTagParserBuilderImpl.constructor | kroki-xml/src/main/kotlin/io/github/kerubistan/kroki/xml/xml.kt:194-196 | a new builder has an empty map |
| ParserBuilder.XmlEventStreamTagParserBuilderImpl.Tag | kroki-xml/src/main/kotlin/io/github/kerubistan/kroki/xml/xml.kt:198-205 | a taken name fails with IllegalArgument "tag <name> already defined" before the block runs; otherwise the block runs on a fresh builder, its failure propagates, and on success that builder is appended under the name |
| ParserBuilder.XmlEventStreamTagParserBuilderImpl.Use | kroki-xml/src/main/kotlin/io/github/kerubistan/kroki/xml/xml.kt:207-212 | a taken name fails with IllegalArgument and leaves the map alone; otherwise a use-tag builder for the callback is appended |
| ParserBuilder.XmlEventStreamTagParserBuilderImpl.Apply | kroki-xml/src/main/kotlin/io/github/kerubistan/kroki/xml/xml.kt:229 | running a builder block agrees with Register: the same map, or the same exception; either way the map is Registered, so an exception keeps the registrations made before it |
| ParserBuilder.RepeatedUseKeepsFirst | kroki-xml/src/main/kotlin/io/github/kerubistan/kroki/xml/xml.kt:207-212 | a block that calls `use` twice with one name throws "tag <name> already defined" and the builder keeps the first registration |
| ParserBuilder.XmlEventStreamTagParserBuilderImpl.Build | kroki-xml/src/main/kotlin/io/github/kerubistan/kroki/xml/xml.kt:214-222 | the parser shape follows the number of distinct names, and every name maps to its builder's parser |
| ParserBuilder.EmptyBuilderDrains | kroki-xml/src/main/kotlin/io/github/kerubistan/kroki/xml/xml.kt:216 | an empty builder's parser drains the whole stream and invokes nothing |
| ParserBuilder.UseTagBuilderRunsCallback | kroki-xml/src/main/kotlin/io/github/kerubistan/kroki/xml/xml.kt:190-191 | a use-tag builder builds the parser that runs exactly its callback, once |
| ParserBuilder.SingleUseDispatchesEveryMatch | kroki-xml/src/main/kotlin/io/github/kerubistan/kroki/xml/xml.kt:228-229 | end to end, with a callback that reads nothing and returns: one `use` registration builds a parser that runs the callback after every matching start element, in order, and drains the stream |
| ParserBuilder.TagRegistrationFailsInsideMatch | kroki-xml/src/main/kotlin/io/github/kerubistan/kroki/xml/xml.kt:198-205 | a `tag` registration with an empty block fails with NotImplemented once an element follows its first match |
| ParserBuilder.SingleRegistrationNeverRunsInside | kroki-xml/src/main/kotlin/io/github/kerubistan/kroki/xml/xml.kt:169-178 | a `tag` block holding one registration, `tag` or `use`, never dispatches the inner name nor runs its callback; the parse fails with NotImplemented after logging only the outer dispatch |

## Left out

- `XmlBuilder`, `xml { }`, `nothing` and the writer side of xml.kt are not part of this model.
- `XmlParserBuilder` and `parseAsXml` are not part of this model.
- `readAsXmlEventStream` is modelled only through its parts (`Apply`, `Build`, `Parse`). The stream's creation by `xmlInputFactory` is I/O and is left out.
- StAX decoding (bytes to events, namespaces, well-formedness) is not modelled. The outer reader is a given event sequence. Its `getElementText`, `getProperty` and `remove` answers are parameters.
- Builder blocks are not modelled as code. A block is the list of registrations it makes, run in order until the first exception. A block that catches an exception and goes on, or one that registers into a builder it captured from an outer scope, cannot be written in this model.
- User callbacks are not modelled as code. `Effects` says how far each one moves the cursor and whether it throws. A callback that reads through its sub reader, and so runs into the sub reader's unimplemented element branches, is only captured through that abstraction.
- `SubXMLEventReader.peek` and `nextTag` are `TODO()` in the source and are left out. `closeTag` is stored but never read.
- `MultipleTagsEventStreamParser.parse` is `TODO()`. Its parse is modelled as failing with NotImplemented; its dispatch behaviour does not exist to model.
- StreamParsers.ParseSpec: the map of a multi-tag parser is a Dafny map, so the LinkedHashMap iteration order of `mapValues` is not kept in the built parser. It is kept in the builder's entry sequence.
- ParserBuilder.XmlEventStreamTagParserBuilderImpl.Tag: the nested builder is stored as the value of its map after the block ran, not as a live object. The source never touches it afterwards, so nothing observable is lost.
- SubReader.SubXMLEventReader.Next: `depth` is a Kotlin `Int` and wraps past 2^31 - 1; the model counts with an unbounded integer, so its depth invariant holds where the source's would wrap, after more than 2^31 - 1 unmatched start elements.
- SubReader.SubXMLEventReader.Next: `open` and `depth` are public `var`s in the source, so client code may assign them. The model lets only its own methods write them; `Valid()` and the depth equation hold only while no client assigns `depth`, and a reopened reader is not modelled.

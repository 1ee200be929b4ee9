/** The tag-registration builder of xml.kt and its compilation into a parser.
    The registration map is a `mutableMapOf` (insertion ordered, one entry
    per name); it is kept as a sequence of entries whose names are distinct.
    A user's builder block is modelled by the registrations it makes, in
    order. */
module ParserBuilder {
  import opened XmlEvents
  import opened StreamParsers

  /** A value of the registration map: the nested builder a `tag` block
      filled in, or the builder `use` stores for its callback. */
  datatype BuilderNode =
    | TagBuilder(tagMap: seq<Entry>)
    | UseTagBuilder(eventStream: Callback)

  datatype Entry = Entry(name: string, builder: BuilderNode)

  /** One call a builder block makes: `tag(name) { block }` or
      `use(name) { callback }`. */
  datatype Registration =
    | TagRegistration(name: string, block: seq<Registration>)
    | UseRegistration(name: string, eventStream: Callback)

  function Names(entries: seq<Entry>): set<string> {
    set i | 0 <= i < |entries| :: entries[i].name
  }

  ghost predicate UniqueNames(entries: seq<Entry>) {
    forall i, j :: 0 <= i < j < |entries| ==> entries[i].name != entries[j].name
  }

  function DuplicateTag(name: string): Error {
    IllegalArgument("tag " + name + " already defined")
  }

  /** With distinct names, the map has one key per entry. */
  lemma {:induction false} NamesCount(entries: seq<Entry>)
    requires UniqueNames(entries)
    ensures |Names(entries)| == |entries|
  {
    if entries != [] {
      var init := entries[..|entries| - 1];
      var last := entries[|entries| - 1].name;
      assert Names(entries) == Names(init) + {last};
      assert last !in Names(init);
      NamesCount(init);
    }
  }

  /** The registration map after a builder block has run on a builder
      holding `entries`, or the exception the block ends with. A repeated
      name is rejected before the nested block runs; a failure inside a
      nested block propagates. */
  function Register(entries: seq<Entry>, block: seq<Registration>): (r: Result<seq<Entry>>)
    ensures r.Ok? ==> |entries| <= |r.value| && r.value[..|entries|] == entries
    ensures r.Ok? && UniqueNames(entries) ==> UniqueNames(r.value)
    decreases block
  {
    if block == [] then Ok(entries)
    else if block[0].name in Names(entries) then Err(DuplicateTag(block[0].name))
    else
      match block[0]
      case UseRegistration(name, fn) =>
        Register(entries + [Entry(name, UseTagBuilder(fn))], block[1..])
      case TagRegistration(name, nested) =>
        match Register([], nested)
        case Err(e) => Err(e)
        case Ok(sub) => Register(entries + [Entry(name, TagBuilder(sub))], block[1..])
  }

  /** The registration map a builder holding `entries` is left with once the
      block has run, also when the block throws: the registrations made
      before the failing call stay, and a `tag` whose nested block throws
      adds nothing. */
  function Registered(entries: seq<Entry>, block: seq<Registration>): (m: seq<Entry>)
    ensures |entries| <= |m| && m[..|entries|] == entries
    ensures UniqueNames(entries) ==> UniqueNames(m)
    decreases block
  {
    if block == [] || block[0].name in Names(entries) then entries
    else
      match block[0]
      case UseRegistration(name, fn) =>
        Registered(entries + [Entry(name, UseTagBuilder(fn))], block[1..])
      case TagRegistration(name, nested) =>
        match Register([], nested)
        case Err(_) => entries
        case Ok(sub) => Registered(entries + [Entry(name, TagBuilder(sub))], block[1..])
  }

  /** A block that completes leaves exactly the map Register gives. */
  lemma {:induction false} RegisteredOnSuccess(entries: seq<Entry>, block: seq<Registration>)
    ensures Register(entries, block).Ok? ==> Register(entries, block).value == Registered(entries, block)
    decreases block
  {
    if block != [] && block[0].name !in Names(entries) {
      match block[0]
      case UseRegistration(name, fn) =>
        RegisteredOnSuccess(entries + [Entry(name, UseTagBuilder(fn))], block[1..]);
      case TagRegistration(name, nested) =>
        if Register([], nested).Ok? {
          RegisteredOnSuccess(entries + [Entry(name, TagBuilder(Register([], nested).value))], block[1..]);
        }
    }
  }

  /** When registration `k` is the first to fail, the block fails and the map
      it leaves is the one the registrations before `k` built. */
  lemma {:induction false} RegisteredKeepsPrefix(entries: seq<Entry>, block: seq<Registration>, k: nat)
    requires k < |block|
    requires Register(entries, block[..k]).Ok? && Register(entries, block[..k + 1]).Err?
    ensures Register(entries, block).Err?
    ensures Registered(entries, block) == Register(entries, block[..k]).value
    decreases block
  {
    if k == 0 {
      assert block[..1] == [block[0]] && [block[0]][1..] == [];
    } else {
      assert block[..k][0] == block[..k + 1][0] == block[0];
      assert block[..k][1..] == block[1..][..k - 1];
      assert block[..k + 1][1..] == block[1..][..k];
      var first := block[0];
      if first.UseRegistration? {
        RegisteredKeepsPrefix(entries + [Entry(first.name, UseTagBuilder(first.eventStream))], block[1..], k - 1);
      } else {
        RegisteredKeepsPrefix(entries + [Entry(first.name, TagBuilder(Register([], first.block).value))],
                              block[1..], k - 1);
      }
    }
  }

  /** A block that registers the same name twice at one level fails. */
  lemma {:induction false} RepeatedNameIsRejected(entries: seq<Entry>, block: seq<Registration>, i: nat, j: nat)
    requires i < j < |block| && block[i].name == block[j].name
    ensures Register(entries, block).Err?
    decreases block
  {
    var first := block[0];
    if first.name !in Names(entries) {
      var nested := if first.TagRegistration? then Register([], first.block) else Ok([]);
      if nested.Ok? {
        var next := if first.UseRegistration? then Entry(first.name, UseTagBuilder(first.eventStream))
                    else Entry(first.name, TagBuilder(nested.value));
        var entries' := entries + [next];
        assert Register(entries, block) == Register(entries', block[1..]);
        if i == 0 {
          assert block[1..][j - 1].name in Names(entries') by {
            assert entries'[|entries|] == next;
          }
          NameAlreadyRegisteredIsRejected(entries', block[1..], j - 1);
        } else {
          RepeatedNameIsRejected(entries', block[1..], i - 1, j - 1);
        }
      }
    }
  }

  /** A block that registers a name the map already holds fails. */
  lemma {:induction false} NameAlreadyRegisteredIsRejected(entries: seq<Entry>, block: seq<Registration>, j: nat)
    requires j < |block| && block[j].name in Names(entries)
    ensures Register(entries, block).Err?
    decreases block
  {
    var first := block[0];
    if j > 0 && first.name !in Names(entries) {
      var nested := if first.TagRegistration? then Register([], first.block) else Ok([]);
      if nested.Ok? {
        var next := if first.UseRegistration? then Entry(first.name, UseTagBuilder(first.eventStream))
                    else Entry(first.name, TagBuilder(nested.value));
        var entries' := entries + [next];
        assert Register(entries, block) == Register(entries', block[1..]);
        assert Names(entries) <= Names(entries') by {
          forall n | n in Names(entries) ensures n in Names(entries') {
            var k :| 0 <= k < |entries| && entries[k].name == n;
            assert entries'[k] == entries[k];
          }
        }
        NameAlreadyRegisteredIsRejected(entries', block[1..], j - 1);
      }
    }
  }

  /** `build()` of a registration map value: a use-tag builder builds the
      parser that runs its callback, a tag builder builds its own map. */
  function BuildNode(node: BuilderNode): (p: Parser)
    ensures p.UseTag? <==> node.UseTagBuilder?
    ensures node.UseTagBuilder? ==> p.fn == node.eventStream
    ensures node.TagBuilder? ==> (p == NoOperation <==> node.tagMap == [])
    ensures node.TagBuilder? && |node.tagMap| == 1 ==> p == SingleTag(node.tagMap[0].name, BuildNode(node.tagMap[0].builder))
  {
    match node
    case UseTagBuilder(fn) => UseTag(fn)
    case TagBuilder(entries) => BuildEntries(entries)
  }

  /** `XmlEventStreamTagParserBuilderImpl.build()`: the parser shape follows
      the number of registrations. */
  function BuildEntries(entries: seq<Entry>): (p: Parser)
    ensures |entries| == 0 <==> p == NoOperation
    ensures |entries| == 1 <==> p.SingleTag?
    ensures |entries| == 1 ==> p.tag == entries[0].name && p.parser == BuildNode(entries[0].builder)
    ensures |entries| >= 2 <==> p.MultipleTags?
    ensures |entries| >= 2 ==> p.tags.Keys == Names(entries)
    decreases entries, 1
  {
    if |entries| == 0 then NoOperation
    else if |entries| == 1 then SingleTag(entries[0].name, BuildNode(entries[0].builder))
    else MultipleTags(MapValues(entries))
  }

  /** `tagMap.mapValues { it.value.build() }`. */
  function MapValues(entries: seq<Entry>): (m: map<string, Parser>)
    ensures m.Keys == Names(entries)
    decreases entries, 0
  {
    if entries == [] then map[]
    else
      var init := entries[..|entries| - 1];
      var last := entries[|entries| - 1];
      assert Names(entries) == Names(init) + {last.name};
      MapValues(init)[last.name := BuildNode(last.builder)]
  }

  /** With distinct names, every name maps to its own entry's built parser. */
  lemma {:induction false} MapValuesAt(entries: seq<Entry>, i: nat)
    requires UniqueNames(entries) && i < |entries|
    ensures MapValues(entries)[entries[i].name] == BuildNode(entries[i].builder)
  {
    var init := entries[..|entries| - 1];
    if i < |entries| - 1 {
      assert init[i] == entries[i];
      MapValuesAt(init, i);
    }
  }

  class XmlEventStreamTagParserBuilderImpl {
    var tagMap: seq<Entry>

    ghost predicate Valid()
      reads this
    {
      UniqueNames(tagMap)
    }

    constructor ()
      ensures Valid() && tagMap == []
    {
      tagMap := [];
    }

    /** `tag(name) { block }`: rejects a name already in the map; otherwise
        runs the block on a fresh builder and stores that builder. */
    method Tag(name: string, block: seq<Registration>) returns (r: Result<()>)
      requires Valid()
      modifies this
      ensures Valid()
      ensures name in Names(old(tagMap)) ==> r == Err(DuplicateTag(name)) && tagMap == old(tagMap)
      ensures name !in Names(old(tagMap)) ==>
                match Register([], block)
                case Err(e) => r == Err(e) && tagMap == old(tagMap)
                case Ok(sub) => r == Ok(()) && tagMap == old(tagMap) + [Entry(name, TagBuilder(sub))]
      decreases block, 1
    {
      if name in Names(tagMap) {
        return Err(DuplicateTag(name));
      }
      var sub := new XmlEventStreamTagParserBuilderImpl();
      var applied := sub.Apply(block);
      if applied.Err? {
        return applied;
      }
      AppendFreshName(tagMap, Entry(name, TagBuilder(sub.tagMap)));
      tagMap := tagMap + [Entry(name, TagBuilder(sub.tagMap))];
      r := Ok(());
    }

    /** `use(name) { callback }`: rejects a name already in the map;
        otherwise stores a use-tag builder for the callback. */
    method Use(name: string, eventStream: Callback) returns (r: Result<()>)
      requires Valid()
      modifies this
      ensures Valid()
      ensures name in Names(old(tagMap)) ==> r == Err(DuplicateTag(name)) && tagMap == old(tagMap)
      ensures name !in Names(old(tagMap)) ==>
                r == Ok(()) && tagMap == old(tagMap) + [Entry(name, UseTagBuilder(eventStream))]
    {
      if name in Names(tagMap) {
        return Err(DuplicateTag(name));
      }
      AppendFreshName(tagMap, Entry(name, UseTagBuilder(eventStream)));
      tagMap := tagMap + [Entry(name, UseTagBuilder(eventStream))];
      r := Ok(());
    }

    /** A user's builder block run on this builder: its registrations in
        order, stopping at the first exception, which leaves the earlier
        registrations in the map. */
    method Apply(block: seq<Registration>) returns (r: Result<()>)
      requires Valid()
      modifies this
      ensures Valid()
      ensures r.Ok? ==> Register(old(tagMap), block) == Ok(tagMap)
      ensures r.Err? ==> Register(old(tagMap), block) == Err(r.error)
      ensures tagMap == Registered(old(tagMap), block)
      decreases block, 0
    {
      var i := 0;
      while i < |block|
        invariant Valid() && i <= |block|
        decreases |block| - i
        invariant Register(old(tagMap), block) == Register(tagMap, block[i..])
        invariant Registered(old(tagMap), block) == Registered(tagMap, block[i..])
      {
        assert block[i..][1..] == block[i + 1..];
        match block[i] {
          case UseRegistration(name, fn) =>
            r := Use(name, fn);
          case TagRegistration(name, nested) =>
            r := Tag(name, nested);
        }
        if r.Err? {
          return r;
        }
        i := i + 1;
      }
      r := Ok(());
    }

    /** `build()`: no registration gives the drain parser, one gives a
        single-tag parser for that name over its built parser, more give a
        multi-tag parser over every name. */
    function Build(): (p: Parser)
      reads this
      requires Valid()
      ensures Names(tagMap) == {} <==> p == NoOperation
      ensures |Names(tagMap)| == 1 ==>
                p.SingleTag? && Names(tagMap) == {p.tag} && p.parser == BuildNode(tagMap[0].builder)
      ensures |Names(tagMap)| >= 2 ==>
                && p.MultipleTags? && p.tags.Keys == Names(tagMap)
                && forall i :: 0 <= i < |tagMap| ==> p.tags[tagMap[i].name] == BuildNode(tagMap[i].builder)
    {
      NamesCount(tagMap);
      var p := BuildEntries(tagMap);
      assert |tagMap| >= 2 ==> forall i :: 0 <= i < |tagMap| ==> p.tags[tagMap[i].name] == BuildNode(tagMap[i].builder) by {
        if |tagMap| >= 2 {
          forall i | 0 <= i < |tagMap| ensures p.tags[tagMap[i].name] == BuildNode(tagMap[i].builder) {
            MapValuesAt(tagMap, i);
          }
        }
      }
      p
    }
  }

  /** A block that registers a name twice throws at the second call, and the
      builder keeps the first registration. */
  method RepeatedUseKeepsFirst(name: string, first: Callback, second: Callback)
    returns (r: Result<()>, tagMap: seq<Entry>)
    ensures r == Err(DuplicateTag(name))
    ensures tagMap == [Entry(name, UseTagBuilder(first))]
  {
    var block := [UseRegistration(name, first), UseRegistration(name, second)];
    var kept := [Entry(name, UseTagBuilder(first))];
    assert block[1..] == [UseRegistration(name, second)];
    assert kept[0].name in Names(kept) && [] + kept == kept;
    assert Names([]) == {};
    assert Registered([], block) == Registered(kept, block[1..]) == kept;
    assert Register([], block) == Register(kept, block[1..]) == Err(DuplicateTag(name));
    var builder := new XmlEventStreamTagParserBuilderImpl();
    r := builder.Apply(block);
    tagMap := builder.tagMap;
  }

  lemma AppendFreshName(entries: seq<Entry>, e: Entry)
    requires UniqueNames(entries) && e.name !in Names(entries)
    ensures UniqueNames(entries + [e])
  {
    forall i | 0 <= i < |entries| ensures entries[i].name in Names(entries) { }
  }

  // ---------------------------------------------------------------------
  // From registrations to parsing

  /** A builder with nothing registered drains the whole stream and invokes
      nothing. */
  lemma EmptyBuilderDrains(events: seq<Event>, pos: nat, effects: Effects)
    requires pos <= |events|
    ensures ParseSpec(BuildEntries([]), false, events, pos, effects) == Run(Ok(()), |events|, [])
  {
    DrainOuterExhausts(events, pos);
  }

  /** A use-tag builder builds the callback parser, whose parse runs exactly
      that callback, once, at the position it is invoked. */
  lemma UseTagBuilderRunsCallback(fn: Callback, scoped: bool, events: seq<Event>, pos: nat, effects: Effects)
    requires pos <= |events|
    ensures var run := ParseSpec(BuildNode(UseTagBuilder(fn)), scoped, events, pos, effects);
      && run.log == [CallbackRan(fn, pos)]
      && run.outcome == (if effects(fn, pos).fails then Err(CallbackFailed) else Ok(()))
  {
  }

  /** End to end: a block registering one `use` builds a parser that, when
      the callback reads nothing, runs it after every start element of that
      name, in document order, and drains the stream. */
  lemma SingleUseDispatchesEveryMatch(name: string, fn: Callback, events: seq<Event>, effects: Effects)
    requires forall at :: effects(fn, at) == CallbackEffect(0, false)
    ensures Register([], [UseRegistration(name, fn)]) == Ok([Entry(name, UseTagBuilder(fn))])
    ensures ParseSpec(BuildEntries([Entry(name, UseTagBuilder(fn))]), false, events, 0, effects)
              == Run(Ok(()), |events|, MatchLog(name, fn, events, 0))
  {
    assert [UseRegistration(name, fn)][1..] == [];
    SingleTagDispatchesEveryMatch(name, fn, events, 0, effects);
  }

  /** As written, a `tag` registration cannot get through its element: the
      nested parser reads the sub reader, whose element branches are not
      implemented, so the parse fails at the first start or end element after
      the first match (in a well-formed document, at the latest at the
      matching end tag). */
  lemma {:induction false} TagRegistrationFailsInsideMatch(name: string, events: seq<Event>, pos: nat,
                                                           i: nat, k: nat, effects: Effects)
    requires pos <= i < k < |events|
    requires Matches(events[i], name) && IsElement(events[k])
    requires forall m :: pos <= m < i ==> !Matches(events[m], name)
    ensures Register([], [TagRegistration(name, [])]) == Ok([Entry(name, TagBuilder([]))])
    ensures ParseSpec(BuildEntries([Entry(name, TagBuilder([]))]), false, events, pos, effects).outcome
              == Err(NotImplemented)
    decreases i - pos
  {
    assert [TagRegistration(name, [])][1..] == [];
    assert BuildEntries([Entry(name, TagBuilder([]))]) == SingleTag(name, NoOperation);
    SingleLoopStep(name, NoOperation, false, events, pos, effects);
    if pos < i {
      TagRegistrationFailsInsideMatch(name, events, pos + 1, i, k, effects);
    } else {
      DrainScopedStopsAtElement(events, pos + 1);
      SingleLoopAfterMatch(name, NoOperation, false, events, pos, effects);
    }
  }

  /** A `tag` block holding one registration, `tag` or `use`, behaves like an
      empty one: on the sub reader its single-tag parser only drains, so the
      inner name is never dispatched and an inner callback never runs; the
      parse fails at the first element after the outer match. */
  lemma {:induction false} SingleRegistrationNeverRunsInside(name: string, inner: Entry, events: seq<Event>,
                                                             pos: nat, i: nat, k: nat, effects: Effects)
    requires pos <= i < k < |events|
    requires Matches(events[i], name) && IsElement(events[k])
    requires forall m :: pos <= m < i ==> !Matches(events[m], name)
    ensures var r := ParseSpec(BuildEntries([Entry(name, TagBuilder([inner]))]), false, events, pos, effects);
      r.outcome == Err(NotImplemented) && r.log == [Dispatched(name, i + 1)]
    decreases i - pos
  {
    var nested := SingleTag(inner.name, BuildNode(inner.builder));
    assert BuildEntries([Entry(name, TagBuilder([inner]))]) == SingleTag(name, nested);
    SingleLoopStep(name, nested, false, events, pos, effects);
    if pos < i {
      SingleRegistrationNeverRunsInside(name, inner, events, pos + 1, i, k, effects);
    } else {
      ScopedSingleTagIsDrain(inner.name, BuildNode(inner.builder), events, pos + 1, effects);
      DrainScopedStopsAtElement(events, pos + 1);
      SingleLoopAfterMatch(name, nested, false, events, pos, effects);
    }
  }
}

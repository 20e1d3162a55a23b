/**
 The streaming scan for anchors of top-level values.  It sees a YAML document only
 as parser events and keeps a depth, a pending key and two collections; what it
 returns is stated on the document tree the events were serialised from.
 */
module AnchorCollector {
  import opened Bytes

  // ----- documents and their events -----

  /** Anchors are numbered by the parser from 1; 0 is none. */
  datatype Node =
    | ScalarNode(text: string, anchor: nat)
    | AliasNode(target: nat)
    | SeqNode(anchor: nat, items: seq<Node>)
    | MapNode(anchor: nat, entries: seq<Entry>)

  datatype Entry = Entry(key: Node, value: Node)

  datatype Event =
    | StreamStart
    | DocumentStart
    | DocumentEnd
    | StreamEnd
    | Scalar(text: string, anchor: nat)
    | Alias(target: nat)
    | SequenceStart(anchor: nat)
    | SequenceEnd
    | MappingStart(anchor: nat)
    | MappingEnd

  function Events(n: Node): (s: seq<Event>)
    ensures s != []
    decreases n
  {
    match n
    case ScalarNode(text, anchor) => [Scalar(text, anchor)]
    case AliasNode(target) => [Alias(target)]
    case SeqNode(anchor, items) => [SequenceStart(anchor)] + ItemEvents(items) + [SequenceEnd]
    case MapNode(anchor, entries) => [MappingStart(anchor)] + EntryEvents(entries) + [MappingEnd]
  }

  function ItemEvents(items: seq<Node>): seq<Event>
    decreases items
  {
    if items == [] then [] else Events(items[0]) + ItemEvents(items[1..])
  }

  function EntryEvents(entries: seq<Entry>): seq<Event>
    decreases entries
  {
    if entries == [] then [] else PairEvents(entries[0]) + EntryEvents(entries[1..])
  }

  function PairEvents(e: Entry): seq<Event>
    decreases e
  {
    Events(e.key) + Events(e.value)
  }

  /** The anchors the aliases in a tree refer to. */
  function Aliases(n: Node): set<nat>
    decreases n
  {
    match n
    case ScalarNode(_, _) => {}
    case AliasNode(target) => {target}
    case SeqNode(_, items) => ItemAliases(items)
    case MapNode(_, entries) => EntryAliases(entries)
  }

  function ItemAliases(items: seq<Node>): set<nat>
    decreases items
  {
    if items == [] then {} else Aliases(items[0]) + ItemAliases(items[1..])
  }

  function EntryAliases(entries: seq<Entry>): set<nat>
    decreases entries
  {
    if entries == [] then {} else PairAliases(entries[0]) + EntryAliases(entries[1..])
  }

  function PairAliases(e: Entry): set<nat>
    decreases e
  {
    Aliases(e.key) + Aliases(e.value)
  }

  /** The anchor a node itself carries. */
  function OwnAnchor(n: Node): nat {
    match n
    case ScalarNode(_, anchor) => anchor
    case AliasNode(_) => 0
    case SeqNode(anchor, _) => anchor
    case MapNode(anchor, _) => anchor
  }

  // ----- the collector's state -----

  datatype State = State(
    rootStarted: bool,
    rootIsMapping: bool,
    rootFinished: bool,
    expectingKey: bool,
    pendingKey: Option<string>,
    valueDepth: nat,
    anchorKeys: map<nat, seq<string>>,
    referenced: set<nat>)

  const START := State(false, false, false, false, None, 0, map[], {})

  function KeysOf(m: map<nat, seq<string>>, anchor: nat): seq<string> {
    if anchor in m then m[anchor] else []
  }

  function Record(s: State, anchor: nat): State {
    if anchor == 0 || s.pendingKey == None then s
    else s.(anchorKeys := s.anchorKeys[anchor := KeysOf(s.anchorKeys, anchor) + [s.pendingKey.value]])
  }

  function FinishValue(s: State): State { s.(pendingKey := None, expectingKey := true) }

  function AdvanceNested(s: State, e: Event): State
    requires s.valueDepth > 0
  {
    match e
    case MappingStart(_) => s.(valueDepth := s.valueDepth + 1)
    case SequenceStart(_) => s.(valueDepth := s.valueDepth + 1)
    case MappingEnd => if s.valueDepth == 1 then FinishValue(s.(valueDepth := 0)) else s.(valueDepth := s.valueDepth - 1)
    case SequenceEnd => if s.valueDepth == 1 then FinishValue(s.(valueDepth := 0)) else s.(valueDepth := s.valueDepth - 1)
    case _ => s
  }

  function Step(s: State, e: Event): State {
    if s.rootFinished then s
    else if !s.rootStarted then
      match e
      case MappingStart(_) => s.(rootStarted := true, rootIsMapping := true, expectingKey := true)
      case SequenceStart(_) => s.(rootStarted := true)
      case Scalar(_, _) => s.(rootStarted := true)
      case Alias(_) => s.(rootStarted := true)
      case _ => s
    else if !s.rootIsMapping then s
    else
      var t := if e.Alias? then s.(referenced := s.referenced + {e.target}) else s;
      if t.valueDepth > 0 then AdvanceNested(t, e)
      else if t.expectingKey then
        match e
        case Scalar(text, _) => t.(pendingKey := Some(text), expectingKey := false)
        case _ => t.(rootFinished := true)
      else
        match e
        case Scalar(_, anchor) => FinishValue(Record(t, anchor))
        case MappingStart(anchor) => Record(t, anchor).(valueDepth := 1)
        case SequenceStart(anchor) => Record(t, anchor).(valueDepth := 1)
        case _ => FinishValue(t)
  }

  function Feed(s: State, events: seq<Event>): State
    decreases |events|
  {
    if events == [] then s else Feed(Step(s, events[0]), events[1..])
  }

  /** A key is returned if it was recorded for an anchor that was referred to. */
  predicate Returned(s: State, key: string) {
    exists a | a in s.anchorKeys :: a in s.referenced && key in s.anchorKeys[a]
  }

  // ----- the collector -----

  class TopLevelAnchorCollector {
    var rootStarted: bool
    var rootIsMapping: bool
    var rootFinished: bool
    var expectingKey: bool
    var pendingKey: Option<string>
    var valueDepth: nat
    var topLevelAnchorKeys: map<nat, seq<string>>
    var referencedAnchors: set<nat>

    constructor ()
      ensures Now() == START
    {
      rootStarted, rootIsMapping, rootFinished, expectingKey := false, false, false, false;
      pendingKey, valueDepth, topLevelAnchorKeys, referencedAnchors := None, 0, map[], {};
    }

    function Now(): State
      reads this
    {
      State(rootStarted, rootIsMapping, rootFinished, expectingKey, pendingKey, valueDepth, topLevelAnchorKeys, referencedAnchors)
    }

    method RecordTopLevelAnchor(anchor: nat)
      modifies this
      ensures Now() == Record(old(Now()), anchor)
    {
      if anchor == 0 {
        return;
      }
      match pendingKey {
        case None =>
        case Some(key) =>
          topLevelAnchorKeys := topLevelAnchorKeys[anchor := KeysOf(topLevelAnchorKeys, anchor) + [key]];
      }
    }

    method FinishTopLevelValue()
      modifies this
      ensures Now() == FinishValue(old(Now()))
    {
      pendingKey := None;
      expectingKey := true;
    }

    /** The depth is only lowered where it is positive. */
    method AdvanceNestedValue(e: Event)
      requires valueDepth > 0
      modifies this
      ensures Now() == AdvanceNested(old(Now()), e)
    {
      if e.MappingStart? || e.SequenceStart? {
        valueDepth := valueDepth + 1;
      } else if e.MappingEnd? || e.SequenceEnd? {
        valueDepth := valueDepth - 1;
        if valueDepth == 0 {
          FinishTopLevelValue();
        }
      }
    }

    method OnEvent(e: Event)
      modifies this
      ensures Now() == Step(old(Now()), e)
    {
      if rootFinished {
        return;
      }
      if !rootStarted {
        if e.MappingStart? {
          rootStarted, rootIsMapping, expectingKey := true, true, true;
        } else if e.SequenceStart? || e.Scalar? || e.Alias? {
          rootStarted := true;
        }
        return;
      }
      if !rootIsMapping {
        return;
      }
      if e.Alias? {
        referencedAnchors := referencedAnchors + {e.target};
      }
      if valueDepth > 0 {
        AdvanceNestedValue(e);
        return;
      }
      if expectingKey {
        if e.Scalar? {
          pendingKey, expectingKey := Some(e.text), false;
        } else {
          rootFinished := true;
        }
        return;
      }
      match e {
        case Scalar(_, anchor) =>
          RecordTopLevelAnchor(anchor);
          FinishTopLevelValue();
        case MappingStart(anchor) =>
          RecordTopLevelAnchor(anchor);
          valueDepth := 1;
        case SequenceStart(anchor) =>
          RecordTopLevelAnchor(anchor);
          valueDepth := 1;
        case _ => FinishTopLevelValue();
      }
    }

    method Load(events: seq<Event>)
      modifies this
      ensures Now() == Feed(old(Now()), events)
    {
      var i := 0;
      while i < |events|
        invariant 0 <= i <= |events|
        invariant Feed(Now(), events[i..]) == Feed(old(Now()), events)
      {
        assert events[i..][0] == events[i] && events[i..][1..] == events[i + 1..];
        OnEvent(events[i]);
        i := i + 1;
      }
    }

    /** The anchors come out of a hash map, so in any order. */
    method ReferencedTemplateKeys() returns (keys: seq<string>)
      ensures forall k :: k in keys <==> Returned(Now(), k)
    {
      keys := [];
      var rest := topLevelAnchorKeys.Keys;
      while rest != {}
        invariant rest <= topLevelAnchorKeys.Keys
        invariant forall k :: k in keys <==>
          exists a | a in topLevelAnchorKeys.Keys - rest :: a in referencedAnchors && k in topLevelAnchorKeys[a]
        decreases |rest|
      {
        var a: nat :| a in rest;
        ghost var done := topLevelAnchorKeys.Keys - rest;
        rest := rest - {a};
        assert topLevelAnchorKeys.Keys - rest == done + {a};
        if a in referencedAnchors {
          keys := keys + topLevelAnchorKeys[a];
        }
      }
      assert topLevelAnchorKeys.Keys - rest == topLevelAnchorKeys.Keys;
    }
  }

  // ----- on serialised documents -----

  lemma {:induction false} FeedConcat(s: State, a: seq<Event>, b: seq<Event>)
    ensures Feed(s, a + b) == Feed(Feed(s, a), b)
    decreases |a|
  {
    if a == [] {
      assert a + b == b;
    } else {
      assert (a + b)[1..] == a[1..] + b;
      FeedConcat(Step(s, a[0]), a[1..], b);
    }
  }

  lemma FeedOne(s: State, e: Event)
    ensures Feed(s, [e]) == Step(s, e)
  {
    assert [e][1..] == [];
  }

  predicate InRoot(s: State) { s.rootStarted && s.rootIsMapping && !s.rootFinished }

  function Seen(s: State, aliases: set<nat>): State { s.(referenced := s.referenced + aliases) }

  lemma SeenTwice(s: State, a: set<nat>, b: set<nat>)
    ensures Seen(Seen(s, a), b) == Seen(s, a + b) && Seen(s, {}) == s
  {
    assert s.referenced + a + b == s.referenced + (a + b) && s.referenced + {} == s.referenced;
  }

  /** Inside a value a whole subtree leaves the depth as it was; only its aliases count. */
  lemma {:induction false} NestedNode(s: State, n: Node)
    requires InRoot(s) && s.valueDepth > 0
    ensures Feed(s, Events(n)) == Seen(s, Aliases(n))
    decreases n
  {
    match n
    case ScalarNode(text, anchor) => FeedOne(s, Scalar(text, anchor)); SeenTwice(s, {}, {});
    case AliasNode(target) => FeedOne(s, Alias(target));
    case SeqNode(anchor, items) =>
      NestedItems(s.(valueDepth := s.valueDepth + 1), items);
      Bracketed(s, SequenceStart(anchor), ItemEvents(items), SequenceEnd, ItemAliases(items));
    case MapNode(anchor, entries) =>
      NestedEntries(s.(valueDepth := s.valueDepth + 1), entries);
      Bracketed(s, MappingStart(anchor), EntryEvents(entries), MappingEnd, EntryAliases(entries));
  }

  /** A start and its end around events that keep the depth. */
  lemma Bracketed(s: State, open: Event, inside: seq<Event>, close: Event, aliases: set<nat>)
    requires InRoot(s) && s.valueDepth > 0
    requires (open.SequenceStart? || open.MappingStart?) && (close == SequenceEnd || close == MappingEnd)
    requires var t := s.(valueDepth := s.valueDepth + 1); Feed(t, inside) == Seen(t, aliases)
    ensures Feed(s, [open] + inside + [close]) == Seen(s, aliases)
  {
    var t := s.(valueDepth := s.valueDepth + 1);
    FeedConcat(s, [open] + inside, [close]);
    FeedConcat(s, [open], inside);
    FeedOne(s, open);
    FeedOne(Seen(t, aliases), close);
  }

  lemma {:induction false} NestedItems(s: State, items: seq<Node>)
    requires InRoot(s) && s.valueDepth > 0
    ensures Feed(s, ItemEvents(items)) == Seen(s, ItemAliases(items))
    decreases items
  {
    if items == [] {
      SeenTwice(s, {}, {});
    } else {
      FeedConcat(s, Events(items[0]), ItemEvents(items[1..]));
      NestedNode(s, items[0]);
      NestedItems(Seen(s, Aliases(items[0])), items[1..]);
      SeenTwice(s, Aliases(items[0]), ItemAliases(items[1..]));
    }
  }

  lemma {:induction false} NestedPair(s: State, e: Entry)
    requires InRoot(s) && s.valueDepth > 0
    ensures Feed(s, PairEvents(e)) == Seen(s, PairAliases(e))
    decreases e
  {
    FeedConcat(s, Events(e.key), Events(e.value));
    NestedNode(s, e.key);
    NestedNode(Seen(s, Aliases(e.key)), e.value);
    SeenTwice(s, Aliases(e.key), Aliases(e.value));
  }

  lemma {:induction false} NestedEntries(s: State, entries: seq<Entry>)
    requires InRoot(s) && s.valueDepth > 0
    ensures Feed(s, EntryEvents(entries)) == Seen(s, EntryAliases(entries))
    decreases entries
  {
    if entries == [] {
      SeenTwice(s, {}, {});
    } else {
      FeedConcat(s, PairEvents(entries[0]), EntryEvents(entries[1..]));
      NestedPair(s, entries[0]);
      NestedEntries(Seen(s, PairAliases(entries[0])), entries[1..]);
      SeenTwice(s, PairAliases(entries[0]), EntryAliases(entries[1..]));
    }
  }

  // ----- the entries of the root -----

  predicate AtKey(s: State) { InRoot(s) && s.valueDepth == 0 && s.expectingKey && s.pendingKey == None }

  /** After one entry with a scalar key: its own anchor is recorded, its aliases are seen. */
  function AfterEntry(s: State, key: string, value: Node): State
  {
    Seen(Record(s.(pendingKey := Some(key)), OwnAnchor(value)).(pendingKey := None), Aliases(value))
  }

  lemma RootEntry(s: State, key: string, anchor: nat, value: Node)
    requires AtKey(s)
    ensures Feed(s, PairEvents(Entry(ScalarNode(key, anchor), value))) == AfterEntry(s, key, value)
    ensures AtKey(AfterEntry(s, key, value))
  {
    var t := s.(pendingKey := Some(key), expectingKey := false);
    FeedConcat(s, [Scalar(key, anchor)], Events(value));
    FeedOne(s, Scalar(key, anchor));
    RootValue(t, value);
  }

  lemma RootValue(t: State, value: Node)
    requires InRoot(t) && t.valueDepth == 0 && !t.expectingKey && t.pendingKey.Some?
    ensures Feed(t, Events(value)) == Seen(FinishValue(Record(t, OwnAnchor(value))), Aliases(value))
  {
    var r := Record(t, OwnAnchor(value));
    SeenTwice(FinishValue(r), {}, {});
    match value
    case ScalarNode(text, anchor) => FeedOne(t, Scalar(text, anchor));
    case AliasNode(target) => FeedOne(t, Alias(target));
    case SeqNode(anchor, items) =>
      NestedItems(r.(valueDepth := 1), items);
      RootBracketed(t, r, SequenceStart(anchor), ItemEvents(items), SequenceEnd, ItemAliases(items));
    case MapNode(anchor, entries) =>
      NestedEntries(r.(valueDepth := 1), entries);
      RootBracketed(t, r, MappingStart(anchor), EntryEvents(entries), MappingEnd, EntryAliases(entries));
  }

  lemma RootBracketed(t: State, r: State, open: Event, inside: seq<Event>, close: Event, aliases: set<nat>)
    requires InRoot(r) && Step(t, open) == r.(valueDepth := 1) && (close == SequenceEnd || close == MappingEnd)
    requires Feed(r.(valueDepth := 1), inside) == Seen(r.(valueDepth := 1), aliases) && r.valueDepth == 0
    ensures Feed(t, [open] + inside + [close]) == Seen(FinishValue(r), aliases)
  {
    FeedConcat(t, [open] + inside, [close]);
    FeedConcat(t, [open], inside);
    FeedOne(t, open);
    FeedOne(Seen(r.(valueDepth := 1), aliases), close);
  }

  /** The entries before the first key that is not a scalar. */
  function Plain(entries: seq<Entry>): (n: nat)
    ensures n <= |entries|
    ensures forall i :: 0 <= i < n ==> entries[i].key.ScalarNode?
    ensures n < |entries| ==> !entries[n].key.ScalarNode?
  {
    if entries == [] || !entries[0].key.ScalarNode? then 0 else 1 + Plain(entries[1..])
  }

  function AfterEntries(s: State, entries: seq<Entry>): State
    requires forall e :: e in entries ==> e.key.ScalarNode?
    decreases |entries|
  {
    if entries == [] then s else
      assert entries[0] in entries;
      AfterEntries(AfterEntry(s, entries[0].key.text, entries[0].value), entries[1..])
  }

  lemma {:induction false} RootEntries(s: State, entries: seq<Entry>)
    requires AtKey(s) && forall e :: e in entries ==> e.key.ScalarNode?
    ensures Feed(s, EntryEvents(entries)) == AfterEntries(s, entries) && AtKey(AfterEntries(s, entries))
    decreases |entries|
  {
    if entries != [] {
      var e := entries[0];
      assert e in entries && e == Entry(ScalarNode(e.key.text, e.key.anchor), e.value);
      FeedConcat(s, PairEvents(e), EntryEvents(entries[1..]));
      RootEntry(s, e.key.text, e.key.anchor, e.value);
      RootEntries(AfterEntry(s, e.key.text, e.value), entries[1..]);
    }
  }

  lemma EntryMeans(s: State, key: string, value: Node, a: nat, k: string)
    ensures var t := AfterEntry(s, key, value);
      && t.referenced == s.referenced + Aliases(value)
      && (k in KeysOf(t.anchorKeys, a) <==> k in KeysOf(s.anchorKeys, a) || (a != 0 && key == k && OwnAnchor(value) == a))
  {
  }

  /** What has been recorded and seen after some entries. */
  lemma {:induction false} EntriesMean(s: State, entries: seq<Entry>, a: nat, k: string)
    requires forall e :: e in entries ==> e.key.ScalarNode?
    ensures var t := AfterEntries(s, entries);
      && t.referenced == s.referenced + EntryAliases(entries)
      && (k in KeysOf(t.anchorKeys, a)
          <==> k in KeysOf(s.anchorKeys, a) || (a != 0 && exists e | e in entries :: e.key.text == k && OwnAnchor(e.value) == a))
    decreases |entries|
  {
    if entries != [] {
      var e := entries[0];
      assert e in entries && forall x :: x in entries <==> x == e || x in entries[1..];
      assert PairAliases(e) == Aliases(e.value) by {
        assert Aliases(e.key) == {};
      }
      EntryMeans(s, e.key.text, e.value, a, k);
      hide Aliases, PairAliases, AfterEntry, KeysOf;
      EntriesMean(AfterEntry(s, e.key.text, e.value), entries[1..], a, k);
    } else {
      assert s.referenced + {} == s.referenced;
    }
  }

  /** Once the root is finished nothing matters any more. */
  lemma {:induction false} Finished(s: State, events: seq<Event>)
    requires s.rootFinished
    ensures Feed(s, events) == s
    decreases |events|
  {
    if events != [] {
      Finished(s, events[1..]);
    }
  }

  /** A stream with one or more documents, the first of which has this root. */
  function StreamOf(root: Node, rest: seq<Event>): seq<Event> {
    [StreamStart, DocumentStart] + Events(root) + rest
  }

  lemma StartOfStream(s: State)
    requires s == START
    ensures Feed(s, [StreamStart, DocumentStart]) == s
  {
    assert [StreamStart, DocumentStart][1..] == [DocumentStart] && [DocumentStart][1..] == [];
  }

  /** A root that is no mapping yields nothing. */
  lemma {:induction false} NoMapping(s: State, events: seq<Event>)
    requires s.rootStarted && !s.rootIsMapping && !s.rootFinished
    ensures Feed(s, events) == s
    decreases |events|
  {
    if events != [] {
      NoMapping(s, events[1..]);
    }
  }

  /** The collector's result on any document, in terms of its tree. */
  predicate TemplateKey(root: Node, key: string) {
    root.MapNode? &&
    var plain := root.entries[..Plain(root.entries)];
    var rest := root.entries[Plain(root.entries)..];
    var last := if rest != [] && rest[0].key.AliasNode? then {rest[0].key.target} else {};
    exists e | e in plain :: e.key.text == key && OwnAnchor(e.value) != 0 && OwnAnchor(e.value) in EntryAliases(plain) + last
  }

  lemma StreamParts(root: Node, rest: seq<Event>, n: nat)
    requires root.MapNode? && n <= |root.entries|
    ensures StreamOf(root, rest) == [StreamStart, DocumentStart] + [MappingStart(root.anchor)]
      + (EntryEvents(root.entries[..n]) + (EntryEvents(root.entries[n..]) + [MappingEnd] + rest))
  {
    SplitEntries(root.entries, n);
    var a, b, d := EntryEvents(root.entries[..n]), EntryEvents(root.entries[n..]), [MappingStart(root.anchor)];
    assert StreamOf(root, rest) == [StreamStart, DocumentStart] + (d + (a + b) + [MappingEnd]) + rest;
    hide *;
    assert [StreamStart, DocumentStart] + (d + (a + b) + [MappingEnd]) + rest
        == [StreamStart, DocumentStart] + d + (a + (b + [MappingEnd] + rest));
  }

  lemma Opened(anchor: nat)
    ensures var s := Step(START, MappingStart(anchor));
      AtKey(s) && Feed(START, [StreamStart, DocumentStart] + [MappingStart(anchor)]) == s
  {
    StartOfStream(START);
    FeedConcat(START, [StreamStart, DocumentStart], [MappingStart(anchor)]);
    FeedOne(START, MappingStart(anchor));
  }

  lemma AfterRoot(root: Node, rest: seq<Event>, key: string)
    requires root.MapNode?
    ensures Returned(Feed(START, StreamOf(root, rest)), key) <==> TemplateKey(root, key)
  {
    var n := Plain(root.entries);
    var plain, others, head := root.entries[..n], root.entries[n..], [StreamStart, DocumentStart] + [MappingStart(root.anchor)];
    var s := Step(START, MappingStart(root.anchor));
    Opened(root.anchor);
    StreamParts(root, rest, n);
    assert root.entries == plain + others;
    hide Feed, Step, StreamOf, EntryEvents;
    RootEntries(s, plain);
    var tail := EntryEvents(others) + [MappingEnd] + rest;
    FeedConcat(START, head, EntryEvents(plain) + tail);
    FeedConcat(s, EntryEvents(plain), tail);
    Closing(AfterEntries(s, plain), others, rest);
    ReturnedMeans(s, plain, others, key);
  }

  lemma {:induction false} SplitEntries(entries: seq<Entry>, n: nat)
    requires n <= |entries|
    ensures EntryEvents(entries) == EntryEvents(entries[..n]) + EntryEvents(entries[n..])
    decreases |entries|
  {
    if n == 0 {
      assert entries[..0] == [] && entries[0..] == entries;
    } else {
      SplitEntries(entries[1..], n - 1);
      assert entries[..n][1..] == entries[1..][..n - 1] && entries[1..][n - 1..] == entries[n..];
    }
  }

  /** The root ends at its end, or at a key that is not a scalar. */
  function Closed(t: State, others: seq<Entry>): State {
    (if others != [] && others[0].key.AliasNode? then Seen(t, {others[0].key.target}) else t).(rootFinished := true)
  }

  lemma Closing(t: State, others: seq<Entry>, rest: seq<Event>)
    requires AtKey(t) && (others != [] ==> !others[0].key.ScalarNode?)
    ensures Feed(t, EntryEvents(others) + [MappingEnd] + rest) == Closed(t, others)
  {
    var events := EntryEvents(others) + [MappingEnd] + rest;
    if others != [] {
      var first := Events(others[0].key);
      assert PairEvents(others[0])[0] == first[0];
      assert EntryEvents(others) == PairEvents(others[0]) + EntryEvents(others[1..]);
      assert events[0] == first[0];
    }
    assert Step(t, events[0]) == Closed(t, others);
    Finished(Closed(t, others), events[1..]);
  }

  lemma ReturnedMeans(s: State, plain: seq<Entry>, others: seq<Entry>, key: string)
    requires s.anchorKeys == map[] && s.referenced == {} && forall e :: e in plain ==> e.key.ScalarNode?
    ensures var last := if others != [] && others[0].key.AliasNode? then {others[0].key.target} else {};
      Returned(Closed(AfterEntries(s, plain), others), key)
      <==> exists e | e in plain :: e.key.text == key && OwnAnchor(e.value) != 0 && OwnAnchor(e.value) in EntryAliases(plain) + last
  {
    var t := AfterEntries(s, plain);
    var last := if others != [] && others[0].key.AliasNode? then {others[0].key.target} else {};
    var c := Closed(t, others);
    EntriesMean(s, plain, 0, key);
    assert c.referenced == EntryAliases(plain) + last;
    if Returned(c, key) {
      var a :| a in c.anchorKeys && a in c.referenced && key in c.anchorKeys[a];
      EntriesMean(s, plain, a, key);
    }
    if exists e | e in plain :: e.key.text == key && OwnAnchor(e.value) != 0 && OwnAnchor(e.value) in EntryAliases(plain) + last {
      var e :| e in plain && e.key.text == key && OwnAnchor(e.value) != 0 && OwnAnchor(e.value) in EntryAliases(plain) + last;
      EntriesMean(s, plain, OwnAnchor(e.value), key);
      assert key in KeysOf(t.anchorKeys, OwnAnchor(e.value));
    }
  }

  /** For every stream: the collector returns the keys of top-level values whose own
      anchor an alias in the root refers to, up to the first key that is not a scalar. */
  lemma CollectorMeans(root: Node, rest: seq<Event>, key: string)
    ensures Returned(Feed(START, StreamOf(root, rest)), key) <==> TemplateKey(root, key)
  {
    if root.MapNode? {
      AfterRoot(root, rest, key);
    } else {
      StartOfStream(START);
      FeedConcat(START, [StreamStart, DocumentStart], Events(root) + rest);
      assert StreamOf(root, rest) == [StreamStart, DocumentStart] + (Events(root) + rest);
      var events := Events(root) + rest;
      assert events[0] == Events(root)[0];
      NoMapping(Step(START, events[0]), events[1..]);
    }
  }

  /** In particular, where all keys of the root are scalars: exactly the keys whose
      own value carries an anchor that some alias under the root refers to. */
  lemma ScalarKeysExactly(anchor: nat, entries: seq<Entry>, rest: seq<Event>, key: string)
    requires forall e :: e in entries ==> e.key.ScalarNode?
    ensures Returned(Feed(START, StreamOf(MapNode(anchor, entries), rest)), key)
      <==> exists e | e in entries :: e.key.text == key && OwnAnchor(e.value) != 0
                                      && OwnAnchor(e.value) in Aliases(MapNode(anchor, entries))
  {
    CollectorMeans(MapNode(anchor, entries), rest, key);
    AllPlain(entries);
    assert entries[..|entries|] == entries;
  }

  lemma {:induction false} AllPlain(entries: seq<Entry>)
    requires forall e :: e in entries ==> e.key.ScalarNode?
    ensures Plain(entries) == |entries|
  {
    if entries != [] {
      assert entries[0] in entries;
      AllPlain(entries[1..]);
    }
  }
}

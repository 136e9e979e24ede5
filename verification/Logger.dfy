/**
 The two slog handlers of platform/logger: CtxHandler keeps groups and nests them when a record is handled, otelHandler
 prefixes keys as soon as a group is opened.  Both must describe the same key/value sequence.
 */
module Logger {
  import opened Prelude

  /* ---------- slog values ---------- */

  /** An attribute whose value is resolved: a plain value or a group. */
  datatype Attr = Field(key: string, text: string) | Group(key: string, attrs: seq<Attr>)

  datatype Pair = Pair(key: string, text: string)

  /** GroupValue and Record.AddAttrs leave out groups without attributes. */
  function NonEmpty(attrs: seq<Attr>): seq<Attr>
  {
    if attrs == [] then []
    else if attrs[0].Group? && attrs[0].attrs == [] then NonEmpty(attrs[1..])
    else [attrs[0]] + NonEmpty(attrs[1..])
  }

  /* ---------- otel.go: eager prefixes ---------- */

  function Flatten(prefix: string, a: Attr): seq<Pair>
    decreases a
  {
    match a
    case Field(key, text) => [Pair(prefix + key, text)]
    case Group(key, attrs) => FlattenAll(if key != "" then prefix + key + "." else prefix, attrs)
  }

  function FlattenAll(prefix: string, attrs: seq<Attr>): seq<Pair>
    decreases attrs
  {
    if attrs == [] then [] else Flatten(prefix, attrs[0]) + FlattenAll(prefix, attrs[1..])
  }

  lemma {:induction false} FlattenConcat(prefix: string, a: seq<Attr>, b: seq<Attr>)
    ensures FlattenAll(prefix, a + b) == FlattenAll(prefix, a) + FlattenAll(prefix, b)
    decreases |a|
  {
    if a == [] {
      assert a + b == b;
    } else {
      assert (a + b)[0] == a[0] && (a + b)[1..] == a[1..] + b;
      FlattenConcat(prefix, a[1..], b);
    }
  }

  lemma FlattenOne(prefix: string, a: Attr)
    ensures FlattenAll(prefix, [a]) == Flatten(prefix, a)
  {
    assert [a][1..] == [];
  }

  /* ---------- what is written: the plain attributes in order ---------- */

  /** A path of indices, from the outermost attributes on, that leads to a plain attribute. */
  predicate IsLeaf(attrs: seq<Attr>, path: seq<nat>)
    decreases |path|
  {
    path != [] && path[0] < |attrs| &&
    match attrs[path[0]]
    case Field(_, _) => |path| == 1
    case Group(_, inner) => IsLeaf(inner, path[1..])
  }

  /** Its key behind the keys of the groups around it; a group without a key adds nothing. */
  function NameAt(attrs: seq<Attr>, path: seq<nat>): string
    requires IsLeaf(attrs, path)
    decreases |path|
  {
    match attrs[path[0]]
    case Field(key, _) => key
    case Group(key, inner) => (if key != "" then key + "." else "") + NameAt(inner, path[1..])
  }

  function TextAt(attrs: seq<Attr>, path: seq<nat>): string
    requires IsLeaf(attrs, path)
    decreases |path|
  {
    match attrs[path[0]]
    case Field(_, text) => text
    case Group(_, inner) => TextAt(inner, path[1..])
  }

  function Under(i: nat, paths: seq<seq<nat>>): (r: seq<seq<nat>>)
    ensures |r| == |paths| && forall k :: 0 <= k < |paths| ==> r[k] == [i] + paths[k]
  {
    seq(|paths|, k requires 0 <= k < |paths| => [i] + paths[k])
  }

  /** The paths to the plain attributes from index i on. */
  function Leaves(attrs: seq<Attr>, i: nat): seq<seq<nat>>
    decreases attrs, |attrs| - i
  {
    if i >= |attrs| then []
    else
      (match attrs[i]
       case Field(_, _) => [[i]]
       case Group(_, inner) => Under(i, Leaves(inner, 0))) + Leaves(attrs, i + 1)
  }

  /** Order of the attributes in a record: the first index that differs decides. */
  predicate Earlier(a: seq<nat>, b: seq<nat>)
  {
    a != [] && b != [] && (a[0] < b[0] || (a[0] == b[0] && Earlier(a[1..], b[1..])))
  }

  ghost predicate InOrder(paths: seq<seq<nat>>)
  {
    forall j, k :: 0 <= j < k < |paths| ==> Earlier(paths[j], paths[k])
  }

  lemma {:induction false} LeavesAre(attrs: seq<Attr>, i: nat)
    ensures forall path :: path in Leaves(attrs, i) <==> IsLeaf(attrs, path) && path[0] >= i
    decreases attrs, |attrs| - i
  {
    if i < |attrs| {
      LeavesAre(attrs, i + 1);
      forall path: seq<nat>
        ensures path in Leaves(attrs, i) <==> IsLeaf(attrs, path) && path[0] >= i
      {
        match attrs[i]
        case Field(_, _) =>
          assert path in [[i]] <==> path == [i];
        case Group(_, inner) =>
          LeavesAre(inner, 0);
          UnderHas(i, Leaves(inner, 0), path);
      }
    }
  }

  lemma UnderHas(i: nat, paths: seq<seq<nat>>, path: seq<nat>)
    ensures path in Under(i, paths) <==> path != [] && path[0] == i && path[1..] in paths
  {
    if path != [] && path[0] == i && path[1..] in paths {
      var k :| 0 <= k < |paths| && paths[k] == path[1..];
      assert Under(i, paths)[k] == path;
    }
  }

  lemma {:induction false} LeavesInOrder(attrs: seq<Attr>, i: nat)
    ensures InOrder(Leaves(attrs, i))
    decreases attrs, |attrs| - i
  {
    if i < |attrs| {
      LeavesInOrder(attrs, i + 1);
      LeavesAre(attrs, i + 1);
      var rest := Leaves(attrs, i + 1);
      var own := match attrs[i]
        case Field(_, _) => [[i]]
        case Group(_, inner) => Under(i, Leaves(inner, 0));
      if attrs[i].Group? {
        LeavesInOrder(attrs[i].attrs, 0);
        UnderInOrder(i, Leaves(attrs[i].attrs, 0));
      }
      forall k | 0 <= k < |own| ensures own[k] != [] && own[k][0] == i {
      }
      OneAfterAnother(own, rest, i);
    }
  }

  lemma UnderInOrder(i: nat, paths: seq<seq<nat>>)
    requires InOrder(paths)
    ensures InOrder(Under(i, paths))
  {
    var under := Under(i, paths);
    forall j, k | 0 <= j < k < |under| ensures Earlier(under[j], under[k]) {
      assert under[j][1..] == paths[j] && under[k][1..] == paths[k];
    }
  }

  lemma OneAfterAnother(own: seq<seq<nat>>, rest: seq<seq<nat>>, i: nat)
    requires InOrder(own) && InOrder(rest)
    requires forall k :: 0 <= k < |own| ==> own[k] != [] && own[k][0] == i
    requires forall path :: path in rest ==> path != [] && path[0] > i
    ensures InOrder(own + rest)
  {
    var all := own + rest;
    forall j, k | 0 <= j < k < |all| ensures Earlier(all[j], all[k]) {
      if j < |own| <= k {
        assert all[k] in rest;
      }
    }
  }

  /** Pairs listed under a prefix, path by path. */
  ghost predicate Lists(pairs: seq<Pair>, prefix: string, attrs: seq<Attr>, paths: seq<seq<nat>>)
  {
    |pairs| == |paths| &&
    forall k :: 0 <= k < |paths| ==>
      IsLeaf(attrs, paths[k]) && pairs[k] == Pair(prefix + NameAt(attrs, paths[k]), TextAt(attrs, paths[k]))
  }

  lemma {:induction false} FlattenLists(prefix: string, attrs: seq<Attr>, i: nat)
    requires i <= |attrs|
    ensures Lists(FlattenAll(prefix, attrs[i..]), prefix, attrs, Leaves(attrs, i))
    decreases attrs, |attrs| - i
  {
    if i < |attrs| {
      assert attrs[i..][0] == attrs[i] && attrs[i..][1..] == attrs[i + 1..];
      FlattenLists(prefix, attrs, i + 1);
      match attrs[i]
      case Field(_, _) =>
        assert IsLeaf(attrs, [i]);
      case Group(key, inner) =>
        var deeper := if key != "" then prefix + key + "." else prefix;
        FlattenLists(deeper, inner, 0);
        assert inner[0..] == inner;
        GroupLists(prefix, attrs, i, FlattenAll(deeper, inner), Leaves(inner, 0));
    }
  }

  lemma GroupLists(prefix: string, attrs: seq<Attr>, i: nat, pairs: seq<Pair>, paths: seq<seq<nat>>)
    requires i < |attrs| && attrs[i].Group?
    requires Lists(pairs, if attrs[i].key != "" then prefix + attrs[i].key + "." else prefix, attrs[i].attrs, paths)
    ensures Lists(pairs, prefix, attrs, Under(i, paths))
  {
    var key, inner, under := attrs[i].key, attrs[i].attrs, Under(i, paths);
    forall k | 0 <= k < |under|
      ensures IsLeaf(attrs, under[k])
      ensures pairs[k] == Pair(prefix + NameAt(attrs, under[k]), TextAt(attrs, under[k]))
    {
      assert under[k][1..] == paths[k];
      if key != "" {
        Regroup(prefix, key + ".", NameAt(inner, paths[k]));
        Regroup(prefix, key, ".");
      }
    }
  }

  /** Flattening writes every plain attribute exactly once, in the order of the record, under the keys that lead to it;
      groups themselves write nothing. */
  lemma FlattenIsLeaves(prefix: string, attrs: seq<Attr>)
    ensures var paths := Leaves(attrs, 0);
            && (forall path :: path in paths <==> IsLeaf(attrs, path))
            && InOrder(paths)
            && Lists(FlattenAll(prefix, attrs), prefix, attrs, paths)
  {
    LeavesAre(attrs, 0);
    LeavesInOrder(attrs, 0);
    FlattenLists(prefix, attrs, 0);
    assert attrs[0..] == attrs;
  }

  /** Leaving out empty groups does not change what is written. */
  lemma {:induction false} FlattenNonEmpty(prefix: string, attrs: seq<Attr>)
    ensures FlattenAll(prefix, NonEmpty(attrs)) == FlattenAll(prefix, attrs)
    decreases |attrs|
  {
    if attrs != [] {
      FlattenNonEmpty(prefix, attrs[1..]);
      if !(attrs[0].Group? && attrs[0].attrs == []) {
        FlattenConcat(prefix, [attrs[0]], NonEmpty(attrs[1..]));
        FlattenOne(prefix, attrs[0]);
      } else {
        assert Flatten(prefix, attrs[0]) == [];
      }
    }
  }

  method FlattenAttr(prefix: string, a: Attr) returns (flat: seq<Pair>)
    ensures flat == Flatten(prefix, a)
    decreases a
  {
    if a.Field? {
      return [Pair(prefix + a.key, a.text)];
    }
    var groupPrefix := prefix;
    if a.key != "" {
      groupPrefix := groupPrefix + (a.key + ".");
      assert groupPrefix == prefix + a.key + ".";
    }
    flat := [];
    for i := 0 to |a.attrs|
      invariant flat == FlattenAll(groupPrefix, a.attrs[..i])
    {
      var more := FlattenAttr(groupPrefix, a.attrs[i]);
      assert a.attrs[..i + 1] == a.attrs[..i] + [a.attrs[i]];
      FlattenConcat(groupPrefix, a.attrs[..i], [a.attrs[i]]);
      FlattenOne(groupPrefix, a.attrs[i]);
      flat := flat + more;
    }
    assert a.attrs[..|a.attrs|] == a.attrs;
  }

  /** What an otelHandler has been told: pairs already written to the exporter, and the open prefix. */
  datatype Prefixed = Prefixed(base: seq<Pair>, prefix: string)
  {
    function Emit(record: seq<Attr>): seq<Pair> { base + FlattenAll(prefix, record) }
  }

  class OtelHandler {
    const base: seq<Pair>
    const prefix: string

    constructor (base: seq<Pair>, prefix: string)
      ensures State() == Prefixed(base, prefix)
    {
      this.base, this.prefix := base, prefix;
    }

    function State(): Prefixed
    {
      Prefixed(base, prefix)
    }

    /** The pairs of one record, as the exporter receives them. */
    method Handle(record: seq<Attr>) returns (pairs: seq<Pair>)
      ensures pairs == State().Emit(record)
    {
      var flat := FlattenList(record);
      return base + flat;
    }

    method FlattenList(attrs: seq<Attr>) returns (flat: seq<Pair>)
      ensures flat == FlattenAll(prefix, attrs)
    {
      flat := [];
      for i := 0 to |attrs|
        invariant flat == FlattenAll(prefix, attrs[..i])
      {
        var more := FlattenAttr(prefix, attrs[i]);
        assert attrs[..i + 1] == attrs[..i] + [attrs[i]];
        FlattenConcat(prefix, attrs[..i], [attrs[i]]);
        FlattenOne(prefix, attrs[i]);
        flat := flat + more;
      }
      assert attrs[..|attrs|] == attrs;
    }

    method WithAttrs(attrs: seq<Attr>) returns (h: OtelHandler)
      ensures h.State() == Told(State(), With(attrs))
    {
      var flat := FlattenList(attrs);
      h := new OtelHandler(base + flat, prefix);
    }

    method WithGroup(name: string) returns (h: OtelHandler)
      ensures h.State() == Told(State(), Open(name))
    {
      if name == "" {
        return this;
      }
      h := new OtelHandler(base, prefix + name + ".");
    }
  }

  /** A call that derives a handler. */
  datatype Op = With(attrs: seq<Attr>) | Open(name: string)

  function Told(p: Prefixed, op: Op): Prefixed
  {
    match op
    case With(attrs) => p.(base := p.base + FlattenAll(p.prefix, attrs))
    case Open(name) => if name == "" then p else p.(prefix := p.prefix + name + ".")
  }

  function ToldAll(p: Prefixed, ops: seq<Op>): Prefixed
    decreases |ops|
  {
    if ops == [] then p else ToldAll(Told(p, ops[0]), ops[1..])
  }

  /* ---------- handler.go: deferred nesting ---------- */

  /** An open group and the attributes added inside it. */
  datatype Level = Level(name: string, attrs: seq<Attr>)

  datatype Nested = Nested(inner: Prefixed, groups: seq<Level>)
  {
    /** What Handle hands to the inner handler. */
    function Emit(record: seq<Attr>, requestId: string): seq<Pair>
    {
      var nested := if groups == [] then record else NonEmpty(Nest(groups, record));
      inner.Emit(nested + if requestId != "" then [Field("request_id", requestId)] else [])
    }
  }

  /** The record's attributes inside the groups, from the innermost to the outermost. */
  function Nest(groups: seq<Level>, inner: seq<Attr>): seq<Attr>
  {
    if groups == [] then inner
    else
      var last := groups[|groups| - 1];
      Nest(groups[..|groups| - 1], [Group(last.name, NonEmpty(last.attrs + inner))])
  }

  function Derived(n: Nested, op: Op): Nested
  {
    match op
    case With(attrs) =>
      if attrs == [] then n
      else if n.groups == [] then Nested(Told(n.inner, op), [])
      else
        var last := n.groups[|n.groups| - 1];
        n.(groups := n.groups[|n.groups| - 1 := last.(attrs := last.attrs + attrs)])
    case Open(name) => if name == "" then n else n.(groups := n.groups + [Level(name, [])])
  }

  function DerivedAll(n: Nested, ops: seq<Op>): Nested
    decreases |ops|
  {
    if ops == [] then n else DerivedAll(Derived(n, ops[0]), ops[1..])
  }

  /* ---------- the two agree ---------- */

  /** The prefix that otelHandler has after opening the groups. */
  function OpenPrefix(prefix: string, groups: seq<Level>): string
  {
    if groups == [] then prefix
    else OpenPrefix(prefix, groups[..|groups| - 1]) + groups[|groups| - 1].name + "."
  }

  /** What it has written for the attributes added inside them. */
  function Written(prefix: string, groups: seq<Level>): seq<Pair>
  {
    if groups == [] then []
    else Written(prefix, groups[..|groups| - 1]) + FlattenAll(OpenPrefix(prefix, groups), groups[|groups| - 1].attrs)
  }

  ghost predicate Named(groups: seq<Level>)
  {
    forall i :: 0 <= i < |groups| ==> groups[i].name != ""
  }

  /** Flattening the nested groups gives the groups' own attributes and then the record's, each with its eager
      prefix. */
  lemma {:induction false} NestFlattens(prefix: string, groups: seq<Level>, inner: seq<Attr>)
    requires Named(groups)
    ensures FlattenAll(prefix, Nest(groups, inner)) ==
            Written(prefix, groups) + FlattenAll(OpenPrefix(prefix, groups), inner)
    decreases |groups|
  {
    if groups != [] {
      var init, last := groups[..|groups| - 1], groups[|groups| - 1];
      var one, deeper := Group(last.name, NonEmpty(last.attrs + inner)), OpenPrefix(prefix, groups);
      NestFlattens(prefix, init, [one]);
      FlattenOne(OpenPrefix(prefix, init), one);
      FlattenNonEmpty(deeper, last.attrs + inner);
      FlattenConcat(deeper, last.attrs, inner);
    }
  }

  /** A CtxHandler and an otelHandler that were told the same. */
  ghost predicate Alike(n: Nested, p: Prefixed)
  {
    && Named(n.groups)
    && p.prefix == OpenPrefix(n.inner.prefix, n.groups)
    && p.base == n.inner.base + Written(n.inner.prefix, n.groups)
  }

  lemma OpenKeepsAlike(n: Nested, p: Prefixed, name: string)
    requires Alike(n, p)
    ensures Alike(Derived(n, Open(name)), Told(p, Open(name)))
  {
    if name != "" {
      var groups := n.groups + [Level(name, [])];
      assert groups[..|groups| - 1] == n.groups;
    }
  }

  lemma WithKeepsAlike(n: Nested, p: Prefixed, attrs: seq<Attr>)
    requires Alike(n, p)
    ensures Alike(Derived(n, With(attrs)), Told(p, With(attrs)))
  {
    var k := |n.groups| - 1;
    if attrs != [] && k >= 0 {
      var last := n.groups[k];
      var groups := n.groups[k := last.(attrs := last.attrs + attrs)];
      assert groups[..k] == n.groups[..k];
      FlattenConcat(OpenPrefix(n.inner.prefix, n.groups), last.attrs, attrs);
    }
  }

  lemma {:induction false} RunKeepsAlike(n: Nested, p: Prefixed, ops: seq<Op>)
    requires Alike(n, p)
    ensures Alike(DerivedAll(n, ops), ToldAll(p, ops))
    decreases |ops|
  {
    if ops != [] {
      match ops[0] {
        case With(attrs) => WithKeepsAlike(n, p, attrs);
        case Open(name) => OpenKeepsAlike(n, p, name);
      }
      RunKeepsAlike(Derived(n, ops[0]), Told(p, ops[0]), ops[1..]);
    }
  }

  /** What the inner handler flattens, without the request id, is what the eager handler writes for the groups. */
  lemma NestedIsWritten(prefix: string, groups: seq<Level>, record: seq<Attr>, nested: seq<Attr>)
    requires Named(groups)
    requires nested == if groups == [] then record else NonEmpty(Nest(groups, record))
    ensures FlattenAll(prefix, nested) == Written(prefix, groups) + FlattenAll(OpenPrefix(prefix, groups), record)
  {
    if groups != [] {
      FlattenNonEmpty(prefix, Nest(groups, record));
      NestFlattens(prefix, groups, record);
    }
  }

  lemma RequestIdLast(prefix: string, nested: seq<Attr>, requestId: string)
    ensures FlattenAll(prefix, nested + if requestId != "" then [Field("request_id", requestId)] else []) ==
            FlattenAll(prefix, nested) + if requestId != "" then [Pair(prefix + "request_id", requestId)] else []
  {
    var id := Field("request_id", requestId);
    FlattenConcat(prefix, nested, [id]);
    FlattenOne(prefix, id);
    assert nested + [] == nested;
  }

  lemma AlikeEmitAlike(n: Nested, p: Prefixed, record: seq<Attr>, requestId: string)
    requires Alike(n, p)
    ensures n.Emit(record, requestId) ==
            p.Emit(record) + if requestId != "" then [Pair(n.inner.prefix + "request_id", requestId)] else []
  {
    var nested := if n.groups == [] then record else NonEmpty(Nest(n.groups, record));
    NestedIsWritten(n.inner.prefix, n.groups, record, nested);
    RequestIdLast(n.inner.prefix, nested, requestId);
    var written, own := Written(n.inner.prefix, n.groups), FlattenAll(p.prefix, record);
    var id := if requestId != "" then [Pair(n.inner.prefix + "request_id", requestId)] else [];
    Regroup(n.inner.base, written + own, id);
    Regroup(n.inner.base, written, own);
  }

  /** For every sequence of WithAttrs and WithGroup calls and every record, the handler that nests when the record is
      handled writes exactly what the handler that prefixes at once writes, and then the unprefixed request_id. */
  lemma HandlersAgree(ops: seq<Op>, base: seq<Pair>, record: seq<Attr>, requestId: string)
    ensures DerivedAll(Nested(Prefixed(base, ""), []), ops).Emit(record, requestId) ==
            ToldAll(Prefixed(base, ""), ops).Emit(record) +
            if requestId != "" then [Pair("request_id", requestId)] else []
  {
    var n, p := Nested(Prefixed(base, ""), []), Prefixed(base, "");
    assert base + [] == base;
    RunKeepsAlike(n, p, ops);
    InnerPrefixStays(n, ops);
    AlikeEmitAlike(DerivedAll(n, ops), ToldAll(p, ops), record, requestId);
    assert "" + "request_id" == "request_id";
  }

  /** CtxHandler never opens a group in the inner handler. */
  lemma {:induction false} InnerPrefixStays(n: Nested, ops: seq<Op>)
    ensures DerivedAll(n, ops).inner.prefix == n.inner.prefix
    decreases |ops|
  {
    if ops != [] {
      InnerPrefixStays(Derived(n, ops[0]), ops[1..]);
    }
  }

  /* ---------- the objects ---------- */

  /** A Go slice: the first `len` elements of a backing array that other slices may share. */
  datatype Slice<!T> = Slice(data: array<T>, len: nat)
  {
    predicate Valid() { len <= data.Length }

    function View(): seq<T>
      requires Valid()
      reads data
    {
      data[..len]
    }
  }

  method Clone<T>(s: Slice<T>) returns (r: Slice<T>)
    requires s.Valid()
    ensures r.Valid() && fresh(r.data) && r.View() == s.View()
  {
    var data := new T[s.len](i requires 0 <= i < s.len reads s.data => s.data[i]);
    r := Slice(data, s.len);
  }

  /** append: writes into the shared backing array when it has room, and moves to a larger one otherwise. */
  method Append<T>(s: Slice<T>, more: seq<T>) returns (r: Slice<T>)
    requires s.Valid()
    modifies s.data
    ensures r.Valid() && (r.data == s.data || fresh(r.data))
    ensures r.View() == old(s.View()) + more
  {
    if s.len + |more| <= s.data.Length {
      for i := 0 to |more|
        modifies s.data
        invariant s.data[..s.len + i] == old(s.View()) + more[..i]
      {
        s.data[s.len + i] := more[i];
      }
      assert more[..|more|] == more;
      return Slice(s.data, s.len + |more|);
    }
    var spare: int := *;
    if spare < 0 {
      spare := 0;
    }
    ghost var before := s.View();
    var data := new T[s.len + |more| + spare](
      i requires 0 <= i < s.len + |more| + spare reads s.data =>
        if i < s.len then s.data[i] else if i < s.len + |more| then more[i - s.len] else more[0]);
    r := Slice(data, s.len + |more|);
    assert r.View() == before + more;
  }

  /** A group as CtxHandler stores it. */
  datatype GroupRef = GroupRef(name: string, attrs: Slice<Attr>)

  ghost predicate ValidRefs(refs: seq<GroupRef>)
  {
    forall i :: 0 <= i < |refs| ==> refs[i].attrs.Valid()
  }

  ghost function Arrays(refs: seq<GroupRef>): set<object>
  {
    set i | 0 <= i < |refs| :: refs[i].attrs.data
  }

  ghost function Levels(refs: seq<GroupRef>): seq<Level>
    requires ValidRefs(refs)
    reads Arrays(refs)
  {
    seq(|refs|, i requires 0 <= i < |refs| reads Arrays(refs) => Level(refs[i].name, refs[i].attrs.View()))
  }

  class CtxHandler {
    const handler: OtelHandler
    const groups: Slice<GroupRef>

    constructor (handler: OtelHandler, groups: Slice<GroupRef>)
      ensures this.handler == handler && this.groups == groups
    {
      this.handler, this.groups := handler, groups;
    }

    ghost predicate Valid()
      reads groups.data
    {
      groups.Valid() && ValidRefs(groups.View())
    }

    ghost function Frame(): set<object>
      reads groups.data
    {
      {groups.data} + if groups.Valid() then Arrays(groups.View()) else {}
    }

    /** What the handler has been told. */
    ghost function State(): Nested
      requires Valid()
      reads groups.data, Frame()
    {
      Nested(handler.State(), Levels(groups.View()))
    }

    /** No `modifies` clause: this handler, and every handler derived from it before, keeps its state. */
    method WithAttrs(attrs: seq<Attr>) returns (h: CtxHandler)
      requires Valid()
      ensures h.Valid() && h.State() == Derived(old(State()), With(attrs))
    {
      if |attrs| == 0 {
        return this;
      }
      if groups.len == 0 {
        var inner := handler.WithAttrs(attrs);
        var none := new GroupRef[0];
        h := new CtxHandler(inner, Slice(none, 0));
        return;
      }
      var copy := Clone(groups);
      var k := copy.len - 1;
      var last := copy.data[k];
      var own := Clone(last.attrs);
      own := Append(own, attrs);
      copy.data[k] := last.(attrs := own);
      h := new CtxHandler(handler, copy);
      assert copy.View() == groups.View()[k := last.(attrs := own)];
    }

    method WithGroup(name: string) returns (h: CtxHandler)
      requires Valid()
      ensures h.Valid() && h.State() == Derived(old(State()), Open(name))
    {
      if name == "" {
        return this;
      }
      var noAttrs := new Attr[0];
      var copy := Clone(groups);
      copy := Append(copy, [GroupRef(name, Slice(noAttrs, 0))]);
      h := new CtxHandler(handler, copy);
    }

    method NestRecord(record: seq<Attr>) returns (out: seq<Attr>)
      requires Valid()
      ensures out == NonEmpty(Nest(old(State()).groups, record))
    {
      ghost var levels := State().groups;
      var inner := record;
      assert levels[..|levels|] == levels;
      for i := groups.len downto 0
        invariant Nest(levels, record) == Nest(levels[..i], inner)
      {
        var g := groups.data[i];
        assert g == groups.View()[i] && levels[i] == Level(g.name, g.attrs.View());
        var attrs := g.attrs.data[..g.attrs.len] + inner;
        inner := [Group(g.name, NonEmpty(attrs))];
        assert levels[..i + 1][..i] == levels[..i];
      }
      out := NonEmpty(inner);
    }

    method Handle(record: seq<Attr>, requestId: string) returns (pairs: seq<Pair>)
      requires Valid()
      ensures pairs == old(State()).Emit(record, requestId)
    {
      var r := record;
      ghost var st := State();
      assert |st.groups| == groups.len;
      if groups.len > 0 {
        r := NestRecord(record);
      }
      assert r == if st.groups == [] then record else NonEmpty(Nest(st.groups, record));
      assert r + [] == r;
      if requestId != "" {
        r := r + [Field("request_id", requestId)];
      }
      pairs := handler.Handle(r);
      assert st.inner == handler.State();
    }
  }

  /** A whole sequence of With and WithGroup calls. */
  method Derive(parent: CtxHandler, ops: seq<Op>) returns (child: CtxHandler)
    requires parent.Valid()
    ensures child.Valid() && child.State() == DerivedAll(old(parent.State()), ops)
  {
    child := parent;
    var i := 0;
    assert ops[0..] == ops;
    while i < |ops|
      invariant i <= |ops| && child.Valid()
      invariant DerivedAll(child.State(), ops[i..]) == DerivedAll(old(parent.State()), ops)
    {
      assert ops[i..][0] == ops[i] && ops[i..][1..] == ops[i + 1..];
      ghost var before := child.State();
      match ops[i] {
        case With(attrs) => child := child.WithAttrs(attrs);
        case Open(name) => child := child.WithGroup(name);
      }
      assert child.State() == Derived(before, ops[i]);
      i := i + 1;
    }
  }

  /** Whatever is derived from a parent, what an older child of it writes stays the same. */
  method DeriveBeside(parent: CtxHandler, sibling: CtxHandler, ops: seq<Op>, record: seq<Attr>, requestId: string)
    returns (child: CtxHandler, pairs: seq<Pair>)
    requires parent.Valid() && sibling.Valid()
    ensures child.Valid() && child.State() == DerivedAll(old(parent.State()), ops)
    ensures pairs == old(sibling.State()).Emit(record, requestId)
  {
    child := Derive(parent, ops);
    assert sibling.State() == old(sibling.State());
    ghost var derived := child.State();
    pairs := sibling.Handle(record, requestId);
    assert child.State() == derived;
  }
}

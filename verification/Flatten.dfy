/**
 Validation errors as an ordered list of violations: platform/apperr/ozzoerr/ozzoerr.go.  A validation.Errors is a Go
 map, whose iteration order changes from run to run; the list must not depend on it.
 */
module Flatten {
  import opened Prelude

  /** An error: a leaf, a validation.Errors, or an error that wraps others. */
  datatype Err = Leaf(text: bytes) | Fields(errs: map<bytes, Err>) | Wraps(text: bytes, causes: seq<Err>)

  datatype Violation = Violation(field: bytes, message: bytes)

  /** errors.As: the first validation.Errors in pre-order, if there is one. */
  function As(err: Err): (r: Option<Err>)
    ensures r.Some? ==> r.value.Fields? && (r.value == err || r.value < err)
    decreases err
  {
    match err
    case Leaf(_) => None
    case Fields(_) => Some(err)
    case Wraps(_, causes) => AsIn(causes)
  }

  function AsIn(causes: seq<Err>): (r: Option<Err>)
    ensures r.Some? ==> r.value.Fields?
    ensures r.Some? ==> exists i :: 0 <= i < |causes| && (r.value == causes[i] || r.value < causes[i])
    decreases causes
  {
    if causes == [] then None
    else if As(causes[0]).Some? then As(causes[0])
    else AsIn(causes[1..])
  }

  /** err.Error() of an error that holds no validation.Errors. */
  function Text(err: Err): bytes
    requires As(err).None?
  {
    err.text
  }

  /* ---------- key order ---------- */

  /** Go's order on strings: byte by byte, a proper prefix first. */
  predicate Less(a: bytes, b: bytes)
  {
    b != [] && (a == [] || a[0] < b[0] || (a[0] == b[0] && Less(a[1..], b[1..])))
  }

  lemma {:induction false} LessTotal(a: bytes, b: bytes)
    ensures Less(a, b) || Less(b, a) || a == b
  {
    if a != [] && b != [] {
      LessTotal(a[1..], b[1..]);
      assert a == [a[0]] + a[1..] && b == [b[0]] + b[1..];
    }
  }

  lemma {:induction false} LessTransitive(a: bytes, b: bytes, c: bytes)
    requires Less(a, b) && Less(b, c)
    ensures Less(a, c)
  {
    if a != [] && a[0] == b[0] && b[0] == c[0] {
      LessTransitive(a[1..], b[1..], c[1..]);
    }
  }

  lemma {:induction false} LessIrreflexive(a: bytes)
    ensures !Less(a, a)
  {
    if a != [] {
      LessIrreflexive(a[1..]);
    }
  }

  ghost predicate Sorted(keys: seq<bytes>)
  {
    forall i, j :: 0 <= i < j < |keys| ==> Less(keys[i], keys[j])
  }

  /** sort.Strings on distinct keys. */
  function Insert(k: bytes, keys: seq<bytes>): seq<bytes>
  {
    if keys == [] || Less(k, keys[0]) then [k] + keys else [keys[0]] + Insert(k, keys[1..])
  }

  function Sort(keys: seq<bytes>): seq<bytes>
  {
    if keys == [] then [] else Insert(keys[0], Sort(keys[1..]))
  }

  lemma {:induction false} InsertMembers(k: bytes, keys: seq<bytes>, x: bytes)
    ensures x in Insert(k, keys) <==> x == k || x in keys
  {
    if keys != [] && !Less(k, keys[0]) {
      InsertMembers(k, keys[1..], x);
    }
  }

  lemma {:induction false} InsertSorts(k: bytes, keys: seq<bytes>)
    requires Sorted(keys) && k !in keys
    ensures Sorted(Insert(k, keys))
  {
    if keys != [] {
      var tail := keys[1..];
      if Less(k, keys[0]) {
        forall j | 0 <= j < |keys| ensures Less(k, keys[j]) {
          if j > 0 { LessTransitive(k, keys[0], keys[j]); }
        }
      } else {
        LessTotal(k, keys[0]);
        InsertSorts(k, tail);
        var rest := Insert(k, tail);
        forall j | 0 <= j < |rest| ensures Less(keys[0], rest[j]) {
          InsertMembers(k, tail, rest[j]);
          assert rest[j] in rest;
          if rest[j] in tail {
            var i :| 0 <= i < |tail| && tail[i] == rest[j];
            assert keys[i + 1] == tail[i];
          }
        }
      }
    }
  }

  ghost predicate Distinct(keys: seq<bytes>)
  {
    forall i, j :: 0 <= i < j < |keys| ==> keys[i] != keys[j]
  }

  lemma {:induction false} SortSorts(keys: seq<bytes>)
    requires Distinct(keys)
    ensures Sorted(Sort(keys)) && forall x :: x in Sort(keys) <==> x in keys
  {
    if keys != [] {
      SortSorts(keys[1..]);
      InsertSorts(keys[0], Sort(keys[1..]));
      forall x ensures x in Sort(keys) <==> x in keys {
        InsertMembers(keys[0], Sort(keys[1..]), x);
      }
    }
  }

  /** Two sorted lists of the same keys are the same list. */
  lemma {:induction false} SortedUnique(a: seq<bytes>, b: seq<bytes>)
    requires Sorted(a) && Sorted(b) && forall x :: x in a <==> x in b
    ensures a == b
  {
    assert b != [] ==> b[0] in b;
    if a != [] {
      assert a[0] in a;
      assert b != [] && b[0] in b;
      FirstIsLeast(a, b[0]);
      FirstIsLeast(b, a[0]);
      if Less(a[0], b[0]) && Less(b[0], a[0]) {
        LessTransitive(a[0], b[0], a[0]);
        LessIrreflexive(a[0]);
      }
      assert a[0] == b[0];
      forall x ensures x in a[1..] <==> x in b[1..] {
        TailMembers(a, x);
        TailMembers(b, x);
      }
      SortedUnique(a[1..], b[1..]);
      assert a == [a[0]] + a[1..] && b == [b[0]] + b[1..];
    }
  }

  lemma FirstIsLeast(keys: seq<bytes>, x: bytes)
    requires Sorted(keys) && x in keys
    ensures x == keys[0] || Less(keys[0], x)
  {
  }

  lemma TailMembers(keys: seq<bytes>, x: bytes)
    requires Sorted(keys) && keys != []
    ensures x in keys[1..] <==> x in keys && x != keys[0]
  {
    LessIrreflexive(keys[0]);
    if x in keys && x != keys[0] {
      var i :| 0 <= i < |keys| && keys[i] == x;
      assert keys[1..][i - 1] == x;
    }
  }

  ghost predicate Enumerates(keys: seq<bytes>, s: set<bytes>)
  {
    Distinct(keys) && forall x :: x in keys <==> x in s
  }

  /** Some list of a set's elements. */
  ghost function AnyOrder(s: set<bytes>): (keys: seq<bytes>)
    ensures Enumerates(keys, s)
  {
    if s == {} then []
    else
      var k :| k in s;
      [k] + AnyOrder(s - {k})
  }

  /** The keys of a map in order. */
  ghost function SortedKeys(errs: map<bytes, Err>): (keys: seq<bytes>)
    ensures Sorted(keys) && forall x :: x in keys <==> x in errs
  {
    SortSorts(AnyOrder(errs.Keys));
    Sort(AnyOrder(errs.Keys))
  }

  /** Whatever order the map is iterated in, sorting gives the same list. */
  lemma OrderDoesNotMatter(keys: seq<bytes>, errs: map<bytes, Err>)
    requires Enumerates(keys, errs.Keys)
    ensures Sort(keys) == SortedKeys(errs)
  {
    SortSorts(keys);
    SortedUnique(Sort(keys), SortedKeys(errs));
  }

  /* ---------- the listing ---------- */

  /** A leaf: the keys that lead to it and its text. */
  datatype Entry = Entry(path: seq<bytes>, text: bytes)

  ghost function Listing(err: Err): seq<Entry>
    decreases err, 1, 0
  {
    match As(err)
    case None => [Entry([], Text(err))]
    case Some(found) => ListKeys(found, SortedKeys(found.errs))
  }

  ghost function ListKeys(fields: Err, keys: seq<bytes>): seq<Entry>
    requires fields.Fields? && forall k :: k in keys ==> k in fields.errs
    decreases fields, 0, |keys|
  {
    if keys == [] then []
    else Under(keys[0], Listing(fields.errs[keys[0]])) + ListKeys(fields, keys[1..])
  }

  function Under(k: bytes, entries: seq<Entry>): (r: seq<Entry>)
    ensures |r| == |entries|
  {
    seq(|entries|, i requires 0 <= i < |entries| => Entry([k] + entries[i].path, entries[i].text))
  }

  /** The text of the leaf that a path of keys leads to. */
  function LeafAt(err: Err, path: seq<bytes>): Option<bytes>
    decreases |path|
  {
    match As(err)
    case None => if path == [] then Some(Text(err)) else None
    case Some(found) =>
      if path == [] || path[0] !in found.errs then None else LeafAt(found.errs[path[0]], path[1..])
  }

  /** Paths in the order of their keys, level by level. */
  predicate Before(p: seq<bytes>, q: seq<bytes>)
  {
    p != [] && q != [] && (Less(p[0], q[0]) || (p[0] == q[0] && Before(p[1..], q[1..])))
  }

  ghost predicate InOrder(entries: seq<Entry>)
  {
    forall i, j :: 0 <= i < j < |entries| ==> Before(entries[i].path, entries[j].path)
  }

  lemma UnderMembers(k: bytes, entries: seq<Entry>, e: Entry)
    ensures e in Under(k, entries) <==> e.path != [] && e.path[0] == k && Entry(e.path[1..], e.text) in entries
  {
    var under := Under(k, entries);
    if e in under {
      var i :| 0 <= i < |under| && under[i] == e;
      assert e.path[1..] == entries[i].path;
    }
    if e.path != [] && e.path[0] == k && Entry(e.path[1..], e.text) in entries {
      var i :| 0 <= i < |entries| && entries[i] == Entry(e.path[1..], e.text);
      assert [k] + entries[i].path == e.path;
      assert under[i] == e;
    }
  }

  /** The listing holds exactly the leaves of the tree, each under the path that leads to it. */
  lemma {:induction false} ListingIsLeaves(err: Err, e: Entry)
    ensures e in Listing(err) <==> LeafAt(err, e.path) == Some(e.text)
    decreases err, 1, 0
  {
    match As(err)
    case None =>
    case Some(found) => ListKeysIsLeaves(found, SortedKeys(found.errs), e);
  }

  lemma {:induction false} ListKeysIsLeaves(fields: Err, keys: seq<bytes>, e: Entry)
    requires fields.Fields? && forall k :: k in keys ==> k in fields.errs
    ensures e in ListKeys(fields, keys) <==>
            e.path != [] && e.path[0] in keys && LeafAt(fields.errs[e.path[0]], e.path[1..]) == Some(e.text)
    decreases fields, 0, |keys|
  {
    if keys != [] {
      UnderMembers(keys[0], Listing(fields.errs[keys[0]]), e);
      ListKeysIsLeaves(fields, keys[1..], e);
      if e.path != [] && e.path[0] == keys[0] {
        ListingIsLeaves(fields.errs[keys[0]], Entry(e.path[1..], e.text));
      }
    }
  }

  lemma UnderInOrder(k: bytes, entries: seq<Entry>)
    requires InOrder(entries)
    ensures InOrder(Under(k, entries))
  {
    var under := Under(k, entries);
    forall i, j | 0 <= i < j < |under| ensures Before(under[i].path, under[j].path) {
      assert under[i].path[1..] == entries[i].path && under[j].path[1..] == entries[j].path;
    }
  }

  /** The listing is strictly ordered by its key paths, so no leaf is listed twice. */
  lemma {:induction false} ListingInOrder(err: Err)
    ensures InOrder(Listing(err))
    decreases err, 1, 0
  {
    match As(err)
    case None =>
    case Some(found) => ListKeysInOrder(found, SortedKeys(found.errs));
  }

  lemma {:induction false} ListKeysInOrder(fields: Err, keys: seq<bytes>)
    requires fields.Fields? && (forall k :: k in keys ==> k in fields.errs) && Sorted(keys)
    ensures InOrder(ListKeys(fields, keys))
    decreases fields, 0, |keys|
  {
    if keys != [] {
      var k, tail := keys[0], keys[1..];
      var head, rest := Under(k, Listing(fields.errs[k])), ListKeys(fields, tail);
      ListingInOrder(fields.errs[k]);
      UnderInOrder(k, Listing(fields.errs[k]));
      ListKeysInOrder(fields, tail);
      forall j | 0 <= j < |rest| ensures rest[j].path != [] && Less(k, rest[j].path[0]) {
        ListKeysIsLeaves(fields, tail, rest[j]);
        FirstIsLeast(keys, rest[j].path[0]);
        TailMembers(keys, rest[j].path[0]);
      }
      HeadThenRest(head, rest, k);
    }
  }

  lemma HeadThenRest(head: seq<Entry>, rest: seq<Entry>, k: bytes)
    requires InOrder(head) && InOrder(rest)
    requires forall i :: 0 <= i < |head| ==> head[i].path != [] && head[i].path[0] == k
    requires forall j :: 0 <= j < |rest| ==> rest[j].path != [] && Less(k, rest[j].path[0])
    ensures InOrder(head + rest)
  {
  }

  lemma {:induction false} BeforeIsStrict(p: seq<bytes>)
    ensures !Before(p, p)
  {
    if p != [] {
      LessIrreflexive(p[0]);
      BeforeIsStrict(p[1..]);
    }
  }

  /** Each leaf is listed at exactly one place. */
  lemma EachLeafOnce(err: Err, path: seq<bytes>)
    ensures LeafAt(err, path).Some? <==> exists i :: 0 <= i < |Listing(err)| && Listing(err)[i].path == path
    ensures forall i, j :: 0 <= i < j < |Listing(err)| ==> Listing(err)[i].path != Listing(err)[j].path
  {
    var entries := Listing(err);
    ListingInOrder(err);
    forall i, j | 0 <= i < j < |entries| ensures entries[i].path != entries[j].path {
      BeforeIsStrict(entries[i].path);
    }
    if i :| 0 <= i < |entries| && entries[i].path == path {
      ListingIsLeaves(err, entries[i]);
    }
    if LeafAt(err, path).Some? {
      var e := Entry(path, LeafAt(err, path).value);
      ListingIsLeaves(err, e);
      var i :| 0 <= i < |entries| && entries[i] == e;
      assert entries[i].path == path;
    }
  }

  /* ---------- Flatten ---------- */

  function FieldName(prefix: bytes, k: bytes): bytes
  {
    if prefix != [] then prefix + "." + k else k
  }

  /** The dotted path of a leaf. */
  function Dotted(prefix: bytes, path: seq<bytes>): bytes
    decreases |path|
  {
    if path == [] then prefix else Dotted(FieldName(prefix, path[0]), path[1..])
  }

  function Rendered(prefix: bytes, entries: seq<Entry>): (r: seq<Violation>)
    ensures |r| == |entries|
  {
    seq(|entries|, i requires 0 <= i < |entries| => Violation(Dotted(prefix, entries[i].path), entries[i].text))
  }

  lemma RenderedUnder(prefix: bytes, k: bytes, entries: seq<Entry>)
    ensures Rendered(prefix, Under(k, entries)) == Rendered(FieldName(prefix, k), entries)
  {
    var under := Under(k, entries);
    forall i | 0 <= i < |entries| ensures Rendered(prefix, under)[i] == Rendered(FieldName(prefix, k), entries)[i] {
      assert under[i].path[1..] == entries[i].path;
    }
  }

  lemma RenderedConcat(prefix: bytes, a: seq<Entry>, b: seq<Entry>)
    ensures Rendered(prefix, a + b) == Rendered(prefix, a) + Rendered(prefix, b)
  {
  }

  lemma {:induction false} ListKeysConcat(fields: Err, a: seq<bytes>, b: seq<bytes>)
    requires fields.Fields? && (forall k :: k in a ==> k in fields.errs) && (forall k :: k in b ==> k in fields.errs)
    ensures ListKeys(fields, a + b) == ListKeys(fields, a) + ListKeys(fields, b)
    decreases |a|
  {
    if a == [] {
      assert a + b == b;
    } else {
      assert (a + b)[1..] == a[1..] + b;
      ListKeysConcat(fields, a[1..], b);
    }
  }

  lemma ListOneKey(fields: Err, k: bytes)
    requires fields.Fields? && k in fields.errs
    ensures ListKeys(fields, [k]) == Under(k, Listing(fields.errs[k]))
  {
    assert [k][1..] == [];
  }

  lemma RenderedNext(prefix: bytes, fields: Err, keys: seq<bytes>, i: nat)
    requires fields.Fields? && (forall k :: k in keys ==> k in fields.errs) && i < |keys|
    ensures Rendered(prefix, ListKeys(fields, keys[..i + 1])) ==
            Rendered(prefix, ListKeys(fields, keys[..i])) +
            Rendered(FieldName(prefix, keys[i]), Listing(fields.errs[keys[i]]))
  {
    var k := keys[i];
    assert keys[..i + 1] == keys[..i] + [k];
    ListKeysConcat(fields, keys[..i], [k]);
    ListOneKey(fields, k);
    RenderedUnder(prefix, k, Listing(fields.errs[k]));
    RenderedConcat(prefix, ListKeys(fields, keys[..i]), Under(k, Listing(fields.errs[k])));
  }

  /** The keys of a map, in the order an iteration happens to meet them. */
  method IterateKeys(errs: map<bytes, Err>) returns (keys: seq<bytes>)
    ensures Enumerates(keys, errs.Keys)
  {
    keys := [];
    var rest := errs.Keys;
    while rest != {}
      invariant rest <= errs.Keys && Enumerates(keys, errs.Keys - rest)
      decreases |rest|
    {
      var k :| k in rest;
      keys := keys + [k];
      rest := rest - {k};
    }
  }

  /** The violations are the listing of the tree with dotted paths, whatever order the maps are iterated in. */
  method Flatten(prefix: bytes, err: Err) returns (out: seq<Violation>)
    ensures out == Rendered(prefix, Listing(err))
    decreases err
  {
    var found := As(err);
    if found.None? {
      return [Violation(prefix, Text(err))];
    }
    var keys := IterateKeys(found.value.errs);
    OrderDoesNotMatter(keys, found.value.errs);
    keys := Sort(keys);
    out := [];
    for i := 0 to |keys|
      invariant out == Rendered(prefix, ListKeys(found.value, keys[..i]))
    {
      var k := keys[i];
      var field := k;
      if prefix != [] {
        field := prefix + "." + k;
      }
      var more := Flatten(field, found.value.errs[k]);
      RenderedNext(prefix, found.value, keys, i);
      out := out + more;
    }
    assert keys[..|keys|] == keys;
  }
}

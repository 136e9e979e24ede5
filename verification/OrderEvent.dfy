/**
 The order.created event of services/order/internal/event/order.go: its payload, the check that every string is valid
 UTF-8, its JSON text, and what the consumer reads back from that text.
 */
module OrderEvent {
  import opened Prelude
  import opened Json
  import Utf8

  datatype Item = Item(id: bytes, productId: bytes, productName: bytes, quantity: int, unitPrice: int)

  /** `createdAt` is the RFC 3339 text of the creation time. */
  datatype Payload = Payload(eventId: bytes, orderId: bytes, userId: bytes, items: seq<Item>, totalAmount: int,
                             deliveryAddress: bytes, createdAt: bytes)

  predicate Int64(n: int) { -0x8000_0000_0000_0000 <= n < 0x8000_0000_0000_0000 }

  predicate Int32(n: int) { -0x8000_0000 <= n < 0x8000_0000 }

  /** The numbers fit their Go types. */
  predicate Typed(p: Payload)
  {
    Int64(p.totalAmount) && forall i :: 0 <= i < |p.items| ==> Int32(p.items[i].quantity) && Int64(p.items[i].unitPrice)
  }

  /* ---------- validate ---------- */

  datatype InvalidUtf8 = InField(name: string) | InItem(index: nat, name: string)

  /** The string fields validate checks first, in its order. */
  function TopFields(p: Payload): seq<(string, bytes)>
  {
    [("event_id", p.eventId), ("order_id", p.orderId), ("user_id", p.userId), ("delivery_address", p.deliveryAddress)]
  }

  predicate ItemValid(i: Item)
  {
    Utf8.Valid(i.id) && Utf8.Valid(i.productId) && Utf8.Valid(i.productName)
  }

  predicate TopValid(p: Payload)
  {
    forall k :: 0 <= k < 4 ==> Utf8.Valid(TopFields(p)[k].1)
  }

  /** Every string of the payload is valid UTF-8. */
  predicate StringsValid(p: Payload)
  {
    TopValid(p) && forall i :: 0 <= i < |p.items| ==> ItemValid(p.items[i])
  }

  /** The name of the first field of an item with invalid UTF-8, or the empty string. */
  function InvalidUtf8Field(i: Item): (name: string)
    ensures name == "" <==> ItemValid(i)
  {
    if !Utf8.Valid(i.id) then "id"
    else if !Utf8.Valid(i.productId) then "product_id"
    else if !Utf8.Valid(i.productName) then "product_name"
    else ""
  }

  /** Accepts exactly the payloads whose strings are all valid, and otherwise names the first invalid field. */
  method Validate(p: Payload) returns (err: Option<InvalidUtf8>)
    ensures err.None? <==> StringsValid(p)
    ensures err.Some? && err.value.InField? ==>
              exists k :: 0 <= k < 4 && TopFields(p)[k].0 == err.value.name && !Utf8.Valid(TopFields(p)[k].1) &&
                forall j :: 0 <= j < k ==> Utf8.Valid(TopFields(p)[j].1)
    ensures err.Some? && err.value.InItem? ==>
              && TopValid(p) && err.value.index < |p.items|
              && (forall j :: 0 <= j < err.value.index ==> ItemValid(p.items[j]))
              && err.value.name == InvalidUtf8Field(p.items[err.value.index]) != ""
  {
    var fields := TopFields(p);
    for k := 0 to |fields|
      invariant forall j :: 0 <= j < k ==> Utf8.Valid(fields[j].1)
    {
      if !Utf8.Valid(fields[k].1) {
        return Some(InField(fields[k].0));
      }
    }
    for i := 0 to |p.items|
      invariant forall j :: 0 <= j < i ==> ItemValid(p.items[j])
    {
      var name := InvalidUtf8Field(p.items[i]);
      if name != "" {
        return Some(InItem(i, name));
      }
    }
    return None;
  }

  /* ---------- the JSON document ---------- */

  function ItemJson(i: Item): Value
  {
    Obj([Field("id", Str(i.id)), Field("product_id", Str(i.productId)), Field("product_name", Str(i.productName)),
         Field("quantity", Num(i.quantity)), Field("unit_price", Num(i.unitPrice))])
  }

  function ItemsJson(items: seq<Item>): seq<Value>
  {
    if items == [] then [] else [ItemJson(items[0])] + ItemsJson(items[1..])
  }

  function ToJson(p: Payload): Value
  {
    Obj([Field("event_id", Str(p.eventId)), Field("order_id", Str(p.orderId)), Field("user_id", Str(p.userId)),
         Field("items", Arr(ItemsJson(p.items))), Field("total_amount", Num(p.totalAmount)),
         Field("delivery_address", Str(p.deliveryAddress)), Field("created_at", Str(p.createdAt))])
  }

  function Encode(p: Payload): bytes
  {
    Print(ToJson(p))
  }

  /** The members of an object that carry a name. */
  function Named(fields: seq<Field>, name: bytes): seq<Value>
  {
    if fields == [] then []
    else (if fields[0].name == name then [fields[0].value] else []) + Named(fields[1..], name)
  }

  /** A string field: absent means empty, a repeated or ill-typed one is an error. */
  function TextOf(fields: seq<Field>, name: bytes): Option<bytes>
  {
    var found := Named(fields, name);
    if found == [] then Some([])
    else if |found| == 1 && found[0].Str? then Some(found[0].text)
    else None
  }

  function NumberOf(fields: seq<Field>, name: bytes): Option<int>
  {
    var found := Named(fields, name);
    if found == [] then Some(0)
    else if |found| == 1 && found[0].Num? then Some(found[0].number)
    else None
  }

  function ListOf(fields: seq<Field>, name: bytes): Option<seq<Value>>
  {
    var found := Named(fields, name);
    if found == [] then Some([])
    else if |found| == 1 && found[0].Arr? then Some(found[0].elems)
    else None
  }

  function ItemFrom(v: Value): Option<Item>
  {
    if !v.Obj? then None
    else
      var id, productId := TextOf(v.fields, "id"), TextOf(v.fields, "product_id");
      var productName := TextOf(v.fields, "product_name");
      var quantity, unitPrice := NumberOf(v.fields, "quantity"), NumberOf(v.fields, "unit_price");
      if id.None? || productId.None? || productName.None? || quantity.None? || unitPrice.None? ||
         !Int32(quantity.value) || !Int64(unitPrice.value) then None
      else Some(Item(id.value, productId.value, productName.value, quantity.value, unitPrice.value))
  }

  function ItemsFrom(elems: seq<Value>): Option<seq<Item>>
  {
    if elems == [] then Some([])
    else
      var first, more := ItemFrom(elems[0]), ItemsFrom(elems[1..]);
      if first.None? || more.None? then None else Some([first.value] + more.value)
  }

  /** Fields are found by name in any order; unknown fields are discarded. */
  function FromJson(v: Value): Option<Payload>
  {
    if !v.Obj? then None
    else
      var eventId, orderId := TextOf(v.fields, "event_id"), TextOf(v.fields, "order_id");
      var userId := TextOf(v.fields, "user_id");
      var address, createdAt := TextOf(v.fields, "delivery_address"), TextOf(v.fields, "created_at");
      var total, list := NumberOf(v.fields, "total_amount"), ListOf(v.fields, "items");
      if eventId.None? || orderId.None? || userId.None? || address.None? || createdAt.None? || total.None? ||
         list.None? || !Int64(total.value) then None
      else match ItemsFrom(list.value)
        case None => None
        case Some(items) =>
          Some(Payload(eventId.value, orderId.value, userId.value, items, total.value, address.value, createdAt.value))
  }

  function Decode(text: bytes): Option<Payload>
  {
    match Json.Parse(text)
    case None => None
    case Some(v) => FromJson(v)
  }

  /* ---------- the round trip ---------- */

  function CleanItem(i: Item): Item
  {
    Item(Utf8.Sanitize(i.id), Utf8.Sanitize(i.productId), Utf8.Sanitize(i.productName), i.quantity, i.unitPrice)
  }

  function CleanItemList(items: seq<Item>): seq<Item>
  {
    if items == [] then [] else [CleanItem(items[0])] + CleanItemList(items[1..])
  }

  /** The payload with every string sanitised. */
  function CleanPayload(p: Payload): Payload
  {
    Payload(Utf8.Sanitize(p.eventId), Utf8.Sanitize(p.orderId), Utf8.Sanitize(p.userId), CleanItemList(p.items),
            p.totalAmount, Utf8.Sanitize(p.deliveryAddress), Utf8.Sanitize(p.createdAt))
  }

  /** A document whose member names are ASCII keeps them, whatever its strings are. */
  lemma {:induction false} CleanNamed(fields: seq<Field>)
    requires forall i :: 0 <= i < |fields| ==> Utf8.Ascii(fields[i].name)
    ensures |CleanFields(fields)| == |fields|
    ensures forall i :: 0 <= i < |fields| ==> CleanFields(fields)[i] == Field(fields[i].name, Clean(fields[i].value))
  {
    if fields != [] {
      Utf8.AsciiIsClean(fields[0].name);
      CleanNamed(fields[1..]);
    }
  }

  lemma ItemNamesAscii(i: Item)
    ensures forall k :: 0 <= k < 5 ==> Utf8.Ascii(ItemJson(i).fields[k].name)
  {
    assert Utf8.Ascii("id") && Utf8.Ascii("product_id") && Utf8.Ascii("product_name") && Utf8.Ascii("quantity") &&
           Utf8.Ascii("unit_price");
  }

  lemma FieldsClean(fields: seq<Field>, cleaned: seq<Field>)
    requires |fields| == |cleaned|
    requires forall i :: 0 <= i < |fields| ==> Utf8.Ascii(fields[i].name)
    requires forall i :: 0 <= i < |fields| ==> cleaned[i] == Field(fields[i].name, Clean(fields[i].value))
    ensures CleanFields(fields) == cleaned
  {
    CleanNamed(fields);
  }

  lemma ItemJsonCleans(i: Item)
    ensures Clean(ItemJson(i)) == ItemJson(CleanItem(i))
  {
    ItemNamesAscii(i);
    FieldsClean(ItemJson(i).fields, ItemJson(CleanItem(i)).fields);
  }

  lemma {:induction false} ItemsJsonClean(items: seq<Item>)
    ensures CleanElems(ItemsJson(items)) == ItemsJson(CleanItemList(items))
  {
    if items != [] {
      ItemJsonCleans(items[0]);
      ItemsJsonClean(items[1..]);
      var js := ItemsJson(items);
      assert js[0] == ItemJson(items[0]) && js[1..] == ItemsJson(items[1..]);
      assert CleanItemList(items)[1..] == CleanItemList(items[1..]);
    }
  }

  lemma PayloadNamesAscii(p: Payload)
    ensures forall i :: 0 <= i < 7 ==> Utf8.Ascii(ToJson(p).fields[i].name)
  {
    assert Utf8.Ascii("event_id") && Utf8.Ascii("order_id") && Utf8.Ascii("user_id");
    assert Utf8.Ascii("items") && Utf8.Ascii("total_amount");
    assert Utf8.Ascii("delivery_address") && Utf8.Ascii("created_at");
  }

  lemma ToJsonCleans(p: Payload)
    ensures Clean(ToJson(p)) == ToJson(CleanPayload(p))
  {
    PayloadNamesAscii(p);
    ItemsJsonClean(p.items);
    FieldsClean(ToJson(p).fields, ToJson(CleanPayload(p)).fields);
  }

  ghost predicate DistinctNames(fields: seq<Field>)
  {
    forall i, j :: 0 <= i < j < |fields| ==> fields[i].name != fields[j].name
  }

  lemma {:induction false} NamedNone(fields: seq<Field>, name: bytes)
    requires forall i :: 0 <= i < |fields| ==> fields[i].name != name
    ensures Named(fields, name) == []
  {
    if fields != [] {
      NamedNone(fields[1..], name);
    }
  }

  /** In an object with distinct member names, each name finds exactly its own member. */
  lemma {:induction false} NamedFinds(fields: seq<Field>, k: nat)
    requires DistinctNames(fields) && k < |fields|
    ensures Named(fields, fields[k].name) == [fields[k].value]
  {
    if k == 0 {
      NamedNone(fields[1..], fields[0].name);
    } else {
      NamedFinds(fields[1..], k - 1);
    }
  }

  lemma AllNamedFind(fields: seq<Field>)
    requires DistinctNames(fields)
    ensures forall k :: 0 <= k < |fields| ==> Named(fields, fields[k].name) == [fields[k].value]
  {
    forall k | 0 <= k < |fields| ensures Named(fields, fields[k].name) == [fields[k].value] {
      NamedFinds(fields, k);
    }
  }

  lemma ItemNames(i: Item)
    ensures DistinctNames(ItemJson(i).fields)
  {
    var f := ItemJson(i).fields;
    assert |f[0].name| == 2 && |f[1].name| == 10 && |f[2].name| == 12 && |f[3].name| == 8 && |f[4].name| == 10;
    assert f[1].name[0] == 'p' && f[4].name[0] == 'u';
  }

  lemma ItemReads(i: Item)
    requires Int32(i.quantity) && Int64(i.unitPrice)
    ensures ItemFrom(ItemJson(i)) == Some(i)
  {
    ItemNames(i);
    var f := ItemJson(i).fields;
    AllNamedFind(f);
    assert f[0].name == "id" && f[1].name == "product_id" && f[2].name == "product_name" && f[3].name == "quantity" &&
           f[4].name == "unit_price";
  }

  lemma {:induction false} ItemsRead(items: seq<Item>)
    requires forall i :: 0 <= i < |items| ==> Int32(items[i].quantity) && Int64(items[i].unitPrice)
    ensures ItemsFrom(ItemsJson(items)) == Some(items)
  {
    if items != [] {
      ItemReads(items[0]);
      ItemsRead(items[1..]);
      var js := ItemsJson(items);
      assert js[0] == ItemJson(items[0]) && js[1..] == ItemsJson(items[1..]);
      assert [items[0]] + items[1..] == items;
    }
  }

  lemma PayloadNames(p: Payload)
    ensures DistinctNames(ToJson(p).fields)
  {
    var f := ToJson(p).fields;
    assert |f[0].name| == 8 && |f[1].name| == 8 && |f[2].name| == 7 && |f[3].name| == 5 && |f[4].name| == 12 &&
           |f[5].name| == 16 && |f[6].name| == 10;
    assert f[0].name[0] == 'e' && f[1].name[0] == 'o';
  }

  /** The members of a payload's object, by name. */
  lemma PayloadMembers(p: Payload)
    ensures var f := ToJson(p).fields;
            && Named(f, "event_id") == [Str(p.eventId)] && Named(f, "order_id") == [Str(p.orderId)]
            && Named(f, "user_id") == [Str(p.userId)] && Named(f, "items") == [Arr(ItemsJson(p.items))]
            && Named(f, "total_amount") == [Num(p.totalAmount)]
            && Named(f, "delivery_address") == [Str(p.deliveryAddress)]
            && Named(f, "created_at") == [Str(p.createdAt)]
  {
    PayloadNames(p);
    var f := ToJson(p).fields;
    AllNamedFind(f);
    assert f[0].name == "event_id" && f[1].name == "order_id" && f[2].name == "user_id" && f[3].name == "items" &&
           f[4].name == "total_amount" && f[5].name == "delivery_address" && f[6].name == "created_at";
  }

  lemma PayloadReads(p: Payload)
    requires Typed(p)
    ensures FromJson(ToJson(p)) == Some(p)
  {
    PayloadMembers(p);
    ItemsRead(p.items);
  }

  lemma {:induction false} CleanKeepsTypes(items: seq<Item>)
    ensures |CleanItemList(items)| == |items|
    ensures forall i :: 0 <= i < |items| ==> CleanItemList(items)[i] == CleanItem(items[i])
  {
    if items != [] {
      CleanKeepsTypes(items[1..]);
    }
  }

  /** What the consumer reads is the payload with ill-formed bytes replaced, for payloads of any size. */
  lemma DecodeEncode(p: Payload)
    requires Typed(p)
    ensures Decode(Encode(p)) == Some(CleanPayload(p))
  {
    ParsePrinted(ToJson(p));
    ToJsonCleans(p);
    CleanKeepsTypes(p.items);
    PayloadReads(CleanPayload(p));
  }

  lemma CleanIffValid(p: Payload)
    requires Utf8.Valid(p.createdAt)
    ensures CleanPayload(p) == p <==> StringsValid(p)
  {
    CleanKeepsTypes(p.items);
    Utf8.SanitizeFixedIffValid(p.eventId);
    Utf8.SanitizeFixedIffValid(p.orderId);
    Utf8.SanitizeFixedIffValid(p.userId);
    Utf8.SanitizeFixedIffValid(p.deliveryAddress);
    Utf8.SanitizeFixedIffValid(p.createdAt);
    var fields := TopFields(p);
    assert fields[0].1 == p.eventId && fields[1].1 == p.orderId && fields[2].1 == p.userId &&
           fields[3].1 == p.deliveryAddress;
    forall i | 0 <= i < |p.items| ensures CleanItem(p.items[i]) == p.items[i] <==> ItemValid(p.items[i]) {
      Utf8.SanitizeFixedIffValid(p.items[i].id);
      Utf8.SanitizeFixedIffValid(p.items[i].productId);
      Utf8.SanitizeFixedIffValid(p.items[i].productName);
    }
    if CleanPayload(p) == p {
      forall i | 0 <= i < |p.items| ensures ItemValid(p.items[i]) {
        assert CleanItemList(p.items)[i] == p.items[i];
      }
    }
    if StringsValid(p) {
      assert CleanItemList(p.items) == p.items;
    }
  }

  /** The event survives the wire unchanged exactly when the validity check accepts it. */
  lemma SurvivesIffValid(p: Payload)
    requires Typed(p) && Utf8.Valid(p.createdAt)
    ensures Decode(Encode(p)) == Some(p) <==> StringsValid(p)
  {
    DecodeEncode(p);
    CleanIffValid(p);
  }
}

/** The order service (src/services/ordersService.js): the recursive
    sanitiser that strips `undefined` from a JSON-like value before it is
    stored, and the payload `createOrder` builds around it. */
module OrdersService {
  import opened Common
  import opened Seqs

  /** A JavaScript value as the sanitiser sees it. An object is its list of
      own entries, in `Object.entries` order, so no key repeats. */
  datatype Value =
    | Undefined
    | Null
    | Bool(b: bool)
    | Num(n: real)
    | Str(s: string)
    | Arr(elems: seq<Value>)
    | Obj(fields: seq<Field>)

  datatype Field = Field(key: string, val: Value)

  /** No `undefined` anywhere in the value. */
  predicate NoUndefined(v: Value) {
    match v
    case Undefined => false
    case Arr(xs) => forall i :: 0 <= i < |xs| ==> NoUndefined(xs[i])
    case Obj(fs) => forall i :: 0 <= i < |fs| ==> NoUndefined(fs[i].val)
    case _ => true
  }

  predicate Kept(v: Value) {
    !v.Undefined?
  }

  predicate FieldKept(f: Field) {
    !f.val.Undefined?
  }

  /** `sanitize`: arrays are sanitized element-wise with the `undefined`
      results dropped, objects entry-wise with the `undefined` entries
      dropped; `null` and every primitive come back as they are. */
  function Sanitized(v: Value): (r: Value)
    decreases v, 1
    ensures r.Undefined? <==> v.Undefined?
    ensures !v.Arr? && !v.Obj? ==> r == v
    ensures v.Arr? <==> r.Arr?
    ensures v.Obj? <==> r.Obj?
  {
    match v
    case Arr(xs) => Arr(Filter(SanitizeEach(xs), Kept))
    case Obj(fs) => Obj(Filter(SanitizeEntries(fs), FieldKept))
    case _ => v
  }

  /** `value.map(sanitize)` */
  function SanitizeEach(xs: seq<Value>): (r: seq<Value>)
    decreases xs, 0
    ensures |r| == |xs|
    ensures forall i :: 0 <= i < |xs| ==> r[i] == Sanitized(xs[i])
  {
    seq(|xs|, i requires 0 <= i < |xs| => Sanitized(xs[i]))
  }

  /** Every entry with its value sanitized, keys unchanged. */
  function SanitizeEntries(fs: seq<Field>): (r: seq<Field>)
    decreases fs, 0
    ensures |r| == |fs|
    ensures forall i :: 0 <= i < |fs| ==> r[i] == Field(fs[i].key, Sanitized(fs[i].val))
  {
    seq(|fs|, i requires 0 <= i < |fs| => Field(fs[i].key, Sanitized(fs[i].val)))
  }

  /** The sanitiser as the source runs it: recursive calls on arrays and
      objects, every other value returned as it is. */
  method Sanitize(value: Value) returns (r: Value)
    decreases value, 2
    ensures r == Sanitized(value)
  {
    match value
    case Arr(xs) =>
      var elems := SanitizeArray(xs);
      r := Arr(elems);
    case Obj(fs) =>
      var out := SanitizeObject(fs);
      r := Obj(out);
    case _ =>
      r := value;
  }

  /** The array branch: `value.map(sanitize).filter((v) => v !== undefined)`. */
  method SanitizeArray(xs: seq<Value>) returns (elems: seq<Value>)
    decreases xs, 1
    ensures elems == Filter(SanitizeEach(xs), Kept)
  {
    var mapped: seq<Value> := [];
    for i := 0 to |xs|
      invariant mapped == SanitizeEach(xs[..i])
    {
      var sv := Sanitize(xs[i]);
      mapped := mapped + [sv];
    }
    assert xs[..|xs|] == xs;
    elems := Filter(mapped, Kept);
  }

  /** The object branch: a loop that fills a fresh object with the entries
      whose sanitized value is not `undefined`. Since `Object.entries` never
      repeats a key, `out[k] = sv` always adds a new entry at the end. */
  method SanitizeObject(fs: seq<Field>) returns (out: seq<Field>)
    decreases fs, 1
    ensures out == Filter(SanitizeEntries(fs), FieldKept)
  {
    out := [];
    for i := 0 to |fs|
      invariant out == Filter(SanitizeEntries(fs[..i]), FieldKept)
    {
      var sv := Sanitize(fs[i].val);
      EntriesSnoc(fs, i);
      if sv != Undefined {
        out := out + [Field(fs[i].key, sv)];
      }
    }
    assert fs[..|fs|] == fs;
  }

  /** Sanitizing one more entry of the object. */
  lemma EntriesSnoc(fs: seq<Field>, i: nat)
    requires i < |fs|
    ensures var e := Field(fs[i].key, Sanitized(fs[i].val));
            Filter(SanitizeEntries(fs[..i + 1]), FieldKept)
              == Filter(SanitizeEntries(fs[..i]), FieldKept) + (if FieldKept(e) then [e] else [])
  {
    var e := Field(fs[i].key, Sanitized(fs[i].val));
    assert SanitizeEntries(fs[..i + 1]) == SanitizeEntries(fs[..i]) + [e];
    FilterAppend(SanitizeEntries(fs[..i]), [e], FieldKept);
  }

  /** Nothing `undefined` survives sanitizing, at any depth. */
  lemma {:induction false} SanitizedHasNoUndefined(v: Value)
    requires !v.Undefined?
    ensures NoUndefined(Sanitized(v))
  {
    match v
    case Arr(xs) =>
      var out := Filter(SanitizeEach(xs), Kept);
      forall i | 0 <= i < |out|
        ensures NoUndefined(out[i])
      {
        var j :| 0 <= j < |xs| && SanitizeEach(xs)[j] == out[i];
        SanitizedHasNoUndefined(xs[j]);
      }
    case Obj(fs) =>
      var out := Filter(SanitizeEntries(fs), FieldKept);
      forall i | 0 <= i < |out|
        ensures NoUndefined(out[i].val)
      {
        var j :| 0 <= j < |fs| && SanitizeEntries(fs)[j] == out[i];
        SanitizedHasNoUndefined(fs[j].val);
      }
    case _ =>
  }

  /** A value with nothing `undefined` in it is its own sanitized form. */
  lemma {:induction false} SanitizeFixesClean(v: Value)
    requires NoUndefined(v)
    ensures Sanitized(v) == v
  {
    match v
    case Arr(xs) =>
      forall i | 0 <= i < |xs|
        ensures SanitizeEach(xs)[i] == xs[i]
      {
        SanitizeFixesClean(xs[i]);
      }
      assert SanitizeEach(xs) == xs;
      FilterAll(xs, Kept);
    case Obj(fs) =>
      forall i | 0 <= i < |fs|
        ensures SanitizeEntries(fs)[i] == fs[i]
      {
        SanitizeFixesClean(fs[i].val);
      }
      assert SanitizeEntries(fs) == fs;
      FilterAll(fs, FieldKept);
    case _ =>
  }

  /** Sanitizing twice is sanitizing once. */
  lemma SanitizeIdempotent(v: Value)
    ensures Sanitized(Sanitized(v)) == Sanitized(v)
  {
    if !v.Undefined? {
      SanitizedHasNoUndefined(v);
      SanitizeFixesClean(Sanitized(v));
    }
  }

  /** On an array, the surviving elements are the sanitized elements that
      are not `undefined`, in their original relative order, and each such
      element survives. */
  lemma SanitizedArrayKeepsOrder(xs: seq<Value>)
    ensures Sanitized(Arr(xs)).elems == Filter(SanitizeEach(xs), Kept)
    ensures IsSubsequence(Sanitized(Arr(xs)).elems, SanitizeEach(xs))
    ensures forall i :: 0 <= i < |xs| && !xs[i].Undefined? ==> Sanitized(xs[i]) in Sanitized(Arr(xs)).elems
  {
    FilterIsSubsequence(SanitizeEach(xs), Kept);
    assert forall i :: 0 <= i < |xs| ==> SanitizeEach(xs)[i] == Sanitized(xs[i]);
  }

  // ----- object entries -----

  predicate HasKey(fs: seq<Field>, k: string) {
    exists i :: 0 <= i < |fs| && fs[i].key == k
  }

  predicate UniqueKeys(fs: seq<Field>) {
    forall i, j :: 0 <= i < j < |fs| ==> fs[i].key != fs[j].key
  }

  /** The position of the first entry with key `k`. */
  function IndexOf(fs: seq<Field>, k: string): (r: Option<nat>)
    ensures r.None? <==> !HasKey(fs, k)
    ensures r.Some? ==> r.value < |fs| && fs[r.value].key == k
                        && forall j :: 0 <= j < r.value ==> fs[j].key != k
  {
    if fs == [] then None
    else if fs[0].key == k then Some(0)
    else match IndexOf(fs[1..], k)
      case None => None
      case Some(i) => Some(i + 1)
  }

  lemma IndexOfIs(fs: seq<Field>, k: string, i: nat)
    requires i < |fs| && fs[i].key == k && forall j :: 0 <= j < i ==> fs[j].key != k
    ensures IndexOf(fs, k) == Some(i)
  {
  }

  /** `obj[k]`: the entry's value, or `undefined` when there is none. */
  function Get(fs: seq<Field>, k: string): (r: Value)
    ensures !HasKey(fs, k) ==> r == Undefined
    ensures HasKey(fs, k) ==> exists i :: 0 <= i < |fs| && fs[i] == Field(k, r)
  {
    match IndexOf(fs, k)
    case None => Undefined
    case Some(i) => fs[i].val
  }

  /** When every entry with key `k` holds `w`, reading `k` gives `w`. */
  lemma GetAgreeing(fs: seq<Field>, k: string, w: Value)
    requires HasKey(fs, k)
    requires forall i :: 0 <= i < |fs| && fs[i].key == k ==> fs[i].val == w
    ensures Get(fs, k) == w
  {
  }

  /** `obj[k] = v`: the entry for `k` takes the value in its place, or a new
      entry is appended. */
  function SetField(fs: seq<Field>, k: string, v: Value): seq<Field> {
    match IndexOf(fs, k)
    case Some(i) => fs[i := Field(k, v)]
    case None => fs + [Field(k, v)]
  }

  /** After assigning a key, reading it gives the value and every other key
      reads as before. */
  lemma SetFieldGet(fs: seq<Field>, k: string, v: Value, k': string)
    ensures Get(SetField(fs, k, v), k') == if k' == k then v else Get(fs, k')
  {
    var r := SetField(fs, k, v);
    match IndexOf(fs, k)
    case Some(i) =>
      assert forall j :: 0 <= j < |fs| ==> r[j].key == fs[j].key;
      {
        match IndexOf(fs, k')
        case Some(i') => IndexOfIs(r, k', i');
        case None => assert !HasKey(r, k');
      }
    case None =>
      if k' == k {
        IndexOfIs(r, k, |fs|);
      } else {
        match IndexOf(fs, k')
        case Some(i') => IndexOfIs(r, k', i');
        case None => assert !HasKey(r, k');
      }
  }

  /** Assignment keeps the keys of an object distinct and adds only `k`. */
  lemma SetFieldKeepsUnique(fs: seq<Field>, k: string, v: Value)
    requires UniqueKeys(fs)
    ensures UniqueKeys(SetField(fs, k, v))
  {
    var r := SetField(fs, k, v);
    match IndexOf(fs, k)
    case Some(i) =>
      assert forall j :: 0 <= j < |fs| ==> r[j].key == fs[j].key;
    case None =>
  }

  /** `{...base, ...fs}` read left to right: each entry of `fs` is assigned
      in turn, so a key of `fs` overrides the same key of `base`. */
  function Spread(base: seq<Field>, fs: seq<Field>): seq<Field>
    decreases |fs|
  {
    if fs == [] then base else Spread(SetField(base, fs[0].key, fs[0].val), fs[1..])
  }

  /** Reading a spread object: the key's value in `fs` when `fs` has it,
      otherwise its value in `base`. */
  lemma {:induction false} SpreadGet(base: seq<Field>, fs: seq<Field>, k: string)
    requires UniqueKeys(fs)
    decreases |fs|
    ensures Get(Spread(base, fs), k) == if HasKey(fs, k) then Get(fs, k) else Get(base, k)
  {
    if fs != [] {
      var base' := SetField(base, fs[0].key, fs[0].val);
      SpreadGet(base', fs[1..], k);
      SetFieldGet(base, fs[0].key, fs[0].val, k);
      if HasKey(fs[1..], k) {
        var j :| 0 <= j < |fs[1..]| && fs[1..][j].key == k;
        assert fs[j + 1].key == k;
      }
    }
  }

  lemma {:induction false} SpreadKeepsUnique(base: seq<Field>, fs: seq<Field>)
    requires UniqueKeys(base)
    ensures UniqueKeys(Spread(base, fs))
    decreases |fs|
  {
    if fs != [] {
      SetFieldKeepsUnique(base, fs[0].key, fs[0].val);
      SpreadKeepsUnique(SetField(base, fs[0].key, fs[0].val), fs[1..]);
    }
  }

  /** Reading a key of a sanitized object is sanitizing what the key read
      before, so an entry is dropped exactly when its value sanitizes to
      `undefined`. */
  lemma SanitizedGet(fs: seq<Field>, k: string)
    requires UniqueKeys(fs)
    ensures Get(Sanitized(Obj(fs)).fields, k) == Sanitized(Get(fs, k))
  {
    var entries := SanitizeEntries(fs);
    var out := Filter(entries, FieldKept);
    assert out == Sanitized(Obj(fs)).fields;
    // every surviving entry with key k comes from the one entry of fs with key k
    assert forall j :: 0 <= j < |out| && out[j].key == k ==>
      HasKey(fs, k) && out[j].val == Sanitized(Get(fs, k)) && Kept(out[j].val) by {
      forall j | 0 <= j < |out| && out[j].key == k
        ensures HasKey(fs, k) && out[j].val == Sanitized(Get(fs, k)) && Kept(out[j].val)
      {
        var m :| 0 <= m < |entries| && entries[m] == out[j];
        assert fs[m].key == k;
      }
    }
    if HasKey(fs, k) && Kept(Sanitized(Get(fs, k))) {
      var i :| 0 <= i < |fs| && fs[i] == Field(k, Get(fs, k));
      assert entries[i] in out;
      GetAgreeing(out, k, Sanitized(Get(fs, k)));
    } else {
      assert !HasKey(out, k);
    }
  }

  // ----- createOrder -----

  /** JavaScript truthiness (`NaN` is not modelled). */
  predicate Truthy(v: Value) {
    match v
    case Undefined => false
    case Null => false
    case Bool(b) => b
    case Num(n) => n != 0.0
    case Str(s) => s != ""
    case _ => true
  }

  const ItemKeys: seq<string> := ["id", "name", "price", "quantity", "image", "totalPrice"]

  /** One element of `orderData.items.map(...)`: reading a property of
      `null` or `undefined` throws a `TypeError`; any other value gives an
      object with exactly the six keys, each read from the item (a
      primitive or an array has none of them). */
  function ProjectItem(it: Value): (r: Result<Value>)
    ensures r.Err? <==> it.Null? || it.Undefined?
    ensures r.Ok? ==> r.value.Obj? && |r.value.fields| == 6
    ensures r.Ok? ==> forall i :: 0 <= i < 6 ==> r.value.fields[i].key == ItemKeys[i]
    ensures r.Ok? && it.Obj? ==> forall i :: 0 <= i < 6 ==> r.value.fields[i].val == Get(it.fields, ItemKeys[i])
  {
    if it.Null? || it.Undefined? then Err("TypeError")
    else
      var src := if it.Obj? then it.fields else [];
      Ok(Obj(seq(6, i requires 0 <= i < 6 => Field(ItemKeys[i], Get(src, ItemKeys[i])))))
  }

  /** The item projection over the whole array; the first throwing item
      aborts it. */
  function ProjectItems(xs: seq<Value>): (r: Result<seq<Value>>)
    ensures r.Err? <==> exists i :: 0 <= i < |xs| && ProjectItem(xs[i]).Err?
    ensures r.Ok? ==> |r.value| == |xs|
    ensures r.Ok? ==> forall i :: 0 <= i < |xs| ==> ProjectItem(xs[i]) == Ok(r.value[i])
  {
    if xs == [] then Ok([])
    else
      match ProjectItem(xs[0])
      case Err(m) => Err(m)
      case Ok(v) =>
        match ProjectItems(xs[1..])
        case Err(m) =>
          assert exists i :: 0 <= i < |xs[1..]| && ProjectItem(xs[1..][i]).Err?;
          Err(m)
        case Ok(vs) =>
          assert forall i :: 1 <= i < |xs| ==> ProjectItem(xs[i]) == Ok(vs[i - 1]) by {
            forall i | 1 <= i < |xs| ensures ProjectItem(xs[i]) == Ok(vs[i - 1]) {
              assert xs[1..][i - 1] == xs[i];
            }
          }
          Ok([v] + vs)
  }

  /** `items`: the projection when `orderData.items` is an array, else `[]`. */
  function OrderItems(orderData: seq<Field>): Result<seq<Value>> {
    var raw := Get(orderData, "items");
    if raw.Arr? then ProjectItems(raw.elems) else Ok([])
  }

  /** The object handed to the store, before sanitizing: the caller's
      fields, then `userId` (default `'guest'`), `items`, `createdAt` and
      `status` (default `'pending'`). */
  function PayloadRaw(orderData: seq<Field>, items: seq<Value>, now: string): seq<Field> {
    var userId := Get(orderData, "userId");
    var status := Get(orderData, "status");
    var copy := Spread([], orderData);
    var withUser := SetField(copy, "userId", if Truthy(userId) then userId else Str("guest"));
    var withItems := SetField(withUser, "items", Arr(items));
    var withDate := SetField(withItems, "createdAt", Str(now));
    SetField(withDate, "status", if Truthy(status) then status else Str("pending"))
  }

  /** What `createOrder` stores and what it returns. */
  datatype Order = Order(stored: Value, returned: Value)

  /** `createOrder(orderData)` at time `now`; `docId` is the store's answer:
      the new document's id, or the error it threw. */
  function CreateOrder(orderData: seq<Field>, now: string, docId: Result<string>): (r: Result<Order>)
    ensures r.Err? <==> OrderItems(orderData).Err? || docId.Err?
    ensures r.Ok? ==> r.value.stored == Sanitized(Obj(PayloadRaw(orderData, OrderItems(orderData).value, now)))
    ensures r.Ok? ==> r.value.returned == Obj(Spread([Field("id", Str(docId.value))], orderData))
  {
    match OrderItems(orderData)
    case Err(m) => Err(m)
    case Ok(items) =>
      var payload := Sanitized(Obj(PayloadRaw(orderData, items, now)));
      match docId
      case Err(m) => Err(m)
      case Ok(id) => Ok(Order(payload, Obj(Spread([Field("id", Str(id))], orderData))))
  }

  /** Reading a key of the raw payload. */
  lemma PayloadRawGet(orderData: seq<Field>, items: seq<Value>, now: string, k: string)
    requires UniqueKeys(orderData)
    ensures UniqueKeys(PayloadRaw(orderData, items, now))
    ensures var userId := Get(orderData, "userId");
            var status := Get(orderData, "status");
            Get(PayloadRaw(orderData, items, now), k) ==
              if k == "status" then (if Truthy(status) then status else Str("pending"))
              else if k == "createdAt" then Str(now)
              else if k == "items" then Arr(items)
              else if k == "userId" then (if Truthy(userId) then userId else Str("guest"))
              else Get(orderData, k)
  {
    var userId := Get(orderData, "userId");
    var status := Get(orderData, "status");
    var copy := Spread([], orderData);
    var withUser := SetField(copy, "userId", if Truthy(userId) then userId else Str("guest"));
    var withItems := SetField(withUser, "items", Arr(items));
    var withDate := SetField(withItems, "createdAt", Str(now));
    SpreadGet([], orderData, k);
    SetFieldGet(copy, "userId", if Truthy(userId) then userId else Str("guest"), k);
    SetFieldGet(withUser, "items", Arr(items), k);
    SetFieldGet(withItems, "createdAt", Str(now), k);
    SetFieldGet(withDate, "status", if Truthy(status) then status else Str("pending"), k);
    SpreadKeepsUnique([], orderData);
    SetFieldKeepsUnique(copy, "userId", if Truthy(userId) then userId else Str("guest"));
    SetFieldKeepsUnique(withUser, "items", Arr(items));
    SetFieldKeepsUnique(withItems, "createdAt", Str(now));
    SetFieldKeepsUnique(withDate, "status", if Truthy(status) then status else Str("pending"));
  }

  /** The stored payload: `userId` and `status` fall back to `'guest'` and
      `'pending'` when falsy, `createdAt` is the time of the call, and every
      other field of the caller passes through sanitized. */
  lemma StoredPayloadFields(orderData: seq<Field>, now: string, docId: Result<string>, k: string)
    requires UniqueKeys(orderData)
    requires CreateOrder(orderData, now, docId).Ok?
    ensures var stored := CreateOrder(orderData, now, docId).value.stored.fields;
            var userId := Get(orderData, "userId");
            var status := Get(orderData, "status");
            && Get(stored, "userId") == (if Truthy(userId) then Sanitized(userId) else Str("guest"))
            && Get(stored, "status") == (if Truthy(status) then Sanitized(status) else Str("pending"))
            && Get(stored, "createdAt") == Str(now)
            && (k !in {"userId", "items", "createdAt", "status"} ==> Get(stored, k) == Sanitized(Get(orderData, k)))
  {
    var items := OrderItems(orderData).value;
    var raw := PayloadRaw(orderData, items, now);
    PayloadRawGet(orderData, items, now, "userId");
    PayloadRawGet(orderData, items, now, "status");
    PayloadRawGet(orderData, items, now, "createdAt");
    PayloadRawGet(orderData, items, now, k);
    SanitizedGet(raw, "userId");
    SanitizedGet(raw, "status");
    SanitizedGet(raw, "createdAt");
    SanitizedGet(raw, k);
  }

  /** The projected items: one object per ordered item, or none when
      `orderData.items` is not an array. */
  lemma OrderItemsShape(orderData: seq<Field>)
    requires OrderItems(orderData).Ok?
    ensures var items := OrderItems(orderData).value;
            var raw := Get(orderData, "items");
            && (raw.Arr? ==> |items| == |raw.elems|)
            && (!raw.Arr? ==> items == [])
            && (forall i :: 0 <= i < |items| ==> items[i].Obj?)
  {
    var raw := Get(orderData, "items");
    if raw.Arr? {
      var items := ProjectItems(raw.elems).value;
      forall i | 0 <= i < |items| ensures items[i].Obj? {
        assert ProjectItem(raw.elems[i]) == Ok(items[i]);
      }
    }
  }

  /** Sanitizing an array of objects keeps every element, each an object. */
  lemma SanitizeObjectArray(items: seq<Value>)
    requires forall i :: 0 <= i < |items| ==> items[i].Obj?
    ensures |Sanitized(Arr(items)).elems| == |items|
    ensures forall i :: 0 <= i < |items| ==> Sanitized(Arr(items)).elems[i].Obj?
  {
    FilterAll(SanitizeEach(items), Kept);
  }

  /** The stored `items` has one object per ordered item; a non-array
      `items` is stored as `[]`. */
  lemma StoredItems(orderData: seq<Field>, now: string, docId: Result<string>)
    requires UniqueKeys(orderData)
    requires CreateOrder(orderData, now, docId).Ok?
    ensures var stored := Get(CreateOrder(orderData, now, docId).value.stored.fields, "items");
            var raw := Get(orderData, "items");
            && stored.Arr?
            && (raw.Arr? ==> |stored.elems| == |raw.elems|)
            && (!raw.Arr? ==> stored.elems == [])
            && (forall i :: 0 <= i < |stored.elems| ==> stored.elems[i].Obj?)
  {
    var items := OrderItems(orderData).value;
    var raw := PayloadRaw(orderData, items, now);
    PayloadRawGet(orderData, items, now, "items");
    SanitizedGet(raw, "items");
    OrderItemsShape(orderData);
    SanitizeObjectArray(items);
  }

  /** The record returned to the caller is `{id, ...orderData}`: the
      caller's own fields, unsanitized, with the store's id unless the
      caller supplied an `id` of their own. */
  lemma ReturnedOrder(orderData: seq<Field>, now: string, docId: Result<string>, k: string)
    requires UniqueKeys(orderData)
    requires CreateOrder(orderData, now, docId).Ok?
    ensures var returned := CreateOrder(orderData, now, docId).value.returned.fields;
            && Get(returned, "id") == (if HasKey(orderData, "id") then Get(orderData, "id") else Str(docId.value))
            && (k != "id" ==> Get(returned, k) == Get(orderData, k))
  {
    SpreadGet([Field("id", Str(docId.value))], orderData, "id");
    SpreadGet([Field("id", Str(docId.value))], orderData, k);
  }

}

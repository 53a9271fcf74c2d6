/** The two reshaping loops of the schematic netlist helpers: the parsed netlist keyed by
    component unique id, and the pin-number to pin-name table of one component. The host
    calls that fetch the raw values are replaced by their already-parsed results. */
module SchNetlist {
  import opened Json

  /** One component of the parsed netlist. The fields hold whatever the raw record carried,
      defaulted to the empty string (or the empty object for `pins`) when falsy. */
  datatype NetlistComponent =
    NetlistComponent(designator: Value, part: Value, manufacturerPart: Value, pins: Value)

  /** The index keys "0", "1", ... of an array or string are pairwise distinct. */
  lemma IndexKeysDistinct()
    ensures forall i: nat, j: nat :: NatToString(i) == NatToString(j) ==> i == j
  {
    forall i: nat, j: nat | NatToString(i) == NatToString(j) ensures i == j {
      NatToStringInjective(i, j);
    }
  }

  /** The decimal index keys of a sequence of length `n`. */
  function IndexKeys(n: nat): set<string> {
    set i | 0 <= i < n :: NatToString(i)
  }

  /** The elements of an array under their decimal indices. */
  function IndexEntries(items: seq<Value>): map<string, Value> {
    IndexKeysDistinct();
    map i | 0 <= i < |items| :: NatToString(i) := items[i]
  }

  lemma IndexEntriesSpec(items: seq<Value>)
    ensures IndexEntries(items).Keys == IndexKeys(|items|)
    ensures forall i :: 0 <= i < |items| ==> IndexEntries(items)[NatToString(i)] == items[i]
  {
    IndexKeysDistinct();
    var m := IndexEntries(items);
    var keys := IndexKeys(|items|);
    forall k | k in m ensures k in keys {
      var i :| 0 <= i < |items| && NatToString(i) == k;
    }
    forall k | k in keys ensures k in m {
      var i :| 0 <= i < |items| && NatToString(i) == k;
    }
    assert m.Keys == keys;
    forall i | 0 <= i < |items| ensures NatToString(i) in m && m[NatToString(i)] == items[i] {
    }
  }

  /** A property assignment `result[k] = v` on a plain object creates an own key `k`, except
      for this one: it goes through the inherited `__proto__` setter, which replaces the
      object's prototype when `v` is an object and does nothing otherwise. */
  const ProtoKey := "__proto__"

  /** `Object.entries(data)` as a map from key to value: the own fields of an object, the
      elements of an array or the characters of a string under their decimal indices,
      nothing for a number or boolean, and a TypeError for null or undefined. */
  function Entries(data: Value): (r: Result<map<string, Value>>)
    ensures r.Err? <==> Nullish(data)
    ensures data.Obj? ==> r == Ok(data.fields)
    ensures data.Arr? ==> r.Ok? && r.value.Keys == IndexKeys(|data.items|)
    ensures data.Arr? ==> forall i :: 0 <= i < |data.items| ==> r.value[NatToString(i)] == data.items[i]
    ensures data.Bool? || data.Num? ==> r == Ok(map[])
    ensures data.Str? ==> r.Ok? && r.value.Keys == IndexKeys(|data.s|)
    ensures data.Str? ==> forall i :: 0 <= i < |data.s| ==> r.value[NatToString(i)] == Str([data.s[i]])
  {
    match data
    case Undefined => Err(TypeError)
    case Null => Err(TypeError)
    case Bool(_) => Ok(map[])
    case Num(_) => Ok(map[])
    case Str(s) =>
      var chars := seq(|s|, i requires 0 <= i < |s| => Str([s[i]]));
      IndexEntriesSpec(chars);
      Ok(IndexEntries(chars))
    case Arr(items) =>
      IndexEntriesSpec(items);
      Ok(IndexEntries(items))
    case Obj(fields) => Ok(fields)
  }

  /** An entry is kept unless `!entry || typeof entry !== 'object'`: it must be an object or
      an array. */
  predicate Kept(entry: Value) {
    Truthy(entry) && IsObjectType(entry)
  }

  /** The keys of the entries that are kept and become own keys of the result. */
  function KeptKeys(entries: map<string, Value>): set<string> {
    set k | k in entries && Kept(entries[k]) && k != ProtoKey
  }


  /** `entry.props || {}` */
  function Props(entry: Value): Value {
    Or(Get(entry, "props"), EmptyObject)
  }

  /** `c` is the record built from a kept entry: `props.Designator`, `props.Name` and
      `props['Manufacturer Part']` or `''` when falsy, and `entry.pins` or `{}`. */
  predicate Describes(c: NetlistComponent, entry: Value) {
    && c.designator == Or(Get(Props(entry), "Designator"), Str(""))
    && c.part == Or(Get(Props(entry), "Name"), Str(""))
    && c.manufacturerPart == Or(Get(Props(entry), "Manufacturer Part"), Str(""))
    && c.pins == Or(Get(entry, "pins"), EmptyObject)
  }

  /** The record `result[uniqueId] = { designator, part, manufacturerPart, pins }` stores;
      its `pins` is never falsy, since `{}` stands in for a falsy one. */
  function ComponentOf(entry: Value): (c: NetlistComponent)
    ensures Describes(c, entry)
    ensures Truthy(c.pins)
    ensures Truthy(Get(entry, "pins")) ==> c.pins == Get(entry, "pins")
  {
    var props := Props(entry);
    NetlistComponent(
      Or(Get(props, "Designator"), Str("")),
      Or(Get(props, "Name"), Str("")),
      Or(Get(props, "Manufacturer Part"), Str("")),
      Or(Get(entry, "pins"), EmptyObject))
  }

  /** Visiting entry `k` keeps the result holding exactly the visited kept keys, each with
      the record of its entry. */
  lemma RecordEntry(all: map<string, Value>, todo: set<string>, k: string,
                    before: map<string, NetlistComponent>, after: map<string, NetlistComponent>)
    requires k in all && k !in todo
    requires before.Keys == KeptKeys(all) - (todo + {k})
    requires forall j :: j in before ==> j in all && Describes(before[j], all[j])
    requires after == if Kept(all[k]) && k != ProtoKey then before[k := ComponentOf(all[k])] else before
    ensures after.Keys == KeptKeys(all) - todo
    ensures forall j :: j in after ==> j in all && Describes(after[j], all[j])
  {
  }

  /** `fetchParsedNetlist` after the raw netlist has been fetched and parsed. */
  method FetchParsedNetlist(data: Value) returns (r: Result<map<string, NetlistComponent>>)
    ensures Nullish(data) ==> r == Err(TypeError)
    ensures !Nullish(data) ==> r.Ok?
    ensures r.Ok? ==> var entries := Entries(data).value;
      && r.value.Keys == KeptKeys(entries)
      && forall k :: k in r.value ==> Describes(r.value[k], entries[k])
  {
    var entries := Entries(data);
    if entries.Err? {
      return Err(entries.error);
    }
    var result := CollectComponents(entries.value);
    r := Ok(result);
  }

  /** The `for (const [uniqueId, entry] of Object.entries(data))` loop of
      `fetchParsedNetlist`, over the entries in any order. */
  method CollectComponents(all: map<string, Value>) returns (result: map<string, NetlistComponent>)
    ensures result.Keys == KeptKeys(all)
    ensures forall k :: k in result ==> Describes(result[k], all[k])
  {
    result := map[];
    var todo := all.Keys;
    while todo != {}
      invariant todo <= all.Keys
      invariant result.Keys == KeptKeys(all) - todo
      invariant forall k :: k in result ==> k in all && Describes(result[k], all[k])
      decreases todo
    {
      var uniqueId :| uniqueId in todo;
      todo := todo - {uniqueId};
      var entry := all[uniqueId];
      ghost var before := result;
      // `if (!entry || typeof entry !== 'object') continue;`
      if Truthy(entry) && IsObjectType(entry) && uniqueId != ProtoKey {
        result := result[uniqueId := ComponentOf(entry)];
      }
      RecordEntry(all, todo, uniqueId, before, result);
    }
  }

  /** A pin is recorded when `p.pinNumber != null`. */
  predicate Numbered(pin: Value) {
    !Nullish(Get(pin, "pinNumber"))
  }

  /** Pin `pin` stops the loop: reading its number throws when it is null or undefined,
      and `String(p.pinNumber)` throws when the number has no string value. */
  predicate PinFails(pin: Value) {
    Nullish(pin) || (Numbered(pin) && !Stringable(Get(pin, "pinNumber")))
  }

  /** `String(p.pinNumber)` */
  function PinKey(pin: Value): string
    requires Stringable(Get(pin, "pinNumber"))
  {
    JsString(Get(pin, "pinNumber"))
  }

  /** The pin's name is stored under its own key: it is numbered, its number converts, and
      the key is not `__proto__`. */
  predicate Recorded(pin: Value) {
    Numbered(pin) && Stringable(Get(pin, "pinNumber")) && PinKey(pin) != ProtoKey
  }

  /** `p.pinName || ''` */
  function PinName(pin: Value): Value {
    Or(Get(pin, "pinName"), Str(""))
  }

  /** The keys `String(pinNumber)` of the recorded pins among `pins[..n]`. */
  function PinKeys(pins: seq<Value>, n: nat): set<string>
    requires n <= |pins|
  {
    set i | 0 <= i < n && Recorded(pins[i]) :: PinKey(pins[i])
  }

  lemma PinKeysStep(pins: seq<Value>, n: nat)
    requires n < |pins|
    ensures PinKeys(pins, n + 1) == PinKeys(pins, n) + (if Recorded(pins[n]) then {PinKey(pins[n])} else {})
  {
    var next := PinKeys(pins, n) + (if Recorded(pins[n]) then {PinKey(pins[n])} else {});
    forall k | k in PinKeys(pins, n + 1) ensures k in next {
      var i :| 0 <= i < n + 1 && Recorded(pins[i]) && PinKey(pins[i]) == k;
    }
    forall k | k in next ensures k in PinKeys(pins, n + 1) {
      if k in PinKeys(pins, n) {
        var i :| 0 <= i < n && Recorded(pins[i]) && PinKey(pins[i]) == k;
      } else {
        assert Recorded(pins[n]) && PinKey(pins[n]) == k;
      }
    }
  }

  /** Pin `i` is the last recorded pin among `pins[..n]` with key `k`. */
  ghost predicate LastWithKey(pins: seq<Value>, n: int, i: int, k: string)
    requires 0 <= i < n <= |pins|
  {
    && Recorded(pins[i]) && PinKey(pins[i]) == k
    && forall j :: i < j < n ==> !(Recorded(pins[j]) && PinKey(pins[j]) == k)
  }

  /** Every pin that is last with its key among the first `n` pins names that key in
      `result`. */
  ghost predicate LastNamed(pins: seq<Value>, n: nat, result: map<string, Value>)
    requires n <= |pins|
  {
    forall i :: 0 <= i < n && Recorded(pins[i]) && LastWithKey(pins, n, i, PinKey(pins[i])) ==>
      PinKey(pins[i]) in result && result[PinKey(pins[i])] == PinName(pins[i])
  }

  /** A pin that is last with its key among the first `n + 1` pins is either pin `n` or was
      already last among the first `n`, with pin `n` not recorded under the same key. */
  lemma LastWithKeyStep(pins: seq<Value>, n: nat, i: nat)
    requires i < n < |pins| && Recorded(pins[i]) && LastWithKey(pins, n + 1, i, PinKey(pins[i]))
    ensures LastWithKey(pins, n, i, PinKey(pins[i]))
    ensures !(Recorded(pins[n]) && PinKey(pins[n]) == PinKey(pins[i]))
  {
  }

  /** Recording pin `n` (when numbered) keeps the last pin of every key named. */
  lemma RecordPinName(pins: seq<Value>, n: nat, before: map<string, Value>, after: map<string, Value>)
    requires n < |pins| && LastNamed(pins, n, before)
    requires after == if Recorded(pins[n]) then before[PinKey(pins[n]) := PinName(pins[n])] else before
    ensures LastNamed(pins, n + 1, after)
  {
    forall i | 0 <= i < n + 1 && Recorded(pins[i]) && LastWithKey(pins, n + 1, i, PinKey(pins[i]))
      ensures PinKey(pins[i]) in after && after[PinKey(pins[i])] == PinName(pins[i])
    {
      if i < n {
        LastWithKeyStep(pins, n, i);
      }
    }
  }

  /** The state of the pin loop after `n` pins: none of them failed, and the table holds
      exactly the recorded keys, each with the name of the last pin recorded under it. */
  ghost predicate Scanned(items: seq<Value>, n: nat, result: map<string, Value>)
    requires n <= |items|
  {
    && (forall i :: 0 <= i < n ==> !PinFails(items[i]))
    && result.Keys == PinKeys(items, n)
    && LastNamed(items, n, result)
  }

  /** One turn of the pin loop over a pin that does not fail keeps `Scanned`. */
  lemma RecordPin(items: seq<Value>, n: nat, before: map<string, Value>, after: map<string, Value>)
    requires n < |items| && Scanned(items, n, before) && !PinFails(items[n])
    requires after == if Recorded(items[n]) then before[PinKey(items[n]) := PinName(items[n])] else before
    ensures Scanned(items, n + 1, after)
  {
    PinKeysStep(items, n);
    RecordPinName(items, n, before, after);
  }

  /** `fetchPinNames` after the pins of the component have been fetched. A non-array gives
      the empty table; a failing pin (`PinFails`) makes it throw. */
  method FetchPinNames(pins: Value) returns (r: Result<map<string, Value>>)
    ensures !pins.Arr? ==> r == Ok(map[])
    ensures pins.Arr? ==>
      (r.Err? <==> exists i :: 0 <= i < |pins.items| && PinFails(pins.items[i]))
    ensures r.Err? ==> r.error == TypeError
    ensures pins.Arr? && r.Ok? ==>
      && r.value.Keys == PinKeys(pins.items, |pins.items|)
      && LastNamed(pins.items, |pins.items|, r.value)
  {
    if !pins.Arr? {
      return Ok(map[]);
    }
    r := RecordPins(pins.items);
  }

  /** The `for (const pin of pins)` loop of `fetchPinNames`. */
  method RecordPins(items: seq<Value>) returns (r: Result<map<string, Value>>)
    ensures r.Err? <==> exists i :: 0 <= i < |items| && PinFails(items[i])
    ensures r.Err? ==> r.error == TypeError
    ensures r.Ok? ==> r.value.Keys == PinKeys(items, |items|) && LastNamed(items, |items|, r.value)
  {
    var result: map<string, Value> := map[];
    for n := 0 to |items|
      invariant Scanned(items, n, result)
    {
      var pin := items[n];
      if Nullish(pin) {
        assert PinFails(items[n]);
        return Err(TypeError);
      }
      ghost var before := result;
      if Numbered(pin) {
        // `String(p.pinNumber)` throws for a number without a string value
        if !Stringable(Get(pin, "pinNumber")) {
          assert PinFails(items[n]);
          return Err(TypeError);
        }
        var key := PinKey(pin);
        if key != ProtoKey {
          result := result[key := PinName(pin)];
        }
      }
      RecordPin(items, n, before, result);
    }
    r := Ok(result);
  }

  /** Two pins numbered 1: the later one wins. */
  method DuplicatePinNumber() returns (r: Result<map<string, Value>>)
    ensures r == Ok(map["1" := Str("B")])
  {
    var first := Obj(map["pinNumber" := Num(1), "pinName" := Str("A")]);
    var second := Obj(map["pinNumber" := Num(1), "pinName" := Str("B")]);
    r := FetchPinNames(Arr([first, second]));
    var items := [first, second];
    assert items[0] == first && items[1] == second;
    assert NatToString(1) == "1";
    assert PinKey(first) == "1" && PinKey(second) == "1";
    assert LastWithKey(items, 2, 1, "1");
    assert r.value.Keys == {"1"};
    assert r.value == map["1" := Str("B")];
  }

  /** A pin without a number is skipped, and a missing name becomes the empty string. */
  method UnnumberedPinSkipped() returns (r: Result<map<string, Value>>)
    ensures r == Ok(map["2" := Str("")])
  {
    var blank := Obj(map["pinName" := Str("C")]);
    var unnamed := Obj(map["pinNumber" := Str("2")]);
    r := FetchPinNames(Arr([blank, unnamed]));
    var items := [blank, unnamed];
    assert items[0] == blank && items[1] == unnamed;
    assert !Numbered(blank) && PinKey(unnamed) == "2";
    assert LastWithKey(items, 2, 1, "2");
    assert r.value.Keys == {"2"};
    assert r.value == map["2" := Str("")];
  }

  /** A pin numbered "__proto__" leaves no key behind. */
  method ProtoPinNumberCreatesNoKey() returns (r: Result<map<string, Value>>)
    ensures r == Ok(map[])
  {
    var pin := Obj(map["pinNumber" := Str(ProtoKey), "pinName" := Str("X")]);
    r := FetchPinNames(Arr([pin]));
    assert [pin][0] == pin && !Recorded(pin);
    assert r.value.Keys == {};
  }

  /** A pin number without a string value makes the whole lookup throw. */
  method UnconvertiblePinNumberThrows() returns (r: Result<map<string, Value>>)
    ensures r == Err(TypeError)
  {
    var pin := Obj(map["pinNumber" := Obj(map["toString" := Num(1)])]);
    r := FetchPinNames(Arr([pin]));
    assert [pin][0] == pin && PinFails(pin);
  }
}

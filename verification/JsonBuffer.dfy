// writeCanonicalJSON as it runs: appending to a buffer, recursively.
module JsonBuffer {
  import opened Lex
  import opened Numbers
  import opened CanonicalJson

  class Buffer {
    var text: string

    constructor ()
      ensures text == ""
    {
      text := "";
    }

    method WriteString(s: string)
      modifies this
      ensures text == old(text) + s
    {
      text := text + s;
    }
  }

  // Inserts one key into an ascending list.
  method InsertKey(sorted: seq<string>, key: string) returns (r: seq<string>)
    requires Ascending(sorted) && key !in sorted
    ensures Ascending(r) && forall k :: k in r <==> k in sorted || k == key
  {
    var i := 0;
    while i < |sorted| && Less(sorted[i], key)
      invariant 0 <= i <= |sorted| && forall j :: 0 <= j < i ==> Less(sorted[j], key)
    {
      i := i + 1;
    }
    InsertedAscends(sorted, i, key);
    InsertedMembers(sorted, i, key);
    r := sorted[..i] + [key] + sorted[i..];
  }

  lemma InsertedMembers(sorted: seq<string>, i: nat, key: string)
    requires i <= |sorted|
    ensures forall k :: k in sorted[..i] + [key] + sorted[i..] <==> k in sorted || k == key
  {
    assert sorted == sorted[..i] + sorted[i..];
  }

  lemma AfterInserted(sorted: seq<string>, i: nat, key: string, j: nat)
    requires Ascending(sorted) && key !in sorted && i <= j < |sorted| && !Less(sorted[i], key)
    ensures Less(key, sorted[j])
  {
    Total(key, sorted[i]);
    assert sorted[i] in sorted;
    if i < j {
      Transitive(key, sorted[i], sorted[j]);
    }
  }

  lemma InsertedAscends(sorted: seq<string>, i: nat, key: string)
    requires Ascending(sorted) && key !in sorted && i <= |sorted|
    requires (forall j :: 0 <= j < i ==> Less(sorted[j], key)) && (i < |sorted| ==> !Less(sorted[i], key))
    ensures Ascending(sorted[..i] + [key] + sorted[i..])
  {
    var r := sorted[..i] + [key] + sorted[i..];
    forall a, b | 0 <= a < b < |r| ensures Less(r[a], r[b]) {
      assert r[a] == (if a < i then sorted[a] else if a == i then key else sorted[a - 1]);
      assert r[b] == (if b < i then sorted[b] else if b == i then key else sorted[b - 1]);
      if a == i {
        AfterInserted(sorted, i, key, b - 1);
      }
    }
  }

  // The keys of an object, collected and sorted.
  method SortKeys(keys: set<string>) returns (r: seq<string>)
    ensures r == Sorted(keys)
  {
    r := [];
    var rest := keys;
    while rest != {}
      invariant rest <= keys && Ascending(r) && forall k :: k in r <==> k in keys - rest
      decreases |rest|
    {
      var key :| key in rest;
      r := InsertKey(r, key);
      rest := rest - {key};
    }
    AscendingIsUnique(r, Sorted(keys));
  }

  lemma ElementsStep(v: Json, items: seq<Json>, i: nat, text: string)
    requires Within(v, items) && i < |items|
    ensures Within(v, items[i..]) && Within(v, items[i + 1..])
    ensures text + Elements(v, items[i..], i == 0)
            == ((text + if i == 0 then "" else ",") + Write(items[i])) + Elements(v, items[i + 1..], false)
  {
    assert items[i..][1..] == items[i + 1..] && items[i..][0] == items[i];
  }

  lemma MembersStep(v: Json, keys: seq<string>, i: nat, text: string)
    requires Holds(v, keys) && i < |keys|
    ensures Holds(v, keys[i..]) && Holds(v, keys[i + 1..])
    ensures text + Members(v, keys[i..], i == 0)
            == ((((text + if i == 0 then "" else ",") + Quote(keys[i])) + ":") + Write(v.fields[keys[i]])) + Members(v, keys[i + 1..], false)
  {
    assert keys[i..][1..] == keys[i + 1..] && keys[i..][0] == keys[i];
  }

  method WriteCanonical(buffer: Buffer, v: Json)
    requires Decoded(v)
    modifies buffer
    ensures buffer.text == old(buffer.text) + Write(v)
    decreases v, 1
  {
    match v
    case Null => buffer.WriteString("null");
    case Bool(b) =>
      if b {
        buffer.WriteString("true");
      } else {
        buffer.WriteString("false");
      }
    case Str(s) => buffer.WriteString(Quote(s));
    case Num(n) => buffer.WriteString(WriteNumber(n));
    case Arr(items) => WriteArray(buffer, v);
    case Obj(fields) => WriteObject(buffer, v);
  }

  method WriteElement(buffer: Buffer, v: Json, item: Json, first: bool)
    requires Decoded(item) && item < v
    modifies buffer
    ensures buffer.text == (old(buffer.text) + if first then "" else ",") + Write(item)
    decreases v, 0, 0
  {
    if !first {
      buffer.WriteString(",");
    } else {
      assert buffer.text + "" == buffer.text;
    }
    WriteCanonical(buffer, item);
  }

  method WriteElements(buffer: Buffer, v: Json, items: seq<Json>)
    requires Within(v, items)
    modifies buffer
    ensures buffer.text == old(buffer.text) + Elements(v, items, true)
    decreases v, 0, 1
  {
    assert items[0..] == items;
    ghost var whole := buffer.text + Elements(v, items, true);
    for i := 0 to |items|
      invariant Within(v, items[i..]) && buffer.text + Elements(v, items[i..], i == 0) == whole
    {
      ElementsStep(v, items, i, buffer.text);
      WriteElement(buffer, v, items[i], i == 0);
    }
    assert items[|items|..] == [];
    buffer.WriteString("]");
  }

  method WriteArray(buffer: Buffer, v: Json)
    requires Decoded(v) && v.Arr?
    modifies buffer
    ensures buffer.text == old(buffer.text) + Write(v)
    decreases v, 0, 2
  {
    ArrayText(v, buffer.text);
    buffer.WriteString("[");
    WriteElements(buffer, v, v.items);
  }

  lemma ArrayText(v: Json, text: string)
    requires Decoded(v) && v.Arr?
    ensures Within(v, v.items) && text + Write(v) == (text + "[") + Elements(v, v.items, true)
  {
    assert Write(v) == "[" + Elements(v, v.items, true);
  }

  method WriteMember(buffer: Buffer, v: Json, key: string, first: bool)
    requires Decoded(v) && v.Obj? && key in v.fields
    modifies buffer
    ensures buffer.text == (((old(buffer.text) + if first then "" else ",") + Quote(key)) + ":") + Write(v.fields[key])
    decreases v, 0, 0
  {
    if !first {
      buffer.WriteString(",");
    } else {
      assert buffer.text + "" == buffer.text;
    }
    buffer.WriteString(Quote(key));
    buffer.WriteString(":");
    WriteCanonical(buffer, v.fields[key]);
  }

  method WriteMembers(buffer: Buffer, v: Json, keys: seq<string>)
    requires Holds(v, keys)
    modifies buffer
    ensures buffer.text == old(buffer.text) + Members(v, keys, true)
    decreases v, 0, 1
  {
    assert keys[0..] == keys;
    ghost var whole := buffer.text + Members(v, keys, true);
    for i := 0 to |keys|
      invariant Holds(v, keys[i..]) && buffer.text + Members(v, keys[i..], i == 0) == whole
    {
      MembersStep(v, keys, i, buffer.text);
      WriteMember(buffer, v, keys[i], i == 0);
    }
    assert keys[|keys|..] == [];
    buffer.WriteString("}");
  }

  method WriteObject(buffer: Buffer, v: Json)
    requires Decoded(v) && v.Obj?
    modifies buffer
    ensures buffer.text == old(buffer.text) + Write(v)
    decreases v, 0, 2
  {
    var keys := SortKeys(v.fields.Keys);
    ObjectText(v, keys, buffer.text);
    buffer.WriteString("{");
    WriteMembers(buffer, v, keys);
  }

  lemma ObjectText(v: Json, keys: seq<string>, text: string)
    requires Decoded(v) && v.Obj? && keys == Sorted(v.fields.Keys)
    ensures Holds(v, keys) && text + Write(v) == (text + "{") + Members(v, keys, true)
  {
    assert Holds(v, keys);
    assert Write(v) == "{" + Members(v, keys, true);
  }
}

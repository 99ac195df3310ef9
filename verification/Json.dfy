/**
 Decoded JSON values. A number keeps its source token and an object keeps the
 order and the repetition of its keys, because the protocol looks at both.
 */
module Json {
  import opened Text
  import opened Sums

  datatype Value =
    | Null
    | Bool(flag: bool)
    | Number(token: string)
    | String(text: string)
    | Array(items: seq<Value>)
    | Object(fields: seq<(string, Value)>)

  const INT64_LIMIT := 0x8000_0000_0000_0000

  predicate DistinctKeys(fields: seq<(string, Value)>) {
    forall i, j | 0 <= i < j < |fields| :: fields[i].0 != fields[j].0
  }

  predicate DistinctNames(names: seq<string>) {
    forall i, j | 0 <= i < j < |names| :: names[i] != names[j]
  }

  /** The object's members as a map; a later member replaces an earlier one of the same name. */
  function Collect(fields: seq<(string, Value)>): map<string, Value> {
    if fields == [] then map[]
    else
      var last := fields[|fields| - 1];
      Collect(fields[..|fields| - 1])[last.0 := last.1]
  }

  /** The closed-schema rule: every listed name exactly once and nothing else. */
  predicate Closed(v: Value, names: seq<string>) {
    && v.Object?
    && DistinctKeys(v.fields)
    && |v.fields| == |names|
    && forall n | n in names :: n in Collect(v.fields)
  }

  function Fields(v: Value, names: seq<string>): Option<map<string, Value>> {
    if Closed(v, names) then Some(Collect(v.fields)) else None
  }

  predicate Occurs(fields: seq<(string, Value)>, key: string) {
    exists i :: 0 <= i < |fields| && fields[i].0 == key
  }

  lemma {:induction false} CollectKeys(fields: seq<(string, Value)>, key: string)
    ensures key in Collect(fields) <==> Occurs(fields, key)
  {
    if fields != [] {
      var front, last := fields[..|fields| - 1], fields[|fields| - 1];
      CollectKeys(front, key);
      if Occurs(front, key) {
        var i :| 0 <= i < |front| && front[i].0 == key;
        assert fields[i].0 == key;
      }
      if last.0 != key && Occurs(fields, key) {
        var i :| 0 <= i < |fields| && fields[i].0 == key;
        assert front[i].0 == key;
      }
    }
  }

  lemma {:induction false} CollectSize(fields: seq<(string, Value)>)
    requires DistinctKeys(fields)
    ensures |Collect(fields)| == |fields|
  {
    if fields != [] {
      var front, last := fields[..|fields| - 1], fields[|fields| - 1];
      CollectSize(front);
      CollectKeys(front, last.0);
      assert forall i | 0 <= i < |front| :: front[i].0 == fields[i].0 != last.0;
    }
  }

  /** Reading one more field keeps the keys distinct exactly when its key is new. */
  lemma OneMoreField(fields: seq<(string, Value)>, i: nat)
    requires i < |fields| && DistinctKeys(fields[..i])
    ensures DistinctKeys(fields[..i + 1]) <==> fields[i].0 !in Collect(fields[..i])
    ensures Collect(fields[..i + 1]) == Collect(fields[..i])[fields[i].0 := fields[i].1]
  {
    var front, more := fields[..i], fields[..i + 1];
    assert more[..|more| - 1] == front && more[|more| - 1] == fields[i];
    CollectKeys(front, fields[i].0);
    DistinctExtends(front, fields[i]);
    assert more == front + [fields[i]];
  }

  lemma DistinctExtends(front: seq<(string, Value)>, field: (string, Value))
    requires DistinctKeys(front)
    ensures DistinctKeys(front + [field]) <==> !Occurs(front, field.0)
  {
    var more := front + [field];
    if Occurs(front, field.0) {
      var j :| 0 <= j < |front| && front[j].0 == field.0;
      assert more[j].0 == more[|front|].0;
    } else {
      forall a, b | 0 <= a < b < |more| ensures more[a].0 != more[b].0 {
        assert more[a] == front[a];
      }
    }
  }

  lemma NoFields()
    ensures Collect([]) == map[] && DistinctKeys([])
  {
  }

  lemma PrefixKeys(fields: seq<(string, Value)>, i: nat)
    requires i <= |fields| && DistinctKeys(fields)
    ensures DistinctKeys(fields[..i])
  {
  }

  /** `object`: fills a map key by key, refuses a repeated key, then compares with the schema. */
  method DecodeObject(v: Value, names: seq<string>) returns (r: Option<map<string, Value>>)
    ensures r == Fields(v, names)
  {
    hide Collect, DistinctKeys;
    if !v.Object? {
      return None;
    }
    NoFields();
    var values: map<string, Value> := map[];
    var i := 0;
    while i < |v.fields|
      invariant 0 <= i <= |v.fields|
      invariant values == Collect(v.fields[..i])
      invariant DistinctKeys(v.fields[..i])
    {
      var key, value := v.fields[i].0, v.fields[i].1;
      OneMoreField(v.fields, i);
      if key in values {
        if DistinctKeys(v.fields) { PrefixKeys(v.fields, i + 1); }
        return None;
      }
      values := values[key := value];
      i := i + 1;
    }
    assert v.fields[..i] == v.fields;
    CollectSize(v.fields);
    if |values| != |names| {
      return None;
    }
    i := 0;
    while i < |names|
      invariant 0 <= i <= |names|
      invariant forall n | n in names[..i] :: n in values
    {
      assert names[..i + 1] == names[..i] + [names[i]];
      if names[i] !in values {
        return None;
      }
      i := i + 1;
    }
    assert names[..i] == names;
    return Some(values);
  }

  lemma NamesPresent(v: Value, names: seq<string>)
    requires Fields(v, names).Some?
    ensures forall n | n in names :: n in Fields(v, names).value
  {
  }

  /** An accepted object has exactly the schema's keys. */
  lemma FieldsKeys(v: Value, names: seq<string>)
    requires DistinctNames(names) && Fields(v, names).Some?
    ensures Fields(v, names).value.Keys == set n | n in names
  {
    CollectSize(v.fields);
    SchemaKeys(Collect(v.fields), names);
  }

  /** As many keys as distinct names, and every name a key: no key is left over. */
  lemma SchemaKeys(values: map<string, Value>, names: seq<string>)
    requires DistinctNames(names) && |values| == |names|
    requires forall n | n in names :: n in values
    ensures values.Keys == set n | n in names
  {
    var listed := set n | n in names;
    DistinctSize(names);
    assert listed <= values.Keys;
    if k :| k in values.Keys && k !in listed {
      SubsetSize(listed + {k}, values.Keys);
    }
  }

  // ---------- `decode` of one value into a typed target; null is refused ----------

  function ToInt(v: Value): Option<int> {
    if !v.Number? then None
    else match ParseInt(v.token)
         case Some(n) => if -INT64_LIMIT <= n < INT64_LIMIT then Some(n) else None
         case None => None
  }

  function ToText(v: Value): Option<string> {
    if v.String? then Some(v.text) else None
  }

  function ToBool(v: Value): Option<bool> {
    if v.Bool? then Some(v.flag) else None
  }

  /** The pattern `^[1-9][0-9]{0,9}$` on a raw token. */
  predicate BuildNumberToken(s: string) {
    1 <= |s| <= 10 && AllDigits(s) && s[0] != '0'
  }

  /** A member of an object, null when there is none. */
  function Member(v: Value, name: string): Value {
    if v.Object? && name in Collect(v.fields) then Collect(v.fields)[name] else Null
  }

  function Token(v: Value): string {
    if v.Number? then v.token else ""
  }
}

/**
 The key conversions of packages/types/index.ts, between the snake_case of database rows and the camelCase
 of the services. An object is the sequence of its fields, each key once, in insertion order.
 */
module CaseKeys {

  predicate Upper(c: char) { 'A' <= c <= 'Z' }

  predicate Lower(c: char) { 'a' <= c <= 'z' }

  function ToUpper(c: char): char
    requires Lower(c)
  { c - 'a' + 'A' }

  function ToLower(c: char): char
    requires Upper(c)
  { c - 'A' + 'a' }

  /** An underscore with the letter it would capitalise. */
  predicate StartsHump(k: string) { |k| >= 2 && k[0] == '_' && Lower(k[1]) }

  /** key.replace(/_([a-z])/g, upper-case letter): matches from left to right, none overlapping. */
  function Camel(k: string): string {
    if k == [] then []
    else if StartsHump(k) then [ToUpper(k[1])] + Camel(k[2..])
    else [k[0]] + Camel(k[1..])
  }

  /** key.replace(/[A-Z]/g, underscore and lower-case letter) */
  function Snake(k: string): string {
    if k == [] then []
    else if Upper(k[0]) then ['_', ToLower(k[0])] + Snake(k[1..])
    else [k[0]] + Snake(k[1..])
  }

  predicate NoUpper(k: string) { forall i :: 0 <= i < |k| ==> !Upper(k[i]) }

  predicate NoHump(k: string) { forall i :: 0 <= i < |k| ==> !StartsHump(k[i..]) }

  lemma {:induction false} SnakeHasNoUpper(k: string)
    ensures NoUpper(Snake(k))
  {
    if k != [] { SnakeHasNoUpper(k[1..]); }
  }

  lemma NoHumpTail(k: string)
    requires k != []
    ensures NoHump(k) <==> !StartsHump(k) && NoHump(k[1..])
  {
    assert forall i :: 0 <= i < |k| - 1 ==> k[1..][i..] == k[i + 1..];
    if !StartsHump(k) && NoHump(k[1..]) {
      forall i | 0 <= i < |k| ensures !StartsHump(k[i..]) {
        if i == 0 { assert k[0..] == k; } else { assert k[1..][i - 1..] == k[i..]; }
      }
    }
    assert k[0..] == k;
  }

  /** Camel leaves no underscore that a second pass would act on. */
  lemma {:induction false} CamelHasNoHump(k: string)
    ensures NoHump(Camel(k))
    ensures Camel(k) != [] && Lower(Camel(k)[0]) ==> k[0] == Camel(k)[0]
    decreases |k|
  {
    if k != [] {
      CamelHasNoHump(if StartsHump(k) then k[2..] else k[1..]);
      NoHumpTail(Camel(k));
    }
  }

  lemma {:induction false} SnakeAfterCamel(k: string)
    requires NoUpper(k)
    ensures Snake(Camel(k)) == k
    decreases |k|
  {
    if StartsHump(k) {
      SnakeAfterCamel(k[2..]);
      assert k == ['_', k[1]] + k[2..];
    } else if k != [] {
      SnakeAfterCamel(k[1..]);
    }
  }

  /** A snake_case key survives the round trip exactly when it has no capital letter. */
  lemma SnakeRoundTrip(k: string)
    ensures Snake(Camel(k)) == k <==> NoUpper(k)
  {
    SnakeHasNoUpper(Camel(k));
    if NoUpper(k) { SnakeAfterCamel(k); }
  }

  /** What Snake makes of a key begins with a small letter only if the key does. */
  lemma SnakeStart(k: string)
    ensures Snake(k) != [] && Lower(Snake(k)[0]) ==> k[0] == Snake(k)[0]
  {}

  lemma {:induction false} CamelAfterSnake(k: string)
    requires NoHump(k)
    ensures Camel(Snake(k)) == k
  {
    if k != [] {
      NoHumpTail(k);
      CamelAfterSnake(k[1..]);
      SnakeStart(k[1..]);
      if Upper(k[0]) {
        assert Snake(k)[2..] == Snake(k[1..]);
      } else {
        assert Snake(k)[1..] == Snake(k[1..]);
      }
    }
  }

  /** A camelCase key survives the round trip exactly when it has no underscore before a small letter. */
  lemma CamelRoundTrip(k: string)
    ensures Camel(Snake(k)) == k <==> NoHump(k)
  {
    CamelHasNoHump(Snake(k));
    if NoHump(k) { CamelAfterSnake(k); }
  }

  // ---------------------------------------------------------------- objects

  datatype Field<V> = Field(key: string, value: V)

  predicate Object<V>(fields: seq<Field<V>>) {
    forall i, j :: 0 <= i < j < |fields| ==> fields[i].key != fields[j].key
  }

  predicate Has<V>(fields: seq<Field<V>>, key: string) { exists i :: 0 <= i < |fields| && fields[i].key == key }

  /** Assigning to this key sets the object's prototype, if anything, and makes no field. */
  const PROTO := "__proto__"

  /** object[key] = value */
  function Assign<V>(fields: seq<Field<V>>, key: string, value: V): seq<Field<V>> {
    if key == PROTO then fields else Put(fields, key, value)
  }

  /** A new key comes last, an old one keeps its place and loses its value. */
  function Put<V>(fields: seq<Field<V>>, key: string, value: V): seq<Field<V>> {
    if fields == [] then [Field(key, value)]
    else if fields[0].key == key then [Field(key, value)] + fields[1..]
    else [fields[0]] + Put(fields[1..], key, value)
  }

  /** Every field assigned in turn to its renamed key. */
  function Renamed<V>(row: seq<Field<V>>, rename: string -> string): seq<Field<V>> {
    if row == [] then []
    else
      var last := row[|row| - 1];
      Assign(Renamed(row[..|row| - 1], rename), rename(last.key), last.value)
  }

  method ToCamelCase<V>(row: seq<Field<V>>) returns (result: seq<Field<V>>)
    ensures result == Renamed(row, Camel)
  {
    result := [];
    for n := 0 to |row|
      invariant result == Renamed(row[..n], Camel)
    {
      var camelKey := Camel(row[n].key);
      assert row[..n + 1][..n] == row[..n];
      result := Assign(result, camelKey, row[n].value);
    }
    assert row[..|row|] == row;
  }

  method ToSnakeCase<V>(obj: seq<Field<V>>) returns (result: seq<Field<V>>)
    ensures result == Renamed(obj, Snake)
  {
    result := [];
    for n := 0 to |obj|
      invariant result == Renamed(obj[..n], Snake)
    {
      var snakeKey := Snake(obj[n].key);
      assert obj[..n + 1][..n] == obj[..n];
      result := Assign(result, snakeKey, obj[n].value);
    }
    assert obj[..|obj|] == obj;
  }

  lemma {:induction false} PutNew<V>(fields: seq<Field<V>>, key: string, value: V)
    requires !Has(fields, key)
    ensures Put(fields, key, value) == fields + [Field(key, value)]
  {
    if fields != [] {
      assert fields[0].key != key;
      forall i | 0 <= i < |fields| - 1 ensures fields[1..][i].key != key { assert fields[i + 1].key != key; }
      PutNew(fields[1..], key, value);
    }
  }

  lemma {:induction false} PutOld<V>(fields: seq<Field<V>>, key: string, value: V)
    requires Has(fields, key)
    ensures |Put(fields, key, value)| == |fields|
  {
    if fields[0].key != key {
      var i :| 0 <= i < |fields| && fields[i].key == key;
      assert fields[1..][i - 1].key == key;
      PutOld(fields[1..], key, value);
    }
  }

  lemma {:induction false} PutIs<V>(fields: seq<Field<V>>, key: string, value: V)
    requires Object(fields)
    ensures var put := Put(fields, key, value);
      && |put| == |fields| + (if Has(fields, key) then 0 else 1)
      && (forall i :: 0 <= i < |fields| ==>
            put[i] == if fields[i].key == key then Field(key, value) else fields[i])
      && (!Has(fields, key) ==> put[|fields|] == Field(key, value))
  {
    if fields != [] {
      var rest := fields[1..];
      assert forall i :: 0 <= i < |rest| ==> rest[i] == fields[i + 1];
      assert Object(rest);
      if fields[0].key != key {
        PutIs(rest, key, value);
        assert Has(rest, key) <==> Has(fields, key) by {
          if i :| 0 <= i < |fields| && fields[i].key == key { assert rest[i - 1].key == key; }
        }
      }
    }
  }

  /** Of the fields that become the given key, the i-th is the last. */
  predicate IsLast<V>(row: seq<Field<V>>, rename: string -> string, i: int, key: string) {
    0 <= i < |row| && rename(row[i].key) == key && forall j :: i < j < |row| ==> rename(row[j].key) != key
  }

  /** The value of the last field that becomes the given key. */
  ghost predicate IsLastValue<V>(row: seq<Field<V>>, rename: string -> string, f: Field<V>) {
    exists i :: IsLast(row, rename, i, f.key) && row[i].value == f.value
  }

  lemma LastOfOneMore<V>(row: seq<Field<V>>, rename: string -> string, f: Field<V>)
    requires row != []
    ensures var n := |row| - 1;
      IsLastValue(row, rename, f) <==>
        if rename(row[n].key) == f.key then row[n].value == f.value else IsLastValue(row[..n], rename, f)
  {
    var n := |row| - 1;
    if rename(row[n].key) == f.key {
      assert IsLast(row, rename, n, f.key);
    } else {
      forall i ensures IsLast(row, rename, i, f.key) <==> IsLast(row[..n], rename, i, f.key) {
        if IsLast(row[..n], rename, i, f.key) {
          forall j | i < j < |row| ensures rename(row[j].key) != f.key { if j < n { assert row[..n][j] == row[j]; } }
        }
        if IsLast(row, rename, i, f.key) { assert forall j :: i < j < n ==> row[..n][j] == row[j]; }
      }
    }
  }

  lemma PutHolds<V>(fields: seq<Field<V>>, key: string, value: V, f: Field<V>)
    requires Object(fields)
    ensures Object(Put(fields, key, value))
    ensures f in Put(fields, key, value) <==> if f.key == key then f.value == value else f in fields
  {
    var put := Put(fields, key, value);
    PutIs(fields, key, value);
    assert forall i :: 0 <= i < |fields| ==> put[i].key == fields[i].key;
    if Has(fields, key) {
      var i :| 0 <= i < |fields| && fields[i].key == key;
      assert put[i] == Field(key, value);
    } else {
      assert put[|fields|] == Field(key, value);
    }
    if f.key != key && f in fields {
      var i :| 0 <= i < |fields| && fields[i] == f;
      assert put[i] == f;
    }
  }

  /** The result has exactly the new keys other than __proto__, each once, with the value of its last field. */
  lemma {:induction false} LastValueWins<V>(row: seq<Field<V>>, rename: string -> string, f: Field<V>)
    ensures Object(Renamed(row, rename))
    ensures f in Renamed(row, rename) <==> f.key != "__proto__" && IsLastValue(row, rename, f)
  {
    if row != [] {
      var n := |row| - 1;
      LastValueWins(row[..n], rename, f);
      LastOfOneMore(row, rename, f);
      PutHolds(Renamed(row[..n], rename), rename(row[n].key), row[n].value, f);
    }
  }

  /** The fields under their new keys, one for one. */
  function Relabelled<V>(row: seq<Field<V>>, rename: string -> string): (r: seq<Field<V>>) {
    seq(|row|, i requires 0 <= i < |row| => Field(rename(row[i].key), row[i].value))
  }

  /** The new keys can be the keys of one object. */
  predicate Proper<V>(labels: seq<Field<V>>) { Object(labels) && !Has(labels, PROTO) }

  /**
   No field is lost or merged, and none moves, exactly when no two keys become one and none becomes
   __proto__; otherwise the result has fewer fields than the row.
   */
  lemma {:induction false} NothingLostIff<V>(row: seq<Field<V>>, rename: string -> string)
    ensures Proper(Relabelled(row, rename)) ==> Renamed(row, rename) == Relabelled(row, rename)
    ensures !Proper(Relabelled(row, rename)) ==> |Renamed(row, rename)| < |row|
    ensures |Renamed(row, rename)| <= |row|
  {
    if row != [] {
      var n := |row| - 1;
      var before, labels := row[..n], Relabelled(row, rename);
      var key, value := rename(row[n].key), row[n].value;
      NothingLostIff(before, rename);
      assert labels == Relabelled(before, rename) + [Field(key, value)];
      OneMoreField(Relabelled(before, rename), key, value);
      if Proper(Relabelled(before, rename)) && !Has(Relabelled(before, rename), key) {
        PutNew(Renamed(before, rename), key, value);
      } else {
        PutAddsAtMostOne(Renamed(before, rename), key, value);
      }
    }
  }

  lemma OneMoreField<V>(fields: seq<Field<V>>, key: string, value: V)
    ensures Object(fields + [Field(key, value)]) <==> Object(fields) && !Has(fields, key)
    ensures forall k :: Has(fields + [Field(key, value)], k) <==> Has(fields, k) || k == key
  {
    var more := fields + [Field(key, value)];
    assert forall i :: 0 <= i < |fields| ==> more[i] == fields[i];
    assert more[|fields|].key == key;
    if Object(more) {
      forall i | 0 <= i < |fields| ensures fields[i].key != key { assert more[i].key != more[|fields|].key; }
      forall i, j | 0 <= i < j < |fields| ensures fields[i].key != fields[j].key { assert more[i].key != more[j].key; }
    }
  }

  lemma PutAddsAtMostOne<V>(fields: seq<Field<V>>, key: string, value: V)
    ensures |Put(fields, key, value)| == |fields| + if Has(fields, key) then 0 else 1
  {
    if Has(fields, key) { PutOld(fields, key, value); } else { PutNew(fields, key, value); }
  }

  predicate AllKeys<V>(row: seq<Field<V>>, p: string -> bool) { forall i :: 0 <= i < |row| ==> p(row[i].key) }

  /** Where undo takes every new key back to the old one, renaming keeps all fields and undo restores them. */
  lemma RenameAndBack<V>(row: seq<Field<V>>, rename: string -> string, undo: string -> string)
    requires Object(row) && AllKeys(row, k => undo(rename(k)) == k && rename(k) != PROTO)
    ensures Renamed(row, rename) == Relabelled(row, rename)
    ensures !Has(row, PROTO) ==> Renamed(Renamed(row, rename), undo) == row
  {
    var labels := Relabelled(row, rename);
    forall i, j | 0 <= i < j < |row| ensures labels[i].key != labels[j].key {
      assert undo(labels[i].key) == row[i].key && undo(labels[j].key) == row[j].key;
    }
    NothingLostIff(row, rename);
    assert Relabelled(labels, undo) == row;
    NothingLostIff(labels, undo);
  }

  /** The keys of the result are all new keys, and none is __proto__. */
  lemma {:induction false} NewKeysOnly<V>(row: seq<Field<V>>, rename: string -> string, p: string -> bool)
    requires forall k :: rename(k) != PROTO ==> p(rename(k))
    ensures AllKeys(Renamed(row, rename), p)
  {
    if row != [] {
      var n := |row| - 1;
      NewKeysOnly(row[..n], rename, p);
      if rename(row[n].key) != PROTO {
        PutKeepsKeys(Renamed(row[..n], rename), rename(row[n].key), row[n].value, p);
      }
    }
  }

  lemma {:induction false} PutKeepsKeys<V>(fields: seq<Field<V>>, key: string, value: V, p: string -> bool)
    requires AllKeys(fields, p) && p(key)
    ensures AllKeys(Put(fields, key, value), p)
  {
    if fields != [] && fields[0].key != key {
      assert AllKeys(fields[1..], p);
      PutKeepsKeys(fields[1..], key, value, p);
    }
  }

  lemma {:induction false} NothingToConvert(k: string)
    requires NoUpper(k) && forall i :: 0 <= i < |k| - 1 ==> k[i] != '_' || !Lower(k[i + 1])
    ensures Camel(k) == k && Snake(k) == k
  {
    if k != [] { NothingToConvert(k[1..]); }
  }

  /** Two underscores and a small letter, one underscore and its capital, and the same rest, which nothing changes. */
  predicate HumpAndCapital(humped: string, capital: string) {
    && |humped| >= 3 && humped[0] == '_' && humped[1] == '_' && Lower(humped[2])
    && |capital| >= 2 && capital[0] == '_' && capital[1] == ToUpper(humped[2]) && capital[2..] == humped[3..]
    && NoUpper(humped[3..]) && forall i :: 3 <= i < |humped| - 1 ==> humped[i] != '_' || !Lower(humped[i + 1])
  }

  lemma CamelOfHump(humped: string, rest: string, tail: string)
    requires |humped| >= 3 && humped[0] == '_' && humped[1] == '_' && Lower(humped[2])
    requires rest == humped[1..] && tail == rest[2..] && Camel(tail) == tail
    ensures Camel(humped) == ['_'] + ([ToUpper(humped[2])] + tail)
  {
    assert !StartsHump(humped) && StartsHump(rest) && rest[1] == humped[2];
  }

  lemma SnakeOfCapital(capital: string, rest: string, tail: string)
    requires |capital| >= 2 && capital[0] == '_' && Upper(capital[1])
    requires rest == capital[1..] && tail == rest[1..] && Snake(tail) == tail
    ensures Snake(capital) == ['_'] + (['_', ToLower(capital[1])] + tail)
  {
    assert rest[0] == capital[1];
  }

  lemma HumpBecomesCapital(humped: string, capital: string)
    requires HumpAndCapital(humped, capital)
    ensures Camel(humped) == capital && Snake(capital) == humped && !NoHump(humped)
  {
    var tail := humped[3..];
    NothingToConvert(tail);
    assert humped[1..][2..] == tail && capital[1..][1..] == tail;
    CamelOfHump(humped, humped[1..], tail);
    SnakeOfCapital(capital, capital[1..], tail);
    assert StartsHump(humped[1..]);
  }

  /** Camel never makes a key with a hump, and Snake makes one of just two keys. */
  lemma WhatBecomes(k: string, humped: string, capital: string)
    requires Camel(humped) == capital && Snake(capital) == humped && !NoHump(humped)
    ensures Camel(k) != humped
    ensures NoHump(k) ==> k != humped && (Snake(k) == humped <==> k == capital)
  {
    CamelHasNoHump(k);
    CamelRoundTrip(k);
  }

  const CAPITAL_PROTO := "_Proto__"

  lemma WhatBecomesProto(k: string)
    ensures Camel(k) != PROTO
    ensures NoHump(k) ==> k != PROTO && (Snake(k) == PROTO <==> k == CAPITAL_PROTO)
  {
    ProtoIsHump(PROTO, CAPITAL_PROTO);
    HumpBecomesCapital(PROTO, CAPITAL_PROTO);
    WhatBecomes(k, PROTO, CAPITAL_PROTO);
  }

  lemma ProtoIsHump(proto: string, capital: string)
    requires proto == "__proto__" && capital == "_Proto__"
    ensures HumpAndCapital(proto, capital)
  {}

  function GoodColumn(): string -> bool { k => NoUpper(k) && k != PROTO }

  function GoodKey(): string -> bool { k => NoHump(k) && k != CAPITAL_PROTO }

  /** The same, as the conversion sees it. */
  function Convertible(): string -> bool { k => NoHump(k) && Snake(k) != PROTO }

  /**
   A database row comes back from toSnakeCase(toCamelCase(row)) exactly when no column has a capital or is
   __proto__.
   */
  lemma RowRoundTrip<V>(row: seq<Field<V>>)
    requires Object(row)
    ensures Renamed(Renamed(row, Camel), Snake) == row <==> AllKeys(row, GoodColumn())
    ensures AllKeys(row, NoUpper) ==> Renamed(row, Camel) == Relabelled(row, Camel)
  {
    forall k ensures NoUpper(Snake(k)) { SnakeHasNoUpper(k); }
    NewKeysOnly(Renamed(row, Camel), Snake, GoodColumn());
    if AllKeys(row, NoUpper) {
      forall i | 0 <= i < |row| ensures Snake(Camel(row[i].key)) == row[i].key && Camel(row[i].key) != PROTO {
        SnakeRoundTrip(row[i].key);
        WhatBecomesProto(row[i].key);
      }
      RenameAndBack(row, Camel, Snake);
    }
  }

  lemma ConvertibleComesBack<V>(obj: seq<Field<V>>)
    requires Object(obj)
    ensures Renamed(Renamed(obj, Snake), Camel) == obj <==> AllKeys(obj, Convertible())
    ensures AllKeys(obj, Convertible()) ==> Renamed(obj, Snake) == Relabelled(obj, Snake)
  {
    forall k ensures NoHump(Camel(k)) { CamelHasNoHump(k); }
    NewKeysOnly(Renamed(obj, Snake), Camel, NoHump);
    if AllKeys(obj, Convertible()) {
      forall i | 0 <= i < |obj| ensures Camel(Snake(obj[i].key)) == obj[i].key && obj[i].key != PROTO {
        CamelRoundTrip(obj[i].key);
        WhatBecomesProto(obj[i].key);
      }
      RenameAndBack(obj, Snake, Camel);
    } else if AllKeys(obj, NoHump) {
      SomethingBecomesProto(obj);
    }
  }

  lemma SomethingBecomesProto<V>(obj: seq<Field<V>>)
    requires AllKeys(obj, NoHump) && !AllKeys(obj, Convertible())
    ensures |Renamed(Renamed(obj, Snake), Camel)| < |obj|
  {
    var i :| 0 <= i < |obj| && Snake(obj[i].key) == PROTO;
    assert Relabelled(obj, Snake)[i].key == PROTO;
    NothingLostIff(obj, Snake);
    NothingLostIff(Renamed(obj, Snake), Camel);
  }

  /**
   An object comes back from toCamelCase(toSnakeCase(obj)) exactly when no key has an underscore before a
   small letter or is _Proto__.
   */
  lemma ObjectRoundTrip<V>(obj: seq<Field<V>>)
    requires Object(obj)
    ensures Renamed(Renamed(obj, Snake), Camel) == obj <==> AllKeys(obj, GoodKey())
    ensures AllKeys(obj, GoodKey()) ==> Renamed(obj, Snake) == Relabelled(obj, Snake)
  {
    forall k ensures GoodKey()(k) <==> Convertible()(k) { WhatBecomesProto(k); }
    ConvertibleComesBack(obj);
  }

  /** Two columns can become one field: the later value replaces the earlier. */
  lemma ColumnsMayMerge<V>(v: V, w: V)
    ensures Renamed([Field("a_b", v), Field("aB", w)], Camel) == [Field("aB", w)]
  {
    var row := [Field("a_b", v), Field("aB", w)];
    assert Camel("a_b") == "aB" && Camel("aB") == "aB" && "aB" != PROTO;
    assert row[..1] == [Field("a_b", v)] && row[..1][..0] == [];
    assert Renamed(row[..1], Camel) == [Field("aB", v)];
  }

  // ---------------------------------------------------------------- nested values

  /** What a field may hold: nothing with keys, an object, or an array. */
  datatype Value = Leaf(text: string) | Obj(fields: seq<Field<Value>>) | Arr(items: seq<Value>)

  /** The conversion that the comment on toCamelCase describes: nested objects and arrays are converted too. */
  function Deep(v: Value): Value {
    match v
    case Leaf(_) => v
    case Obj(fields) => Obj(Renamed(DeepFields(fields), Camel))
    case Arr(items) => Arr(seq(|items|, i requires 0 <= i < |items| => Deep(items[i])))
  }

  function DeepFields(fields: seq<Field<Value>>): seq<Field<Value>> {
    seq(|fields|, i requires 0 <= i < |fields| => Field(fields[i].key, Deep(fields[i].value)))
  }

  /** Every object in the value has each of its keys once. */
  predicate WellFormed(v: Value) {
    match v
    case Leaf(_) => true
    case Obj(fields) => Object(fields) && forall i :: 0 <= i < |fields| ==> WellFormed(fields[i].value)
    case Arr(items) => forall i :: 0 <= i < |items| ==> WellFormed(items[i])
  }

  /** No object in the value has a key that the conversion would change. */
  predicate NothingNested(v: Value) {
    match v
    case Leaf(_) => true
    case Obj(fields) =>
      forall i :: 0 <= i < |fields| ==> Camel(fields[i].key) == fields[i].key && NothingNested(fields[i].value)
    case Arr(items) => forall i :: 0 <= i < |items| ==> NothingNested(items[i])
  }

  /** A row becomes a given object exactly when each of its fields becomes the object's. */
  lemma BecomesIff<V>(row: seq<Field<V>>, like: seq<Field<V>>, rename: string -> string)
    requires |row| == |like| && Object(like) && !Has(Relabelled(row, rename), PROTO)
    ensures Renamed(row, rename) == like <==> Relabelled(row, rename) == like
  {
    NothingLostIff(row, rename);
  }

  lemma CamelLabelsAreNoProto<V>(row: seq<Field<V>>)
    ensures !Has(Relabelled(row, Camel), PROTO)
  {
    var labels := Relabelled(row, Camel);
    forall i | 0 <= i < |labels| ensures labels[i].key != PROTO { WhatBecomesProto(row[i].key); }
  }

  predicate Stays(f: Field<Value>) { Camel(f.key) == f.key && Deep(f.value) == f.value }

  /** Converting the fields of an object gives the same fields exactly when every key and every value stays. */
  lemma FieldsStayIff(fields: seq<Field<Value>>)
    requires Object(fields)
    ensures Renamed(DeepFields(fields), Camel) == fields <==> forall i :: 0 <= i < |fields| ==> Stays(fields[i])
  {
    CamelLabelsAreNoProto(DeepFields(fields));
    BecomesIff(DeepFields(fields), fields, Camel);
    LabelsStayIff(fields);
  }

  lemma LabelsStayIff(fields: seq<Field<Value>>)
    ensures Relabelled(DeepFields(fields), Camel) == fields <==> forall i :: 0 <= i < |fields| ==> Stays(fields[i])
  {
    var labels := Relabelled(DeepFields(fields), Camel);
    forall i | 0 <= i < |fields| ensures labels[i] == fields[i] <==> Stays(fields[i]) {
      assert labels[i] == Field(Camel(fields[i].key), Deep(fields[i].value));
    }
    assert labels == fields <==> forall i :: 0 <= i < |fields| ==> labels[i] == fields[i];
  }

  /** A value stays as it is under the deep conversion exactly when there is nothing in it to convert. */
  lemma {:induction false} StaysIff(v: Value)
    requires WellFormed(v)
    ensures Deep(v) == v <==> NothingNested(v)
  {
    match v
    case Leaf(_) =>
    case Obj(fields) =>
      forall i | 0 <= i < |fields| ensures Deep(fields[i].value) == fields[i].value <==> NothingNested(fields[i].value)
      {
        StaysIff(fields[i].value);
      }
      FieldsStayIff(fields);
    case Arr(items) =>
      forall i | 0 <= i < |items| ensures Deep(items[i]) == items[i] <==> NothingNested(items[i]) {
        StaysIff(items[i]);
      }
      assert Deep(v).items == items <==> forall i :: 0 <= i < |items| ==> Deep(items[i]) == items[i];
  }

  lemma DistinctWithoutCapitals<V>(row: seq<Field<V>>)
    requires Object(row) && AllKeys(row, NoUpper)
    ensures Proper(Relabelled(row, Camel))
  {
    var labels := Relabelled(row, Camel);
    CamelLabelsAreNoProto(row);
    forall i, j | 0 <= i < j < |row| ensures labels[i].key != labels[j].key {
      SnakeRoundTrip(row[i].key);
      SnakeRoundTrip(row[j].key);
    }
  }

  /**
   The comment says that nested objects and arrays are handled recursively, but the code converts the top level
   only. On a row without capitals the two agree exactly when no object nested in a value has a key to convert.
   */
  lemma TopLevelIsEnoughIff(row: seq<Field<Value>>)
    requires WellFormed(Obj(row)) && AllKeys(row, NoUpper)
    ensures Renamed(row, Camel) == Renamed(DeepFields(row), Camel) <==>
      forall i :: 0 <= i < |row| ==> NothingNested(row[i].value)
  {
    var shallow, deep := Relabelled(row, Camel), Relabelled(DeepFields(row), Camel);
    DistinctWithoutCapitals(row);
    DistinctWithoutCapitals(DeepFields(row));
    NothingLostIff(row, Camel);
    NothingLostIff(DeepFields(row), Camel);
    forall i | 0 <= i < |row| ensures shallow[i] == deep[i] <==> NothingNested(row[i].value) {
      StaysIff(row[i].value);
    }
    assert shallow == deep <==> forall i :: 0 <= i < |row| ==> shallow[i] == deep[i];
  }

  /** A row on which they differ: its one column holds an object with a key to convert. */
  lemma NestedKeysStay(text: string)
    ensures var row := [Field("data", Obj([Field("a_b", Leaf(text))]))];
      && Renamed(row, Camel) == row
      && Renamed(DeepFields(row), Camel) == [Field("data", Obj([Field("aB", Leaf(text))]))]
  {
    var inner := [Field("a_b", Leaf(text))];
    var row := [Field("data", Obj(inner))];
    NothingToConvert("data");
    assert Camel("a_b") == "aB";
    RenamedOne(DeepFields(inner)[0], Camel);
    assert DeepFields(inner) == inner;
    RenamedOne(row[0], Camel);
    RenamedOne(DeepFields(row)[0], Camel);
    assert DeepFields(row) == [Field("data", Obj([Field("aB", Leaf(text))]))];
  }

  lemma RenamedOne<V>(field: Field<V>, rename: string -> string)
    requires rename(field.key) != PROTO
    ensures Renamed([field], rename) == [Field(rename(field.key), field.value)]
  {
    assert [field][..0] == [];
  }
}

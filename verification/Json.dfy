/** Optional values, results, and the JSON values that proposals carry. */
module Json {

  datatype Option<+T> = None | Some(value: T)

  datatype Result<+T, +E> = Ok(value: T) | Err(error: E)

  /** An object is its canonical field list: sorted, one entry a key. */
  datatype Value =
    | Null
    | Bool(b: bool)
    | Num(n: real)
    | Str(s: string)
    | Arr(items: seq<Value>)
    | Obj(fields: seq<Field>)

  datatype Field = Field(key: string, value: Value)

  /** `dict.get`. */
  function Get(fields: seq<Field>, key: string): Option<Value> {
    if fields == [] then None
    else if fields[0].key == key then Some(fields[0].value)
    else Get(fields[1..], key)
  }

  function Keys(fields: seq<Field>): set<string> {
    set f | f in fields :: f.key
  }

  /** What is found under a key is the value of the first field with it. */
  lemma {:induction false} GetExact(fields: seq<Field>, key: string)
    ensures Get(fields, key).None? <==> forall i :: 0 <= i < |fields| ==> fields[i].key != key
    ensures Get(fields, key).Some? ==>
      exists i: nat :: FirstWith(fields, key, i) && Get(fields, key) == Some(fields[i].value)
  {
    if fields != [] {
      GetExact(fields[1..], key);
      if fields[0].key == key {
        assert FirstWith(fields, key, 0);
      } else if Get(fields[1..], key).Some? {
        var i: nat :| FirstWith(fields[1..], key, i) && Get(fields[1..], key) == Some(fields[1..][i].value);
        assert fields[i + 1] == fields[1..][i];
        assert FirstWith(fields, key, i + 1) by {
          forall j | 0 <= j < i + 1 ensures fields[j].key != key {
            if j > 0 { assert fields[1..][j - 1].key != key; }
          }
        }
      } else {
        forall i | 0 <= i < |fields| ensures fields[i].key != key {
          if i > 0 { assert fields[1..][i - 1].key != key; }
        }
      }
    }
  }

  ghost predicate FirstWith(fields: seq<Field>, key: string, i: nat) {
    i < |fields| && fields[i].key == key && forall j :: 0 <= j < i ==> fields[j].key != key
  }

  /** The string `t` occurs in `v`, as a key or a value, at any depth. */
  ghost predicate Occurs(t: string, v: Value) {
    match v
    case Str(s) => t == s
    case Arr(items) => exists i :: 0 <= i < |items| && Occurs(t, items[i])
    case Obj(fields) =>
      exists i :: 0 <= i < |fields| && (t == fields[i].key || Occurs(t, fields[i].value))
    case _ => false
  }

  function Max(a: nat, b: nat): nat { if a < b then b else a }

  function LongestString(v: Value): nat
    decreases v, 0
  {
    match v
    case Str(s) => |s|
    case Arr(items) => LongestInItems(items)
    case Obj(fields) => LongestInFields(fields)
    case _ => 0
  }

  function LongestInItems(items: seq<Value>): nat
    decreases items, 1
  {
    if items == [] then 0 else Max(LongestString(items[0]), LongestInItems(items[1..]))
  }

  function LongestInFields(fields: seq<Field>): nat
    decreases fields, 1
  {
    if fields == [] then 0
    else
      Max(Max(|fields[0].key|, LongestString(fields[0].value)), LongestInFields(fields[1..]))
  }

  /** The limit holds of the longest string exactly when it holds of every string at every depth. */
  lemma {:induction false} LongestStringBounds(v: Value, limit: nat)
    ensures LongestString(v) <= limit <==> forall t :: Occurs(t, v) ==> |t| <= limit
    decreases v, 0
  {
    match v
    case Str(s) => assert Occurs(s, v);
    case Arr(items) =>
      LongestInItemsBounds(items, limit);
      if forall t :: Occurs(t, v) ==> |t| <= limit {
        forall t, i | 0 <= i < |items| && Occurs(t, items[i]) ensures |t| <= limit {
          assert Occurs(t, v);
        }
      }
    case Obj(fields) =>
      LongestInFieldsBounds(fields, limit);
      if forall t :: Occurs(t, v) ==> |t| <= limit {
        forall t, i | 0 <= i < |fields| && (t == fields[i].key || Occurs(t, fields[i].value))
          ensures |t| <= limit
        {
          assert Occurs(t, v);
        }
      }
    case _ =>
  }

  lemma {:induction false} LongestInItemsBounds(items: seq<Value>, limit: nat)
    ensures LongestInItems(items) <= limit
       <==> forall t, i :: 0 <= i < |items| && Occurs(t, items[i]) ==> |t| <= limit
    decreases items, 1
  {
    if items != [] {
      LongestStringBounds(items[0], limit);
      LongestInItemsBounds(items[1..], limit);
      assert forall i :: 0 < i < |items| ==> items[i] == items[1..][i - 1];
    }
  }

  ghost predicate OccursInField(t: string, f: Field) { t == f.key || Occurs(t, f.value) }

  lemma {:induction false} LongestInFieldsBounds(fields: seq<Field>, limit: nat)
    ensures LongestInFields(fields) <= limit
       <==> forall t, i :: 0 <= i < |fields| && OccursInField(t, fields[i]) ==> |t| <= limit
    decreases fields, 1
  {
    if fields != [] {
      LongestStringBounds(fields[0].value, limit);
      LongestInFieldsBounds(fields[1..], limit);
      assert forall i :: 0 < i < |fields| ==> fields[i] == fields[1..][i - 1];
      if LongestInFields(fields) <= limit {
        forall t, i | 0 <= i < |fields| && OccursInField(t, fields[i]) ensures |t| <= limit {
          if i > 0 { assert OccursInField(t, fields[1..][i - 1]); }
        }
      } else if forall t, i :: 0 <= i < |fields| && OccursInField(t, fields[i]) ==> |t| <= limit {
        assert OccursInField(fields[0].key, fields[0]);
        forall t | Occurs(t, fields[0].value) ensures |t| <= limit {
          assert OccursInField(t, fields[0]);
        }
        forall t, i | 0 <= i < |fields[1..]| && OccursInField(t, fields[1..][i]) ensures |t| <= limit {
          assert OccursInField(t, fields[i + 1]);
        }
        assert false;
      }
    }
  }
}

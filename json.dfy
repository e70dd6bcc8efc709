/**
 * JSON values as the adapters see them after `response.json()`, and the two
 * lookup styles the normalisers are written in:
 *  - `d.get(k, default)` is presence-based: an explicit null under k is kept;
 *  - `d.get(k1) or d.get(k2) or ... or default` is truthiness-based: every
 *    falsy value (None, False, 0, '', [], {}) is skipped.
 */
module Json {

  datatype Option<+T> = None | Some(value: T)

  /** A value, or the message of the exception raised instead. */
  datatype Result<+T> = Ok(value: T) | Err(msg: string)

  /** A parsed JSON document. Objects are unordered: nothing in the adapters
      depends on key order. */
  datatype Json =
    | JNull
    | JBool(b: bool)
    | JInt(i: int)
    | JStr(s: string)
    | JArr(items: seq<Json>)
    | JObj(fields: map<string, Json>)

  /** Python truthiness of a JSON value. */
  predicate Truthy(v: Json)
  {
    match v
    case JNull => false
    case JBool(b) => b
    case JInt(i) => i != 0
    case JStr(s) => s != ""
    case JArr(a) => a != []
    case JObj(m) => m != map[]
  }

  /** `for x in v` runs without raising on v and yields only JSON values: v is
      a list, or an empty dict or empty string, which yield nothing. (A
      non-empty dict or string yields keys or characters, on which the
      callers' `.get` raises; null, booleans and numbers are not iterable.) */
  predicate ListLike(v: Json)
  {
    v.JArr? || (!Truthy(v) && (v.JObj? || v.JStr?))
  }

  /** The values `for x in v` yields for a list-like v; `len(v)` is their number. */
  function Items(v: Json): (r: seq<Json>)
    ensures ListLike(v) ==> (r == [] <==> !Truthy(v))
  {
    if v.JArr? then v.items else []
  }

  /** `d.get(k)`: the value stored under k, or None when k is absent. */
  function Get(d: map<string, Json>, k: string): Json
  {
    if k in d then d[k] else JNull
  }

  /** `d.get(k, default)`. */
  function GetOr(d: map<string, Json>, k: string, default: Json): Json
  {
    if k in d then d[k] else default
  }

  /** Key k is present and holds a truthy value. */
  predicate TruthyAt(d: map<string, Json>, k: string)
  {
    k in d && Truthy(d[k])
  }

  /** `d.get(k, {})` can have `.get` called on it: k is absent or holds an object. */
  predicate AbsentOrObject(d: map<string, Json>, k: string)
  {
    k !in d || d[k].JObj?
  }

  /** k is absent or holds a string. */
  predicate AbsentOrString(d: map<string, Json>, k: string)
  {
    k !in d || d[k].JStr?
  }

  /** `d.get(k, {}).get(...) if d.get(k) else None` does not crash: a truthy
      value under k is an object. */
  predicate FalsyOrObject(d: map<string, Json>, k: string)
  {
    !TruthyAt(d, k) || d[k].JObj?
  }

  /** The object under k, or the empty object `{}` when k is absent or not an object. */
  function ObjectAt(d: map<string, Json>, k: string): map<string, Json>
  {
    if k in d && d[k].JObj? then d[k].fields else map[]
  }

  /** Python's `v1 or v2 or ... or vn`: the first truthy operand, and the last
      operand when none is truthy (proved as OrMeaning). */
  function Or(vals: seq<Json>): Json
    requires |vals| > 0
  {
    if |vals| == 1 || Truthy(vals[0]) then vals[0] else Or(vals[1..])
  }

  /** v is the first truthy element of vals, or the last element if none is truthy. */
  ghost predicate FirstTruthy(vals: seq<Json>, v: Json)
    requires |vals| > 0
  {
    || (exists i :: 0 <= i < |vals| && Truthy(vals[i]) && v == vals[i] &&
                    forall j :: 0 <= j < i ==> !Truthy(vals[j]))
    || ((forall j :: 0 <= j < |vals| ==> !Truthy(vals[j])) && v == vals[|vals| - 1])
  }

  /** `or` short-circuits at the first truthy operand. */
  lemma {:induction false} OrMeaning(vals: seq<Json>)
    requires |vals| > 0
    ensures FirstTruthy(vals, Or(vals))
  {
    if |vals| > 1 && !Truthy(vals[0]) {
      var rest := vals[1..];
      OrMeaning(rest);
      if i :| 0 <= i < |rest| && Truthy(rest[i]) && Or(rest) == rest[i] && forall j :: 0 <= j < i ==> !Truthy(rest[j]) {
        assert vals[i + 1] == rest[i];
        assert forall j :: 1 <= j < i + 1 ==> vals[j] == rest[j - 1];
      } else {
        assert forall j :: 1 <= j < |vals| ==> vals[j] == rest[j - 1];
      }
    } else if Truthy(vals[0]) {
      assert Truthy(vals[0]) && Or(vals) == vals[0];
    }
  }

  /** The operands `d.get(k)` for each alias k, followed by the default if there is one. */
  function Operands(d: map<string, Json>, keys: seq<string>, default: Option<Json>): (r: seq<Json>)
    ensures |r| == |keys| + (if default.Some? then 1 else 0)
    ensures forall i :: 0 <= i < |keys| ==> r[i] == Get(d, keys[i])
    ensures default.Some? ==> r[|keys|] == default.value
  {
    var gets := seq(|keys|, i requires 0 <= i < |keys| => Get(d, keys[i]));
    if default.Some? then gets + [default.value] else gets
  }

  /** `d.get(keys[0]) or ... or d.get(keys[n-1]) [or default]` (its meaning
      is AliasMeaning). */
  function Alias(d: map<string, Json>, keys: seq<string>, default: Option<Json>): Json
    requires |keys| > 0
  {
    Or(Operands(d, keys, default))
  }

  /** What an alias chain means for the dictionary: the value of the first alias
      that is present with a truthy value; when there is none, the default, or
      (without a default) whatever `d.get` gives for the last alias. */
  ghost predicate PicksAlias(d: map<string, Json>, keys: seq<string>, default: Option<Json>, v: Json)
    requires |keys| > 0
  {
    || (exists i :: 0 <= i < |keys| && TruthyAt(d, keys[i]) && v == d[keys[i]] &&
                    forall j :: 0 <= j < i ==> !TruthyAt(d, keys[j]))
    || ((forall j :: 0 <= j < |keys| ==> !TruthyAt(d, keys[j])) &&
        v == (if default.Some? then default.value else Get(d, keys[|keys| - 1])))
  }

  /** The alias chain picks the first truthy alias, else its fallback. */
  lemma AliasMeaning(d: map<string, Json>, keys: seq<string>, default: Option<Json>)
    requires |keys| > 0
    ensures PicksAlias(d, keys, default, Alias(d, keys, default))
  {
    var ops := Operands(d, keys, default);
    var r := Or(ops);
    OrMeaning(ops);
    forall j | 0 <= j < |keys| ensures Truthy(ops[j]) <==> TruthyAt(d, keys[j]) {
    }
    if i :| 0 <= i < |ops| && Truthy(ops[i]) && r == ops[i] && forall j :: 0 <= j < i ==> !Truthy(ops[j]) {
      if i < |keys| {
        assert TruthyAt(d, keys[i]);
      } else {
        assert forall j :: 0 <= j < |keys| ==> !TruthyAt(d, keys[j]);
      }
    } else {
      assert forall j :: 0 <= j < |keys| ==> !TruthyAt(d, keys[j]);
    }
  }

  /** Two aliases that agree on every alias key give the same result. */
  lemma {:induction false} PicksAliasUnique(d: map<string, Json>, keys: seq<string>, default: Option<Json>, v: Json, w: Json)
    requires |keys| > 0 && PicksAlias(d, keys, default, v) && PicksAlias(d, keys, default, w)
    ensures v == w
  {
    if i :| 0 <= i < |keys| && TruthyAt(d, keys[i]) && v == d[keys[i]] && forall j :: 0 <= j < i ==> !TruthyAt(d, keys[j]) {
      if i' :| 0 <= i' < |keys| && TruthyAt(d, keys[i']) && w == d[keys[i']] && forall j :: 0 <= j < i' ==> !TruthyAt(d, keys[j]) {
        assert !(i < i') && !(i' < i);
      }
    }
  }

  /** The alias chain yields the value of its first truthy alias i. */
  lemma AliasAt(d: map<string, Json>, keys: seq<string>, default: Option<Json>, i: nat)
    requires i < |keys| && TruthyAt(d, keys[i]) && forall j :: 0 <= j < i ==> !TruthyAt(d, keys[j])
    ensures Alias(d, keys, default) == d[keys[i]]
  {
    AliasMeaning(d, keys, default);
    assert PicksAlias(d, keys, default, d[keys[i]]);
    PicksAliasUnique(d, keys, default, Alias(d, keys, default), d[keys[i]]);
  }

  /** With no truthy alias, the chain yields the default, or without one
      whatever the last alias holds. */
  lemma AliasFallback(d: map<string, Json>, keys: seq<string>, default: Option<Json>)
    requires |keys| > 0 && forall j :: 0 <= j < |keys| ==> !TruthyAt(d, keys[j])
    ensures Alias(d, keys, default) == (if default.Some? then default.value else Get(d, keys[|keys| - 1]))
  {
    AliasMeaning(d, keys, default);
    PicksAliasUnique(d, keys, default, Alias(d, keys, default),
                     if default.Some? then default.value else Get(d, keys[|keys| - 1]));
  }

  /** The nested presence-based lookup `d.get(k1, d.get(k2, ... d.get(kn, default)))`
      (its meaning is FirstPresentMeaning). */
  function FirstPresent(d: map<string, Json>, keys: seq<string>, default: Json): Json
  {
    if keys == [] then default
    else if keys[0] in d then d[keys[0]]
    else FirstPresent(d, keys[1..], default)
  }

  /** The presence-based lookup yields the value of the first alias that is
      present (even if it is null), else the default. */
  lemma {:induction false} FirstPresentMeaning(d: map<string, Json>, keys: seq<string>, default: Json)
    ensures var r := FirstPresent(d, keys, default);
      || (exists i :: 0 <= i < |keys| && keys[i] in d && r == d[keys[i]] &&
                      forall j :: 0 <= j < i ==> keys[j] !in d)
      || ((forall j :: 0 <= j < |keys| ==> keys[j] !in d) && r == default)
  {
    if keys != [] && keys[0] !in d {
      FirstPresentMeaning(d, keys[1..], default);
      assert forall j :: 1 <= j < |keys| ==> keys[j] == keys[1..][j - 1];
      var r := FirstPresent(d, keys[1..], default);
      if i :| 0 <= i < |keys| - 1 && keys[1..][i] in d && r == d[keys[1..][i]] &&
              forall j :: 0 <= j < i ==> keys[1..][j] !in d {
        assert keys[i + 1] in d && r == d[keys[i + 1]];
      }
    } else if keys != [] {
      assert keys[0] in d && FirstPresent(d, keys, default) == d[keys[0]];
    }
  }
}

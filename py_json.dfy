/** Parsed JSON as Python sees it after `json.loads`, with the few Python
    operations the normaliser applies to it: truthiness, `dict.get`, `in`,
    iteration, and the `a or b or c` fallback chain. */
module PyJson {
  import opened Wrappers

  /** A JSON value. Numbers are kept as opaque reals: nothing but their
      truthiness is ever inspected. An object is a dict in insertion order. */
  datatype Json =
    | Null
    | Bool(b: bool)
    | Num(n: real)
    | Str(s: string)
    | Arr(elems: seq<Json>)
    | Obj(fields: seq<(string, Json)>)

  const EmptyStr: Json := Str("")
  const EmptyArr: Json := Arr([])
  const EmptyObj: Json := Obj([])

  /** Python truthiness: None, False, 0, '', [] and {} are falsy. */
  predicate Truthy(j: Json) {
    match j
    case Null => false
    case Bool(b) => b
    case Num(n) => n != 0.0
    case Str(s) => s != ""
    case Arr(a) => a != []
    case Obj(f) => f != []
  }

  /** The falsy values are exactly `None`, `False`, `0`, `''`, `[]` and `{}`. */
  lemma FalsyValues(j: Json)
    ensures !Truthy(j) <==> j in [Null, Bool(false), Num(0.0), EmptyStr, EmptyArr, EmptyObj]
  {
  }

  /** `key in d` for a dict `d`. */
  predicate HasKey(fields: seq<(string, Json)>, key: string) {
    exists i :: 0 <= i < |fields| && fields[i].0 == key
  }

  /** `d[key]` when `key in d`: the value stored under the key. */
  function Lookup(fields: seq<(string, Json)>, key: string): (r: Option<Json>)
    ensures r.Some? <==> HasKey(fields, key)
    ensures r.Some? ==> (key, r.value) in fields
  {
    if fields == [] then None
    else if fields[0].0 == key then Some(fields[0].1)
    else
      var r := Lookup(fields[1..], key);
      assert HasKey(fields[1..], key) ==> HasKey(fields, key) by {
        if HasKey(fields[1..], key) {
          var i :| 0 <= i < |fields[1..]| && fields[1..][i].0 == key;
          assert fields[i + 1].0 == key;
        }
      }
      r
  }

  /** `v.get(key, default)`: raises AttributeError unless `v` is a dict. */
  function Get(v: Json, key: string, default: Json): (r: Result<Json>)
    ensures r.Ok? <==> v.Obj?
    ensures r.Fail? ==> r.error == AttributeError
    ensures v.Obj? && !HasKey(v.fields, key) ==> r.value == default
    ensures v.Obj? && HasKey(v.fields, key) ==> Lookup(v.fields, key) == Some(r.value)
  {
    if !v.Obj? then Fail(AttributeError)
    else
      match Lookup(v.fields, key)
      case Some(x) => Ok(x)
      case None => Ok(default)
  }

  /** `<expr>.get(key, default)` where `<expr>` is itself a `.get` that may have raised. */
  function GetIn(r: Result<Json>, key: string, default: Json): Result<Json> {
    match r
    case Fail(e) => Fail(e)
    case Ok(v) => Get(v, key, default)
  }

  /** The operands `v.get(k1, d), ..., v.get(kn, d)` of a fallback chain. */
  function Gets(v: Json, keys: seq<string>, default: Json): (cs: seq<Result<Json>>)
    ensures |cs| == |keys|
    ensures forall i :: 0 <= i < |keys| ==> cs[i] == Get(v, keys[i], default)
  {
    seq(|keys|, i requires 0 <= i < |keys| => Get(v, keys[i], default))
  }

  /** `for x in v`: a list yields its elements, a dict its keys, a string its
      characters; iterating None, a bool or a number raises TypeError. */
  function Iterate(v: Json): (r: Result<seq<Json>>)
    ensures r.Ok? <==> (v.Arr? || v.Obj? || v.Str?)
    ensures r.Fail? ==> r.error == TypeError
    ensures v.Arr? ==> r == Ok(v.elems)
    ensures v.Obj? ==> |r.value| == |v.fields| && forall i :: 0 <= i < |v.fields| ==> r.value[i] == Str(v.fields[i].0)
    ensures v.Str? ==> |r.value| == |v.s| && forall i :: 0 <= i < |v.s| ==> r.value[i] == Str([v.s[i]])
  {
    match v
    case Arr(a) => Ok(a)
    case Obj(f) => Ok(seq(|f|, i requires 0 <= i < |f| => Str(f[i].0)))
    case Str(s) => Ok(seq(|s|, i requires 0 <= i < |s| => Str([s[i]])))
    case _ => Fail(TypeError)
  }

  /** Every operand before position `k` was evaluated and was falsy, so
      `c0 or c1 or ...` went on past it. */
  ghost predicate SkippedBefore(cs: seq<Result<Json>>, k: int) {
    0 <= k <= |cs| && forall j :: 0 <= j < k ==> cs[j].Ok? && !Truthy(cs[j].value)
  }

  /** Python's `c0 or c1 or ... or cn`: the first truthy operand, otherwise
      the last operand. Operands are evaluated left to right and stop at the
      first truthy one, so an operand that raises matters only when it is
      reached. */
  function FirstTruthy(cs: seq<Result<Json>>): (r: Result<Json>)
    requires cs != []
    ensures r in cs
    ensures (forall i :: 0 <= i < |cs| ==> cs[i].Ok?) ==> r.Ok?
    ensures r.Ok? && !Truthy(r.value) ==> SkippedBefore(cs, |cs| - 1) && r == cs[|cs| - 1]
    ensures r.Fail? ==> exists k :: SkippedBefore(cs, k) && k < |cs| && cs[k] == r
  {
    if |cs| == 1 || cs[0].Fail? || Truthy(cs[0].value) then
      assert SkippedBefore(cs, 0);
      cs[0]
    else
      var r := FirstTruthy(cs[1..]);
      assert SkippedBefore(cs[1..], |cs| - 2) ==> SkippedBefore(cs, |cs| - 1);
      assert forall k :: SkippedBefore(cs[1..], k) ==> SkippedBefore(cs, k + 1);
      r
  }

  /** The chain stops exactly at the first operand that raises or is truthy,
      or at the last operand. */
  lemma {:induction false} FirstTruthyAt(cs: seq<Result<Json>>, k: nat)
    requires k < |cs|
    requires SkippedBefore(cs, k)
    requires k == |cs| - 1 || cs[k].Fail? || Truthy(cs[k].value)
    ensures FirstTruthy(cs) == cs[k]
  {
    if k > 0 {
      assert SkippedBefore(cs[1..], k - 1);
      FirstTruthyAt(cs[1..], k - 1);
    }
  }

  /** `o.get(k1, d) or ... or o.get(kn, d)` on a dict `o`, where no
      operand can raise: the chain specialised to lookups in one dict. */
  function Pick(o: Json, keys: seq<string>, default: Json): (r: Json)
    requires o.Obj? && keys != []
    ensures !Truthy(r) ==> r == Get(o, keys[|keys| - 1], default).value
    decreases |keys|
  {
    var v := Get(o, keys[0], default).value;
    if |keys| == 1 || Truthy(v) then v else Pick(o, keys[1..], default)
  }

  /** A chain of lookups is falsy exactly when every lookup is falsy. */
  lemma {:induction false} PickFalsy(o: Json, keys: seq<string>, default: Json)
    requires o.Obj? && keys != []
    ensures !Truthy(Pick(o, keys, default)) <==> forall j :: 0 <= j < |keys| ==> !Truthy(Get(o, keys[j], default).value)
    decreases |keys|
  {
    if |keys| > 1 && !Truthy(Get(o, keys[0], default).value) {
      PickFalsy(o, keys[1..], default);
      assert forall j :: 1 <= j < |keys| ==> keys[j] == keys[1..][j - 1];
    }
  }

  /** A chain of lookups gives the default or a value stored under one of its keys. */
  lemma {:induction false} PickSource(o: Json, keys: seq<string>, default: Json)
    requires o.Obj? && keys != []
    ensures var r := Pick(o, keys, default);
      r == default || exists j :: 0 <= j < |keys| && Lookup(o.fields, keys[j]) == Some(r)
    decreases |keys|
  {
    if |keys| > 1 && !Truthy(Get(o, keys[0], default).value) {
      PickSource(o, keys[1..], default);
      assert forall j :: 1 <= j < |keys| - 1 ==> keys[1..][j] == keys[j + 1];
      var r := Pick(o, keys, default);
      if r != default {
        var j :| 0 <= j < |keys[1..]| && Lookup(o.fields, keys[1..][j]) == Some(r);
        assert keys[1..][j] == keys[j + 1];
      }
    }
  }

  /** `Pick` is the fallback chain `FirstTruthy` over the lookups, which never raise on a dict. */
  lemma {:induction false} PickIsFirstTruthy(o: Json, keys: seq<string>, default: Json)
    requires o.Obj? && keys != []
    ensures FirstTruthy(Gets(o, keys, default)) == Ok(Pick(o, keys, default))
    decreases |keys|
  {
    var cs := Gets(o, keys, default);
    if |keys| > 1 && !Truthy(cs[0].value) {
      assert Gets(o, keys[1..], default) == cs[1..];
      PickIsFirstTruthy(o, keys[1..], default);
    }
  }

  /** The key a chain of lookups settles on: the first key whose value is
      truthy, or the last key. */
  lemma {:induction false} PickAt(o: Json, keys: seq<string>, default: Json, k: nat)
    requires o.Obj? && k < |keys|
    requires forall j :: 0 <= j < k ==> !Truthy(Get(o, keys[j], default).value)
    requires k == |keys| - 1 || Truthy(Get(o, keys[k], default).value)
    ensures Pick(o, keys, default) == Get(o, keys[k], default).value
    decreases k
  {
    if k > 0 {
      assert !Truthy(Get(o, keys[0], default).value);
      forall j | 0 <= j < k - 1 ensures !Truthy(Get(o, keys[1..][j], default).value) {
        assert keys[1..][j] == keys[j + 1];
      }
      PickAt(o, keys[1..], default, k - 1);
    }
  }

  /** Keys appended after a chain that already found a truthy value are
      never consulted. */
  lemma {:induction false} PickPrefix(o: Json, a: seq<string>, b: seq<string>, default: Json)
    requires o.Obj? && a != [] && Truthy(Pick(o, a, default))
    ensures Pick(o, a + b, default) == Pick(o, a, default)
    decreases |a|
  {
    assert (a + b)[0] == a[0];
    if |a| > 1 && !Truthy(Get(o, a[0], default).value) {
      assert (a + b)[1..] == a[1..] + b;
      PickPrefix(o, a[1..], b, default);
    }
  }

  /** One operand of a chain: `v.get(key, d)`, or `v.get(outer, {}).get(key, d)`. */
  datatype Path = Top(key: string) | Under(outer: string, key: string)

  function PathGet(v: Json, p: Path, default: Json): (r: Result<Json>)
    ensures r.Fail? ==> r.error == AttributeError
  {
    match p
    case Top(k) => Get(v, k, default)
    case Under(o, k) => GetIn(Get(v, o, EmptyObj), k, default)
  }

  /** The operands of a chain of paths. */
  function PathGets(v: Json, paths: seq<Path>, default: Json): (cs: seq<Result<Json>>)
    ensures |cs| == |paths|
    ensures forall i :: 0 <= i < |paths| ==> cs[i] == PathGet(v, paths[i], default)
  {
    seq(|paths|, i requires 0 <= i < |paths| => PathGet(v, paths[i], default))
  }

  /** `p1 or p2 or ... or pn` over paths into one value: the first truthy
      operand, the last one, or the exception of the first operand that raises. */
  function Chase(v: Json, paths: seq<Path>, default: Json): (r: Result<Json>)
    requires paths != []
    ensures r.Fail? ==> r.error == AttributeError
    ensures r.Ok? && !Truthy(r.value) ==> r == PathGet(v, paths[|paths| - 1], default)
    decreases |paths|
  {
    var r := PathGet(v, paths[0], default);
    if |paths| == 1 || r.Fail? || Truthy(r.value) then r
    else
      assert paths[1..][|paths| - 2] == paths[|paths| - 1];
      Chase(v, paths[1..], default)
  }

  /** A chain of paths gives the value or the exception of one of its operands. */
  lemma {:induction false} ChaseSource(v: Json, paths: seq<Path>, default: Json)
    requires paths != []
    ensures exists i :: 0 <= i < |paths| && Chase(v, paths, default) == PathGet(v, paths[i], default)
    decreases |paths|
  {
    var r := PathGet(v, paths[0], default);
    if |paths| == 1 || r.Fail? || Truthy(r.value) {
      assert Chase(v, paths, default) == PathGet(v, paths[0], default);
    } else {
      ChaseSource(v, paths[1..], default);
      var i :| 0 <= i < |paths[1..]| && Chase(v, paths[1..], default) == PathGet(v, paths[1..][i], default);
      assert paths[1..][i] == paths[i + 1];
    }
  }

  /** `Chase` is the fallback chain `FirstTruthy` over its operands. */
  lemma {:induction false} ChaseIsFirstTruthy(v: Json, paths: seq<Path>, default: Json)
    requires paths != []
    ensures FirstTruthy(PathGets(v, paths, default)) == Chase(v, paths, default)
    decreases |paths|
  {
    var cs := PathGets(v, paths, default);
    if |paths| > 1 && cs[0].Ok? && !Truthy(cs[0].value) {
      assert PathGets(v, paths[1..], default) == cs[1..];
      ChaseIsFirstTruthy(v, paths[1..], default);
    }
  }
}

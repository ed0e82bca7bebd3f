/** Query parameters as an ordered list of name/value pairs, as `URLSearchParams` holds them. */
module Http {
  import opened Wrappers

  datatype QueryParam = QueryParam(key: string, value: string)

  predicate HasKey(params: seq<QueryParam>, key: string) {
    exists i :: 0 <= i < |params| && params[i].key == key
  }

  /** `searchParams.get(key)`: the value of the first pair with that name. */
  function Get(params: seq<QueryParam>, key: string): (r: Option<string>)
    ensures r.Some? <==> HasKey(params, key)
  {
    if params == [] then None
    else if params[0].key == key then Some(params[0].value)
    else
      var r := Get(params[1..], key);
      assert forall i :: 0 <= i < |params| - 1 ==> params[1..][i] == params[i + 1];
      r
  }

  /** What `get` finds is the value of the first pair with the name. */
  lemma {:induction false} GetFirst(params: seq<QueryParam>, key: string)
    requires HasKey(params, key)
    ensures exists i :: 0 <= i < |params| && params[i] == QueryParam(key, Get(params, key).value)
                        && forall j :: 0 <= j < i ==> params[j].key != key
    decreases |params|
  {
    if params[0].key != key {
      assert HasKey(params[1..], key) by {
        var i :| 0 <= i < |params| && params[i].key == key;
        assert params[1..][i - 1].key == key;
      }
      GetFirst(params[1..], key);
      var i :| 0 <= i < |params[1..]| && params[1..][i] == QueryParam(key, Get(params[1..], key).value)
               && forall j :: 0 <= j < i ==> params[1..][j].key != key;
      assert params[i + 1] == QueryParam(key, Get(params, key).value);
      assert forall j :: 0 <= j < i + 1 ==> params[j].key != key by {
        forall j | 0 <= j < i + 1 ensures params[j].key != key {
          if j > 0 { assert params[j] == params[1..][j - 1]; }
        }
      }
    } else {
      assert params[0] == QueryParam(key, Get(params, key).value);
    }
  }

  /** `searchParams.getAll(key)`: every value with that name, in order. */
  function GetAll(params: seq<QueryParam>, key: string): (r: seq<string>)
    ensures |r| <= |params|
  {
    if params == [] then []
    else (if params[0].key == key then [params[0].value] else []) + GetAll(params[1..], key)
  }

  /** `getAll` lists exactly the values paired with the name. */
  lemma {:induction false} GetAllMembers(params: seq<QueryParam>, key: string, v: string)
    ensures v in GetAll(params, key) <==> QueryParam(key, v) in params
    decreases |params|
  {
    if params != [] {
      GetAllMembers(params[1..], key, v);
      assert params == [params[0]] + params[1..];
    }
  }

  /** Values read with `searchParams.get` are JavaScript-truthy: present and non-empty. */
  predicate Truthy(v: Option<string>) {
    v.Some? && v.value != ""
  }

  /** `get` finds the first pair with the name. */
  lemma {:induction false} GetAt(params: seq<QueryParam>, k: nat, key: string)
    requires k < |params| && params[k].key == key
    requires forall j :: 0 <= j < k ==> params[j].key != key
    ensures Get(params, key) == Some(params[k].value)
    decreases k
  {
    if k > 0 {
      GetAt(params[1..], k - 1, key);
    }
  }

  /** Pairs with other names in front do not change what `get` finds. */
  lemma {:induction false} GetAfterOthers(a: seq<QueryParam>, b: seq<QueryParam>, key: string)
    requires forall j :: 0 <= j < |a| ==> a[j].key != key
    ensures Get(a + b, key) == Get(b, key)
    decreases |a|
  {
    if a == [] {
      assert a + b == b;
    } else {
      assert (a + b)[1..] == a[1..] + b;
      GetAfterOthers(a[1..], b, key);
    }
  }

  lemma {:induction false} GetAllConcat(a: seq<QueryParam>, b: seq<QueryParam>, key: string)
    ensures GetAll(a + b, key) == GetAll(a, key) + GetAll(b, key)
    decreases |a|
  {
    if a == [] {
      assert a + b == b;
    } else {
      assert (a + b)[0] == a[0];
      assert (a + b)[1..] == a[1..] + b;
      GetAllConcat(a[1..], b, key);
      var head := if a[0].key == key then [a[0].value] else [];
      assert GetAll(a + b, key) == head + GetAll(a[1..] + b, key);
      assert GetAll(a, key) == head + GetAll(a[1..], key);
    }
  }

  lemma {:induction false} GetAllAbsent(params: seq<QueryParam>, key: string)
    requires forall j :: 0 <= j < |params| ==> params[j].key != key
    ensures GetAll(params, key) == []
    decreases |params|
  {
    if params != [] {
      GetAllAbsent(params[1..], key);
    }
  }

  /** When every pair has the name, `getAll` lists every value in order. */
  lemma {:induction false} GetAllUniform(params: seq<QueryParam>, key: string)
    requires forall j :: 0 <= j < |params| ==> params[j].key == key
    ensures GetAll(params, key) == seq(|params|, j requires 0 <= j < |params| => params[j].value)
    decreases |params|
  {
    if params != [] {
      GetAllUniform(params[1..], key);
    }
  }

  /** The pairs with other names, in order. */
  function RemoveKey(params: seq<QueryParam>, key: string): (r: seq<QueryParam>)
    ensures |r| <= |params|
    ensures forall j :: 0 <= j < |r| ==> r[j].key != key
  {
    if params == [] then []
    else (if params[0].key == key then [] else [params[0]]) + RemoveKey(params[1..], key)
  }

  lemma {:induction false} RemoveKeyOthers(params: seq<QueryParam>, key: string, k: string)
    requires k != key
    ensures GetAll(RemoveKey(params, key), k) == GetAll(params, k)
    decreases |params|
  {
    if params != [] {
      RemoveKeyOthers(params[1..], key, k);
      var head := if params[0].key == key then [] else [params[0]];
      GetAllConcat(head, RemoveKey(params[1..], key), k);
    }
  }

  /** `searchParams.set(key, value)`: the first pair with the name takes the value and the
      later ones with that name go; with none, the pair is appended. */
  function SetParam(params: seq<QueryParam>, key: string, value: string): seq<QueryParam> {
    if params == [] then [QueryParam(key, value)]
    else if params[0].key == key then [QueryParam(key, value)] + RemoveKey(params[1..], key)
    else [params[0]] + SetParam(params[1..], key, value)
  }

  /** After `set`, the name has exactly the one value given. */
  lemma {:induction false} SetParamValue(params: seq<QueryParam>, key: string, value: string)
    ensures GetAll(SetParam(params, key, value), key) == [value]
    decreases |params|
  {
    if params == [] {
    } else if params[0].key == key {
      GetAllAbsent(RemoveKey(params[1..], key), key);
      assert ([QueryParam(key, value)] + RemoveKey(params[1..], key))[1..] == RemoveKey(params[1..], key);
    } else {
      SetParamValue(params[1..], key, value);
      assert ([params[0]] + SetParam(params[1..], key, value))[1..] == SetParam(params[1..], key, value);
    }
  }

  /** `set` leaves the values of every other name as they were. */
  lemma {:induction false} SetParamOthers(params: seq<QueryParam>, key: string, value: string, k: string)
    requires k != key
    ensures GetAll(SetParam(params, key, value), k) == GetAll(params, k)
    decreases |params|
  {
    if params == [] {
    } else if params[0].key == key {
      RemoveKeyOthers(params[1..], key, k);
      assert ([QueryParam(key, value)] + RemoveKey(params[1..], key))[1..] == RemoveKey(params[1..], key);
    } else {
      SetParamOthers(params[1..], key, value, k);
      assert ([params[0]] + SetParam(params[1..], key, value))[1..] == SetParam(params[1..], key, value);
    }
  }

  // ---------------------------------------------------------------------------
  // Response statuses

  /** The null-body statuses of the Fetch standard that a response may carry. */
  predicate NullBodyStatus(status: int) {
    status == 204 || status == 205 || status == 304
  }

  /** Whether `new Response(body, {status})` (and so `new NextResponse` and
      `NextResponse.json`) accepts the status for a non-null body, the empty string included:
      a status outside 200..599 throws a `RangeError` and a null-body status a `TypeError`. */
  predicate AcceptsBody(status: int) {
    200 <= status <= 599 && !NullBodyStatus(status)
  }
}

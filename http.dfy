/** What the request builders hand to the HTTP layer, and the status codes
    they interpret. The HTTP layer itself is not part of this model. */
module Http {
  import opened Wrappers

  /** One query parameter, a `KeyValuePair<string, string>`. */
  datatype Param = Param(key: string, value: string)

  /** The exceptions the client throws before or after a request:
      `BadParameterException`, `BadResourceException` and the
      `FormatException` of `int.Parse`. */
  datatype Error = BadParameter(message: string) | BadResource(message: string) | Format

  const StatusOk := 200
  const StatusNoContent := 204

  /** The value of the first parameter named `key`, if there is one. */
  function Lookup(ps: seq<Param>, key: string): (r: Option<string>)
    ensures r.None? <==> forall i :: 0 <= i < |ps| ==> ps[i].key != key
    ensures r.Some? ==> exists i :: 0 <= i < |ps| && ps[i] == Param(key, r.value)
  {
    if |ps| == 0 then None
    else if ps[0].key == key then Some(ps[0].value)
    else Lookup(ps[1..], key)
  }

  /** Looking a key up in two lists joined: the first list wins. */
  lemma {:induction false} LookupAppend(a: seq<Param>, b: seq<Param>, key: string)
    ensures Lookup(a + b, key) == if Lookup(a, key).Some? then Lookup(a, key) else Lookup(b, key)
  {
    if |a| == 0 {
      assert a + b == b;
    } else {
      assert (a + b)[1..] == a[1..] + b;
      LookupAppend(a[1..], b, key);
    }
  }

  /** The position of `key` in `keys`. */
  function Rank(keys: seq<string>, key: string): (r: nat)
    requires key in keys
    ensures r < |keys| && keys[r] == key
  {
    if keys[0] == key then 0 else 1 + Rank(keys[1..], key)
  }

  /** Every parameter is named by one of `keys`, and the names occur in the
      order of `keys`, each at most once. */
  predicate KeysInOrder(ps: seq<Param>, keys: seq<string>) {
    (forall i :: 0 <= i < |ps| ==> ps[i].key in keys)
    && forall i, j :: 0 <= i < j < |ps| ==> Rank(keys, ps[i].key) < Rank(keys, ps[j].key)
  }

  /** No key occurs twice. */
  predicate Distinct(keys: seq<string>) {
    forall i, j :: 0 <= i < j < |keys| ==> keys[i] != keys[j]
  }

  /** A parameter that is added only when it has a value. */
  function Optional(key: string, value: Option<string>): (ps: seq<Param>)
    ensures Lookup(ps, key) == value
    ensures |ps| <= 1 && forall i :: 0 <= i < |ps| ==> ps[i].key == key
  {
    if value.Some? then [Param(key, value.value)] else []
  }

  /** A run of optional parameters, `keys[i]` carrying `values[i]`, in the
      order of `keys`. */
  function Filtered(keys: seq<string>, values: seq<Option<string>>): (ps: seq<Param>)
    requires |keys| == |values|
    ensures |ps| <= |keys|
    ensures forall i :: 0 <= i < |ps| ==> ps[i].key in keys
  {
    if |keys| == 0 then [] else Optional(keys[0], values[0]) + Filtered(keys[1..], values[1..])
  }

  /** Two optional parameters in a row carry their values, keys in order. */
  lemma CarriesTwo(keys: seq<string>, values: seq<Option<string>>)
    requires |keys| == |values| == 2 && Distinct(keys)
    ensures Carries(Optional(keys[0], values[0]) + Optional(keys[1], values[1]), keys, values)
  {
    assert Filtered(keys[2..], values[2..]) == [];
    assert Filtered(keys[1..], values[1..]) == Optional(keys[1], values[1]);
    FilteredSpec(keys, values);
  }

  /** Four optional parameters in a row carry their values, keys in order. */
  lemma CarriesFour(keys: seq<string>, values: seq<Option<string>>)
    requires |keys| == |values| == 4 && Distinct(keys)
    ensures Carries(Optional(keys[0], values[0]) + Optional(keys[1], values[1])
                    + Optional(keys[2], values[2]) + Optional(keys[3], values[3]), keys, values)
  {
    var ps := Optional(keys[0], values[0]) + Optional(keys[1], values[1])
              + Optional(keys[2], values[2]) + Optional(keys[3], values[3]);
    FilteredFour(keys, values);
    FilteredSpec(keys, values);
    assert Filtered(keys, values) == ps;
  }

  /** The run from key `i` on, `keys[i]` peeled off. */
  lemma FilteredFrom(keys: seq<string>, values: seq<Option<string>>, i: nat)
    requires |keys| == |values| && i < |keys|
    ensures Filtered(keys[i..], values[i..]) == Optional(keys[i], values[i]) + Filtered(keys[i + 1..], values[i + 1..])
  {
    assert keys[i..][1..] == keys[i + 1..] && values[i..][1..] == values[i + 1..];
  }

  lemma FilteredFour(keys: seq<string>, values: seq<Option<string>>)
    requires |keys| == |values| == 4
    ensures Filtered(keys, values) == Optional(keys[0], values[0]) + Optional(keys[1], values[1])
                                      + Optional(keys[2], values[2]) + Optional(keys[3], values[3])
  {
    var o0, o1, o2, o3 := Optional(keys[0], values[0]), Optional(keys[1], values[1]),
                          Optional(keys[2], values[2]), Optional(keys[3], values[3]);
    assert Filtered(keys[2..], values[2..]) == o2 + o3 by {
      FilteredFrom(keys, values, 3);
      FilteredFrom(keys, values, 2);
      assert Filtered(keys[4..], values[4..]) == [];
      assert o3 + [] == o3;
    }
    assert Filtered(keys, values) == o0 + (o1 + (o2 + o3)) by {
      FilteredFrom(keys, values, 1);
      FilteredFrom(keys, values, 0);
      assert keys[0..] == keys && values[0..] == values;
    }
    assert o0 + (o1 + (o2 + o3)) == o0 + o1 + o2 + o3;
  }

  /** Each key of a filtered run carries exactly its own value. */
  lemma {:induction false} FilteredLookup(keys: seq<string>, values: seq<Option<string>>, i: nat)
    requires |keys| == |values| && Distinct(keys) && i < |keys|
    ensures Lookup(Filtered(keys, values), keys[i]) == values[i]
  {
    LookupAppend(Optional(keys[0], values[0]), Filtered(keys[1..], values[1..]), keys[i]);
    if i > 0 {
      assert keys[0] != keys[i];
      FilteredLookup(keys[1..], values[1..], i - 1);
    } else {
      var rest := Filtered(keys[1..], values[1..]);
      forall j | 0 <= j < |rest| ensures rest[j].key != keys[0] {
        var k :| 0 <= k < |keys[1..]| && keys[1..][k] == rest[j].key;
        assert keys[k + 1] == rest[j].key;
      }
    }
  }

  /** `ps` holds parameters named by `keys` only, in that order, and key
      `keys[i]` is present exactly when `values[i]` is, with that value. */
  predicate Carries(ps: seq<Param>, keys: seq<string>, values: seq<Option<string>>)
    requires |keys| == |values|
  {
    KeysInOrder(ps, keys) && forall i :: 0 <= i < |keys| ==> Lookup(ps, keys[i]) == values[i]
  }

  /** A filtered run carries its values, keys in order. */
  lemma FilteredSpec(keys: seq<string>, values: seq<Option<string>>)
    requires |keys| == |values| && Distinct(keys)
    ensures Carries(Filtered(keys, values), keys, values)
  {
    FilteredInOrder(keys, values);
    forall i | 0 <= i < |keys| ensures Lookup(Filtered(keys, values), keys[i]) == values[i] {
      FilteredLookup(keys, values, i);
    }
  }

  /** The keys of a filtered run are drawn from `keys`, in that order. */
  lemma {:induction false} FilteredInOrder(keys: seq<string>, values: seq<Option<string>>)
    requires |keys| == |values| && Distinct(keys)
    ensures KeysInOrder(Filtered(keys, values), keys)
  {
    if |keys| > 0 {
      var head, rest := Optional(keys[0], values[0]), Filtered(keys[1..], values[1..]);
      var ps := head + rest;
      FilteredInOrder(keys[1..], values[1..]);
      forall x | x in keys[1..] ensures x != keys[0] && Rank(keys, x) == 1 + Rank(keys[1..], x) {
        var j :| 0 <= j < |keys[1..]| && keys[1..][j] == x;
        assert keys[j + 1] == x;
      }
      forall i | 0 <= i < |ps| ensures ps[i].key in keys && (i < |head| <==> ps[i].key == keys[0]) {
        if i >= |head| {
          assert ps[i] == rest[i - |head|];
          assert rest[i - |head|].key in keys[1..];
        }
      }
    }
  }
}

/** The PHP values a route's defaults and options hold, PHP's boolean
    conversion of them, and `array_filter` without a callback, which keeps
    exactly the entries whose value converts to true. */
module PhpValues {
  import opened OrderedMaps

  datatype Value =
    | Null
    | Bool(b: bool)
    | Int(i: int)
    | Str(s: string)
    | Arr(entries: seq<(string, Value)>)

  /** PHP's conversion to bool: null, false, 0, "", "0" and the empty array
      are false; every other value is true. */
  predicate Truthy(v: Value) {
    match v
    case Null => false
    case Bool(b) => b
    case Int(i) => i != 0
    case Str(s) => s != "" && s != "0"
    case Arr(es) => es != []
  }

  /** `array_filter($m)`: the entries whose value is truthy, keys kept. */
  function ArrayFilter(m: OMap<Value>): (r: OMap<Value>)
    ensures |r| <= |m|
    ensures forall e :: e in r <==> e in m && Truthy(e.1)
  {
    if m == [] then []
    else (if Truthy(m[0].1) then [m[0]] else []) + ArrayFilter(m[1..])
  }

  /** Filtering works entry by entry, so it keeps the original order:
      filtering a concatenation concatenates the filtered parts. */
  lemma {:induction false} ArrayFilterAppend(a: OMap<Value>, b: OMap<Value>)
    ensures ArrayFilter(a + b) == ArrayFilter(a) + ArrayFilter(b)
    decreases |a|
  {
    if a == [] {
      assert a + b == b;
    } else {
      assert (a + b)[1..] == a[1..] + b;
      ArrayFilterAppend(a[1..], b);
    }
  }

  /** Filtering twice is filtering once. */
  lemma {:induction false} ArrayFilterIdempotent(m: OMap<Value>)
    ensures ArrayFilter(ArrayFilter(m)) == ArrayFilter(m)
    decreases |m|
  {
    if m != [] {
      var head := if Truthy(m[0].1) then [m[0]] else [];
      ArrayFilterAppend(head, ArrayFilter(m[1..]));
      ArrayFilterIdempotent(m[1..]);
    }
  }

  /** The filtered array has no key the original lacks. */
  lemma ArrayFilterKeysSubset(m: OMap<Value>, k: string)
    requires HasKey(ArrayFilter(m), k)
    ensures HasKey(m, k)
  {
    var r := ArrayFilter(m);
    var i :| 0 <= i < |r| && Keys(r)[i] == k;
    assert r[i] in r;
    var j :| 0 <= j < |m| && m[j] == r[i];
    assert Keys(m)[j] == k;
  }

  /** Filtering a valid PHP array gives a valid PHP array: no key twice. */
  lemma {:induction false} ArrayFilterUnique(m: OMap<Value>)
    requires UniqueKeys(m)
    ensures UniqueKeys(ArrayFilter(m))
    decreases |m|
  {
    if m != [] {
      var t := ArrayFilter(m[1..]);
      assert UniqueKeys(m[1..]) by {
        forall i, j | 0 <= i < j < |m[1..]| ensures m[1..][i].0 != m[1..][j].0 {
          assert m[1..][i] == m[i + 1] && m[1..][j] == m[j + 1];
        }
      }
      ArrayFilterUnique(m[1..]);
      if Truthy(m[0].1) {
        assert !HasKey(t, m[0].0) by {
          if HasKey(t, m[0].0) {
            ArrayFilterKeysSubset(m[1..], m[0].0);
            assert false;
          }
        }
        var r := [m[0]] + t;
        forall i, j | 0 <= i < j < |r| ensures r[i].0 != r[j].0 {
          assert r[j] == t[j - 1];
          if i == 0 {
            assert Keys(t)[j - 1] == r[j].0;
          } else {
            assert r[i] == t[i - 1];
          }
        }
      }
    }
  }

  /** `array_filter(['_controller' => '', 'type' => 'app:foo'])` keeps only
      the type. */
  lemma ArrayFilterExample()
    ensures ArrayFilter([("_controller", Str("")), ("type", Str("app:foo"))]) == [("type", Str("app:foo"))]
  {
    var m := [("_controller", Str("")), ("type", Str("app:foo"))];
    assert m[1..][1..] == [];
  }
}

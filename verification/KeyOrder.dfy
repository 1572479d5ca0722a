/** A total order on the keys of records. It stands for `localeCompare`, by which the program sorts service ids and
    variable names before it prints them. */
module KeyOrders {

  predicate AtMost(a: string, b: string) {
    a == "" || (b != "" && (a[0] < b[0] || (a[0] == b[0] && AtMost(a[1..], b[1..]))))
  }

  lemma {:induction false} AtMostAntisymmetric(a: string, b: string)
    requires AtMost(a, b) && AtMost(b, a)
    ensures a == b
  {
    if a != "" && b != "" {
      AtMostAntisymmetric(a[1..], b[1..]);
      assert a == [a[0]] + a[1..] && b == [b[0]] + b[1..];
    }
  }

  lemma {:induction false} AtMostTotal(a: string, b: string)
    ensures AtMost(a, b) || AtMost(b, a)
  {
    if a != "" && b != "" {
      AtMostTotal(a[1..], b[1..]);
    }
  }

  lemma {:induction false} AtMostTransitive(a: string, b: string, c: string)
    requires AtMost(a, b) && AtMost(b, c)
    ensures AtMost(a, c)
  {
    if a != "" && b != "" && c != "" && a[0] == b[0] == c[0] {
      AtMostTransitive(a[1..], b[1..], c[1..]);
    }
  }

  predicate IsLeast(key: string, keys: set<string>) {
    key in keys && forall other :: other in keys ==> AtMost(key, other)
  }

  lemma {:induction false} LeastExists(keys: set<string>)
    requires keys != {}
    ensures exists key :: IsLeast(key, keys)
    decreases |keys|
  {
    var key :| key in keys;
    AtMostTotal(key, key);
    var rest := keys - {key};
    if rest == {} {
      assert keys == {key};
      assert IsLeast(key, keys);
    } else {
      LeastExists(rest);
      var least :| IsLeast(least, rest);
      AtMostTotal(key, least);
      if AtMost(key, least) {
        forall other | other in rest ensures AtMost(key, other) {
          AtMostTransitive(key, least, other);
        }
        assert IsLeast(key, keys);
      } else {
        assert IsLeast(least, keys);
      }
    }
  }

  function Least(keys: set<string>): (key: string)
    requires keys != {}
    ensures IsLeast(key, keys)
  {
    LeastExists(keys);
    assert forall a, b :: IsLeast(a, keys) && IsLeast(b, keys) ==> a == b by {
      forall a, b | IsLeast(a, keys) && IsLeast(b, keys) ensures a == b {
        AtMostAntisymmetric(a, b);
      }
    }
    var key :| IsLeast(key, keys);
    key
  }

  function SortedKeys(keys: set<string>): seq<string>
    decreases |keys|
  {
    if keys == {} then []
    else
      var least := Least(keys);
      [least] + SortedKeys(keys - {least})
  }

  /** Every key is listed once, and the keys are in order. */
  ghost predicate ListsInOrder(sorted: seq<string>, keys: set<string>) {
    && (forall key :: key in sorted <==> key in keys)
    && (forall i, j :: 0 <= i < j < |sorted| ==> sorted[i] != sorted[j] && AtMost(sorted[i], sorted[j]))
  }

  lemma {:induction false} SortedKeysInOrder(keys: set<string>)
    ensures ListsInOrder(SortedKeys(keys), keys)
    decreases |keys|
  {
    hide AtMost;
    if keys != {} {
      var least := Least(keys);
      var rest := SortedKeys(keys - {least});
      SortedKeysInOrder(keys - {least});
      assert forall j :: 0 <= j < |rest| ==> rest[j] in rest;
    }
  }
}

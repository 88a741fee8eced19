/**
 * Plain JavaScript objects with boolean values, as the permission check sees
 * them: `member.permission.json` and a command's required permissions. An
 * object is its list of own properties in property order; reading a missing
 * property gives `undefined` (`None`).
 */
module JsObject {
  import opened Wrappers

  datatype Prop = Prop(name: string, value: bool)

  type Props = seq<Prop>

  /** Property names are distinct, as in every JavaScript object. */
  predicate WellFormed(o: Props) {
    forall i, j :: 0 <= i < j < |o| ==> o[i].name != o[j].name
  }

  /** `n` is an own property of `o`. */
  predicate Has(o: Props, n: string) {
    exists i | 0 <= i < |o| :: o[i].name == n
  }

  /** `Object.getOwnPropertyNames(o)`. */
  function Names(o: Props): (r: seq<string>)
    ensures |r| == |o|
  {
    seq(|o|, i requires 0 <= i < |o| => o[i].name)
  }

  /** The property access `o[n]`. */
  function Lookup(o: Props, n: string): (r: Option<bool>)
    ensures r.Some? <==> Has(o, n)
  {
    if |o| == 0 then None
    else if o[0].name == n then Some(o[0].value)
    else
      assert forall i :: 1 <= i < |o| ==> o[i] == o[1..][i - 1];
      Lookup(o[1..], n)
  }

  /** In a well-formed object every property is found with its own value. */
  lemma {:induction false} LookupAt(o: Props, i: nat)
    requires WellFormed(o) && i < |o|
    ensures Lookup(o, o[i].name) == Some(o[i].value)
  {
    if i > 0 {
      LookupAt(o[1..], i - 1);
    }
  }

  /** The assignment `o[n] = v`: overwrites in place or appends a new property. */
  function Put(o: Props, n: string, v: bool): (r: Props)
    ensures forall k :: Lookup(r, k) == if k == n then Some(v) else Lookup(o, k)
    ensures Lookup(o, n) == Some(v) ==> r == o
    ensures WellFormed(o) ==> WellFormed(r)
  {
    if |o| == 0 then [Prop(n, v)]
    else if o[0].name == n then [Prop(n, v)] + o[1..]
    else
      var rest := Put(o[1..], n, v);
      assert forall i :: 1 <= i < |o| ==> o[i] == o[1..][i - 1];
      PutKeepsHead(o, n, rest);
      [o[0]] + rest
  }

  /** The head of a well-formed object stays distinct from the names of the updated rest. */
  lemma PutKeepsHead(o: Props, n: string, rest: Props)
    requires |o| > 0 && o[0].name != n
    requires forall k :: Lookup(rest, k).Some? ==> k == n || Lookup(o[1..], k).Some?
    ensures WellFormed(o) ==> forall j :: 0 <= j < |rest| ==> rest[j].name != o[0].name
  {
    if WellFormed(o) {
      forall j | 0 <= j < |rest| ensures rest[j].name != o[0].name {
        var k := rest[j].name;
        assert Has(rest, k);
        assert Lookup(rest, k).Some?;
        assert k == n || Lookup(o[1..], k).Some?;
        if k != n {
          var m :| 0 <= m < |o[1..]| && o[1..][m].name == k;
          assert o[m + 1].name == k;
        }
      }
    }
  }

  /** `Object.assign(target, source)`: copies the properties of `source` in order. */
  function Assign(target: Props, source: Props): (r: Props)
    ensures WellFormed(target) ==> WellFormed(r)
    ensures forall k :: Has(r, k) <==> Has(target, k) || Has(source, k)
    decreases |source|
  {
    if |source| == 0 then target
    else
      var next := Put(target, source[0].name, source[0].value);
      assert forall k :: Has(next, k) <==> Has(target, k) || k == source[0].name by {
        forall k ensures Has(next, k) <==> Has(target, k) || k == source[0].name {
          assert Lookup(next, k).Some? <==> Has(next, k);
          assert Lookup(target, k).Some? <==> Has(target, k);
        }
      }
      assert forall k :: Has(source, k) <==> k == source[0].name || Has(source[1..], k) by {
        forall k ensures Has(source, k) <==> k == source[0].name || Has(source[1..], k) {
          if Has(source, k) && k != source[0].name {
            var i :| 0 <= i < |source| && source[i].name == k;
            assert source[1..][i - 1].name == k;
          }
          if Has(source[1..], k) {
            var i :| 0 <= i < |source[1..]| && source[1..][i].name == k;
            assert source[i + 1].name == k;
          }
        }
      }
      Assign(next, source[1..])
  }

  /** After the assignment, a name of the source reads as in the source, any other as before. */
  lemma {:induction false} AssignLookup(t: Props, s: Props, k: string)
    requires WellFormed(s)
    ensures Lookup(Assign(t, s), k) == if Has(s, k) then Lookup(s, k) else Lookup(t, k)
    decreases |s|
  {
    if |s| > 0 {
      var head := s[0];
      assert WellFormed(s[1..]);
      AssignLookup(Put(t, head.name, head.value), s[1..], k);
      if Has(s[1..], k) {
        var j :| 0 <= j < |s[1..]| && s[1..][j].name == k;
        assert s[j + 1].name == k;
      }
      assert Has(s, k) <==> k == head.name || Has(s[1..], k) by {
        if Has(s, k) && k != head.name {
          var j :| 0 <= j < |s| && s[j].name == k;
          assert s[1..][j - 1].name == k;
        }
      }
    }
  }

  /** Assigning properties the target already holds with the same values changes nothing. */
  lemma {:induction false} AssignCovered(t: Props, s: Props)
    requires Covers(t, s)
    ensures Assign(t, s) == t
    decreases |s|
  {
    if |s| > 0 {
      assert Covers(t, s[1..]) by {
        forall i | 0 <= i < |s[1..]| ensures Lookup(t, s[1..][i].name) == Some(s[1..][i].value) {
          assert s[1..][i] == s[i + 1];
        }
      }
      AssignCovered(t, s[1..]);
    }
  }

  /** What `isEquivalent(a, b)` decides: same size, and each name of `a` reads alike in both. */
  predicate Equivalent(a: Props, b: Props) {
    |a| == |b| && forall i :: 0 <= i < |a| ==> Lookup(a, a[i].name) == Lookup(b, a[i].name)
  }

  /** `isEquivalent`: compares the property counts, then every property of `a` in turn. */
  method IsEquivalent(a: Props, b: Props) returns (eq: bool)
    ensures eq == Equivalent(a, b)
  {
    var aProps := Names(a);
    var bProps := Names(b);
    if |aProps| != |bProps| {
      return false;
    }
    var i := 0;
    while i < |aProps|
      invariant 0 <= i <= |aProps|
      invariant forall j :: 0 <= j < i ==> Lookup(a, a[j].name) == Lookup(b, a[j].name)
    {
      var propName := aProps[i];
      if Lookup(a, propName) != Lookup(b, propName) {
        return false;
      }
      i := i + 1;
    }
    return true;
  }

  /** The set of property names. */
  function NameSet(o: Props): set<string>
  {
    set i | 0 <= i < |o| :: o[i].name
  }

  lemma {:induction false} NameSetSize(o: Props)
    requires WellFormed(o)
    ensures |NameSet(o)| == |o|
  {
    if |o| > 0 {
      var rest := o[1..];
      NameSetSize(rest);
      assert NameSet(o) == {o[0].name} + NameSet(rest) by {
        forall n | n in NameSet(o) ensures n in {o[0].name} + NameSet(rest) {
          var i :| 0 <= i < |o| && o[i].name == n;
          if i > 0 { assert rest[i - 1].name == n; }
        }
        forall n | n in NameSet(rest) ensures n in NameSet(o) {
          var i :| 0 <= i < |rest| && rest[i].name == n;
          assert o[i + 1].name == n;
        }
      }
      assert o[0].name !in NameSet(rest);
    }
  }

  /**
   * For well-formed objects `isEquivalent` is exactly equality of objects: the
   * same names with the same values, in any order.
   */
  lemma EquivalentIsSameObject(a: Props, b: Props)
    requires WellFormed(a) && WellFormed(b)
    ensures Equivalent(a, b) <==> SameObject(a, b)
  {
    if Equivalent(a, b) {
      EquivalentSame(a, b);
    }
    if SameObject(a, b) {
      SameEquivalent(a, b);
    }
  }

  /** Every name reads alike in both objects. */
  ghost predicate SameObject(a: Props, b: Props) {
    forall n :: Lookup(a, n) == Lookup(b, n)
  }

  lemma EquivalentSame(a: Props, b: Props)
    requires WellFormed(a) && WellFormed(b) && Equivalent(a, b)
    ensures SameObject(a, b)
  {
    NameSetSize(a);
    NameSetSize(b);
    assert NameSet(a) <= NameSet(b) by {
      forall n | n in NameSet(a) ensures n in NameSet(b) {
        var i :| 0 <= i < |a| && a[i].name == n;
        assert Lookup(b, n).Some?;
      }
    }
    forall n ensures Lookup(a, n) == Lookup(b, n) {
      if Has(a, n) {
        var i :| 0 <= i < |a| && a[i].name == n;
      } else if Has(b, n) {
        assert n in NameSet(b) - NameSet(a);
        SubsetSize(NameSet(a), NameSet(b) - {n});
        assert false;
      }
    }
  }

  lemma SameEquivalent(a: Props, b: Props)
    requires WellFormed(a) && WellFormed(b)
    requires SameObject(a, b)
    ensures Equivalent(a, b)
  {
    NameSetSize(a);
    NameSetSize(b);
    assert NameSet(a) == NameSet(b) by {
      forall n ensures n in NameSet(a) <==> n in NameSet(b) {
        assert Lookup(a, n).Some? <==> Lookup(b, n).Some?;
        if n in NameSet(a) {
          var i :| 0 <= i < |a| && a[i].name == n;
        }
        if n in NameSet(b) {
          var i :| 0 <= i < |b| && b[i].name == n;
        }
      }
    }
  }

  lemma SubsetSize(x: set<string>, y: set<string>)
    requires x <= y
    ensures |x| <= |y|
  {
    assert y == x + (y - x);
  }

  /** Every required property is granted with the same value. */
  predicate Covers(granted: Props, required: Props) {
    forall i :: 0 <= i < |required| ==> Lookup(granted, required[i].name) == Some(required[i].value)
  }

  /**
   * The permission test `isEquivalent(Object.assign(granted, required), granted)`
   * passes exactly when every required key is already granted with the same value.
   */
  lemma PermissionMatch(granted: Props, required: Props)
    requires WellFormed(required)
    ensures Equivalent(Assign(granted, required), granted) <==> Covers(granted, required)
  {
    var merged := Assign(granted, required);
    if Covers(granted, required) {
      AssignCovered(granted, required);
    }
    if Equivalent(merged, granted) {
      forall i | 0 <= i < |required|
        ensures Lookup(granted, required[i].name) == Some(required[i].value)
      {
        var n := required[i].name;
        LookupAt(required, i);
        AssignLookup(granted, required, n);
        var j :| 0 <= j < |merged| && merged[j].name == n;
      }
    }
  }
}

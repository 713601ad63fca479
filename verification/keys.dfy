/**
  Derivation of the primary and partition keys from a feature schema, as a
  handle built from backend data does it: the names of the features whose
  flag is set, in schema order.
*/
module Keys {
  import opened Values

  datatype KeyKind = Primary | Partition

  predicate HasFlag(f: Feature, kind: KeyKind) {
    match kind
    case Primary => f.primary
    case Partition => f.partition
  }

  /** The names of the features flagged for `kind`, in schema order. */
  function KeyNames(fs: seq<Feature>, kind: KeyKind): (r: seq<string>)
    ensures |r| <= |fs|
  {
    if fs == [] then []
    else (if HasFlag(fs[0], kind) then [fs[0].name] else []) + KeyNames(fs[1..], kind)
  }

  /** The names of all features, in schema order. */
  function Names(fs: seq<Feature>): (r: seq<string>)
    ensures |r| == |fs|
    ensures forall i :: 0 <= i < |fs| ==> r[i] == fs[i].name
  {
    seq(|fs|, i requires 0 <= i < |fs| => fs[i].name)
  }

  /** Filtering distributes over concatenation: schema order is kept. */
  lemma {:induction false} KeyNamesAppend(a: seq<Feature>, b: seq<Feature>, kind: KeyKind)
    ensures KeyNames(a + b, kind) == KeyNames(a, kind) + KeyNames(b, kind)
  {
    if a == [] {
      assert a + b == b;
    } else {
      assert (a + b)[0] == a[0];
      assert (a + b)[1..] == a[1..] + b;
      KeyNamesAppend(a[1..], b, kind);
    }
  }

  /** A one-feature schema contributes its name exactly when its flag is set. */
  lemma KeyNamesSingle(f: Feature, kind: KeyKind)
    ensures KeyNames([f], kind) == if HasFlag(f, kind) then [f.name] else []
  {
    assert [f][1..] == [];
  }

  /** A name is a key exactly when some feature of that name carries the flag. */
  lemma {:induction false} KeyNamesMembership(fs: seq<Feature>, kind: KeyKind, n: string)
    ensures n in KeyNames(fs, kind) <==> exists i :: 0 <= i < |fs| && fs[i].name == n && HasFlag(fs[i], kind)
  {
    if fs != [] {
      KeyNamesMembership(fs[1..], kind, n);
      if n in KeyNames(fs[1..], kind) {
        var i :| 0 <= i < |fs[1..]| && fs[1..][i].name == n && HasFlag(fs[1..][i], kind);
        assert fs[i + 1] == fs[1..][i];
      }
      if exists i :: 0 <= i < |fs| && fs[i].name == n && HasFlag(fs[i], kind) {
        var i :| 0 <= i < |fs| && fs[i].name == n && HasFlag(fs[i], kind);
        if i > 0 {
          assert fs[1..][i - 1] == fs[i];
        }
      }
    }
  }

  /** Every derived key names a feature of the schema. */
  lemma KeyNamesAreFeatureNames(fs: seq<Feature>, kind: KeyKind)
    ensures forall n :: n in KeyNames(fs, kind) ==> n in Names(fs)
  {
    forall n | n in KeyNames(fs, kind)
      ensures n in Names(fs)
    {
      KeyNamesMembership(fs, kind, n);
      var i :| 0 <= i < |fs| && fs[i].name == n && HasFlag(fs[i], kind);
      assert Names(fs)[i] == n;
    }
  }

  /** The scenario of a schema with an id key, a timestamp partition and a plain value column. */
  lemma ExampleSchemaKeys()
    ensures var fs := [Feature("id", "int", true, false), Feature("ts", "string", false, true), Feature("val", "double", false, false)];
            KeyNames(fs, Primary) == ["id"] && KeyNames(fs, Partition) == ["ts"]
  {
    var fs := [Feature("id", "int", true, false), Feature("ts", "string", false, true), Feature("val", "double", false, false)];
    assert fs[1..][1..] == [fs[2]];
    assert fs[1..][1..][1..] == [];
  }
}

/**
 * Go's `for k, v := range m` over a `map[string]string`: every entry is
 * visited exactly once, in an order the language leaves unspecified. The
 * model picks the next key with `:|`, so its results are stated for every
 * order.
 */
module GoMaps {
  /** `fields` lists the entries of `m`, each exactly once, in some order. */
  predicate Enumerates(fields: seq<(string, string)>, m: map<string, string>)
  {
    && |fields| == |m|
    && (forall i :: 0 <= i < |fields| ==> fields[i].0 in m && m[fields[i].0] == fields[i].1)
    && (forall i, j :: 0 <= i < j < |fields| ==> fields[i].0 != fields[j].0)
    && (forall k :: k in m ==> exists i :: 0 <= i < |fields| && fields[i].0 == k)
  }

  /** Ranges over `m`, collecting its entries as key/value pairs. */
  method Entries(m: map<string, string>) returns (fields: seq<(string, string)>)
    ensures Enumerates(fields, m)
  {
    fields := [];
    var rest := m;
    while rest != map[]
      invariant rest.Keys <= m.Keys && forall k :: k in rest ==> rest[k] == m[k]
      invariant |fields| + |rest| == |m|
      invariant forall i :: 0 <= i < |fields| ==> fields[i].0 in m && fields[i].0 !in rest && m[fields[i].0] == fields[i].1
      invariant forall i, j :: 0 <= i < j < |fields| ==> fields[i].0 != fields[j].0
      invariant forall k :: k in m ==> k in rest || exists i :: 0 <= i < |fields| && fields[i].0 == k
      decreases |rest|
    {
      var k :| k in rest;
      ghost var before := fields;
      fields := fields + [(k, rest[k])];
      rest := rest - {k};
      forall k' | k' in m
        ensures k' in rest || exists i :: 0 <= i < |fields| && fields[i].0 == k'
      {
        if k' == k {
          assert fields[|fields| - 1].0 == k';
        } else if k' !in rest {
          var i :| 0 <= i < |before| && before[i].0 == k';
          assert fields[i] == before[i];
        }
      }
    }
  }

  /** Ranges over `src`, assigning each entry into `dst`: the entries of `src` win. */
  method AssignAll(dst: map<string, string>, src: map<string, string>) returns (r: map<string, string>)
    ensures r == dst + src
  {
    r := dst;
    var rest := src.Keys;
    while rest != {}
      invariant rest <= src.Keys
      invariant forall k :: k in r <==> k in dst || (k in src && k !in rest)
      invariant forall k :: k in src && k !in rest ==> r[k] == src[k]
      invariant forall k :: k in dst && k !in src ==> r[k] == dst[k]
      decreases |rest|
    {
      var k :| k in rest;
      r := r[k := src[k]];
      rest := rest - {k};
    }
    PointwiseUnion(dst, src, r);
  }

  lemma PointwiseUnion(dst: map<string, string>, src: map<string, string>, r: map<string, string>)
    requires forall k :: k in r <==> k in dst || k in src
    requires forall k :: k in src ==> r[k] == src[k]
    requires forall k :: k in dst && k !in src ==> r[k] == dst[k]
    ensures r == dst + src
  {
  }
}

// Shared vocabulary: optional values, namespaced object keys, and the few facts
// about finite sets that the controllers' counting arguments rest on.
module Basics {
  datatype Option<+T> = None | Some(value: T)

  // A Kubernetes object of a given kind is identified by namespace and name.
  datatype Key = Key(ns: string, name: string)

  lemma SubsetSize<T>(a: set<T>, b: set<T>)
    requires a <= b
    ensures |a| <= |b|
    ensures |a| == |b| ==> a == b
  {
    assert |b| == |a| + |b - a| by { assert b == a + (b - a); }
  }

  // Taking one member out and possibly another one in never grows a set.
  lemma SwapSize<T>(a: set<T>, b: set<T>, gone: T, joined: T)
    requires gone in b && a <= (b - {gone}) + {joined}
    ensures |a| <= |b|
  {
    SubsetSize(a, (b - {gone}) + {joined});
  }
}

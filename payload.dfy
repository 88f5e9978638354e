/**
 * The request payload of the client: a PHP associative array, i.e. an
 * ordered list of key/value entries, each value being a string, an int,
 * a bool or a list of strings.
 */
module Payload {
  import opened Wrappers

  datatype Value = Str(s: string) | Int(n: int) | Bool(b: bool) | StrList(items: seq<string>)

  /** Entries in insertion order. */
  type Data = seq<(string, Value)>

  /** A PHP array never holds the same key twice. */
  predicate UniqueKeys(d: Data) {
    forall i, j :: 0 <= i < j < |d| ==> d[i].0 != d[j].0
  }

  /** No string occurs twice in the list. */
  predicate Distinct(s: seq<string>) {
    forall i, j :: 0 <= i < j < |s| ==> s[i] != s[j]
  }

  /** The keys of the array, in insertion order. */
  function Keys(d: Data): (ks: seq<string>)
    ensures |ks| == |d|
    ensures forall i :: 0 <= i < |d| ==> ks[i] == d[i].0
  {
    if d == [] then [] else [d[0].0] + Keys(d[1..])
  }

  /** `$data[$k] ?? null`: the value stored under the first entry with key `k`. */
  function Lookup(d: Data, k: string): (r: Option<Value>)
    ensures r.None? <==> forall i :: 0 <= i < |d| ==> d[i].0 != k
    ensures r.Some? ==> exists i :: 0 <= i < |d| && d[i] == (k, r.value) &&
                                    forall j :: 0 <= j < i ==> d[j].0 != k
  {
    if d == [] then None
    else if d[0].0 == k then Some(d[0].1)
    else Lookup(d[1..], k)
  }
}

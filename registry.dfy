/** What the detector registry hands the scanner: `DetectorRegistry.get_detector_classes`
    returns a dict from detector name to detector class. A Python dict keeps its keys
    unique and iterates them in insertion order, so it is modelled as a sequence of
    (name, class) pairs with distinct names. */
module Registry {

  /** A detector class, known to the scanner only by identity. */
  datatype DetectorClass = DetectorClass(qualname: string)

  type Entry = (string, DetectorClass)

  predicate DistinctNames(m: seq<Entry>) {
    forall i, j :: 0 <= i < j < |m| ==> m[i].0 != m[j].0
  }

  /** An order-preserving dict from detector name to class. */
  type ClassMap = m: seq<Entry> | DistinctNames(m)

  /** The dict's keys, in iteration order. */
  function Names(m: seq<Entry>): (r: seq<string>)
    ensures |r| == |m|
    ensures forall i :: 0 <= i < |m| ==> r[i] == m[i].0
  {
    if m == [] then [] else [m[0].0] + Names(m[1..])
  }

  /** The dict's keys as a set (`classes.keys()` used as a set). */
  function KeySet(m: seq<Entry>): set<string> {
    set e | e in m :: e.0
  }

  /** `classes[k]`: the class registered under `k`. */
  function Get(m: ClassMap, k: string): (c: DetectorClass)
    requires k in KeySet(m)
    ensures (k, c) in m
  {
    if m[0].0 == k then m[0].1
    else
      assert DistinctNames(m[1..]);
      Get(m[1..], k)
  }

  /** The entries of `m` whose names are in `keys`, in the order of `m`. */
  ghost function Restricted(m: ClassMap, keys: set<string>): (r: ClassMap)
    ensures KeySet(r) == KeySet(m) * keys
    ensures forall e :: e in r ==> e in m
  {
    if m == [] then []
    else
      assert DistinctNames(m[1..]);
      var rest := Restricted(m[1..], keys);
      assert KeySet(m) == {m[0].0} + KeySet(m[1..]);
      if m[0].0 in keys then
        assert DistinctNames([m[0]] + rest) by {
          forall e | e in rest ensures e.0 != m[0].0 {
            var j :| 1 <= j < |m| && m[j] == e;
          }
        }
        assert KeySet([m[0]] + rest) == {m[0].0} + KeySet(rest);
        [m[0]] + rest
      else rest
  }

  /** Appending an entry whose name is new keeps the names distinct. */
  lemma AppendFresh(m: ClassMap, e: Entry)
    requires e.0 !in KeySet(m)
    ensures DistinctNames(m + [e])
    ensures KeySet(m + [e]) == KeySet(m) + {e.0}
  {
    var r := m + [e];
    forall i, j | 0 <= i < j < |r| ensures r[i].0 != r[j].0 {
      if j == |m| {
        assert r[i] in m;
      }
    }
    assert forall x :: x in r <==> x in m || x == e;
  }

  /** An empty key set means an empty dict. */
  lemma EmptyKeys(m: seq<Entry>)
    ensures KeySet(m) == {} <==> m == []
  {
    if m != [] {
      assert m[0].0 in KeySet(m);
    }
  }
}

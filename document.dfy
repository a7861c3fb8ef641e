/** Documents as the source builds them: Python dicts whose key order is
    part of the result (they are dumped with `sort_keys=False`). A dict is
    an ordered sequence of entries; lookups find the first entry with a key,
    which is the only one whenever the keys are distinct. */
module Document {
  import opened Wrappers

  datatype Value =
    | Null
    | Str(s: string)
    | Bool(b: bool)
    | List(items: seq<Value>)
    | Dict(entries: seq<Entry>)
    /** A non-data object stored in a document, named by its `repr`. */
    | TypeHint(name: string)

  datatype Entry = Entry(key: string, value: Value)

  /** The keys of a dict, in insertion order. */
  function Keys(d: seq<Entry>): (ks: seq<string>)
    ensures |ks| == |d|
  {
    seq(|d|, i requires 0 <= i < |d| => d[i].key)
  }

  predicate Distinct<T(==)>(s: seq<T>) {
    forall i, j :: 0 <= i < j < |s| ==> s[i] != s[j]
  }

  /** `d[k]` if `k in d`. */
  function Lookup(d: seq<Entry>, k: string): Option<Value> {
    if d == [] then None
    else if d[0].key == k then Some(d[0].value)
    else Lookup(d[1..], k)
  }

  /** A lookup finds a key exactly when the dict has it, and then finds one
      of the dict's own entries. */
  lemma {:induction false} LookupFinds(d: seq<Entry>, k: string)
    ensures Lookup(d, k).Some? <==> k in Keys(d)
    ensures Lookup(d, k).Some? ==> Entry(k, Lookup(d, k).value) in d
  {
    if d != [] {
      LookupFinds(d[1..], k);
      assert Keys(d) == [d[0].key] + Keys(d[1..]);
    }
  }

  /** `d.get(k, default)`. */
  function Get(d: seq<Entry>, k: string, default: Value): (v: Value)
    ensures k in Keys(d) ==> Lookup(d, k) == Some(v)
    ensures k !in Keys(d) ==> v == default
  {
    LookupFinds(d, k);
    match Lookup(d, k)
    case Some(v) => v
    case None => default
  }

  lemma KeysAppend(a: seq<Entry>, b: seq<Entry>)
    ensures Keys(a + b) == Keys(a) + Keys(b)
  {
    assert forall i :: 0 <= i < |a + b| ==> Keys(a + b)[i] == (Keys(a) + Keys(b))[i];
  }

  /** A lookup in a concatenation finds the key in the left part first. */
  lemma {:induction false} LookupAppend(a: seq<Entry>, b: seq<Entry>, k: string)
    ensures Lookup(a + b, k) == if k in Keys(a) then Lookup(a, k) else Lookup(b, k)
  {
    if a != [] {
      assert (a + b)[1..] == a[1..] + b;
      assert (a + b)[0] == a[0];
      LookupAppend(a[1..], b, k);
      assert Keys(a) == [a[0].key] + Keys(a[1..]);
    } else {
      assert a + b == b;
    }
  }

  /** In a dict with distinct keys, every entry is what a lookup finds. */
  lemma {:induction false} LookupDistinct(d: seq<Entry>, i: nat)
    requires i < |d| && Distinct(Keys(d))
    ensures Lookup(d, d[i].key) == Some(d[i].value)
  {
    if i > 0 {
      assert Keys(d)[0] != Keys(d)[i];
      assert Keys(d[1..]) == Keys(d)[1..];
      LookupDistinct(d[1..], i - 1);
    }
  }
}

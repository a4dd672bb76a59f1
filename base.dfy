/** Shared vocabulary of the extraction core: optional values, the exceptions the
    core can raise, the three outcomes of a heuristic stage, and the insertion-ordered
    dictionaries that Python iterates. */
module Base {

  datatype Option<+T> = None | Some(value: T)

  /** Every exception the modelled code raises, apart from InsufficientParser. */
  datatype Fault =
    | UnknownUnit(value: string)          // map_style_val: a geometry value without "px"
    | MalformedDeclaration(decl: string)  // style_kv_obj: `k, v = x.split(":")` does not unpack
    | NotAnInteger(text: string)          // int() of a string that is not an integer
    | MissingKey(key: string)             // KeyError on the shared context
    | ComparedWithNone(key: string)       // TypeError: an int compared with a None context value
    | NoColon(segment: string)            // IndexError: a date segment without ':'
    | NoMatchingLine                      // StopIteration from next() in find_dates
    | ListUnderNameTuple                  // AssertionError in store_recursive
    | ScalarUnderNameTuple                // the explicit raise at the end of store_recursive

  datatype Result<+T> = Ok(value: T) | Err(fault: Fault)

  /** What one heuristic stage gives back: a value, InsufficientParser, or another exception. */
  datatype Outcome<+T> = Found(value: T) | Insufficient(message: string) | Raised(fault: Fault)

  /** A Python dict as the sequence of its items in insertion order. */
  type Dict<V> = seq<(string, V)>

  predicate HasKey<V>(d: Dict<V>, k: string) {
    exists i :: 0 <= i < |d| && d[i].0 == k
  }

  /** Keys are pairwise distinct, as in every Python dict. */
  predicate DistinctKeys<V>(d: Dict<V>) {
    forall i, j :: 0 <= i < j < |d| ==> d[i].0 != d[j].0
  }

  /** Position of the first item with key k. */
  function KeyIndex<V>(d: Dict<V>, k: string): (i: nat)
    requires HasKey(d, k)
    ensures i < |d| && d[i].0 == k
    ensures forall j :: 0 <= j < i ==> d[j].0 != k
  {
    if d[0].0 == k then 0
    else
      assert HasKey(d[1..], k) by {
        var i :| 0 <= i < |d| && d[i].0 == k;
        assert d[1..][i - 1].0 == k;
      }
      1 + KeyIndex(d[1..], k)
  }

  /** d.get(k, None) */
  function DictGet<V>(d: Dict<V>, k: string): Option<V> {
    if HasKey(d, k) then Some(d[KeyIndex(d, k)].1) else None
  }

  /** d[k] = v: an existing key keeps its position, a new key goes last. */
  function DictSet<V>(d: Dict<V>, k: string, v: V): Dict<V> {
    if HasKey(d, k) then d[KeyIndex(d, k) := (k, v)] else d + [(k, v)]
  }

  /** Writing a key makes it read back, leaves every other key alone, and keeps a dict a dict. */
  lemma DictSetGet<V>(d: Dict<V>, k: string, v: V)
    ensures DictGet(DictSet(d, k, v), k) == Some(v)
    ensures forall k' :: k' != k ==> DictGet(DictSet(d, k, v), k') == DictGet(d, k')
    ensures DistinctKeys(d) ==> DistinctKeys(DictSet(d, k, v))
  {
    var r := DictSet(d, k, v);
    forall k' | k' != k ensures DictGet(r, k') == DictGet(d, k') {
      assert HasKey(r, k') <==> HasKey(d, k') by {
        if HasKey(d, k') {
          var i :| 0 <= i < |d| && d[i].0 == k';
          assert r[i].0 == k';
        }
        if HasKey(r, k') {
          var i :| 0 <= i < |r| && r[i].0 == k';
          assert d[i].0 == k';
        }
      }
      if HasKey(d, k') {
        var i, j := KeyIndex(d, k'), KeyIndex(r, k');
        assert r[i].0 == k';
        assert d[j].0 == k';
        assert i == j;
      }
    }
    assert HasKey(r, k) by {
      if HasKey(d, k) { assert r[KeyIndex(d, k)].0 == k; } else { assert r[|d|].0 == k; }
    }
    if HasKey(d, k) {
      var i := KeyIndex(d, k);
      assert KeyIndex(r, k) == i by {
        assert r[i].0 == k;
      }
    } else {
      assert KeyIndex(r, k) == |d|;
    }
  }

  /** A sequence is its prefix followed by the rest. */
  lemma PrefixSuffix<T>(s: seq<T>, i: nat)
    requires i <= |s|
    ensures s[..i] + s[i..] == s
  {
  }

  /** The pieces of xss joined end to end, in order. */
  function Concat<T>(xss: seq<seq<T>>): seq<T> {
    if |xss| == 0 then [] else Concat(xss[..|xss| - 1]) + xss[|xss| - 1]
  }

  /** Joining one more piece appends it. */
  lemma ConcatSnoc<T>(xss: seq<seq<T>>, i: nat)
    requires i < |xss|
    ensures Concat(xss[..i + 1]) == Concat(xss[..i]) + xss[i]
  {
    assert xss[..i + 1][..i] == xss[..i];
  }

  /** Joining pieces of one element each gives those elements. */
  lemma {:induction false} ConcatSingletons<T>(xss: seq<seq<T>>)
    requires forall j :: 0 <= j < |xss| ==> |xss[j]| == 1
    ensures Concat(xss) == seq(|xss|, j requires 0 <= j < |xss| => xss[j][0])
  {
    if |xss| > 0 {
      ConcatSingletons(xss[..|xss| - 1]);
    }
  }
}

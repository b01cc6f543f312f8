/** Python dictionaries from strings to strings, as the command files build and walk them:
    insertion-ordered, one entry per key, assignment to an existing key keeping its place. */
module TagMaps {
  import opened Wrappers

  /** One `{key, value}` element of a provider tag list. */
  datatype Tag = Tag(key: string, value: string)

  type Entry = (string, string)

  predicate UniqueKeys(d: seq<Entry>) {
    forall i, j :: 0 <= i < j < |d| ==> d[i].0 != d[j].0
  }

  /** A `dict[str, str]`: its entries in iteration order, which is insertion order. */
  type Dict = d: seq<Entry> | UniqueKeys(d) witness []

  /** The position of key `k` in `d`, or -1 when `k` is not a key. */
  function IndexOf(d: seq<Entry>, k: string): (r: int)
    ensures -1 <= r < |d|
    ensures r >= 0 ==> d[r].0 == k
    ensures r < 0 <==> forall i :: 0 <= i < |d| ==> d[i].0 != k
  {
    if |d| == 0 then -1
    else if d[0].0 == k then 0
    else
      var j := IndexOf(d[1..], k);
      if j < 0 then -1 else j + 1
  }

  /** Python's `k in d`. */
  predicate HasKey(d: Dict, k: string) {
    IndexOf(d, k) >= 0
  }

  /** Python's `d[k]` for a key that is present. */
  function Get(d: Dict, k: string): string
    requires HasKey(d, k)
  {
    d[IndexOf(d, k)].1
  }

  /** Python's `d.get(k)`. */
  function Lookup(d: Dict, k: string): Option<string> {
    if HasKey(d, k) then Some(Get(d, k)) else None
  }

  /** Every entry of a dictionary is what looking its key up gives. */
  lemma LookupEntry(d: Dict, i: int)
    requires 0 <= i < |d|
    ensures Lookup(d, d[i].0) == Some(d[i].1)
  {
  }

  /** Python's `d[k] = v`: overwrites the value of an existing key in place, or appends a new entry. */
  function Insert(d: Dict, k: string, v: string): (r: Dict)
    ensures forall k' :: Lookup(r, k') == if k' == k then Some(v) else Lookup(d, k')
    ensures HasKey(d, k) ==> |r| == |d| && forall i :: 0 <= i < |d| ==> r[i].0 == d[i].0
    ensures !HasKey(d, k) ==> r == d + [(k, v)]
  {
    var i := IndexOf(d, k);
    var r: seq<Entry> := if i >= 0 then d[i := (k, v)] else d + [(k, v)];
    assert UniqueKeys(r);
    InsertLookup(d, k, v, r);
    r
  }

  lemma InsertLookup(d: Dict, k: string, v: string, r: Dict)
    requires r == if IndexOf(d, k) >= 0 then d[IndexOf(d, k) := (k, v)] else d + [(k, v)]
    ensures forall k' :: Lookup(r, k') == if k' == k then Some(v) else Lookup(d, k')
  {
    forall k' ensures Lookup(r, k') == if k' == k then Some(v) else Lookup(d, k') {
      var i := IndexOf(d, k);
      var pos := if i >= 0 then i else |d|;
      assert r[pos] == (k, v);
      LookupEntry(r, pos);
      if k' != k {
        var j := IndexOf(d, k');
        if j >= 0 {
          assert r[j] == d[j];
          LookupEntry(r, j);
        } else {
          assert forall m :: 0 <= m < |r| ==> r[m].0 != k' by {
            forall m | 0 <= m < |r| ensures r[m].0 != k' {
              if m != pos { assert r[m] == d[m]; }
            }
          }
        }
      }
    }
  }

  /** The dictionary comprehension `{t.key: t.value for t in tags}`: entries are inserted from
      the first tag to the last. */
  function FromTags(tags: seq<Tag>): Dict {
    if |tags| == 0 then []
    else
      var last := tags[|tags| - 1];
      Insert(FromTags(tags[..|tags| - 1]), last.key, last.value)
  }

  /** Tag `i` is the last one in the list with its key. */
  predicate LastOfKey(tags: seq<Tag>, i: int) {
    0 <= i < |tags| && forall j :: i < j < |tags| ==> tags[j].key != tags[i].key
  }

  /** After the comprehension, a key is present iff some tag has it, and its value is that of
      the LAST tag with the key: a later duplicate overwrites an earlier one. */
  lemma {:induction false} FromTagsLookup(tags: seq<Tag>, k: string)
    ensures Lookup(FromTags(tags), k).None? <==> forall i :: 0 <= i < |tags| ==> tags[i].key != k
    ensures forall i :: LastOfKey(tags, i) && tags[i].key == k ==> Lookup(FromTags(tags), k) == Some(tags[i].value)
    decreases |tags|
  {
    if |tags| > 0 {
      var init := tags[..|tags| - 1];
      var last := tags[|tags| - 1];
      FromTagsLookup(init, k);
      var d0 := FromTags(init);
      assert FromTags(tags) == Insert(d0, last.key, last.value);
      assert Lookup(FromTags(tags), k) == if k == last.key then Some(last.value) else Lookup(d0, k);
      if Lookup(FromTags(tags), k).None? {
        forall i | 0 <= i < |tags| ensures tags[i].key != k {
          if i < |tags| - 1 { assert tags[i] == init[i]; }
        }
      } else if k != last.key {
        var j :| 0 <= j < |init| && init[j].key == k;
        assert tags[j] == init[j];
      }
      forall i | LastOfKey(tags, i) && tags[i].key == k
        ensures Lookup(FromTags(tags), k) == Some(tags[i].value)
      {
        if i < |tags| - 1 {
          assert init[i] == tags[i];
          assert LastOfKey(init, i);
        }
      }
    }
  }
}

/** The counting dictionary the chart reducers build, `{ [key: string]: number }`,
    as JavaScript keeps a plain object with string keys: the keys in the order they
    were first inserted (what `Object.keys` and `Object.values` list) and one count
    per key. */
module Histograms {

  datatype Histogram = Histogram(keys: seq<string>, counts: map<string, nat>)

  /** The reducers' initial accumulator `{}`. */
  const Empty: Histogram := Histogram([], map[])

  /** `acc[k] || 0`: the count of `k`, or 0 when `k` is not a key. */
  function CountOf(h: Histogram, k: string): nat {
    if k in h.counts then h.counts[k] else 0
  }

  /** A well-formed dictionary: keys listed once each, exactly the keys that have
      a count, and every count at least 1 (a key is only created by counting). */
  ghost predicate Valid(h: Histogram) {
    && (forall i, j :: 0 <= i < j < |h.keys| ==> h.keys[i] != h.keys[j])
    && (forall k :: k in h.counts <==> k in h.keys)
    && (forall k :: k in h.counts ==> h.counts[k] >= 1)
  }

  /** `acc[k] = (acc[k] || 0) + 1`: a new key goes to the end of the key order,
      an existing key keeps its place. */
  function Add(h: Histogram, k: string): (r: Histogram)
    ensures CountOf(r, k) == CountOf(h, k) + 1
    ensures forall j :: j != k ==> CountOf(r, j) == CountOf(h, j)
    ensures k in h.counts ==> r.keys == h.keys
    ensures k !in h.counts ==> r.keys == h.keys + [k]
  {
    if k in h.counts then Histogram(h.keys, h.counts[k := h.counts[k] + 1])
    else Histogram(h.keys + [k], h.counts[k := 1])
  }

  /** Counting keeps a dictionary well-formed. */
  lemma AddKeepsValid(h: Histogram, k: string)
    requires Valid(h)
    ensures Valid(Add(h, k))
  {
    var r := Add(h, k);
    if k !in h.counts {
      forall i, j | 0 <= i < j < |r.keys|
        ensures r.keys[i] != r.keys[j]
      {
        if j == |h.keys| {
          assert r.keys[i] == h.keys[i];
        }
      }
    }
  }

  /** The reduce over a list of labels: one `Add` per label, left to right. */
  function Tally(labels: seq<string>): (h: Histogram)
    ensures |h.keys| <= |labels|
  {
    if labels == [] then Empty
    else Add(Tally(labels[..|labels| - 1]), labels[|labels| - 1])
  }

  lemma TallyAppend(labels: seq<string>, k: string)
    ensures Tally(labels + [k]) == Add(Tally(labels), k)
  {
    assert (labels + [k])[..|labels|] == labels;
  }

  /** `Object.values(h)`, aligned index by index with `Object.keys(h)` = `h.keys`. */
  function Values(h: Histogram): (vs: seq<nat>)
    ensures |vs| == |h.keys|
    ensures forall i :: 0 <= i < |h.keys| ==> vs[i] == CountOf(h, h.keys[i])
    ensures Valid(h) ==> forall i :: 0 <= i < |vs| ==> vs[i] >= 1
  {
    seq(|h.keys|, i requires 0 <= i < |h.keys| => CountOf(h, h.keys[i]))
  }

  function Sum(s: seq<nat>): nat {
    if s == [] then 0 else Sum(s[..|s| - 1]) + s[|s| - 1]
  }

  /** The position where `k` first occurs in `s`. */
  function FirstIndex(s: seq<string>, k: string): (i: nat)
    requires k in s
    ensures i < |s| && s[i] == k
    ensures forall j :: 0 <= j < i ==> s[j] != k
  {
    if s[0] == k then 0 else 1 + FirstIndex(s[1..], k)
  }

  /** Every label is counted exactly once: the count of each key is the number
      of times it occurs among the labels, and a key exists exactly when it occurs. */
  lemma {:induction false} TallyCounts(labels: seq<string>)
    ensures Valid(Tally(labels))
    ensures forall k :: CountOf(Tally(labels), k) == multiset(labels)[k]
    ensures forall k :: k in Tally(labels).keys <==> k in labels
  {
    if labels != [] {
      var init, last := labels[..|labels| - 1], labels[|labels| - 1];
      assert labels == init + [last];
      TallyCounts(init);
      AddKeepsValid(Tally(init), last);
    }
  }

  /** The counts add up to the number of labels. */
  lemma {:induction false} TallySum(labels: seq<string>)
    ensures Sum(Values(Tally(labels))) == |labels|
  {
    if labels != [] {
      var init := labels[..|labels| - 1];
      TallySum(init);
      TallyCounts(init);
      SumValuesAdd(Tally(init), labels[|labels| - 1]);
    }
  }

  /** `keys` lists labels in the order of their first occurrence in `labels`. */
  ghost predicate FirstOccurrenceOrder(keys: seq<string>, labels: seq<string>) {
    && (forall i :: 0 <= i < |keys| ==> keys[i] in labels)
    && (forall i, j :: 0 <= i < j < |keys| ==>
         FirstIndex(labels, keys[i]) < FirstIndex(labels, keys[j]))
  }

  /** Keys appear in the order of their first occurrence among the labels. */
  lemma {:induction false} TallyKeyOrder(labels: seq<string>)
    ensures FirstOccurrenceOrder(Tally(labels).keys, labels)
  {
    if labels != [] {
      var init, last := labels[..|labels| - 1], labels[|labels| - 1];
      assert labels == init + [last];
      TallyKeyOrder(init);
      TallyCounts(init);
      OrderAfterAppend(Tally(init).keys, init, last);
    }
  }

  /** One more label keeps the first-occurrence order of the keys seen so far,
      and a label not seen before takes its place after all of them. */
  lemma OrderAfterAppend(keys: seq<string>, init: seq<string>, last: string)
    requires FirstOccurrenceOrder(keys, init)
    ensures FirstOccurrenceOrder(keys, init + [last])
    ensures last !in init ==> FirstOccurrenceOrder(keys + [last], init + [last])
  {
    var labels := init + [last];
    forall i | 0 <= i < |keys|
      ensures keys[i] in labels
      ensures FirstIndex(labels, keys[i]) == FirstIndex(init, keys[i])
    {
      FirstIndexAppend(init, last, keys[i]);
    }
    if last !in init {
      forall j | 0 <= j < |init|
        ensures labels[j] != last
      {
        assert labels[j] == init[j];
      }
      assert FirstIndex(labels, last) == |init|;
      var keys' := keys + [last];
      forall i | 0 <= i < |keys'|
        ensures keys'[i] in labels
      {
      }
      forall i, j | 0 <= i < j < |keys'|
        ensures FirstIndex(labels, keys'[i]) < FirstIndex(labels, keys'[j])
      {
        if j == |keys| {
          assert keys'[i] == keys[i];
        }
      }
    }
  }

  /** The number of keys is the number of distinct labels. */
  lemma TallyKeyCount(labels: seq<string>)
    ensures |Tally(labels).keys| == |set k | k in labels|
  {
    TallyCounts(labels);
    var keys := Tally(labels).keys;
    DistinctCardinality(keys);
    assert (set k | k in keys) == (set k | k in labels);
  }

  lemma {:induction false} FirstIndexAppend(s: seq<string>, x: string, k: string)
    requires k in s
    ensures FirstIndex(s + [x], k) == FirstIndex(s, k)
  {
    var i, f := FirstIndex(s, k), FirstIndex(s + [x], k);
    assert (s + [x])[i] == k;
    assert f <= i;
    assert s[f] == (s + [x])[f];
  }

  lemma SumValuesAdd(h: Histogram, k: string)
    requires Valid(h)
    ensures Sum(Values(Add(h, k))) == Sum(Values(h)) + 1
  {
    if k in h.counts {
      SumValuesAddPresent(h, k);
    } else {
      SumValuesAddNew(h, k);
    }
  }

  lemma SumValuesAddPresent(h: Histogram, k: string)
    requires Valid(h) && k in h.counts
    ensures Sum(Values(Add(h, k))) == Sum(Values(h)) + 1
  {
    var vs, vs' := Values(h), Values(Add(h, k));
    var p :| 0 <= p < |h.keys| && h.keys[p] == k;
    forall i | 0 <= i < |vs|
      ensures vs'[i] == vs[p := vs[p] + 1][i]
    {
      if i != p {
        assert h.keys[i] != k;
      }
    }
    assert vs' == vs[p := vs[p] + 1];
    SumIncrement(vs, p);
  }

  lemma SumValuesAddNew(h: Histogram, k: string)
    requires Valid(h) && k !in h.counts
    ensures Sum(Values(Add(h, k))) == Sum(Values(h)) + 1
  {
    var vs, vs' := Values(h), Values(Add(h, k));
    forall i | 0 <= i < |vs|
      ensures vs'[i] == vs[i]
    {
      assert h.keys[i] in h.counts;
    }
    assert vs' == vs + [1];
    assert (vs + [1])[..|vs|] == vs;
  }

  lemma {:induction false} SumIncrement(s: seq<nat>, p: nat)
    requires p < |s|
    ensures Sum(s[p := s[p] + 1]) == Sum(s) + 1
  {
    var t := s[p := s[p] + 1];
    if p == |s| - 1 {
      assert t[..|t| - 1] == s[..|s| - 1];
    } else {
      assert t[..|t| - 1] == s[..|s| - 1][p := s[p] + 1];
      SumIncrement(s[..|s| - 1], p);
    }
  }

  lemma {:induction false} DistinctCardinality(s: seq<string>)
    requires forall i, j :: 0 <= i < j < |s| ==> s[i] != s[j]
    ensures |set k | k in s| == |s|
  {
    if s != [] {
      var init, last := s[..|s| - 1], s[|s| - 1];
      DistinctCardinality(init);
      assert (set k | k in s) == (set k | k in init) + {last};
      assert last !in init;
    }
  }
}

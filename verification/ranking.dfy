/** `collections.Counter(ks).most_common(n)`: distinct values with their
    occurrence counts, most frequent first, at most `n` of them. */
module Ranking {
  import opened Sequences

  datatype Entry = Entry(key: string, count: nat)

  function Min(a: nat, b: nat): nat {
    if a <= b then a else b
  }

  /** The distinct values of `ks` in first-occurrence order, which is the
      order a Counter (a dict) stores its keys in. */
  function Distinct(ks: seq<string>): (d: seq<string>)
    ensures forall x :: x in d <==> x in ks
    ensures forall i, j :: 0 <= i < j < |d| ==> d[i] != d[j]
  {
    if |ks| == 0 then []
    else
      var d := Distinct(ks[..|ks| - 1]);
      if ks[|ks| - 1] in d then d else d + [ks[|ks| - 1]]
  }

  /** Each distinct value paired with its number of occurrences. */
  function Counted(ks: seq<string>): (r: seq<Entry>)
    ensures |r| == |Distinct(ks)|
    ensures forall e :: e in r <==> e.key in ks && e.count == Count(ks, e.key)
    ensures KeysDistinct(r)
  {
    var d := Distinct(ks);
    var r := seq(|d|, i requires 0 <= i < |d| => Entry(d[i], Count(ks, d[i])));
    assert forall e :: e in r ==> e.key in d by {
      forall e | e in r ensures e.key in d {
        var i :| 0 <= i < |r| && r[i] == e;
      }
    }
    assert forall k :: k in d ==> Entry(k, Count(ks, k)) in r by {
      forall k | k in d ensures Entry(k, Count(ks, k)) in r {
        var i :| 0 <= i < |d| && d[i] == k;
        assert r[i] == Entry(k, Count(ks, k));
      }
    }
    r
  }

  predicate SortedDesc(s: seq<Entry>) {
    forall i, j :: 0 <= i < j < |s| ==> s[i].count >= s[j].count
  }

  predicate KeysDistinct(s: seq<Entry>) {
    forall i, j :: 0 <= i < j < |s| ==> s[i].key != s[j].key
  }

  /** Number of leading entries counted at least `c` times. */
  function InsertPos(s: seq<Entry>, c: nat): (p: nat)
    ensures p <= |s|
    ensures forall i :: 0 <= i < p ==> s[i].count >= c
    ensures p < |s| ==> s[p].count < c
  {
    if |s| == 0 || s[0].count < c then 0 else 1 + InsertPos(s[1..], c)
  }

  /** Inserts `e` after every entry counted at least as often, so entries
      with equal counts keep their order (the sort is stable). */
  function InsertDesc(s: seq<Entry>, e: Entry): (r: seq<Entry>)
    requires SortedDesc(s)
    ensures SortedDesc(r)
    ensures |r| == |s| + 1
    ensures multiset(r) == multiset(s) + multiset{e}
    ensures KeysDistinct(s) && (forall i :: 0 <= i < |s| ==> s[i].key != e.key) ==> KeysDistinct(r)
  {
    var p := InsertPos(s, e.count);
    assert s == s[..p] + s[p..];
    InsertShape(s, e, p);
    s[..p] + [e] + s[p..]
  }

  lemma InsertShape(s: seq<Entry>, e: Entry, p: nat)
    requires SortedDesc(s)
    requires p <= |s|
    requires forall i :: 0 <= i < p ==> s[i].count >= e.count
    requires p < |s| ==> s[p].count < e.count
    ensures SortedDesc(s[..p] + [e] + s[p..])
    ensures KeysDistinct(s) && (forall i :: 0 <= i < |s| ==> s[i].key != e.key) ==>
              KeysDistinct(s[..p] + [e] + s[p..])
  {
    var r := s[..p] + [e] + s[p..];
    forall i, j | 0 <= i < j < |r| ensures r[i].count >= r[j].count {
      var a := if i < p then i else if i == p then -1 else i - 1;
      var b := if j < p then j else if j == p then -1 else j - 1;
      if j == p {
        assert r[i] == s[i];
      } else if i == p {
        assert r[j] == s[j - 1];
        assert s[p].count >= s[j - 1].count || j - 1 == p;
      } else {
        assert r[i] == s[a] && r[j] == s[b] && a < b;
      }
    }
    if KeysDistinct(s) && (forall i :: 0 <= i < |s| ==> s[i].key != e.key) {
      forall i, j | 0 <= i < j < |r| ensures r[i].key != r[j].key {
        var a := if i < p then i else i - 1;
        var b := if j < p then j else j - 1;
        if i == p {
          assert r[j] == s[b];
        } else if j == p {
          assert r[i] == s[a];
        } else {
          assert r[i] == s[a] && r[j] == s[b] && a < b;
        }
      }
    }
  }

  /** Stable sort by count, largest first. */
  function SortDesc(s: seq<Entry>): (r: seq<Entry>)
    ensures SortedDesc(r)
    ensures |r| == |s|
    ensures multiset(r) == multiset(s)
    ensures KeysDistinct(s) ==> KeysDistinct(r)
  {
    if |s| == 0 then []
    else
      var init := s[..|s| - 1];
      var last := s[|s| - 1];
      assert s == init + [last];
      var t := SortDesc(init);
      assert KeysDistinct(s) ==> forall i :: 0 <= i < |t| ==> t[i].key != last.key by {
        if KeysDistinct(s) {
          LastKeyFresh(init, last, t);
        }
      }
      InsertDesc(t, last)
  }

  /** A permutation of the first entries holds no key of the last one. */
  lemma LastKeyFresh(init: seq<Entry>, last: Entry, t: seq<Entry>)
    requires KeysDistinct(init + [last])
    requires multiset(t) == multiset(init)
    ensures forall i :: 0 <= i < |t| ==> t[i].key != last.key
  {
    var s := init + [last];
    forall i | 0 <= i < |t| ensures t[i].key != last.key {
      assert t[i] in multiset(t);
      var k :| 0 <= k < |init| && init[k] == t[i];
      assert s[k] == init[k] && s[|init|] == last;
    }
  }

  /** Counter(ks).most_common(n) */
  function MostCommon(ks: seq<string>, n: nat): (r: seq<Entry>)
    ensures |r| == Min(n, |Distinct(ks)|)
  {
    var s := SortDesc(Counted(ks));
    s[..Min(n, |s|)]
  }

  /** The sorted tally lists every distinct value once, with its count. */
  lemma SortedTally(ks: seq<string>)
    ensures var s := SortDesc(Counted(ks));
      && (forall i :: 0 <= i < |s| ==> s[i].key in ks && s[i].count == Count(ks, s[i].key))
      && (forall k :: k in ks ==> Entry(k, Count(ks, k)) in s)
  {
    var c := Counted(ks);
    var s := SortDesc(c);
    forall i | 0 <= i < |s|
      ensures s[i].key in ks && s[i].count == Count(ks, s[i].key)
    {
      assert s[i] in multiset(s);
      assert s[i] in c;
    }
    forall k | k in ks ensures Entry(k, Count(ks, k)) in s {
      assert Entry(k, Count(ks, k)) in c;
      assert Entry(k, Count(ks, k)) in multiset(c);
    }
  }

  /** The most common entries are distinct values of the input, each with
      its true count, largest count first. */
  lemma MostCommonEntries(ks: seq<string>, n: nat)
    ensures var r := MostCommon(ks, n);
      && |r| <= n
      && (forall i :: 0 <= i < |r| ==> r[i].key in ks && r[i].count == Count(ks, r[i].key))
      && KeysDistinct(r)
      && SortedDesc(r)
  {
    var s := SortDesc(Counted(ks));
    var r := MostCommon(ks, n);
    SortedTally(ks);
    assert forall i :: 0 <= i < |r| ==> r[i] == s[i];
  }

  /** Nothing more frequent is left out: a value of the input that is not
      listed was counted no more often than every listed value, and the
      listed values then fill all `n` places. */
  lemma MostCommonComplete(ks: seq<string>, n: nat, k: string)
    requires k in ks
    requires forall i :: 0 <= i < |MostCommon(ks, n)| ==> MostCommon(ks, n)[i].key != k
    ensures var r := MostCommon(ks, n);
      |r| == n && forall i :: 0 <= i < |r| ==> r[i].count >= Count(ks, k)
  {
    var s := SortDesc(Counted(ks));
    var r := MostCommon(ks, n);
    assert r == s[..Min(n, |s|)];
    assert Entry(k, Count(ks, k)) in s by {
      SortedTally(ks);
    }
    var p :| 0 <= p < |s| && s[p] == Entry(k, Count(ks, k));
    assert forall i :: 0 <= i < |r| ==> r[i] == s[i];
    assert p >= |r|;
    forall i | 0 <= i < |r| ensures r[i].count >= Count(ks, k) {
      assert r[i] == s[i] && i < p;
    }
  }
}

/** The external sorted set, reduced to what the two trackers use of it:
    a map from keys to scored values from which the least score is popped. */
module SortedSets {
  import opened Words

  datatype Scored<V> = Scored(score: int, value: V)

  function Values<K(==), V>(s: map<K, Scored<V>>): map<K, V> {
    map k | k in s :: s[k].value
  }

  /** What is left once every entry scored at or below `bound` is gone. */
  function Above<K(==), V>(s: map<K, Scored<V>>, bound: int): map<K, Scored<V>> {
    map k | k in s && s[k].score > bound :: s[k]
  }

  method PeekMin<K(==), V>(s: map<K, Scored<V>>) returns (k: K)
    requires |s| != 0
    ensures k in s && forall j :: j in s ==> s[k].score <= s[j].score
  {
    assert s.Keys != {};
    k :| k in s;
    var rest := s.Keys - {k};
    while rest != {}
      invariant k in s && rest <= s.Keys
      invariant forall j :: j in s && j !in rest ==> s[k].score <= s[j].score
      decreases rest
    {
      var j :| j in rest;
      if s[j].score < s[k].score {
        k := j;
      }
      rest := rest - {j};
    }
  }

  /** Pops minima until the least remaining score exceeds the score of `until`. */
  method ClearUntil<K(==), V>(s: map<K, Scored<V>>, until: nat) returns (r: map<K, Scored<V>>)
    ensures r == Above(s, Score(until))
  {
    r := s;
    while |r| != 0
      invariant r.Keys <= s.Keys
      invariant forall k :: k in r ==> r[k] == s[k]
      invariant forall k :: k in s && s[k].score > Score(until) ==> k in r
      decreases |r|
    {
      var oldest := PeekMin(r);
      if r[oldest].score > Score(until) {
        break;
      }
      assert |r - {oldest}| < |r| by {
        assert (r - {oldest}).Keys == r.Keys - {oldest};
      }
      r := r - {oldest};
    }
  }
}

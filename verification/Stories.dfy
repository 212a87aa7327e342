/** Logs of keyed marks, and the story of one key: its marks in log order.
    The protocol modules state their safety theorems as "the story of every key
    is one of these few", which says how often, for whom and in which order. */
module Stories {

  function Story<K(==), M>(log: seq<(K, M)>, key: K): seq<M> {
    if log == [] then []
    else
      var before := Story(log[..|log| - 1], key);
      var last := log[|log| - 1];
      if last.0 == key then before + [last.1] else before
  }

  lemma StoryExtends<K, M>(log: seq<(K, M)>, entry: (K, M), key: K)
    ensures Story(log + [entry], key)
            == if entry.0 == key then Story(log, key) + [entry.1] else Story(log, key)
  {
    assert (log + [entry])[..|log|] == log;
  }

  /** A mark stands in a key's story exactly when the log holds it under that key. */
  lemma {:induction false} StoryHolds<K, M>(log: seq<(K, M)>, key: K, m: M)
    ensures m in Story(log, key) <==> (key, m) in log
  {
    if log != [] {
      var before := log[..|log| - 1];
      StoryHolds(before, key, m);
      assert log == before + [log[|log| - 1]];
    }
  }

  /** The story of a log's prefix is a prefix of the story. */
  lemma {:induction false} StoryOfPrefix<K, M>(log: seq<(K, M)>, n: nat, key: K)
    requires n <= |log|
    ensures Story(log[..n], key) <= Story(log, key)
    decreases |log|
  {
    if n < |log| {
      var before := log[..|log| - 1];
      assert before[..n] == log[..n];
      StoryOfPrefix(before, n, key);
    } else {
      assert log[..n] == log;
    }
  }

  /** Where entry `i` stands in its key's story. */
  ghost function Place<K, M>(log: seq<(K, M)>, i: nat): nat
    requires i < |log|
  {
    |Story(log[..i], log[i].0)|
  }

  lemma StoryAtPlace<K, M>(log: seq<(K, M)>, i: nat)
    requires i < |log|
    ensures var story, place := Story(log, log[i].0), Place(log, i);
            place < |story| && story[place] == log[i].1 && Story(log[..i], log[i].0) == story[..place]
  {
    StoryExtends(log[..i], log[i], log[i].0);
    assert log[..i] + [log[i]] == log[..i + 1];
    StoryOfPrefix(log, i + 1, log[i].0);
  }

  lemma PlacesGrow<K, M>(log: seq<(K, M)>, i: nat, j: nat)
    requires i < j < |log| && log[i].0 == log[j].0
    ensures Place(log, i) < Place(log, j)
  {
    assert log[..j][..i] == log[..i];
    StoryAtPlace(log[..j], i);
  }
}

/**
 * The retry list that `update_config` recomputes on every save
 * (message_forwarder.py:43-45): the distinct ids of the old list that were
 * not downloaded, in an order Python leaves unspecified, followed by the
 * failed ids.
 */
module Retry {

  function Elements(s: seq<int>): set<int> { set x | x in s }

  predicate NoDuplicates(s: seq<int>)
  {
    forall i, j :: 0 <= i < j < |s| ==> s[i] != s[j]
  }

  /**
   * `r` is a possible value of
   * `list(set(previous) - set(downloaded)) + failed`.
   */
  predicate IsRetryList(r: seq<int>, previous: seq<int>, downloaded: seq<int>, failed: seq<int>)
  {
    && |r| >= |failed|
    && r[|r| - |failed|..] == failed
    && NoDuplicates(r[..|r| - |failed|])
    && Elements(r[..|r| - |failed|]) == Elements(previous) - Elements(downloaded)
  }

  /**
   * One ordering of `set(previous) - set(downloaded)`: first occurrences, in
   * the order of `previous`.
   */
  function DistinctWithout(previous: seq<int>, downloaded: seq<int>): (u: seq<int>)
    ensures NoDuplicates(u)
    ensures Elements(u) == Elements(previous) - Elements(downloaded)
  {
    if previous == [] then []
    else
      var rest := DistinctWithout(previous[..|previous| - 1], downloaded);
      var x := previous[|previous| - 1];
      assert previous == previous[..|previous| - 1] + [x];
      assert Elements(previous) == Elements(previous[..|previous| - 1]) + {x};
      assert Elements(rest + [x]) == Elements(rest) + {x};
      if x in downloaded || x in rest then rest else rest + [x]
  }

  /** The recomputation always has a value: `DistinctWithout` gives one. */
  lemma RetryListExists(previous: seq<int>, downloaded: seq<int>, failed: seq<int>)
    ensures IsRetryList(DistinctWithout(previous, downloaded) + failed, previous, downloaded, failed)
  {
    var u := DistinctWithout(previous, downloaded);
    assert (u + failed)[..|u|] == u;
    assert (u + failed)[|u|..] == failed;
  }

  /** A list without duplicates has as many elements as it is long. */
  lemma {:induction false} DistinctLength(s: seq<int>)
    requires NoDuplicates(s)
    ensures |Elements(s)| == |s|
  {
    if s != [] {
      var init := s[..|s| - 1];
      DistinctLength(init);
      assert Elements(s) == Elements(init) + {s[|s| - 1]};
      assert s[|s| - 1] !in Elements(init);
    }
  }

  /**
   * With nothing downloaded and nothing failed, as both lists are in the
   * forwarder, the recomputation keeps exactly the old ids, once each.
   */
  lemma RetryWithoutDownloads(r: seq<int>, previous: seq<int>)
    requires IsRetryList(r, previous, [], [])
    ensures NoDuplicates(r) && Elements(r) == Elements(previous)
    ensures |r| == |Elements(previous)|
    ensures NoDuplicates(previous) ==> |r| == |previous|
  {
    assert r[..|r|] == r;
    DistinctLength(r);
    if NoDuplicates(previous) {
      DistinctLength(previous);
    }
  }

  /** Recomputing a second time changes neither the ids nor their number. */
  lemma RetryIdempotent(r1: seq<int>, r2: seq<int>, previous: seq<int>)
    requires IsRetryList(r1, previous, [], [])
    requires IsRetryList(r2, r1, [], [])
    ensures Elements(r2) == Elements(r1) && |r2| == |r1|
  {
    RetryWithoutDownloads(r1, previous);
    RetryWithoutDownloads(r2, r1);
  }
}

/**
 * What a whole call of `forward_message` does, stated about `Run`: which ids
 * are forwarded and in which groups, the checkpoint saved after each group,
 * the order of the calls, and what an ascending history adds to that.
 */
module BatchingProperties {
  import opened Wrappers
  import opened Batching

  /** Ids strictly increase along the history, as `client.iter_history(..., reverse=True)` yields them. */
  ghost predicate IdsAscending(h: seq<Message>)
  {
    forall i, j :: 0 <= i < j < |h| ==> h[i].id < h[j].id
  }

  ghost predicate StrictlyAscending(s: seq<int>)
  {
    forall i, j :: 0 <= i < j < |s| ==> s[i] < s[j]
  }

  ghost predicate AllBelow(s: seq<int>, bound: int)
  {
    forall x :: x in s ==> x < bound
  }

  ghost predicate AllAtLeast(s: seq<int>, bound: int)
  {
    forall x :: x in s ==> bound <= x
  }

  /** Every id of `a` is below every id of `b`. */
  ghost predicate Precedes(a: seq<int>, b: seq<int>)
  {
    forall x, y :: x in a && y in b ==> x < y
  }

  /** The run ended with a trailing round. */
  ghost predicate FlushedLast(r: Scan)
  {
    |r.rounds| == |r.closers| + 1
  }

  // ---------------------------------------------------------------------
  // Facts about the helper functions
  // ---------------------------------------------------------------------

  lemma {:induction false} NonServiceMember(h: seq<Message>, x: int)
    requires x in NonService(h)
    ensures exists i :: 0 <= i < |h| && h[i].id == x && !h[i].service
    decreases |h|
  {
    var n := |h| - 1;
    if x in NonService(h[..n]) {
      NonServiceMember(h[..n], x);
      var i :| 0 <= i < n && h[..n][i].id == x && !h[..n][i].service;
      assert h[i] == h[..n][i];
    } else {
      assert h[n].id == x && !h[n].service;
    }
  }

  lemma {:induction false} NonServiceSplit(h: seq<Message>, t: nat)
    requires t <= |h|
    ensures NonService(h) == NonService(h[..t]) + NonService(h[t..])
    decreases |h|
  {
    if t < |h| {
      var n := |h| - 1;
      NonServiceSplit(h[..n], t);
      assert h[..n][..t] == h[..t];
      assert h[t..][..|h[t..]| - 1] == h[..n][t..];
      assert h[t..][|h[t..]| - 1] == h[n];
    } else {
      assert h[..t] == h;
      assert h[t..] == [];
    }
  }

  lemma {:induction false} NonServiceAscending(h: seq<Message>)
    requires IdsAscending(h)
    ensures StrictlyAscending(NonService(h))
    decreases |h|
  {
    if h != [] {
      var n := |h| - 1;
      assert IdsAscending(h[..n]);
      NonServiceAscending(h[..n]);
      var init := NonService(h[..n]);
      forall x | x in init ensures x < h[n].id {
        NonServiceMember(h[..n], x);
        var i :| 0 <= i < n && h[..n][i].id == x && !h[..n][i].service;
        assert h[..n][i] == h[i];
      }
      if !h[n].service {
        var all := init + [h[n].id];
        forall i, j | 0 <= i < j < |all| ensures all[i] < all[j] {
          if j < |init| {
            assert all[i] == init[i] && all[j] == init[j];
          } else {
            assert all[i] == init[i] && init[i] in init;
          }
        }
      }
    }
  }

  lemma {:induction false} ForwardedSplit(rs: seq<Round>, k: nat)
    requires k <= |rs|
    ensures Forwarded(rs) == Forwarded(rs[..k]) + Forwarded(rs[k..])
    decreases |rs|
  {
    if k < |rs| {
      var n := |rs| - 1;
      ForwardedSplit(rs[..n], k);
      assert rs[..n][..k] == rs[..k];
      assert rs[k..][..|rs[k..]| - 1] == rs[..n][k..];
      assert rs[k..][|rs[k..]| - 1] == rs[n];
    } else {
      assert rs[..k] == rs;
      assert rs[k..] == [];
    }
  }

  /** Each window sits in the concatenation between the windows before and after it. */
  lemma WindowInForwarded(rs: seq<Round>, k: nat)
    requires k < |rs|
    ensures Forwarded(rs) == Forwarded(rs[..k]) + rs[k].window + Forwarded(rs[k + 1..])
  {
    ForwardedSplit(rs, k + 1);
    var pre := rs[..k + 1];
    assert pre[..|pre| - 1] == rs[..k];
    assert pre[|pre| - 1] == rs[k];
    assert Forwarded(pre) == Forwarded(rs[..k]) + rs[k].window;
  }

  /** A round's window is never empty, so neither is the concatenation of a run's windows. */
  lemma {:induction false} ForwardedNonEmpty(rs: seq<Round>)
    requires rs != [] && forall k :: 0 <= k < |rs| ==> rs[k].window != []
    ensures Forwarded(rs) != []
  {
  }

  lemma PrefixAscending(a: seq<int>, b: seq<int>)
    requires IsPrefix(a, b) && StrictlyAscending(b)
    ensures StrictlyAscending(a)
  {
    forall i, j | 0 <= i < j < |a| ensures a[i] < a[j] {
      assert a[i] == b[i] && a[j] == b[j];
    }
  }

  // ---------------------------------------------------------------------
  // The rounds of a run
  // ---------------------------------------------------------------------

  /** The trailing window only appends a round to the state the loop left. */
  lemma FlushExtends(s: Scan, failAt: Option<nat>)
    ensures var r := Flush(s, failAt);
      && r.closers == s.closers && r.closedBy == s.closedBy
      && |s.rounds| <= |r.rounds| <= |s.rounds| + 1
      && r.rounds[..|s.rounds|] == s.rounds
      && (|r.rounds| > |s.rounds| ==>
            && r.rounds[|s.rounds|] == Round(s.pending, s.pending[|s.pending| - 1] + 1, FlushDelay)
            && s.pending != [] && r.failed.None? && s.failed.None?)
      && (|r.rounds| == |s.rounds| ==> r.checkpoint == s.checkpoint)
      && (s.failed.Some? ==> r.failed == s.failed)
      && (r.failed.Some? && s.failed.None? ==> r.failed.value == s.pending && s.pending != [])
      && (r.failed.None? ==> s.failed.None?)
  {
    var r := Flush(s, failAt);
    assert r.rounds[..|s.rounds|] == s.rounds;
  }

  /** Flushing keeps the closing records and their positions. */
  lemma FlushClosers(s: Scan, h: seq<Message>, failAt: Option<nat>)
    requires Bounds(s, h) && Ordered(s)
    ensures var r := Flush(s, failAt);
      && |r.closers| == |r.closedBy| <= |r.rounds| <= |r.closers| + 1
      && (forall k :: 0 <= k < |r.closers| ==> r.closers[k] < |h| && h[r.closers[k]] == r.closedBy[k])
      && Ordered(r)
  {
    FlushExtends(s, failAt);
  }

  /** Flushing keeps the mid-stream rounds' checkpoints, pauses and sizes. */
  lemma FlushMidStream(s: Scan, checkpoint: int, failAt: Option<nat>)
    requires Checkpoints(s, checkpoint) && Sizes(s) && |s.closers| == |s.rounds|
    ensures var r := Flush(s, failAt);
      && (forall k :: 0 <= k < |r.closers| ==>
            r.rounds[k].checkpoint == r.closedBy[k].id && r.rounds[k].delay == MidStreamDelay)
      && (|r.closers| > 0 ==> |r.rounds[0].window| == Capacity)
      && (forall k {:trigger r.rounds[k]} :: 0 < k < |r.closers| ==>
            |r.rounds[k].window| == Capacity + Carry(r.closedBy[k - 1]))
      && r.checkpoint == (if r.rounds == [] then checkpoint else r.rounds[|r.rounds| - 1].checkpoint)
  {
    var r := Flush(s, failAt);
    FlushExtends(s, failAt);
    assert forall k :: 0 <= k < |s.rounds| ==> r.rounds[k] == s.rounds[k];
  }

  lemma FlushTrailing(s: Scan, failAt: Option<nat>)
    requires Sizes(s) && 0 <= s.count <= Capacity && |s.closers| == |s.rounds|
    ensures var r := Flush(s, failAt);
      FlushedLast(r) ==>
        var w := r.rounds[|r.closers|].window;
        && 1 <= |w| <= Capacity + 1
        && r.rounds[|r.closers|].checkpoint == w[|w| - 1] + 1
        && r.rounds[|r.closers|].delay == FlushDelay
        && r.failed.None?
  {
    FlushExtends(s, failAt);
  }

  /** Flushing keeps, for each mid-stream round, what had been forwarded up to it. */
  lemma FlushPositions(s: Scan, h: seq<Message>, failAt: Option<nat>)
    requires Closed(s, h)
    ensures var r := Flush(s, failAt);
      forall k {:trigger r.closers[k]} :: 0 <= k < |r.closers| ==>
        k < |r.rounds| && r.closers[k] <= |h| &&
        Forwarded(r.rounds[..k + 1]) == NonService(h[..r.closers[k]])
  {
    var r := Flush(s, failAt);
    if r.rounds != s.rounds {
      assert r.rounds == s.rounds + [Round(s.pending, r.checkpoint, FlushDelay)];
      forall k | 0 <= k < |r.closers|
        ensures r.rounds[..k + 1] == s.rounds[..k + 1] && r.closers[k] == s.closers[k]
      { }
    }
  }

  /** After flushing, every content id read has been forwarded, unless a forward raised. */
  lemma FlushTotal(s: Scan, h: seq<Message>, failAt: Option<nat>)
    requires Content(s, h, failAt)
    ensures var r := Flush(s, failAt);
      && (r.failed.None? ==> Forwarded(r.rounds) == NonService(h))
      && (r.failed.Some? ==>
            && failAt == Some(|r.rounds|)
            && IsPrefix(Forwarded(r.rounds) + r.failed.value, NonService(h)))
  {
    var r := Flush(s, failAt);
    if r.rounds != s.rounds {
      assert r.rounds == s.rounds + [Round(s.pending, r.checkpoint, FlushDelay)];
      ForwardedSnoc(s.rounds, Round(s.pending, r.checkpoint, FlushDelay));
    } else if s.failed.None? && s.pending == [] {
      assert Forwarded(s.rounds) + s.pending == Forwarded(s.rounds);
    }
  }

  // ---------------------------------------------------------------------
  // What a run forwards, saves and waits for
  // ---------------------------------------------------------------------

  /**
   * Every content record is forwarded exactly once and in history order; a
   * forward call that raises ends the run with a prefix forwarded. Without a
   * failing call the run always completes.
   */
  lemma RunForwardsContent(h: seq<Message>, checkpoint: int, failAt: Option<nat>)
    ensures var r := Run(h, checkpoint, failAt);
      && (r.failed.None? ==> Forwarded(r.rounds) == NonService(h))
      && (r.failed.Some? ==>
            && failAt == Some(|r.rounds|)
            && IsPrefix(Forwarded(r.rounds) + r.failed.value, NonService(h)))
      && (failAt == None ==> r.failed.None?)
  {
    ScanInvariant(h, checkpoint, failAt);
    FlushTotal(ScanOf(h, checkpoint, failAt), h, failAt);
  }

  /**
   * The checkpoint saved after a mid-stream round is the id of the record
   * that closed it, and the rounds up to it forwarded exactly the content
   * records before that record: resuming from the saved id, inclusive,
   * neither skips nor repeats a record.
   */
  lemma RunResumePoint(h: seq<Message>, checkpoint: int, failAt: Option<nat>)
    ensures var r := Run(h, checkpoint, failAt);
      && |r.closers| <= |r.rounds| <= |r.closers| + 1
      && forall k {:trigger r.closers[k]} :: 0 <= k < |r.closers| ==>
           && k < |r.rounds| && r.closers[k] < |h|
           && r.rounds[k].checkpoint == h[r.closers[k]].id
           && r.rounds[k].delay == MidStreamDelay
           && Forwarded(r.rounds[..k + 1]) == NonService(h[..r.closers[k]])
  {
    var s := ScanOf(h, checkpoint, failAt);
    ScanInvariant(h, checkpoint, failAt);
    FlushClosers(s, h, failAt);
    FlushMidStream(s, checkpoint, failAt);
    FlushPositions(s, h, failAt);
  }

  /**
   * The first window holds 100 ids. A later mid-stream window holds 100 when
   * the record that closed the window before it was a service message and
   * 101 otherwise, because that record is carried over uncounted.
   */
  lemma RunWindowSizes(h: seq<Message>, checkpoint: int, failAt: Option<nat>)
    ensures var r := Run(h, checkpoint, failAt);
      && (|r.closers| > 0 ==> 0 < |r.rounds| && |r.rounds[0].window| == Capacity)
      && forall k {:trigger r.rounds[k]} :: 0 < k < |r.closers| ==>
           k < |r.rounds| && r.closers[k - 1] < |h| &&
           |r.rounds[k].window| == Capacity + (if h[r.closers[k - 1]].service then 0 else 1)
  {
    var s := ScanOf(h, checkpoint, failAt);
    ScanInvariant(h, checkpoint, failAt);
    FlushClosers(s, h, failAt);
    FlushMidStream(s, checkpoint, failAt);
  }

  /**
   * The trailing round forwards 1 to 101 ids, saves one more than the
   * last id forwarded and pauses 120 seconds.
   */
  lemma RunTrailingRound(h: seq<Message>, checkpoint: int, failAt: Option<nat>)
    ensures var r := Run(h, checkpoint, failAt);
      FlushedLast(r) ==>
        var w := r.rounds[|r.closers|].window;
        && 1 <= |w| <= Capacity + 1
        && r.rounds[|r.closers|].checkpoint == w[|w| - 1] + 1
        && r.rounds[|r.closers|].delay == FlushDelay
        && r.failed.None?
  {
    ScanInvariant(h, checkpoint, failAt);
    FlushTrailing(ScanOf(h, checkpoint, failAt), failAt);
  }

  /**
   * The checkpoint a run leaves is the one saved by its last completed
   * round, or the starting one when no round completed; after a failed
   * forward call it is therefore the previous round's.
   */
  lemma RunFinalCheckpoint(h: seq<Message>, checkpoint: int, failAt: Option<nat>)
    ensures var r := Run(h, checkpoint, failAt);
      r.checkpoint == (if r.rounds == [] then checkpoint else r.rounds[|r.rounds| - 1].checkpoint)
  {
    ScanInvariant(h, checkpoint, failAt);
    FlushMidStream(ScanOf(h, checkpoint, failAt), checkpoint, failAt);
  }

  /** No round forwards an empty window, and a raising call was given a non-empty one. */
  lemma FlushNonEmpty(s: Scan, h: seq<Message>, failAt: Option<nat>)
    requires Sizes(s) && Bounds(s, h) && Content(s, h, failAt)
    ensures var r := Flush(s, failAt);
      && (forall k :: 0 <= k < |r.rounds| ==> r.rounds[k].window != [])
      && (r.failed.Some? ==> r.failed.value != [])
  {
    var r := Flush(s, failAt);
    forall k | 0 <= k < |s.rounds| ensures |s.rounds[k].window| >= Capacity {
      if k > 0 {
        assert |s.rounds[k].window| == Capacity + Carry(s.closedBy[k - 1]);
      }
    }
    FlushExtends(s, failAt);
  }

  lemma RunNonEmpty(h: seq<Message>, checkpoint: int, failAt: Option<nat>)
    ensures var r := Run(h, checkpoint, failAt);
      && (forall k :: 0 <= k < |r.rounds| ==> r.rounds[k].window != [])
      && (r.failed.Some? ==> r.failed.value != [])
  {
    ScanInvariant(h, checkpoint, failAt);
    FlushNonEmpty(ScanOf(h, checkpoint, failAt), h, failAt);
  }

  /** A history without content records forwards nothing, saves nothing and waits for nothing. */
  lemma RunNothingToForward(h: seq<Message>, checkpoint: int, failAt: Option<nat>, toChat: int, fromChat: int)
    ensures var r := Run(h, checkpoint, failAt);
      NonService(h) == [] <==> (r.rounds == [] && r.failed.None?)
    ensures var r := Run(h, checkpoint, failAt);
      NonService(h) == [] ==> r.checkpoint == checkpoint && Trace(r, toChat, fromChat) == []
  {
    RunForwardsContent(h, checkpoint, failAt);
    RunFinalCheckpoint(h, checkpoint, failAt);
    RunNonEmpty(h, checkpoint, failAt);
    NothingForwarded(Run(h, checkpoint, failAt), NonService(h), checkpoint, toChat, fromChat);
  }

  lemma NothingForwarded(r: Scan, ids: seq<int>, checkpoint: int, toChat: int, fromChat: int)
    requires r.failed.None? ==> Forwarded(r.rounds) == ids
    requires r.failed.Some? ==> IsPrefix(Forwarded(r.rounds) + r.failed.value, ids)
    requires (forall k :: 0 <= k < |r.rounds| ==> r.rounds[k].window != []) && (r.failed.Some? ==> r.failed.value != [])
    requires r.checkpoint == (if r.rounds == [] then checkpoint else r.rounds[|r.rounds| - 1].checkpoint)
    ensures ids == [] <==> (r.rounds == [] && r.failed.None?)
    ensures ids == [] ==> r.checkpoint == checkpoint && Trace(r, toChat, fromChat) == []
  {
    if r.rounds != [] {
      ForwardedNonEmpty(r.rounds);
    }
  }

  /** Every round but a trailing one was closed by a record of the history. */
  lemma RunRoundCount(h: seq<Message>, checkpoint: int, failAt: Option<nat>)
    ensures var r := Run(h, checkpoint, failAt);
      |r.closers| == |r.closedBy| <= |r.rounds| <= |r.closers| + 1
  {
    var s := ScanOf(h, checkpoint, failAt);
    ScanInvariant(h, checkpoint, failAt);
    FlushExtends(s, failAt);
  }

  /** A mid-stream round only happens once 100 content records have been read. */
  lemma RunClosesOnlyFullWindows(h: seq<Message>, checkpoint: int, failAt: Option<nat>)
    ensures Run(h, checkpoint, failAt).closers != [] ==> Capacity <= |NonService(h)|
  {
    var r := Run(h, checkpoint, failAt);
    RunResumePoint(h, checkpoint, failAt);
    RunWindowSizes(h, checkpoint, failAt);
    if r.closers != [] {
      var c := r.closers[0];
      assert Forwarded(r.rounds[..1]) == NonService(h[..c]);
      assert r.rounds[..1][..0] == [];
      assert Forwarded(r.rounds[..1]) == r.rounds[0].window;
      NonServiceSplit(h, c);
    }
  }

  /** Fewer than 100 content records never fill a window: at most the trailing round runs. */
  lemma RunShortHistory(h: seq<Message>, checkpoint: int, failAt: Option<nat>)
    requires |NonService(h)| < Capacity
    ensures var r := Run(h, checkpoint, failAt);
      && r.closers == []
      && (r.failed.None? && NonService(h) != [] ==>
            var ids := NonService(h);
            r.rounds == [Round(ids, ids[|ids| - 1] + 1, FlushDelay)])
  {
    var r := Run(h, checkpoint, failAt);
    RunClosesOnlyFullWindows(h, checkpoint, failAt);
    RunRoundCount(h, checkpoint, failAt);
    RunForwardsContent(h, checkpoint, failAt);
    RunTrailingRound(h, checkpoint, failAt);
    OnlyTrailingRound(r, NonService(h));
  }

  lemma OnlyTrailingRound(r: Scan, ids: seq<int>)
    requires r.closers == [] && |r.rounds| <= |r.closers| + 1
    requires r.failed.None? ==> Forwarded(r.rounds) == ids
    requires FlushedLast(r) ==>
      var w := r.rounds[|r.closers|].window;
      && 1 <= |w|
      && r.rounds[|r.closers|].checkpoint == w[|w| - 1] + 1
      && r.rounds[|r.closers|].delay == FlushDelay
    ensures r.failed.None? && ids != [] ==> r.rounds == [Round(ids, ids[|ids| - 1] + 1, FlushDelay)]
  {
    if r.failed.None? && ids != [] {
      assert r.rounds != [];
      assert r.rounds == [r.rounds[0]];
      assert [r.rounds[0]][..0] == [];
      assert Forwarded(r.rounds) == r.rounds[0].window;
    }
  }

  /** The events of completed rounds come in triples: forward, save the checkpoint, sleep. */
  lemma {:induction false} EmitShape(rs: seq<Round>, toChat: int, fromChat: int)
    ensures var e := Emit(rs, toChat, fromChat);
      && |e| == 3 * |rs|
      && forall k {:trigger rs[k]} :: 0 <= k < |rs| ==>
           && e[3 * k] == Forward(toChat, fromChat, rs[k].window, true)
           && e[3 * k + 1] == Save(rs[k].checkpoint)
           && e[3 * k + 2] == Sleep(rs[k].delay)
    decreases |rs|
  {
    if rs != [] {
      var n := |rs| - 1;
      EmitShape(rs[..n], toChat, fromChat);
      var e := Emit(rs, toChat, fromChat);
      var e0 := Emit(rs[..n], toChat, fromChat);
      assert e == e0 + [Forward(toChat, fromChat, rs[n].window, true), Save(rs[n].checkpoint), Sleep(rs[n].delay)];
      forall k | 0 <= k < n
        ensures e[3 * k] == e0[3 * k] && e[3 * k + 1] == e0[3 * k + 1] && e[3 * k + 2] == e0[3 * k + 2]
        ensures rs[k] == rs[..n][k]
      { }
    }
  }

  // ---------------------------------------------------------------------
  // Histories with ascending ids
  // ---------------------------------------------------------------------

  /** With ascending ids, the content ids before a record are below its id and the ones from it on are not. */
  lemma NonServiceAround(h: seq<Message>, c: nat)
    requires IdsAscending(h) && c < |h|
    ensures AllBelow(NonService(h[..c]), h[c].id)
    ensures AllAtLeast(NonService(h[c..]), h[c].id)
  {
    forall x | x in NonService(h[..c]) ensures x < h[c].id {
      NonServiceMember(h[..c], x);
      var i :| 0 <= i < c && h[..c][i].id == x && !h[..c][i].service;
      assert h[..c][i] == h[i];
    }
    forall x | x in NonService(h[c..]) ensures h[c].id <= x {
      NonServiceMember(h[c..], x);
      var i :| 0 <= i < |h| - c && h[c..][i].id == x && !h[c..][i].service;
      assert h[c..][i] == h[c + i];
    }
  }

  /** With ascending ids, what a run forwards is strictly ascending, the failed window included. */
  lemma RunForwardsAscending(h: seq<Message>, checkpoint: int, failAt: Option<nat>)
    requires IdsAscending(h)
    ensures var r := Run(h, checkpoint, failAt);
      StrictlyAscending(Forwarded(r.rounds) + (if r.failed.Some? then r.failed.value else []))
  {
    var r := Run(h, checkpoint, failAt);
    RunForwardsContent(h, checkpoint, failAt);
    NonServiceAscending(h);
    if r.failed.Some? {
      PrefixAscending(Forwarded(r.rounds) + r.failed.value, NonService(h));
    } else {
      assert Forwarded(r.rounds) + [] == NonService(h);
    }
  }

  /** With ascending ids, no service message's id is ever forwarded. */
  lemma RunSkipsServiceMessages(h: seq<Message>, checkpoint: int, failAt: Option<nat>)
    requires IdsAscending(h)
    ensures var r := Run(h, checkpoint, failAt);
      forall i :: 0 <= i < |h| && h[i].service ==> h[i].id !in Forwarded(r.rounds)
  {
    var r := Run(h, checkpoint, failAt);
    RunForwardsContent(h, checkpoint, failAt);
    var all := NonService(h);
    assert IsPrefix(Forwarded(r.rounds), all) by {
      if r.failed.Some? {
        assert all[..|Forwarded(r.rounds)|] == (Forwarded(r.rounds) + r.failed.value)[..|Forwarded(r.rounds)|];
      } else {
        assert all[..|Forwarded(r.rounds)|] == all;
      }
    }
    forall i | 0 <= i < |h| && h[i].service ensures h[i].id !in Forwarded(r.rounds) {
      if h[i].id in Forwarded(r.rounds) {
        var p :| 0 <= p < |Forwarded(r.rounds)| && Forwarded(r.rounds)[p] == h[i].id;
        assert all[p] == h[i].id;
        NonServiceMember(h, h[i].id);
      }
    }
  }

  /**
   * With ascending ids, a mid-stream checkpoint separates the ids: every id
   * forwarded by that round or before is below it, and every content id not
   * yet forwarded is at least it, so a resumed run that reads ids from the
   * checkpoint on sees exactly the records still to forward.
   */
  lemma RunCheckpointSeparates(h: seq<Message>, checkpoint: int, failAt: Option<nat>)
    requires IdsAscending(h)
    ensures var r := Run(h, checkpoint, failAt);
      forall k {:trigger r.closers[k]} :: 0 <= k < |r.closers| ==>
        && k < |r.rounds| && r.closers[k] < |h|
        && AllBelow(Forwarded(r.rounds[..k + 1]), r.rounds[k].checkpoint)
        && AllAtLeast(NonService(h[r.closers[k]..]), r.rounds[k].checkpoint)
  {
    var r := Run(h, checkpoint, failAt);
    RunResumePoint(h, checkpoint, failAt);
    forall k | 0 <= k < |r.closers|
      ensures && AllBelow(Forwarded(r.rounds[..k + 1]), r.rounds[k].checkpoint)
              && AllAtLeast(NonService(h[r.closers[k]..]), r.rounds[k].checkpoint)
    {
      NonServiceAround(h, r.closers[k]);
    }
  }

  /** With ascending ids, the mid-stream checkpoints strictly increase. */
  lemma RunCheckpointsIncrease(h: seq<Message>, checkpoint: int, failAt: Option<nat>)
    requires IdsAscending(h)
    ensures var r := Run(h, checkpoint, failAt);
      forall i, j :: 0 <= i < j < |r.closers| ==>
        j < |r.rounds| && r.rounds[i].checkpoint < r.rounds[j].checkpoint
  {
    var s := ScanOf(h, checkpoint, failAt);
    ScanInvariant(h, checkpoint, failAt);
    FlushClosers(s, h, failAt);
    FlushMidStream(s, checkpoint, failAt);
  }

  /**
   * With ascending ids, the checkpoint saved by the trailing round is above
   * every id the run forwarded, so a later run starts after all of them.
   */
  lemma RunTrailingCheckpointAbove(h: seq<Message>, checkpoint: int, failAt: Option<nat>)
    requires IdsAscending(h)
    ensures var r := Run(h, checkpoint, failAt);
      FlushedLast(r) ==> AllBelow(Forwarded(r.rounds), r.checkpoint)
  {
    var r := Run(h, checkpoint, failAt);
    RunForwardsAscending(h, checkpoint, failAt);
    RunTrailingRound(h, checkpoint, failAt);
    RunFinalCheckpoint(h, checkpoint, failAt);
    if FlushedLast(r) {
      AboveLast(r.rounds, Forwarded(r.rounds) + []);
    }
  }

  lemma AboveLast(rs: seq<Round>, all: seq<int>)
    requires rs != [] && all == Forwarded(rs) && StrictlyAscending(all)
    requires var w := rs[|rs| - 1].window; w != [] && rs[|rs| - 1].checkpoint == w[|w| - 1] + 1
    ensures AllBelow(Forwarded(rs), rs[|rs| - 1].checkpoint)
  {
    var w := rs[|rs| - 1].window;
    assert all == Forwarded(rs[..|rs| - 1]) + w;
    assert all[|all| - 1] == w[|w| - 1];
    forall x | x in all ensures x < rs[|rs| - 1].checkpoint {
      var i :| 0 <= i < |all| && all[i] == x;
      if i < |all| - 1 {
        assert all[i] < all[|all| - 1];
      }
    }
  }

  /**
   * Five records with the third a service message: one trailing round
   * forwards the four content ids and saves 6.
   */
  lemma ShortHistoryExample(failAt: Option<nat>)
    requires failAt != Some(0)
    ensures Run([Message(1, false), Message(2, false), Message(3, true), Message(4, false), Message(5, false)], 0, failAt)
      == Scan(4, [], 6, [Round([1, 2, 4, 5], 6, FlushDelay)], [], [], None)
  {
    var m1, m2, m3, m4, m5 := Message(1, false), Message(2, false), Message(3, true), Message(4, false), Message(5, false);
    assert [m1][..0] == [];
    assert ScanOf([m1], 0, failAt) == Scan(1, [1], 0, [], [], [], None);
    assert [m1, m2][..1] == [m1];
    assert ScanOf([m1, m2], 0, failAt) == Scan(2, [1, 2], 0, [], [], [], None);
    assert [m1, m2, m3][..2] == [m1, m2];
    assert ScanOf([m1, m2, m3], 0, failAt) == Scan(2, [1, 2], 0, [], [], [], None);
    assert [m1, m2, m3, m4][..3] == [m1, m2, m3];
    assert ScanOf([m1, m2, m3, m4], 0, failAt) == Scan(3, [1, 2, 4], 0, [], [], [], None);
    assert [m1, m2, m3, m4, m5][..4] == [m1, m2, m3, m4];
    assert ScanOf([m1, m2, m3, m4, m5], 0, failAt) == Scan(4, [1, 2, 4, 5], 0, [], [], [], None);
  }

  /**
   * With ascending ids, every checkpoint a run saves is above the one saved
   * before it, including the trailing save (last id + 1) against the last
   * mid-stream save (the closer's id).
   */
  lemma RunCheckpointsAscending(h: seq<Message>, checkpoint: int, failAt: Option<nat>)
    requires IdsAscending(h)
    ensures var r := Run(h, checkpoint, failAt);
      forall i, j :: 0 <= i < j < |r.rounds| ==> r.rounds[i].checkpoint < r.rounds[j].checkpoint
  {
    var r := Run(h, checkpoint, failAt);
    RunCheckpointsIncrease(h, checkpoint, failAt);
    RunRoundCount(h, checkpoint, failAt);
    TrailingAboveLastCloser(h, checkpoint, failAt);
    forall i, j | 0 <= i < j < |r.rounds| ensures r.rounds[i].checkpoint < r.rounds[j].checkpoint {
      if j == |r.closers| && i < j - 1 {
        assert r.rounds[i].checkpoint < r.rounds[j - 1].checkpoint;
      }
    }
  }

  /** With ascending ids, the trailing save is above the last mid-stream save. */
  lemma TrailingAboveLastCloser(h: seq<Message>, checkpoint: int, failAt: Option<nat>)
    requires IdsAscending(h)
    ensures var r := Run(h, checkpoint, failAt);
      FlushedLast(r) && |r.closers| > 0 ==>
        r.rounds[|r.closers| - 1].checkpoint < r.rounds[|r.closers|].checkpoint
  {
    var r := Run(h, checkpoint, failAt);
    RunResumePoint(h, checkpoint, failAt);
    RunForwardsContent(h, checkpoint, failAt);
    RunTrailingRound(h, checkpoint, failAt);
    RunCheckpointSeparates(h, checkpoint, failAt);
    if FlushedLast(r) && |r.closers| > 0 {
      var k := |r.closers| - 1;
      var c := r.closers[k];
      NonServiceSplit(h, c);
      TrailingWindowIsRest(r.rounds, k, NonService(h[..c]), NonService(h[c..]));
      var w := r.rounds[k + 1].window;
      assert w[|w| - 1] in NonService(h[c..]);
    }
  }

  /** If the rounds before the last forward `a` and all of them forward `a + b`, the last window is `b`. */
  lemma TrailingWindowIsRest(rs: seq<Round>, k: nat, a: seq<int>, b: seq<int>)
    requires |rs| == k + 2
    requires Forwarded(rs[..k + 1]) == a && Forwarded(rs) == a + b
    ensures rs[k + 1].window == b
  {
    assert rs[..|rs| - 1] == rs[..k + 1];
    assert Forwarded(rs) == a + rs[k + 1].window;
    assert rs[k + 1].window == (a + b)[|a|..];
  }

  /**
   * When the initial checkpoint is below every id of the history, the first
   * save is above it, so no save ever moves the checkpoint back.
   */
  lemma RunFirstCheckpointAbove(h: seq<Message>, checkpoint: int, failAt: Option<nat>)
    requires forall i :: 0 <= i < |h| ==> checkpoint < h[i].id
    ensures var r := Run(h, checkpoint, failAt);
      r.rounds != [] ==> checkpoint < r.rounds[0].checkpoint
  {
    var r := Run(h, checkpoint, failAt);
    if r.rounds != [] {
      RunRoundCount(h, checkpoint, failAt);
      if r.closers != [] {
        RunResumePoint(h, checkpoint, failAt);
        assert r.closers[0] < |h|;
      } else {
        ContentAbove(h, checkpoint);
        RunTrailingRound(h, checkpoint, failAt);
        RunForwardsContent(h, checkpoint, failAt);
        OnlyRoundAbove(r.rounds, NonService(h), checkpoint);
      }
    }
  }

  lemma ContentAbove(h: seq<Message>, checkpoint: int)
    requires forall i :: 0 <= i < |h| ==> checkpoint < h[i].id
    ensures forall x :: x in NonService(h) ==> checkpoint < x
  {
    forall x | x in NonService(h) ensures checkpoint < x {
      NonServiceMember(h, x);
    }
  }

  /** A run whose one round is the trailing round saves above every id it forwarded. */
  lemma OnlyRoundAbove(rs: seq<Round>, ids: seq<int>, checkpoint: int)
    requires forall x :: x in ids ==> checkpoint < x
    requires |rs| == 1 && Forwarded(rs) == ids
    requires var w := rs[0].window; 1 <= |w| && rs[0].checkpoint == w[|w| - 1] + 1
    ensures checkpoint < rs[0].checkpoint
  {
    var w := rs[0].window;
    assert rs[..0] == [];
    assert Forwarded(rs) == w;
    assert w[|w| - 1] in ids;
  }

  /**
   * With ascending ids, each window is strictly ascending and lies wholly
   * above the window before it.
   */
  lemma RunWindowsAscending(h: seq<Message>, checkpoint: int, failAt: Option<nat>)
    requires IdsAscending(h)
    ensures var r := Run(h, checkpoint, failAt);
      && (forall k :: 0 <= k < |r.rounds| ==> StrictlyAscending(r.rounds[k].window))
      && (forall k :: 0 < k < |r.rounds| ==> Precedes(r.rounds[k - 1].window, r.rounds[k].window))
  {
    var r := Run(h, checkpoint, failAt);
    RunForwardsAscending(h, checkpoint, failAt);
    WindowsAscending(r.rounds, if r.failed.Some? then r.failed.value else []);
  }

  lemma WindowsAscending(rs: seq<Round>, rest: seq<int>)
    requires StrictlyAscending(Forwarded(rs) + rest)
    ensures forall k :: 0 <= k < |rs| ==> StrictlyAscending(rs[k].window)
    ensures forall k :: 0 < k < |rs| ==> Precedes(rs[k - 1].window, rs[k].window)
  {
    forall k | 0 <= k < |rs|
      ensures StrictlyAscending(rs[k].window)
      ensures k > 0 ==> Precedes(rs[k - 1].window, rs[k].window)
    {
      WindowAscendingAt(rs, rest, k);
    }
  }

  lemma WindowAscendingAt(rs: seq<Round>, rest: seq<int>, k: nat)
    requires StrictlyAscending(Forwarded(rs) + rest) && k < |rs|
    ensures StrictlyAscending(rs[k].window)
    ensures k > 0 ==> Precedes(rs[k - 1].window, rs[k].window)
  {
    if k > 0 {
      LaterWindowAscending(rs, rest, k);
    } else {
      FirstWindowAscending(rs, rest);
    }
  }

  lemma FirstWindowAscending(rs: seq<Round>, rest: seq<int>)
    requires StrictlyAscending(Forwarded(rs) + rest) && 0 < |rs|
    ensures StrictlyAscending(rs[0].window)
  {
    var w, after := rs[0].window, Forwarded(rs[1..]);
    WindowInForwarded(rs, 0);
    assert rs[..0] == [];
    Regroup(Forwarded(rs), [], [], w, after, rest);
    AdjacentAscending(Forwarded(rs) + rest, [], [], w, after + rest);
  }

  lemma LaterWindowAscending(rs: seq<Round>, rest: seq<int>, k: nat)
    requires StrictlyAscending(Forwarded(rs) + rest) && 0 < k < |rs|
    ensures StrictlyAscending(rs[k].window) && Precedes(rs[k - 1].window, rs[k].window)
  {
    var w, after := rs[k].window, Forwarded(rs[k + 1..]);
    var p, a := Forwarded(rs[..k - 1]), rs[k - 1].window;
    WindowInForwarded(rs, k);
    assert rs[..k][..k - 1] == rs[..k - 1];
    assert Forwarded(rs[..k]) == p + a;
    Regroup(Forwarded(rs), p, a, w, after, rest);
    AdjacentAscending(Forwarded(rs) + rest, p, a, w, after + rest);
  }

  lemma Regroup(x: seq<int>, p: seq<int>, a: seq<int>, w: seq<int>, after: seq<int>, rest: seq<int>)
    requires x == (p + a) + w + after
    ensures x + rest == p + a + w + (after + rest)
  {
  }

  /** Two adjacent parts of a strictly ascending sequence are ascending and ordered. */
  lemma AdjacentAscending(s: seq<int>, p: seq<int>, a: seq<int>, b: seq<int>, t: seq<int>)
    requires s == p + a + b + t && StrictlyAscending(s)
    ensures StrictlyAscending(b) && Precedes(a, b)
  {
    forall i, j | 0 <= i < j < |b| ensures b[i] < b[j] {
      assert b[i] == s[|p| + |a| + i] && b[j] == s[|p| + |a| + j];
    }
    forall x, y | x in a && y in b ensures x < y {
      var i :| 0 <= i < |a| && a[i] == x;
      var j :| 0 <= j < |b| && b[j] == y;
      assert s[|p| + i] == x && s[|p| + |a| + j] == y;
    }
  }

}

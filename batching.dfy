/**
 * The forwarding loop of `forward_message` (message_forwarder.py:98-144) as a
 * deterministic state machine over the history it reads.
 *
 * The history is a sequence of records; the records are fed one by one to
 * `Step`, and `Flush` handles what is left when the history is exhausted.
 * Each completed forward is a `Round`: the window sent, the checkpoint saved
 * after it and the pause that follows. The forward call that raises, if any,
 * is given by `failAt` (the number of forward calls that succeed before it);
 * a raise ends the run with the checkpoint of the last completed round.
 */
module Batching {
  import opened Wrappers

  /** Window capacity: the guard compares with the literal 100, whatever limit the caller asked for. */
  const Capacity: int := 100
  /** Pause after a window forwarded mid-stream. */
  const MidStreamDelay: int := 240
  /** Pause after the trailing window. */
  const FlushDelay: int := 120

  /** One history record: `message["message_id"]` and `message["service"]`. */
  datatype Message = Message(id: int, service: bool)

  /** A completed forward: the ids sent, the checkpoint then saved, the pause then taken. */
  datatype Round = Round(window: seq<int>, checkpoint: int, delay: int)

  /**
   * The loop's state: the local `pagination_count` and `messages_list`, the
   * checkpoint `config["last_read_message_id"]`, the rounds completed so far,
   * for each mid-stream round the record that closed it and that record's
   * index in the history, and the window whose forward raised, if one did.
   */
  datatype Scan = Scan(
    count: int,
    pending: seq<int>,
    checkpoint: int,
    rounds: seq<Round>,
    closedBy: seq<Message>,
    closers: seq<nat>,
    failed: Option<seq<int>>)

  /** What the loop does to the outside world, in order. */
  datatype Event =
    | Forward(toChat: int, fromChat: int, ids: seq<int>, protect: bool)
    | Save(checkpoint: int)
    | Sleep(seconds: int)

  function Start(checkpoint: int): Scan
  {
    Scan(0, [], checkpoint, [], [], [], None)
  }

  /** The loop body for record `m`, the `i`-th record of the history. */
  function Step(s: Scan, m: Message, i: nat, failAt: Option<nat>): Scan
  {
    if s.failed.Some? then s
    else if s.count != Capacity then
      if m.service then s
      else s.(count := s.count + 1, pending := s.pending + [m.id])
    else if failAt == Some(|s.rounds|) then
      s.(failed := Some(s.pending))
    else
      s.(count := 0,
         pending := if m.service then [] else [m.id],
         checkpoint := m.id,
         rounds := s.rounds + [Round(s.pending, m.id, MidStreamDelay)],
         closedBy := s.closedBy + [m],
         closers := s.closers + [i])
  }

  /** The state after the loop has consumed all of `h`. */
  function ScanOf(h: seq<Message>, checkpoint: int, failAt: Option<nat>): Scan
    decreases |h|
  {
    if h == [] then Start(checkpoint)
    else Step(ScanOf(h[..|h| - 1], checkpoint, failAt), h[|h| - 1], |h| - 1, failAt)
  }

  /** The trailing window, forwarded when the list is not empty once the history ends. */
  function Flush(s: Scan, failAt: Option<nat>): Scan
  {
    if s.failed.Some? || s.pending == [] then s.(pending := [])
    else if failAt == Some(|s.rounds|) then s.(failed := Some(s.pending))
    else
      var checkpoint := s.pending[|s.pending| - 1] + 1;
      s.(pending := [],
         checkpoint := checkpoint,
         rounds := s.rounds + [Round(s.pending, checkpoint, FlushDelay)])
  }

  /** A whole call of `forward_message` on history `h` from checkpoint `checkpoint`. */
  function Run(h: seq<Message>, checkpoint: int, failAt: Option<nat>): Scan
  {
    Flush(ScanOf(h, checkpoint, failAt), failAt)
  }

  /** The ids of the records of `h` that are not service messages, in order. */
  function NonService(h: seq<Message>): seq<int>
    decreases |h|
  {
    if h == [] then []
    else NonService(h[..|h| - 1]) + (if h[|h| - 1].service then [] else [h[|h| - 1].id])
  }

  /** The windows of `rs`, concatenated in call order. */
  function Forwarded(rs: seq<Round>): seq<int>
    decreases |rs|
  {
    if rs == [] then [] else Forwarded(rs[..|rs| - 1]) + rs[|rs| - 1].window
  }

  /** The events of the completed rounds: forward, save, sleep for each. */
  function Emit(rs: seq<Round>, toChat: int, fromChat: int): seq<Event>
    decreases |rs|
  {
    if rs == [] then []
    else
      var r := rs[|rs| - 1];
      Emit(rs[..|rs| - 1], toChat, fromChat)
        + [Forward(toChat, fromChat, r.window, true), Save(r.checkpoint), Sleep(r.delay)]
  }

  /** Every event of a run, including the forward call that raised. */
  function Trace(s: Scan, toChat: int, fromChat: int): seq<Event>
  {
    Emit(s.rounds, toChat, fromChat)
      + (if s.failed.Some? then [Forward(toChat, fromChat, s.failed.value, true)] else [])
  }

  predicate IsPrefix(a: seq<int>, b: seq<int>)
  {
    |a| <= |b| && b[..|a|] == a
  }

  /** 1 when the record that closed a window was carried into the next one. */
  function Carry(m: Message): int
  {
    if m.service then 0 else 1
  }

  lemma NonServiceSnoc(h: seq<Message>, m: Message)
    ensures NonService(h + [m]) == NonService(h) + (if m.service then [] else [m.id])
  {
    assert (h + [m])[..|h|] == h;
  }

  lemma ForwardedSnoc(rs: seq<Round>, r: Round)
    ensures Forwarded(rs + [r]) == Forwarded(rs) + r.window
  {
    assert (rs + [r])[..|rs|] == rs;
  }

  /** What the loop keeps true of its state after reading `h`. */
  ghost predicate Inv(s: Scan, h: seq<Message>, checkpoint: int, failAt: Option<nat>)
  {
    && Bounds(s, h)
    && Ordered(s)
    && Checkpoints(s, checkpoint)
    && Sizes(s)
    && Closed(s, h)
    && Content(s, h, failAt)
  }

  /** The counter stays within capacity; each closing record is the record read at its index. */
  ghost predicate Bounds(s: Scan, h: seq<Message>)
  {
    && 0 <= s.count <= Capacity
    && |s.closers| == |s.rounds| == |s.closedBy|
    && (forall k :: 0 <= k < |s.closers| ==> s.closers[k] < |h| && h[s.closers[k]] == s.closedBy[k])
    && (s.failed.Some? ==> s.count == Capacity)
  }

  /** Windows are closed at increasing positions of the history. */
  ghost predicate Ordered(s: Scan)
  {
    forall i, j :: 0 <= i < j < |s.closers| ==> s.closers[i] < s.closers[j]
  }

  /** A mid-stream round saves its closing record's id and pauses 240 seconds. */
  ghost predicate Checkpoints(s: Scan, checkpoint: int)
  {
    && |s.rounds| == |s.closedBy|
    && (forall k :: 0 <= k < |s.rounds| ==>
          s.rounds[k].checkpoint == s.closedBy[k].id && s.rounds[k].delay == MidStreamDelay)
    && s.checkpoint == (if s.rounds == [] then checkpoint else s.rounds[|s.rounds| - 1].checkpoint)
  }

  /**
   * The first window holds 100 ids; a later one holds 100 more than the one
   * carried over from the record that closed the window before it.
   */
  ghost predicate Sizes(s: Scan)
  {
    && |s.rounds| == |s.closedBy|
    && (|s.rounds| > 0 ==> |s.rounds[0].window| == Capacity)
    && (forall k {:trigger s.rounds[k]} :: 0 < k < |s.rounds| ==>
          |s.rounds[k].window| == Capacity + Carry(s.closedBy[k - 1]))
    && |s.pending| == s.count + (if s.closedBy == [] then 0 else Carry(s.closedBy[|s.closedBy| - 1]))
  }

  /** The rounds up to each closed one forward exactly the content records before its closer. */
  ghost predicate Closed(s: Scan, h: seq<Message>)
  {
    && |s.closers| == |s.rounds|
    && (forall k :: 0 <= k < |s.closers| ==> s.closers[k] <= |h|)
    && (forall k {:trigger s.closers[k]} :: 0 <= k < |s.rounds| ==>
          Forwarded(s.rounds[..k + 1]) == NonService(h[..s.closers[k]]))
  }

  /** Forwarded ids followed by the open list are the content ids read so far. */
  ghost predicate Content(s: Scan, h: seq<Message>, failAt: Option<nat>)
  {
    && (s.failed.None? ==> Forwarded(s.rounds) + s.pending == NonService(h))
    && (s.failed.Some? ==>
          && s.failed.value == s.pending
          && failAt == Some(|s.rounds|)
          && IsPrefix(Forwarded(s.rounds) + s.pending, NonService(h)))
  }

  lemma {:induction false} ScanInvariant(h: seq<Message>, checkpoint: int, failAt: Option<nat>)
    ensures Inv(ScanOf(h, checkpoint, failAt), h, checkpoint, failAt)
    decreases |h|
  {
    if h != [] {
      var n := |h| - 1;
      assert h == h[..n] + [h[n]];
      ScanInvariant(h[..n], checkpoint, failAt);
      var s := ScanOf(h[..n], checkpoint, failAt);
      assert ScanOf(h, checkpoint, failAt) == Step(s, h[n], n, failAt);
      BoundsStep(s, h[..n], h[n], failAt);
      OrderedStep(s, h[..n], h[n], failAt);
      CheckpointsStep(s, h[n], n, checkpoint, failAt);
      SizesStep(s, h[n], n, failAt);
      ClosedStep(s, h[..n], h[n], checkpoint, failAt);
      ContentStep(s, h[..n], h[n], checkpoint, failAt);
    }
  }

  lemma BoundsStep(s: Scan, h: seq<Message>, m: Message, failAt: Option<nat>)
    requires Bounds(s, h)
    ensures Bounds(Step(s, m, |h|, failAt), h + [m])
  {
    var h' := h + [m];
    assert forall c :: 0 <= c < |h| ==> h'[c] == h[c];
    assert h'[|h|] == m;
  }

  lemma OrderedStep(s: Scan, h: seq<Message>, m: Message, failAt: Option<nat>)
    requires Bounds(s, h) && Ordered(s)
    ensures Ordered(Step(s, m, |h|, failAt))
  {
  }

  lemma CheckpointsStep(s: Scan, m: Message, i: nat, checkpoint: int, failAt: Option<nat>)
    requires Checkpoints(s, checkpoint)
    ensures Checkpoints(Step(s, m, i, failAt), checkpoint)
  {
  }

  lemma SizesStep(s: Scan, m: Message, i: nat, failAt: Option<nat>)
    requires Sizes(s) && 0 <= s.count <= Capacity
    ensures Sizes(Step(s, m, i, failAt))
  {
  }

  lemma ClosedStep(s: Scan, h: seq<Message>, m: Message, checkpoint: int, failAt: Option<nat>)
    requires Closed(s, h) && Content(s, h, failAt)
    ensures Closed(Step(s, m, |h|, failAt), h + [m])
  {
    var h' := h + [m];
    assert h'[..|h|] == h;
    ClosedExtend(s, h, h');
    if s.failed.None? && s.count == Capacity && failAt != Some(|s.rounds|) {
      ClosedClose(s, h', Round(s.pending, m.id, MidStreamDelay), Step(s, m, |h|, failAt));
    }
  }

  /** Reading more records keeps what `Closed` says of the rounds already closed. */
  lemma ClosedExtend(s: Scan, h: seq<Message>, h': seq<Message>)
    requires Closed(s, h)
    requires |h| <= |h'| && h'[..|h|] == h
    ensures Closed(s, h')
  {
    forall c | 0 <= c <= |h| ensures h'[..c] == h[..c] {
      assert h'[..|h|][..c] == h'[..c];
    }
  }

  lemma ClosedClose(s: Scan, h: seq<Message>, r: Round, s': Scan)
    requires h != [] && Closed(s, h)
    requires r.window == s.pending && Forwarded(s.rounds) + s.pending == NonService(h[..|h| - 1])
    requires s'.rounds == s.rounds + [r]
    requires s'.closers == s.closers + [|h| - 1]
    ensures Closed(s', h)
  {
    var n := |s.rounds|;
    assert s'.rounds[..n + 1] == s'.rounds;
    ForwardedSnoc(s.rounds, r);
    forall k | 0 <= k < n ensures s'.rounds[..k + 1] == s.rounds[..k + 1] && s'.closers[k] == s.closers[k] {
      assert s'.rounds[k] == s.rounds[k];
    }
  }

  lemma ContentStep(s: Scan, h: seq<Message>, m: Message, checkpoint: int, failAt: Option<nat>)
    requires Content(s, h, failAt)
    ensures Content(Step(s, m, |h|, failAt), h + [m], failAt)
  {
    NonServiceSnoc(h, m);
    if s.failed.None? && s.count == Capacity && failAt != Some(|s.rounds|) {
      ForwardedSnoc(s.rounds, Round(s.pending, m.id, MidStreamDelay));
    }
  }

  /** Reading one more record of the history is one more step. */
  lemma ScanOfNext(h: seq<Message>, i: nat, checkpoint: int, failAt: Option<nat>)
    requires i < |h|
    ensures ScanOf(h[..i + 1], checkpoint, failAt) == Step(ScanOf(h[..i], checkpoint, failAt), h[i], i, failAt)
  {
    assert h[..i + 1][..i] == h[..i];
  }

  /** The trailing round of a scan that ended with a non-empty list and no failure. */
  lemma FlushForwards(s: Scan, failAt: Option<nat>, window: seq<int>)
    requires s.failed.None? && s.pending == window && window != [] && failAt != Some(|s.rounds|)
    ensures Flush(s, failAt).rounds == s.rounds + [Round(window, window[|window| - 1] + 1, FlushDelay)]
    ensures Flush(s, failAt).checkpoint == window[|window| - 1] + 1
    ensures Flush(s, failAt).failed.None?
  {
  }

  lemma EmitSnoc(rs: seq<Round>, r: Round, toChat: int, fromChat: int)
    ensures Emit(rs + [r], toChat, fromChat)
      == Emit(rs, toChat, fromChat) + [Forward(toChat, fromChat, r.window, true), Save(r.checkpoint), Sleep(r.delay)]
  {
    assert (rs + [r])[..|rs|] == rs;
  }

  /** A run is the scan of the whole history followed by the flush. */
  lemma RunIsFlushedScan(h: seq<Message>, checkpoint: int, failAt: Option<nat>)
    ensures Run(h, checkpoint, failAt) == Flush(ScanOf(h[..|h|], checkpoint, failAt), failAt)
  {
    assert h[..|h|] == h;
  }

  /** Once a forward has raised, the rest of the history changes nothing. */
  lemma {:induction false} AbortIsFinal(h: seq<Message>, j: nat, checkpoint: int, failAt: Option<nat>)
    requires j <= |h|
    requires ScanOf(h[..j], checkpoint, failAt).failed.Some?
    ensures Run(h, checkpoint, failAt) == ScanOf(h[..j], checkpoint, failAt).(pending := [])
    ensures ScanOf(h, checkpoint, failAt) == ScanOf(h[..j], checkpoint, failAt)
    decreases |h| - j
  {
    if j < |h| {
      assert h[..j + 1][..j] == h[..j];
      AbortIsFinal(h, j + 1, checkpoint, failAt);
    } else {
      assert h[..j] == h;
    }
  }
}

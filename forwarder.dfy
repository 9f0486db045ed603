/**
 * The forwarding run itself: the configuration object that `forward_message`
 * updates in place, the config file that `update_config` appends to, and the
 * loop over the chat history. The loop is proved to do exactly what
 * `Batching.Run` specifies, so every lemma about `Run` is a lemma about it.
 */
module Forwarder {
  import opened Wrappers
  import opened Text
  import opened Retry
  import opened Batching

  /** The module-level lists the forwarder never fills; both stay empty. */
  const DownloadedIds: seq<int> := []
  const FailedIds: seq<int> := []

  /** The loaded configuration: the chat read, the chat written to, and what is saved back. */
  class Config {
    const chatId: int
    const forwardToId: int
    var lastReadMessageId: int
    var idsToRetry: seq<int>

    constructor (chatId: int, forwardToId: int, lastReadMessageId: int, idsToRetry: seq<int>)
      ensures this.chatId == chatId && this.forwardToId == forwardToId
      ensures this.lastReadMessageId == lastReadMessageId && this.idsToRetry == idsToRetry
    {
      this.chatId := chatId;
      this.forwardToId := forwardToId;
      this.lastReadMessageId := lastReadMessageId;
      this.idsToRetry := idsToRetry;
    }
  }

  /** The text of `config.yaml`, which is only ever appended to. */
  class ConfigFile {
    var contents: string

    constructor (contents: string)
      ensures this.contents == contents
    {
      this.contents := contents;
    }
  }

  /** The text appended to the config file by the saves of `rs`, in order. */
  function SaveLog(rs: seq<Round>): (log: string)
    ensures forall i :: 0 <= i < |log| ==> log[i] != '\n'
    decreases |rs|
  {
    if rs == [] then ""
    else SaveLog(rs[..|rs| - 1]) + CheckpointRecord(rs[|rs| - 1].checkpoint)
  }

  lemma AppendAssoc<T>(a: seq<T>, b: seq<T>, c: seq<T>)
    ensures a + b + c == a + (b + c)
  {
  }

  lemma SaveLogSnoc(rs: seq<Round>, r: Round)
    ensures SaveLog(rs + [r]) == SaveLog(rs) + CheckpointRecord(r.checkpoint)
  {
    assert (rs + [r])[..|rs|] == rs;
  }

  /**
   * The retry list after `saves` calls of `update_config`: unchanged before
   * the first, and afterwards the same ids without repeats.
   */
  ghost predicate RetriedAfter(now: seq<int>, original: seq<int>, saves: nat)
  {
    if saves == 0 then now == original
    else NoDuplicates(now) && Elements(now) == Elements(original)
  }

  lemma RetriedAgain(next: seq<int>, now: seq<int>, original: seq<int>, saves: nat)
    requires RetriedAfter(now, original, saves)
    requires IsRetryList(next, now, DownloadedIds, FailedIds)
    ensures RetriedAfter(next, original, saves + 1)
  {
    RetryWithoutDownloads(next, now);
  }

  /**
   * `update_config`: rebuild the retry list from the old one minus the
   * downloaded ids plus the failed ones, and append the checkpoint record,
   * with no line break, to the config file.
   */
  method UpdateConfig(config: Config, file: ConfigFile)
    modifies config`idsToRetry, file
    ensures IsRetryList(config.idsToRetry, old(config.idsToRetry), DownloadedIds, FailedIds)
    ensures file.contents == old(file.contents) + CheckpointRecord(config.lastReadMessageId)
  {
    RetryListExists(config.idsToRetry, DownloadedIds, FailedIds);
    config.idsToRetry := DistinctWithout(config.idsToRetry, DownloadedIds) + FailedIds;
    var lastReadMessageId := config.lastReadMessageId;
    file.contents := file.contents + CheckpointRecord(lastReadMessageId);
  }

  /**
   * The loop's variables, the configuration's checkpoint and retry list, and
   * the events and config-file text so far, as they stand for scan state `s`.
   */
  ghost predicate Mirrors(s: Scan, count: int, list: seq<int>, calls: nat, checkpoint: int,
                          events: seq<Event>, saved: string, retry: seq<int>, original: seq<int>,
                          toChat: int, fromChat: int)
  {
    && s.failed.None?
    && count == s.count && list == s.pending && calls == |s.rounds| && checkpoint == s.checkpoint
    && events == Emit(s.rounds, toChat, fromChat)
    && saved == SaveLog(s.rounds)
    && RetriedAfter(retry, original, |s.rounds|)
  }

  /** The events, checkpoint, config-file text and retry list that run `r` leaves. */
  ghost predicate Reports(r: Scan, events: seq<Event>, checkpoint: int, saved: string,
                          retry: seq<int>, original: seq<int>, toChat: int, fromChat: int)
  {
    && events == Trace(r, toChat, fromChat)
    && checkpoint == r.checkpoint
    && saved == SaveLog(r.rounds)
    && RetriedAfter(retry, original, |r.rounds|)
  }

  /** A record read while the window is not full: skipped if a service message, else listed. */
  lemma ListStep(s: Scan, m: Message, i: nat, failAt: Option<nat>, count: int, list: seq<int>,
                 calls: nat, checkpoint: int, events: seq<Event>, saved: string,
                 retry: seq<int>, original: seq<int>, toChat: int, fromChat: int)
    requires Mirrors(s, count, list, calls, checkpoint, events, saved, retry, original, toChat, fromChat)
    requires count != Capacity
    ensures m.service ==>
      Mirrors(Step(s, m, i, failAt), count, list, calls, checkpoint, events, saved, retry, original, toChat, fromChat)
    ensures !m.service ==>
      Mirrors(Step(s, m, i, failAt), count + 1, list + [m.id], calls, checkpoint, events, saved, retry, original,
              toChat, fromChat)
  {
  }

  /**
   * A record read while the window is full, when the forward call succeeds:
   * one forward, one save of the record's id, one pause of 240 seconds, and
   * the record starts the next list unless it is a service message.
   */
  lemma CloseStep(s: Scan, m: Message, i: nat, failAt: Option<nat>, list: seq<int>,
                  calls: nat, checkpoint: int, events: seq<Event>, saved: string,
                  retry: seq<int>, retry': seq<int>, original: seq<int>, toChat: int, fromChat: int)
    requires Mirrors(s, Capacity, list, calls, checkpoint, events, saved, retry, original, toChat, fromChat)
    requires failAt != Some(calls)
    requires IsRetryList(retry', retry, DownloadedIds, FailedIds)
    ensures var events' := events + [Forward(toChat, fromChat, list, true)] + [Save(m.id), Sleep(MidStreamDelay)];
      && (m.service ==>
            Mirrors(Step(s, m, i, failAt), 0, [], calls + 1, m.id, events', saved + CheckpointRecord(m.id),
                    retry', original, toChat, fromChat))
      && (!m.service ==>
            Mirrors(Step(s, m, i, failAt), 0, [m.id], calls + 1, m.id, events', saved + CheckpointRecord(m.id),
                    retry', original, toChat, fromChat))
  {
    var round := Round(list, m.id, MidStreamDelay);
    assert Step(s, m, i, failAt).rounds == s.rounds + [round];
    EmitSnoc(s.rounds, round, toChat, fromChat);
    SaveLogSnoc(s.rounds, round);
    RetriedAgain(retry', retry, original, |s.rounds|);
    AppendAssoc(events, [Forward(toChat, fromChat, list, true)], [Save(m.id), Sleep(MidStreamDelay)]);
  }

  /** The forward call of a full window raises: the run ends with that call as its last event. */
  lemma CloseFails(h: seq<Message>, i: nat, checkpoint0: int, failAt: Option<nat>, s: Scan, list: seq<int>,
                   calls: nat, checkpoint: int, events: seq<Event>, saved: string,
                   retry: seq<int>, original: seq<int>, toChat: int, fromChat: int)
    requires i < |h| && s == ScanOf(h[..i], checkpoint0, failAt)
    requires Mirrors(s, Capacity, list, calls, checkpoint, events, saved, retry, original, toChat, fromChat)
    requires failAt == Some(calls)
    ensures var r := Run(h, checkpoint0, failAt);
      r.failed.Some? &&
      Reports(r, events + [Forward(toChat, fromChat, list, true)], checkpoint, saved, retry, original, toChat, fromChat)
  {
    ScanOfNext(h, i, checkpoint0, failAt);
    AbortIsFinal(h, i + 1, checkpoint0, failAt);
  }

  /** The history is exhausted with an empty list: nothing more is forwarded. */
  lemma EndEmpty(h: seq<Message>, checkpoint0: int, failAt: Option<nat>, s: Scan, count: int,
                 calls: nat, checkpoint: int, events: seq<Event>, saved: string,
                 retry: seq<int>, original: seq<int>, toChat: int, fromChat: int)
    requires s == ScanOf(h[..|h|], checkpoint0, failAt)
    requires Mirrors(s, count, [], calls, checkpoint, events, saved, retry, original, toChat, fromChat)
    ensures var r := Run(h, checkpoint0, failAt);
      r.failed.None? && Reports(r, events, checkpoint, saved, retry, original, toChat, fromChat)
  {
    RunIsFlushedScan(h, checkpoint0, failAt);
    FlushNothing(s, failAt, count, calls, checkpoint, events, saved, retry, original, toChat, fromChat);
  }

  lemma FlushNothing(s: Scan, failAt: Option<nat>, count: int,
                     calls: nat, checkpoint: int, events: seq<Event>, saved: string,
                     retry: seq<int>, original: seq<int>, toChat: int, fromChat: int)
    requires Mirrors(s, count, [], calls, checkpoint, events, saved, retry, original, toChat, fromChat)
    ensures var r := Flush(s, failAt);
      r.failed.None? && Reports(r, events, checkpoint, saved, retry, original, toChat, fromChat)
  {
    assert events + [] == events;
  }

  /** The trailing forward call raises. */
  lemma EndFails(h: seq<Message>, checkpoint0: int, failAt: Option<nat>, s: Scan, count: int, list: seq<int>,
                 calls: nat, checkpoint: int, events: seq<Event>, saved: string,
                 retry: seq<int>, original: seq<int>, toChat: int, fromChat: int)
    requires s == ScanOf(h[..|h|], checkpoint0, failAt)
    requires Mirrors(s, count, list, calls, checkpoint, events, saved, retry, original, toChat, fromChat)
    requires list != [] && failAt == Some(calls)
    ensures var r := Run(h, checkpoint0, failAt);
      r.failed.Some? &&
      Reports(r, events + [Forward(toChat, fromChat, list, true)], checkpoint, saved, retry, original, toChat, fromChat)
  {
    RunIsFlushedScan(h, checkpoint0, failAt);
    FlushFails(s, failAt, count, list, calls, checkpoint, events, saved, retry, original, toChat, fromChat);
  }

  lemma FlushFails(s: Scan, failAt: Option<nat>, count: int, list: seq<int>,
                   calls: nat, checkpoint: int, events: seq<Event>, saved: string,
                   retry: seq<int>, original: seq<int>, toChat: int, fromChat: int)
    requires Mirrors(s, count, list, calls, checkpoint, events, saved, retry, original, toChat, fromChat)
    requires list != [] && failAt == Some(calls)
    ensures var r := Flush(s, failAt);
      r.failed.Some? &&
      Reports(r, events + [Forward(toChat, fromChat, list, true)], checkpoint, saved, retry, original, toChat, fromChat)
  {
  }

  /** The trailing forward call succeeds: one forward, a save of the last id plus one, a pause of 120 seconds. */
  lemma EndFlushes(h: seq<Message>, checkpoint0: int, failAt: Option<nat>, s: Scan, count: int, list: seq<int>,
                   calls: nat, checkpoint: int, events: seq<Event>, saved: string,
                   retry: seq<int>, retry': seq<int>, original: seq<int>, toChat: int, fromChat: int)
    requires s == ScanOf(h[..|h|], checkpoint0, failAt)
    requires Mirrors(s, count, list, calls, checkpoint, events, saved, retry, original, toChat, fromChat)
    requires list != [] && failAt != Some(calls)
    requires IsRetryList(retry', retry, DownloadedIds, FailedIds)
    ensures var r := Run(h, checkpoint0, failAt);
      var last := list[|list| - 1] + 1;
      r.failed.None? &&
      Reports(r, events + [Forward(toChat, fromChat, list, true)] + [Save(last), Sleep(FlushDelay)],
              last, saved + CheckpointRecord(last), retry', original, toChat, fromChat)
  {
    RunIsFlushedScan(h, checkpoint0, failAt);
    FlushSucceeds(s, failAt, count, list, calls, checkpoint, events, saved, retry, retry', original, toChat, fromChat);
  }

  lemma FlushSucceeds(s: Scan, failAt: Option<nat>, count: int, list: seq<int>,
                      calls: nat, checkpoint: int, events: seq<Event>, saved: string,
                      retry: seq<int>, retry': seq<int>, original: seq<int>, toChat: int, fromChat: int)
    requires Mirrors(s, count, list, calls, checkpoint, events, saved, retry, original, toChat, fromChat)
    requires list != [] && failAt != Some(calls)
    requires IsRetryList(retry', retry, DownloadedIds, FailedIds)
    ensures var r := Flush(s, failAt);
      var last := list[|list| - 1] + 1;
      r.failed.None? &&
      Reports(r, events + [Forward(toChat, fromChat, list, true)] + [Save(last), Sleep(FlushDelay)],
              last, saved + CheckpointRecord(last), retry', original, toChat, fromChat)
  {
    var last := list[|list| - 1] + 1;
    var round := Round(list, last, FlushDelay);
    FlushForwards(s, failAt, list);
    EmitSnoc(s.rounds, round, toChat, fromChat);
    SaveLogSnoc(s.rounds, round);
    RetriedAgain(retry', retry, original, |s.rounds|);
    AppendAssoc(Emit(s.rounds, toChat, fromChat), [Forward(toChat, fromChat, list, true)], [Save(last), Sleep(FlushDelay)]);
    var r := Flush(s, failAt);
    assert r.rounds == s.rounds + [round];
    assert Trace(r, toChat, fromChat) == Emit(r.rounds, toChat, fromChat) + [];
    assert Emit(r.rounds, toChat, fromChat) + [] == Emit(r.rounds, toChat, fromChat);
    assert SaveLog(r.rounds) == saved + CheckpointRecord(last);
    assert RetriedAfter(retry', original, |r.rounds|);
  }

  /**
   * One round of `forward_message`: forward `window` with content protection;
   * unless that call (number `calls`) is the one that raises, set the
   * checkpoint, call `update_config` and pause for `delay` seconds.
   */
  method SendWindow(config: Config, file: ConfigFile, toChat: int, fromChat: int, window: seq<int>,
                    checkpoint: int, delay: int, events: seq<Event>, calls: nat, failAt: Option<nat>)
    returns (events': seq<Event>, raised: bool)
    modifies config`lastReadMessageId, config`idsToRetry, file
    ensures raised <==> failAt == Some(calls)
    ensures raised ==> events' == events + [Forward(toChat, fromChat, window, true)]
    ensures raised ==> unchanged(config, file)
    ensures !raised ==> events' == events + [Forward(toChat, fromChat, window, true)] + [Save(checkpoint), Sleep(delay)]
    ensures !raised ==> config.lastReadMessageId == checkpoint
    ensures !raised ==> file.contents == old(file.contents) + CheckpointRecord(checkpoint)
    ensures !raised ==> IsRetryList(config.idsToRetry, old(config.idsToRetry), DownloadedIds, FailedIds)
  {
    events' := events + [Forward(toChat, fromChat, window, true)];
    raised := failAt == Some(calls);
    if raised {
      return;
    }
    config.lastReadMessageId := checkpoint;
    UpdateConfig(config, file);
    events' := events' + [Save(checkpoint), Sleep(delay)];
  }

  /**
   * The `else` branch of the loop: a record arrives while the counter
   * `pagination_count` is 100.
   * Forward the list; unless that call raises, save the record's id as the
   * checkpoint, pause 240 seconds, and start the next list with the record
   * unless it is a service message.
   */
  method CloseWindow(config: Config, file: ConfigFile, toChat: int, fromChat: int, message: Message, i: nat,
                     failAt: Option<nat>, messagesList: seq<int>, calls: nat, events: seq<Event>,
                     ghost s: Scan, ghost saved: string, ghost original: seq<int>, ghost base: string)
    returns (events': seq<Event>, messagesList': seq<int>, calls': nat, raised: bool, ghost saved': string)
    modifies config`lastReadMessageId, config`idsToRetry, file
    requires Mirrors(s, Capacity, messagesList, calls, config.lastReadMessageId, events, saved,
                     config.idsToRetry, original, toChat, fromChat)
    requires file.contents == base + saved
    ensures raised ==>
      && failAt == Some(calls) && calls' == calls
      && events' == events + [Forward(toChat, fromChat, messagesList, true)]
      && unchanged(config, file)
    ensures !raised ==>
      && file.contents == base + saved'
      && Mirrors(Step(s, message, i, failAt), 0, messagesList', calls', config.lastReadMessageId, events', saved',
                 config.idsToRetry, original, toChat, fromChat)
  {
    var messageId := message.id;
    ghost var retry, checkpoint := config.idsToRetry, config.lastReadMessageId;
    calls' := calls;
    saved' := saved;
    messagesList' := messagesList;
    events', raised := SendWindow(config, file, toChat, fromChat, messagesList, messageId, MidStreamDelay,
                                  events, calls, failAt);
    if raised {
      return;
    }
    messagesList' := [];
    CloseStep(s, message, i, failAt, messagesList, calls, checkpoint, events, saved, retry, config.idsToRetry,
              original, toChat, fromChat);
    calls' := calls + 1;
    AppendAssoc(base, saved, CheckpointRecord(messageId));
    saved' := saved + CheckpointRecord(messageId);
    if message.service {
      return;
    }
    messagesList' := messagesList' + [messageId];
    assert messagesList' == [messageId];
  }

  /**
   * The loop of `forward_message`: read the records of `history` in order,
   * forwarding a window each time a record arrives while the counter
   * `pagination_count` is 100.
   * Either a forward call raised, and the run is over, or the loop state is
   * what the scan of the whole history says, ready for the trailing round.
   */
  method ScanHistory(config: Config, file: ConfigFile, history: seq<Message>, failAt: Option<nat>)
    returns (events: seq<Event>, messagesList: seq<int>, paginationCount: int, calls: nat, raised: bool,
             ghost s: Scan, ghost saved: string)
    modifies config`lastReadMessageId, config`idsToRetry, file
    ensures file.contents == old(file.contents) + saved
    ensures raised ==>
      var r := Run(history, old(config.lastReadMessageId), failAt);
      r.failed.Some? &&
      Reports(r, events, config.lastReadMessageId, saved, config.idsToRetry, old(config.idsToRetry),
              config.forwardToId, config.chatId)
    ensures !raised ==>
      && s == ScanOf(history[..|history|], old(config.lastReadMessageId), failAt)
      && Mirrors(s, paginationCount, messagesList, calls, config.lastReadMessageId, events, saved,
                 config.idsToRetry, old(config.idsToRetry), config.forwardToId, config.chatId)
  {
    var chatId := config.chatId;
    var lastReadMessageId := config.lastReadMessageId;
    var forwardToId := config.forwardToId;
    messagesList := [];
    paginationCount := 0;
    calls := 0;
    events := [];
    raised := false;
    s := Start(lastReadMessageId);
    saved := "";
    ghost var original := config.idsToRetry;

    for i := 0 to |history|
      invariant s == ScanOf(history[..i], lastReadMessageId, failAt)
      invariant Mirrors(s, paginationCount, messagesList, calls, config.lastReadMessageId, events, saved,
                        config.idsToRetry, original, forwardToId, chatId)
      invariant file.contents == old(file.contents) + saved
    {
      var message := history[i];
      var messageId := message.id;
      ScanOfNext(history, i, lastReadMessageId, failAt);
      if paginationCount != Capacity {
        ListStep(s, message, i, failAt, paginationCount, messagesList, calls, config.lastReadMessageId,
                 events, saved, config.idsToRetry, original, forwardToId, chatId);
        s := Step(s, message, i, failAt);
        if message.service {
          continue;
        }
        paginationCount := paginationCount + 1;
        messagesList := messagesList + [messageId];
      } else {
        ghost var prior, retry, checkpoint := events, config.idsToRetry, config.lastReadMessageId;
        ghost var list, saved' := messagesList, "";
        events, messagesList, calls, raised, saved' :=
          CloseWindow(config, file, forwardToId, chatId, message, i, failAt, messagesList, calls, events,
                      s, saved, original, old(file.contents));
        if raised {
          CloseFails(history, i, lastReadMessageId, failAt, s, list, calls, checkpoint,
                     prior, saved, retry, original, forwardToId, chatId);
          return;
        }
        paginationCount := 0;
        saved := saved';
        s := Step(s, message, i, failAt);
      }
    }
  }

  /**
   * `forward_message` over the records `history` that
   * `client.iter_history(chat_id, offset_id=last_read_message_id, reverse=True)`
   * yields. The forward call numbered `failAt`
   * (counting from 0), if any, raises and ends the run. The events, the
   * checkpoint left in the configuration and the text appended to the config
   * file are those of `Run`; `completed` says whether no call raised.
   */
  method ForwardMessage(config: Config, file: ConfigFile, history: seq<Message>, failAt: Option<nat>)
    returns (events: seq<Event>, completed: bool)
    modifies config`lastReadMessageId, config`idsToRetry, file
    ensures var r := Run(history, old(config.lastReadMessageId), failAt);
      && events == Trace(r, config.forwardToId, config.chatId)
      && completed == r.failed.None?
      && config.lastReadMessageId == r.checkpoint
      && file.contents == old(file.contents) + SaveLog(r.rounds)
      && RetriedAfter(config.idsToRetry, old(config.idsToRetry), |r.rounds|)
  {
    var chatId := config.chatId;
    var lastReadMessageId := config.lastReadMessageId;
    var forwardToId := config.forwardToId;
    ghost var original := config.idsToRetry;
    var messagesList, paginationCount, calls, raised;
    ghost var s, saved;
    events, messagesList, paginationCount, calls, raised, s, saved := ScanHistory(config, file, history, failAt);
    if raised {
      completed := false;
      return;
    }
    if messagesList != [] {
      var messagesListLastIndex := |messagesList| - 1;
      var lastId := messagesList[messagesListLastIndex];
      ghost var prior, retry, checkpoint := events, config.idsToRetry, config.lastReadMessageId;
      events, raised := SendWindow(config, file, forwardToId, chatId, messagesList, lastId + 1, FlushDelay,
                                   events, calls, failAt);
      if raised {
        EndFails(history, lastReadMessageId, failAt, s, paginationCount, messagesList, calls, checkpoint,
                 prior, saved, retry, original, forwardToId, chatId);
        completed := false;
        return;
      }
      EndFlushes(history, lastReadMessageId, failAt, s, paginationCount, messagesList, calls, checkpoint,
                 prior, saved, retry, config.idsToRetry, original, forwardToId, chatId);
      AppendAssoc(old(file.contents), saved, CheckpointRecord(lastId + 1));
    } else {
      EndEmpty(history, lastReadMessageId, failAt, s, paginationCount, calls, config.lastReadMessageId,
               events, saved, config.idsToRetry, original, forwardToId, chatId);
    }
    completed := true;
  }

  /**
   * `begin_import`: run `forward_message` on the configuration and hand the
   * same configuration back. When a forward call raises, the exception leaves
   * `begin_import` too and nothing is handed back (`None`). The batch size it
   * is given does not reach the loop, which always uses 100.
   */
  method BeginImport(config: Config, file: ConfigFile, history: seq<Message>, failAt: Option<nat>,
                     paginationLimit: int)
    returns (updated: Option<Config>, events: seq<Event>)
    modifies config`lastReadMessageId, config`idsToRetry, file
    ensures var r := Run(history, old(config.lastReadMessageId), failAt);
      && updated == (if r.failed.None? then Some(config) else None)
      && events == Trace(r, config.forwardToId, config.chatId)
      && config.lastReadMessageId == r.checkpoint
      && file.contents == old(file.contents) + SaveLog(r.rounds)
      && RetriedAfter(config.idsToRetry, old(config.idsToRetry), |r.rounds|)
  {
    var completed;
    events, completed := ForwardMessage(config, file, history, failAt);
    updated := if completed then Some(config) else None;
  }
}

# Telegram message forwarder, modelled in Dafny

The Python tool `message_forwarder.py` copies the history of one Telegram chat
into another. It reads the source chat's history in ascending id order from the
saved checkpoint `last_read_message_id`. It skips service messages and collects
content message ids into a window, counting each in `pagination_count`. When
a record arrives while that counter is 100, it does four things in order:

- it forwards the window with content protection;
- it saves the id of the record that arrived as the new checkpoint;
- it appends that checkpoint to `config.yaml`;
- it pauses for 240 seconds.

The record that arrived then opens the next window, unless it is a service
message, and it is not counted; the counter restarts at 0. When the history ends, a non-empty window is
forwarded. The checkpoint is then set to the last forwarded id plus one, and
the pause is 120 seconds. Each save also rebuilds the retry list, as
`update_config` does: the distinct ids of the old list that were not
downloaded, followed by the failed ids.

The project consists of these modules:

- `Batching` (batching.dfy) is a pure state machine for the loop.
  - `Step` models the loop body for one record, `ScanOf` models the loop over
    a history, `Flush` models the trailing window, and `Run` is a whole call.
  - A forward call that raises is a parameter, `failAt`: the number of forward
    calls that succeed before the raising one. The raise ends the run, just as
    the uncaught exception does.
  - The invariant the loop keeps is `Inv`, proved by `ScanInvariant`.
- `BatchingProperties` (properties.dfy) holds what a run forwards, saves and
  waits for.
- `Forwarder` (forwarder.dfy) is the imperative code.
  - `Config` is the configuration object updated in place, and `ConfigFile` is
    the text of `config.yaml`.
  - `UpdateConfig` models `update_config`.
  - `ForwardMessage` is the loop itself, split into `ScanHistory`,
    `CloseWindow` and `SendWindow`.
  - `BeginImport` wraps the run.
  - `ForwardMessage` is proved to produce exactly the events, the checkpoint
    and the file text of `Batching.Run`. So every lemma about `Run` holds for
    the method.
- `Retry` (retry.dfy) is the retry-list recomputation.
- `Text` (text.dfy) covers the `last_read_message_id: N` record and a parser
  that reads it back.
- `MediaMeta` (media_meta.dfy) is the file-format and file-name rule of
  `_get_media_meta`.
- `Wrappers` (wrappers.dfy) defines `Option`.

Two consequences of the code deserve spelling out:

- **Window sizes.** With ids 1..250, all content, the code sends
  `[1..100]`, then `[101..201]`, then `[202..250]`, and saves 251. Line 132
  appends the record that closes a window (101, then 202) to the next window
  without counting it, so every mid-stream window after the first holds 101
  ids when its closer is a content message. `RunWindowSizes` states these
  sizes.
- **Resuming.** The saved mid-stream checkpoint is the id of the closing
  record, and that record has not been forwarded yet. `RunResumePoint` and
  `RunCheckpointSeparates` prove what holds for ascending ids:
  - every id forwarded so far is below the checkpoint;
  - every content id not yet forwarded is at or above it.

  So a history resumed from the checkpoint inclusive would continue exactly
  where the run stopped. If `iter_history` resumes strictly after
  `offset_id`, the closing record is never forwarded. The same applies after
  the trailing round to the id one past the last forwarded id. Which of the
  two `iter_history` does is the client library's behaviour, which is not part
  of this model. Nor is a restart itself: it reads `config.yaml` back (lines
  228-229), and the records appended by the saves share one line (see
  `SaveLog`), which a YAML reader would not accept as written.

## Model

| member | source | states |
|---|---|---|
| Batching.ScanInvariant | message_forwarder.py:108-132 | After any prefix of the history, the loop state satisfies `Inv`. The counter is within 0..100. Each closed window was closed by the record read at its recorded position, at increasing positions. Each mid-stream round saves the closer's id and pauses 240 s. Window sizes follow the 100-plus-carry rule. The forwarded ids followed by the open list are exactly the content ids read so far. |
| Batching.AbortIsFinal | message_forwarder.py:121 | Once a forward call has raised, the rest of the history changes nothing, and the run ends in that state. |
| BatchingProperties.RunForwardsContent | message_forwarder.py:111-144 | A run without a raising call forwards every non-service id exactly once, in history order, and a run with `failAt` none never raises. If a call raises, it is call number `failAt`, and what was forwarded plus the failed window is a prefix of the content ids. |
| BatchingProperties.RunResumePoint | message_forwarder.py:119-129 | Mid-stream round k saves the id of the record at position `closers[k]` and pauses 240 s. Rounds 0..k forwarded exactly the content records before that position. |
| BatchingProperties.RunWindowSizes | message_forwarder.py:113-132 | The first mid-stream window holds 100 ids. Each later one holds 100, or 101 when the previous closer was a content record. |
| BatchingProperties.RunTrailingRound | message_forwarder.py:134-144 | The trailing round forwards 1 to 101 ids, saves the last id plus one, pauses 120 s, and does not raise. |
| BatchingProperties.RunFinalCheckpoint | message_forwarder.py:121-142 | The checkpoint a run leaves is the one saved by its last completed round, or the initial one if no round completed. So after a raise it is the previous round's value. |
| BatchingProperties.RunNothingToForward | message_forwarder.py:111-134 | No call happens, and the run does not fail, exactly when the history has no content record. In that case the checkpoint is unchanged and no event occurs. |
| BatchingProperties.RunNonEmpty | message_forwarder.py:113-134 | No forward call, completed or raising, is given an empty window. |
| BatchingProperties.RunRoundCount | message_forwarder.py:119-144 | Every round except possibly the last is a mid-stream round with a recorded closer. At most one trailing round follows them. |
| BatchingProperties.RunClosesOnlyFullWindows | message_forwarder.py:113-119 | A mid-stream round happens only after at least 100 content records. |
| BatchingProperties.RunShortHistory | message_forwarder.py:113-144 | With fewer than 100 content records, no mid-stream round happens. A run that does not fail makes one trailing round of all content ids, saves the last id plus one, and pauses 120 s. |
| BatchingProperties.ShortHistoryExample | message_forwarder.py:111-144 | For records 1..5 with 3 a service message, and a first forward call that does not raise, exactly one round forwards `[1, 2, 4, 5]` and saves 6. |
| BatchingProperties.EmitShape | message_forwarder.py:121-129 | The events of the completed rounds come in triples, in round order: the protected forward of the window, the save of its checkpoint, and the pause. |
| BatchingProperties.RunForwardsAscending | message_forwarder.py:111-132 | With ascending history ids, everything forwarded, including a failed window, is strictly ascending. |
| BatchingProperties.RunSkipsServiceMessages | message_forwarder.py:115-131 | With ascending ids, no service message's id is ever forwarded. |
| BatchingProperties.RunCheckpointSeparates | message_forwarder.py:126 | With ascending ids, every id forwarded up to a mid-stream round is below its checkpoint. Every content id from its closer on is at or above it. |
| BatchingProperties.RunCheckpointsIncrease | message_forwarder.py:126 | With ascending ids, the mid-stream checkpoints strictly increase. |
| BatchingProperties.RunCheckpointsAscending | message_forwarder.py:126-141 | With ascending ids, the checkpoints of all completed rounds, mid-stream (the closer's id) and trailing (the last id plus one), strictly increase in round order. |
| BatchingProperties.TrailingAboveLastCloser | message_forwarder.py:126-141 | The trailing round's checkpoint is above the last mid-stream checkpoint. |
| BatchingProperties.RunFirstCheckpointAbove | message_forwarder.py:100-141 | When every id of the history is above the initial checkpoint, so is the first save, whichever kind of round makes it. |
| BatchingProperties.RunWindowsAscending | message_forwarder.py:111-132 | With ascending ids, each forwarded window is strictly ascending and lies wholly above the window before it. |
| BatchingProperties.RunTrailingCheckpointAbove | message_forwarder.py:137-141 | With ascending ids, the checkpoint after the trailing round is above every id the run forwarded. |
| Forwarder.UpdateConfig | message_forwarder.py:34-50 | The retry list becomes a possible value of `list(set(old) - set(DOWNLOADED_IDS)) + FAILED_IDS`. The file gains exactly `last_read_message_id: N`, with no line break, and nothing else. |
| Forwarder.SaveLog | message_forwarder.py:46-48 | The text appended by a sequence of saves contains no line break, so every save lands on the file's last line. |
| Forwarder.SendWindow | message_forwarder.py:121-129 | The forward event is recorded. If the call raises, config and file are unchanged. Otherwise the checkpoint is set, the record is appended, the retry list is rebuilt, and the save and the pause follow. |
| Forwarder.CloseWindow | message_forwarder.py:119-132 | A record arriving at a full window: the state afterwards is that of `Batching.Step`. |
| Forwarder.ScanHistory | message_forwarder.py:108-132 | The loop over the history produces exactly the events, checkpoint, file text and retry list of `Batching.ScanOf`, or stops at the raising call. |
| Forwarder.ForwardMessage | message_forwarder.py:98-144 | The events equal `Trace(Run(...))`. The final checkpoint is `Run`'s. The file gains exactly one record per completed round. The retry list keeps its ids without duplicates after any save. |
| Forwarder.BeginImport | message_forwarder.py:147-223 | After `forward_message` has run, with its events, saves and retry list, the configuration object is handed back when no forward call raised, and nothing is handed back when one did. The batch size passed in has no effect. |
| Retry.DistinctWithout | message_forwarder.py:43-44 | The result has no duplicates, and its elements are exactly those of the old list minus the downloaded ids. |
| Retry.RetryListExists | message_forwarder.py:43-45 | A retry list meeting `IsRetryList` always exists, so the contract of `UpdateConfig` can be met. |
| Retry.RetryWithoutDownloads | message_forwarder.py:30-45 | With both module lists empty, the recomputation keeps exactly the old ids, once each. Its length is the number of distinct old ids, which is the old length when the old list had no duplicates. |
| Retry.RetryIdempotent | message_forwarder.py:43-45 | Recomputing again changes neither the ids nor their number. |
| Text.CheckpointRecord | message_forwarder.py:48 | The record starts with `last_read_message_id: ` and contains no line break. |
| Text.IntTextRoundTrip | message_forwarder.py:48 | Parsing the decimal rendering of any integer gives that integer back. |
| Text.IntTextInjective | message_forwarder.py:48 | Distinct checkpoints are written as distinct text. |
| Text.CheckpointRecordRoundTrip | message_forwarder.py:48 | A saved record parses back to the checkpoint it was written for. |
| MediaMeta.LastSegment | message_forwarder.py:72-80 | `split("/")[-1]` of the MIME type contains no slash and is no longer than the MIME type. |
| MediaMeta.LastSegmentIsSuffix | message_forwarder.py:72-80 | The format is a suffix of the MIME type. |
| MediaMeta.LastSegmentMaximal | message_forwarder.py:72-80 | The suffix is the whole MIME type, or it starts right after a slash. |
| MediaMeta.LastSegmentAppend | message_forwarder.py:72-80 | Slash-free text appended to a MIME type extends its last segment by exactly that text. |
| MediaMeta.LastSegmentAfterSlash | message_forwarder.py:72-80 | For `prefix/tail` with a slash-free tail, the format is `tail`. |
| MediaMeta.GetMediaMeta | message_forwarder.py:53-95 | The path is `[THIS_DIR, kind, name]`. A format is given exactly for audio, document, video, voice and video_note, and it is the MIME type's last segment. Voice and video-note files get the dated name. Other kinds use the object's file name, or `""`. |
| MediaMeta.NoFormatForPhotos | message_forwarder.py:71-95 | A photo has no format and keeps its own file name. |

## Left out

- The Telegram client: creating, starting and stopping the client; `iter_history`; `forward_messages`. The history becomes the `history` parameter. A forward call becomes a `Forward` event, with the `protect_content=True` flag recorded. The call's result is unused in the source and is not modelled. A raising call is the `failAt` parameter. Only the forward call can fail in the model. An exception from the history fetch or from writing the file is not modelled.
- `time.sleep` becomes a `Sleep` event carrying its duration. No time passes in the model.
- Logging and `print`, the YAML loading in `main` (so a restart from the saved file is not modelled), the commented-out code in `begin_import`, `get_chat_id.py`, and the update and metadata helpers imported from `utils`. None of them affects the loop's state.
- The two paths to `config.yaml`. `main` opens the file at `THIS_DIR`, while `update_config` appends to it relative to the working directory. The model has one `ConfigFile`.
- Forwarder.UpdateConfig: states the elements and the absence of duplicates of the rebuilt retry list, but not its order, because Python's `list(set(...))` leaves the order unspecified. `DistinctWithout` picks one order, first occurrences, only to show that such a list exists.
- Forwarder.ForwardMessage: states the retry list after the run up to order, through `RetriedAfter`, for the same reason.
- Forwarder.BeginImport: the `pagination_limit` argument is accepted and ignored, as in the source, because the loop compares with the literal 100. A raise is reported as the result `None`, standing for the exception that propagates out of `begin_import` and skips `client.stop()`.
- MediaMeta.GetMediaMeta: `os.path.join` is modelled as the list of the three components it joins, and the `utcfromtimestamp(...).isoformat()` text is the opaque `date` input. The `AttributeError` that the source raises for a media object without a MIME type is not modelled. `mimeType` is always present in the model, and `_type` is taken as given.
- Integer width: Python integers are unbounded, so ids and checkpoints are Dafny `int`, with no wrap-around.
- Concurrency: the coroutine structure is left out. The loop makes at most one call at a time, so the model is sequential.

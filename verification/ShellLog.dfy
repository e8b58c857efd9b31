/** The bounded output log of a shell job, and its two pagers. */
module ShellLog {
  import opened Wrappers
  import Content
  import Utf8
  import opened ReadPaging
  import opened Sequences

  datatype Chunk = Chunk(sequence: nat, stream: string, text: string, truncated: bool)

  datatype Output = Output(stream: string, text: string)

  datatype Log = Log(limit: nat, bytes: nat, chunks: seq<Chunk>, truncated: bool)

  function AfterAppend(log: Log, o: Output): Log {
    var encoded := Utf8.Encode(o.text);
    if log.limit <= log.bytes then log.(truncated := true)
    else
      var kept := if |encoded| <= log.limit - log.bytes then encoded else encoded[..log.limit - log.bytes];
      var rendered := Utf8.DecodeIgnore(kept);
      var cut := |kept| < |encoded|;
      log.(bytes := log.bytes + |kept|, truncated := log.truncated || cut,
           chunks := if rendered == "" then log.chunks else log.chunks + [Chunk(|log.chunks| + 1, o.stream, rendered, cut)])
  }

  function AfterAll(limit: nat, outputs: seq<Output>): Log {
    if outputs == [] then Log(limit, 0, [], false)
    else AfterAppend(AfterAll(limit, outputs[..|outputs| - 1]), outputs[|outputs| - 1])
  }

  /** Everything that was written. */
  function Written(outputs: seq<Output>): string {
    if outputs == [] then "" else Written(outputs[..|outputs| - 1]) + outputs[|outputs| - 1].text
  }

  /** Everything that is kept. */
  function Joined(chunks: seq<Chunk>): string {
    if chunks == [] then "" else Joined(chunks[..|chunks| - 1]) + chunks[|chunks| - 1].text
  }

  ghost predicate Numbered(chunks: seq<Chunk>) {
    forall i :: 0 <= i < |chunks| ==> chunks[i].sequence == i + 1
  }

  /** Bytes of UTF-8 are what the pages of a file are measured in. */
  lemma {:induction false} SizeIsEncoded(s: string)
    ensures Size(InUtf8, s) == |Utf8.Encode(s)|
  {
    if s != "" { SizeIsEncoded(s[1..]); }
  }

  lemma {:induction false} FittingIsFit(s: string, budget: int)
    ensures Utf8.Fitting(s, budget) == Fit(InUtf8, s, budget)
  {
    hide Utf8.EncodeChar;
    if s != "" { FittingIsFit(s[1..], budget - |Utf8.EncodeChar(s[0])|); }
  }

  /** What is kept of one text is its longest whole-character prefix in the room left. */
  lemma KeptIsFit(text: string, room: nat)
    ensures var encoded := Utf8.Encode(text);
      Utf8.DecodeIgnore(if |encoded| <= room then encoded else encoded[..room]) == Fit(InUtf8, text, room)
  {
    var encoded := Utf8.Encode(text);
    FittingIsFit(text, room);
    if |encoded| <= room {
      Utf8.DecodeIgnoreOfCut(text, |encoded|);
      assert encoded[..|encoded|] == encoded;
      assert text <= Utf8.Fitting(text, |encoded|);
      assert text <= Utf8.Fitting(text, room);
    } else {
      Utf8.DecodeIgnoreOfCut(text, room);
    }
  }

  /** The log keeps the longest whole-character prefix of everything written that
    fits the limit, in chunks numbered from one. */
  ghost predicate Keeps(log: Log, written: string) {
    && Numbered(log.chunks)
    && log.bytes == (if Size(InUtf8, written) <= log.limit then Size(InUtf8, written) else log.limit)
    && Joined(log.chunks) == Fit(InUtf8, written, log.limit)
  }

  lemma JoinedSnoc(chunks: seq<Chunk>, chunk: Chunk)
    ensures Joined(chunks + [chunk]) == Joined(chunks) + chunk.text
  {
    assert (chunks + [chunk])[..|chunks|] == chunks;
  }

  lemma FitsWhole(s: string, budget: nat)
    requires Size(InUtf8, s) <= budget
    ensures Fit(InUtf8, s, budget) == s
  {
    FitPast(InUtf8, s, "", budget);
    assert s + "" == s;
    assert Fit(InUtf8, "", budget - Size(InUtf8, s)) == "";
  }

  lemma NoRoom(text: string)
    ensures Fit(InUtf8, text, 0) == ""
  {
  }

  lemma AppendKeeps(log: Log, written: string, o: Output)
    requires Keeps(log, written)
    ensures Keeps(AfterAppend(log, o), written + o.text)
  {
    hide Fit, Size, Joined, Utf8.Encode, Utf8.DecodeIgnore, Numbered;
    var used := Size(InUtf8, written);
    SizeConcat(InUtf8, written, o.text);
    SizeIsEncoded(o.text);
    if used > log.limit {
      FitWithin(InUtf8, written, o.text, log.limit);
    } else {
      FitPast(InUtf8, written, o.text, log.limit);
      FitsWhole(written, log.limit);
      NoRoom(o.text);
      assert written + "" == written;
      if used < log.limit {
        KeptIsFit(o.text, log.limit - used);
        var next := AfterAppend(log, o);
        var rendered := Fit(InUtf8, o.text, log.limit - used);
        if rendered != "" {
          NumberedSnoc(log.chunks, next.chunks[|log.chunks|]);
          JoinedSnoc(log.chunks, next.chunks[|log.chunks|]);
        }
      }
    }
  }

  lemma NumberedSnoc(chunks: seq<Chunk>, chunk: Chunk)
    requires Numbered(chunks) && chunk.sequence == |chunks| + 1
    ensures Numbered(chunks + [chunk])
  {
  }

  lemma {:induction false} LogKeepsPrefix(limit: nat, outputs: seq<Output>)
    ensures Keeps(AfterAll(limit, outputs), Written(outputs))
  {
    hide Keeps, AfterAppend;
    if outputs == [] {
      NothingKept(limit);
    } else {
      LogKeepsPrefix(limit, outputs[..|outputs| - 1]);
      LimitStays(limit, outputs[..|outputs| - 1]);
      AppendKeeps(AfterAll(limit, outputs[..|outputs| - 1]), Written(outputs[..|outputs| - 1]), outputs[|outputs| - 1]);
    }
  }

  lemma NothingKept(limit: nat)
    ensures Keeps(Log(limit, 0, [], false), "")
  {
  }

  lemma {:induction false} LimitStays(limit: nat, outputs: seq<Output>)
    ensures AfterAll(limit, outputs).limit == limit
  {
    if outputs != [] { LimitStays(limit, outputs[..|outputs| - 1]); }
  }

  /** Some output, even an empty one, came when the log was already full. */
  ghost predicate CameTooLate(limit: nat, outputs: seq<Output>) {
    exists i :: 0 <= i < |outputs| && Size(InUtf8, Written(outputs[..i])) >= limit
  }

  /** The flag is set exactly when something was dropped, or when an output came
    to a full log; for outputs that are never empty, the two are the same. */
  lemma {:induction false} TruncatedExactly(limit: nat, outputs: seq<Output>)
    ensures AfterAll(limit, outputs).truncated <==> Size(InUtf8, Written(outputs)) > limit || CameTooLate(limit, outputs)
  {
    hide Size, Utf8.Encode, Utf8.DecodeIgnore, Keeps;
    if outputs == [] {
      assert Size(InUtf8, "") == 0 by { SizeParts(InUtf8, ""); }
    } else {
      var n := |outputs| - 1;
      var before, o := outputs[..n], outputs[n];
      TruncatedExactly(limit, before);
      LimitStays(limit, before);
      LogBytes(limit, before);
      SizeConcat(InUtf8, Written(before), o.text);
      SizeIsEncoded(o.text);
      TooLateBefore(limit, outputs);
    }
  }

  lemma LogBytes(limit: nat, outputs: seq<Output>)
    ensures var used := Size(InUtf8, Written(outputs)); AfterAll(limit, outputs).bytes == if used <= limit then used else limit
  {
    LogKeepsPrefix(limit, outputs);
    LimitStays(limit, outputs);
  }

  lemma TooLateBefore(limit: nat, outputs: seq<Output>)
    requires outputs != []
    ensures var before := outputs[..|outputs| - 1];
      CameTooLate(limit, outputs) <==> CameTooLate(limit, before) || Size(InUtf8, Written(before)) >= limit
  {
    hide Size;
    var n := |outputs| - 1;
    var before := outputs[..n];
    if CameTooLate(limit, before) {
      var i :| 0 <= i < n && Size(InUtf8, Written(before[..i])) >= limit;
      assert outputs[..i] == before[..i];
    }
    if CameTooLate(limit, outputs) {
      var i :| 0 <= i < |outputs| && Size(InUtf8, Written(outputs[..i])) >= limit;
      if i < n { assert before[..i] == outputs[..i]; }
    }
  }

  lemma {:induction false} WrittenGrows(outputs: seq<Output>, i: nat)
    requires i < |outputs| && forall k :: 0 <= k < |outputs| ==> outputs[k].text != ""
    ensures Size(InUtf8, Written(outputs[..i])) < Size(InUtf8, Written(outputs))
  {
    hide Size;
    var n := |outputs| - 1;
    SizeConcat(InUtf8, Written(outputs[..n]), outputs[n].text);
    SizeParts(InUtf8, outputs[n].text);
    if i < n {
      assert outputs[..n][..i] == outputs[..i];
      WrittenGrows(outputs[..n], i);
    }
  }

  /** For outputs that are never empty: truncated exactly when what is kept is not all. */
  lemma TruncatedMeansDropped(limit: nat, outputs: seq<Output>)
    requires forall k :: 0 <= k < |outputs| ==> outputs[k].text != ""
    ensures AfterAll(limit, outputs).truncated <==> Joined(AfterAll(limit, outputs).chunks) != Written(outputs)
  {
    hide Size, Fit, AfterAll, Written, Joined;
    TruncatedExactly(limit, outputs);
    LogKeepsPrefix(limit, outputs);
    LimitStays(limit, outputs);
    if CameTooLate(limit, outputs) {
      var i :| 0 <= i < |outputs| && Size(InUtf8, Written(outputs[..i])) >= limit;
      WrittenGrows(outputs, i);
    }
    if Size(InUtf8, Written(outputs)) <= limit {
      FitsWhole(Written(outputs), limit);
    } else {
      FitWithin(InUtf8, Written(outputs), "", limit);
    }
  }

  /** A chunk holds the start of one output, of the same stream, and says when it
    does not hold all of it. */
  predicate ComesFrom(chunk: Chunk, o: Output) {
    && chunk.stream == o.stream && chunk.text != "" && chunk.text <= o.text
    && (chunk.truncated <==> chunk.text != o.text)
  }

  predicate ComesFromAt(chunks: seq<Chunk>, outputs: seq<Output>, f: seq<nat>, k: nat) {
    k < |f| == |chunks| ==> f[k] < |outputs| && ComesFrom(chunks[k], outputs[f[k]])
  }

  lemma AppendedComesFrom(log: Log, o: Output)
    ensures var chunks := AfterAppend(log, o).chunks;
      chunks == log.chunks || (chunks == log.chunks + [chunks[|log.chunks|]] && ComesFrom(chunks[|log.chunks|], o))
  {
    hide Fit, Size, Utf8.Encode, Utf8.DecodeIgnore;
    if log.bytes < log.limit {
      var room := log.limit - log.bytes;
      KeptIsFit(o.text, room);
      SizeIsEncoded(o.text);
      if Size(InUtf8, o.text) <= room {
        FitsWhole(o.text, room);
      } else {
        FitsNotWhole(o.text, room);
      }
    }
  }

  lemma FitsNotWhole(s: string, budget: nat)
    requires Size(InUtf8, s) > budget
    ensures Fit(InUtf8, s, budget) != s
  {
    FitIsLongest(InUtf8, s, budget, |s|);
    assert s[..|s|] == s;
  }

  /** Every chunk comes from its own output, in the order of the outputs. */
  lemma {:induction false} ChunksComeFrom(limit: nat, outputs: seq<Output>) returns (f: seq<nat>)
    ensures Increasing(f) && |f| == |AfterAll(limit, outputs).chunks|
    ensures forall k :: ComesFromAt(AfterAll(limit, outputs).chunks, outputs, f, k)
    ensures forall k :: 0 <= k < |f| ==> f[k] < |outputs|
  {
    hide ComesFrom, AfterAppend, Increasing;
    if outputs == [] {
      f := [];
      assert Increasing([]) by { NothingIncreases(); }
    } else {
      var n := |outputs| - 1;
      var before := AfterAll(limit, outputs[..n]);
      var g := ChunksComeFrom(limit, outputs[..n]);
      AppendedComesFrom(before, outputs[n]);
      IncreasingSnoc(g, n);
      var chunks := AfterAll(limit, outputs).chunks;
      f := if chunks == before.chunks then g else g + [n];
      forall k: nat ensures ComesFromAt(chunks, outputs, f, k) {
        assert ComesFromAt(before.chunks, outputs[..n], g, k);
      }
    }
  }

  class ShellJob {
    const outputLimitBytes: nat
    var outputBytes: nat
    var chunks: seq<Chunk>
    var outputTruncated: bool

    ghost function State(): Log
      reads this
    {
      Log(outputLimitBytes, outputBytes, chunks, outputTruncated)
    }

    constructor (limit: nat)
      ensures State() == AfterAll(limit, [])
    {
      outputLimitBytes, outputBytes, chunks, outputTruncated := limit, 0, [], false;
    }

    method Append(o: Output)
      modifies this
      ensures State() == AfterAppend(old(State()), o)
    {
      hide Utf8.Encode, Utf8.DecodeIgnore;
      var encoded := Utf8.Encode(o.text);
      var remaining := outputLimitBytes - outputBytes;
      if remaining <= 0 {
        outputTruncated := true;
        return;
      }
      var kept := if |encoded| <= remaining then encoded else encoded[..remaining];
      var rendered := Utf8.DecodeIgnore(kept);
      var truncated := |kept| < |encoded|;
      outputBytes := outputBytes + |kept|;
      if truncated {
        outputTruncated := true;
      }
      if rendered != "" {
        chunks := chunks + [Chunk(|chunks| + 1, o.stream, rendered, truncated)];
      }
    }
  }

  // Paging.

  datatype PollPage = PollPage(chunks: seq<Chunk>, next: nat, available: nat, more: bool)

  function Bytes(chunks: seq<Chunk>): nat {
    if chunks == [] then 0 else Bytes(chunks[..|chunks| - 1]) + |Utf8.Encode(chunks[|chunks| - 1].text)|
  }

  /** A page: the chunks after the cursor, as many as fit but always one; the
    cursor it hands on is the number of its last chunk. */
  ghost predicate IsPoll(log: seq<Chunk>, cursor: nat, budget: nat, page: PollPage) {
    && page.available == |log| && (page.more <==> page.next < |log|)
    && (cursor >= |log| ==> page.chunks == [] && page.next == cursor)
    && (cursor < |log| ==>
          && cursor < page.next <= |log| && page.chunks == log[cursor..page.next]
          && (Bytes(page.chunks) <= budget || page.next == cursor + 1)
          && (page.next < |log| ==> Bytes(log[cursor..page.next + 1]) > budget))
  }

  method PollResult(log: seq<Chunk>, cursor: nat, budget: nat) returns (page: PollPage)
    requires Numbered(log)
    ensures IsPoll(log, cursor, budget, page)
  {
    hide Bytes;
    var start := if cursor <= |log| then cursor else |log|;
    var end := start;
    var pageBytes: nat := 0;
    NoBytes();
    assert log[start..end] == [];
    while end < |log|
      invariant start <= end <= |log|
      invariant pageBytes == Bytes(log[start..end])
      invariant pageBytes <= budget || end == start + 1
    {
      BytesSnoc(log, start, end);
      var chunkBytes := |Utf8.Encode(log[end].text)|;
      if end > start && pageBytes + chunkBytes > budget {
        break;
      }
      pageBytes := pageBytes + chunkBytes;
      end := end + 1;
    }
    var chunks := log[start..end];
    var next := if chunks != [] then chunks[|chunks| - 1].sequence else cursor;
    return PollPage(chunks, next, |log|, next < |log|);
  }

  lemma NoBytes()
    ensures Bytes([]) == 0
  {
  }

  lemma BytesSnoc(log: seq<Chunk>, start: nat, end: nat)
    requires start <= end < |log|
    ensures Bytes(log[start..end + 1]) == Bytes(log[start..end]) + |Utf8.Encode(log[end].text)|
  {
    assert log[start..end + 1][..end - start] == log[start..end];
  }

  /** The loop of the stored pager on a list of chunks that is whole. */
  ghost predicate Tracks(stored: seq<Option<Chunk>>, start: nat, k: nat, chunks: seq<Chunk>, pageBytes: nat) {
    && start <= k <= |stored|
    && forall log: seq<Chunk> :: stored == Stored(log) ==> chunks == log[start..k] && pageBytes == Bytes(log[start..k])
  }

  lemma TracksFromStart(stored: seq<Option<Chunk>>, start: nat)
    requires start <= |stored|
    ensures Tracks(stored, start, start, [], 0)
  {
    forall log: seq<Chunk> | stored == Stored(log) ensures [] == log[start..start] && 0 == Bytes(log[start..start]) {
      assert |log| == |stored|;
      assert log[start..start] == [];
    }
  }

  lemma TracksOneMore(stored: seq<Option<Chunk>>, start: nat, k: nat, chunks: seq<Chunk>, pageBytes: nat)
    requires Tracks(stored, start, k, chunks, pageBytes) && k < |stored|
    ensures stored[k].Some? ==>
      Tracks(stored, start, k + 1, chunks + [stored[k].value], pageBytes + |Utf8.Encode(stored[k].value.text)|)
    ensures stored[k].None? ==> Tracks(stored, start, k + 1, chunks, pageBytes)
  {
    hide Bytes;
    forall log: seq<Chunk> | stored == Stored(log)
      ensures stored[k] == Some(log[k]) && log[start..k + 1] == chunks + [log[k]]
      ensures Bytes(log[start..k + 1]) == pageBytes + |Utf8.Encode(log[k].text)|
    {
      assert |log| == |stored|;
      BytesSnoc(log, start, k);
    }
  }

  lemma TrackedIsPoll(stored: seq<Option<Chunk>>, start: nat, k: nat, chunks: seq<Chunk>, pageBytes: nat,
                      cursor: nat, budget: nat, log: seq<Chunk>)
    requires Tracks(stored, start, k, chunks, pageBytes) && start == if cursor <= |stored| then cursor else |stored|
    requires stored == Stored(log) && Numbered(log)
    requires |chunks| > 1 ==> pageBytes <= budget
    requires k == |stored| || (stored[k].Some? && chunks != [] && pageBytes + |Utf8.Encode(stored[k].value.text)| > budget)
    ensures var next := if chunks != [] then chunks[|chunks| - 1].sequence else cursor;
      IsPoll(log, cursor, budget, PollPage(chunks, next, |stored|, next < |stored|))
  {
    hide Bytes;
    assert |log| == |stored| && chunks == log[start..k];
    if k < |stored| {
      BytesSnoc(log, start, k);
    }
  }

  /** The pager of a stored result: it skips what is no chunk. */
  method PageDurableResult(stored: seq<Option<Chunk>>, cursor: nat, budget: nat) returns (page: PollPage)
    ensures forall log: seq<Chunk> :: Numbered(log) && stored == Stored(log) ==> IsPoll(log, cursor, budget, page)
  {
    hide Bytes, Numbered, Tracks, IsPoll;
    var start := if cursor <= |stored| then cursor else |stored|;
    var chunks: seq<Chunk> := [];
    var pageBytes: nat := 0;
    var k := start;
    TracksFromStart(stored, start);
    while k < |stored|
      invariant start <= k <= |stored| && Tracks(stored, start, k, chunks, pageBytes)
      invariant |chunks| > 1 ==> pageBytes <= budget
    {
      TracksOneMore(stored, start, k, chunks, pageBytes);
      if stored[k].Some? {
        var size := |Utf8.Encode(stored[k].value.text)|;
        if chunks != [] && pageBytes + size > budget {
          break;
        }
        chunks := chunks + [stored[k].value];
        pageBytes := pageBytes + size;
      }
      k := k + 1;
    }
    var next := if chunks != [] then chunks[|chunks| - 1].sequence else cursor;
    page := PollPage(chunks, next, |stored|, next < |stored|);
    forall log: seq<Chunk> | Numbered(log) && stored == Stored(log) ensures IsPoll(log, cursor, budget, page) {
      TrackedIsPoll(stored, start, k, chunks, pageBytes, cursor, budget, log);
    }
  }

  function Stored(log: seq<Chunk>): (s: seq<Option<Chunk>>)
    ensures |s| == |log| && forall i :: 0 <= i < |log| ==> s[i] == Some(log[i])
  {
    seq(|log|, i requires 0 <= i < |log| => Some(log[i]))
  }

  /** Both pagers give the same page of the same chunks. */
  lemma PollsAgree(log: seq<Chunk>, cursor: nat, budget: nat, p: PollPage, r: PollPage)
    requires IsPoll(log, cursor, budget, p) && IsPoll(log, cursor, budget, r)
    ensures p == r
  {
    hide Bytes;
    if cursor < |log| {
      if p.next < r.next { BytesGrow(log, cursor, p.next + 1, r.next); }
      if r.next < p.next { BytesGrow(log, cursor, r.next + 1, p.next); }
    }
  }

  lemma {:induction false} BytesGrow(log: seq<Chunk>, start: nat, a: nat, b: nat)
    requires start <= a <= b <= |log|
    ensures Bytes(log[start..a]) <= Bytes(log[start..b])
  {
    hide Bytes;
    if a < b {
      BytesGrow(log, start, a, b - 1);
      BytesSnoc(log, start, b - 1);
    }
  }

  /** Polling from the start while the log grows: every chunk once, in order, and
    each poll that says there is more brings some. */
  method FollowPolls(logs: seq<seq<Chunk>>, budget: nat) returns (got: seq<Chunk>, cursor: nat)
    requires forall i :: 0 <= i < |logs| ==> Numbered(logs[i])
    requires forall i, k :: 0 <= i < k < |logs| ==> logs[i] <= logs[k]
    ensures logs != [] ==> cursor <= |logs[|logs| - 1]| && got == logs[|logs| - 1][..cursor]
  {
    hide IsPoll;
    got, cursor := [], 0;
    for n := 0 to |logs|
      invariant n > 0 ==> cursor <= |logs[n - 1]| && got == logs[n - 1][..cursor]
      invariant n == 0 ==> cursor == 0 && got == []
    {
      var page := PollResult(logs[n], cursor, budget);
      assert cursor <= |logs[n]| && got == logs[n][..cursor];
      PollAppends(logs[n], cursor, budget, page);
      got := got + page.chunks;
      cursor := page.next;
    }
  }

  lemma PollAppends(log: seq<Chunk>, cursor: nat, budget: nat, page: PollPage)
    requires IsPoll(log, cursor, budget, page) && cursor <= |log|
    ensures cursor <= page.next <= |log| && log[..cursor] + page.chunks == log[..page.next]
  {
  }

  /** Polling a finished log until there is no more. */
  method PollAll(log: seq<Chunk>, budget: nat) returns (got: seq<Chunk>)
    requires Numbered(log)
    ensures got == log
  {
    hide IsPoll, Numbered;
    got := [];
    var cursor := 0;
    var more := true;
    while more
      invariant cursor <= |log| && got == log[..cursor]
      invariant !more ==> cursor == |log|
      decreases |log| - cursor, more
    {
      var page := PollResult(log, cursor, budget);
      PollAppends(log, cursor, budget, page);
      PollMoves(log, cursor, budget, page);
      got := got + page.chunks;
      cursor := page.next;
      more := page.more;
    }
    assert log[..cursor] == log;
  }

  lemma PollMoves(log: seq<Chunk>, cursor: nat, budget: nat, page: PollPage)
    requires IsPoll(log, cursor, budget, page) && cursor <= |log|
    ensures cursor < |log| ==> page.next > cursor
    ensures page.more <==> page.next < |log|
  {
  }
}

/**
  What the poll loop of monitorLogFile guarantees over its iterations:
  restarts resume where the store says, a file that only grows by whole lines
  has every line read exactly once and in order, truncation and failures lose
  nothing already read, and a cycle posts each matched line to every URL.
*/
module MonitorProps {
  import opened Wrappers
  import opened Events
  import opened Webhook
  import opened Scanner
  import opened Monitor
  import Seqs

  // ---------------------------------------------------------------------
  // Start-up and single iterations

  /** A monitor restarted on a file that has not changed since its stored row reads nothing and changes nothing. */
  lemma RestartIsIdle(store: Store, path: string, t: Tick)
    requires path in store && t.file.Present? && t.file.modTime <= store[path].lastModTime
    ensures Read(Initial(store, path), t) == []
    ensures Next(Initial(store, path), path, t) == Initial(store, path)
  {
  }

  /** The first clean iteration on a file the store has never seen reads the file from byte 0 and records its length. */
  lemma FirstCycleReadsEverything(store: Store, path: string, t: Tick)
    requires path !in store && t.file.Present? && t.file.modTime > ZeroTime
    requires !t.openFails && !t.seekFails && t.fault.None? && !t.tellFails
    ensures Read(Initial(store, path), t) == SplitLines(t.file.content)
    ensures Next(Initial(store, path), path, t).lastOffset == |t.file.content|
    ensures !t.saveFails ==> Next(Initial(store, path), path, t).store[path] == Progress(t.file.modTime, |t.file.content|)
  {
    assert Unread(t.file.content, 0) == t.file.content;
  }

  /** A file cut back to at most the offset yields no line, and the offset does not move. */
  lemma TruncatedFileYieldsNothing(s: MonitorState, path: string, t: Tick)
    requires t.file.Present? && |t.file.content| <= s.lastOffset && !t.tellFails
    ensures Read(s, t) == []
    ensures Next(s, path, t).lastOffset == s.lastOffset
  {
  }

  /** After an open or seek failure the new modification time is already recorded: the same file on the next
      iteration is not read again, and the next change of the file is read from the old offset, so no byte
      written before the failure is lost. */
  lemma OpenFailureDefersRead(s: MonitorState, path: string, t: Tick, t': Tick)
    requires Modified(s, t) && (t.openFails || t.seekFails)
    ensures t'.file == t.file ==> Read(Next(s, path, t), t') == []
    ensures Next(s, path, t).lastOffset == s.lastOffset
    ensures Reads(Next(s, path, t), t') && t'.fault.None? ==>
              Read(Next(s, path, t), t') == SplitLines(Unread(t'.file.content, s.lastOffset))
  {
  }

  /** A line without terminator at the end of the file is read and consumed: the offset moves past it, so text
      later appended to the same line is read as a line of its own. */
  lemma PartialLineConsumed(s: MonitorState, path: string, t: Tick, rest: string)
    requires Reads(s, t) && t.fault.None? && !t.tellFails
    requires s.lastOffset <= |t.file.content| && rest != [] && '\n' !in rest
    requires Unread(t.file.content, s.lastOffset) == rest
    ensures Read(s, t) == [DropCR(rest)]
    ensures Next(s, path, t).lastOffset == |t.file.content|
  {
    UnterminatedLineEmitted(rest);
  }

  /** The scanner splits "ERR" and then "OR\n", appended to it, into two separate lines. */
  lemma PartialLineSplitsInTwo(path: string, m1: int, m2: int)
    requires ZeroTime < m1 < m2
    ensures var t1 := Tick(Present(m1, "ERR"), false, false, None, false, false);
            var t2 := Tick(Present(m2, "ERROR\n"), false, false, None, false, false);
            var s1 := Next(Initial(map[], path), path, t1);
            Read(Initial(map[], path), t1) == ["ERR"] && Read(s1, t2) == ["OR"]
  {
    var t1 := Tick(Present(m1, "ERR"), false, false, None, false, false);
    var t2 := Tick(Present(m2, "ERROR\n"), false, false, None, false, false);
    var s0 := Initial(map[], path);
    assert Unread("ERR", 0) == "ERR";
    UnterminatedLineEmitted("ERR");
    var s1 := Next(s0, path, t1);
    assert s1.lastOffset == 3;
    assert Unread("ERROR\n", 3) == "OR\n";
    SplitJoin(["OR"]);
    assert JoinLines(["OR"]) == "OR\n";
  }

  // ---------------------------------------------------------------------
  // A scanner that stops with an error

  /** A scanner stopping on a line boundary, as on a token longer than its buffer, emits the first lines of a clean
      scan. */
  lemma ScanFaultOnLineBoundary(content: string, offset: nat, f: ScanFault)
    requires WholeLines(Unread(content, offset)[..Min(f.scanned, |Unread(content, offset)|)])
    ensures Scanned(content, offset, Some(f)) <= Scanned(content, offset, None)
  {
    var u := Unread(content, offset);
    var r := Min(f.scanned, |u|);
    Seqs.SplitAt(u, r);
    SplitAppend(u[..r], u[r..]);
    Seqs.TakeAll(u);
  }

  /** A read error in the middle of a line makes the scanner emit the piece of the line it had buffered: "ERR" is
      emitted although the file holds only the line "ERROR". */
  lemma ReadErrorEmitsFragment()
    ensures Scanned("ERROR\n", 0, Some(ScanFault(3, 3))) == ["ERR"]
    ensures Scanned("ERROR\n", 0, None) == ["ERROR"]
  {
    var content := "ERROR\n";
    assert Unread(content, 0) == content;
    assert content[..3] == "ERR";
    UnterminatedLineEmitted("ERR");
    SplitJoin(["ERROR"]);
    assert JoinLines(["ERROR"]) == content by {
      assert ["ERROR"][1..] == [];
    }
    Seqs.TakeAll(content);
  }

  // ---------------------------------------------------------------------
  // Exactly once over an append-only file

  /** An iteration in which the scanner reaches the end of the file and the position query succeeds. */
  predicate Clean(t: Tick) {
    t.fault.None? && !t.tellFails
  }

  /** The file as known after the tick: what stat shows, or the earlier content c when stat fails. */
  function Seen(c: string, t: Tick): string {
    if t.file.Present? then t.file.content else c
  }

  function SeenTime(m: int, t: Tick): int {
    if t.file.Present? then t.file.modTime else m
  }

  /** The file as the latest tick whose stat succeeds shows it, or c0 before any. */
  function Latest(c0: string, ticks: seq<Tick>): string {
    if ticks == [] then c0 else Seen(Latest(c0, ticks[..|ticks| - 1]), ticks[|ticks| - 1])
  }

  function LatestTime(m0: int, ticks: seq<Tick>): int {
    if ticks == [] then m0 else SeenTime(LatestTime(m0, ticks[..|ticks| - 1]), ticks[|ticks| - 1])
  }

  /** One iteration on an append-only file made of whole lines, last seen as c at modification time m. Stat, open
      and seek may fail; when stat succeeds the iteration is clean, the content extends c, and the modification
      time moves on whenever the content changes. */
  predicate GrowsFrom(m: int, c: string, t: Tick) {
    t.file.Present? ==>
      Clean(t) && WholeLines(t.file.content) && c <= t.file.content
      && m <= t.file.modTime && (t.file.modTime == m ==> t.file.content == c)
  }

  /** The ticks show a file that only grows by whole lines, starting from c0 at modification time m0. */
  predicate Grows(m0: int, c0: string, ticks: seq<Tick>) {
    if ticks == [] then true
    else
      var last := |ticks| - 1;
      Grows(m0, c0, ticks[..last]) && GrowsFrom(LatestTime(m0, ticks[..last]), Latest(c0, ticks[..last]), ticks[last])
  }

  /** A failing stat neither breaks the growth of the file nor changes what is known of it. */
  lemma StatFailureKeepsGrowth(m0: int, c0: string, ticks: seq<Tick>, t: Tick)
    requires Grows(m0, c0, ticks) && t.file.Missing?
    ensures Grows(m0, c0, ticks + [t])
    ensures Latest(c0, ticks + [t]) == Latest(c0, ticks) && LatestTime(m0, ticks + [t]) == LatestTime(m0, ticks)
  {
    Seqs.SnocParts(ticks, t);
  }

  /** No open or seek fails in these iterations. */
  predicate Opened(ticks: seq<Tick>) {
    forall k :: 0 <= k < |ticks| ==> !ticks[k].openFails && !ticks[k].seekFails
  }

  /** One iteration on a growing file, whose offset is on a line boundary of what was last seen: the lines read
      continue those before the offset up to the new offset, which is again on a line boundary. */
  lemma GrowthStep(s: MonitorState, path: string, c: string, t: Tick)
    requires s.lastOffset <= |c| && WholeLines(c[..s.lastOffset]) && GrowsFrom(s.lastModTime, c, t)
    ensures Next(s, path, t).lastOffset <= |Seen(c, t)|
    ensures WholeLines(Seen(c, t)[..Next(s, path, t).lastOffset])
    ensures SplitLines(c[..s.lastOffset]) + Read(s, t) == SplitLines(Seen(c, t)[..Next(s, path, t).lastOffset])
    ensures Next(s, path, t).lastModTime == SeenTime(s.lastModTime, t)
    ensures !t.openFails && !t.seekFails && s.lastOffset == |c| ==> Next(s, path, t).lastOffset == |Seen(c, t)|
  {
    var o := s.lastOffset;
    if !Modified(s, t) {
      assert Read(s, t) == [];
      assert Seen(c, t) == c;
      Seqs.AppendNil(SplitLines(c[..o]));
    } else {
      var content := t.file.content;
      Seqs.PrefixTake(c, content, o);
      if !Reads(s, t) {
        assert Read(s, t) == [];
        Seqs.AppendNil(SplitLines(c[..o]));
      } else {
        var head, rest := content[..o], content[o..];
        Seqs.SplitAt(content, o);
        assert Unread(content, o) == rest;
        assert Read(s, t) == SplitLines(rest);
        SplitAppend(head, rest);
        Seqs.TakeAll(content);
      }
    }
  }

  lemma ConcatSnoc(batches: seq<seq<string>>, b: seq<string>)
    ensures Concat(batches + [b]) == Concat(batches) + b
  {
    Seqs.SnocParts(batches, b);
  }

  /** Over iterations on a file that only grows by whole lines, the lines read so far, after those of the text c0
      already behind the offset, are exactly the lines of the file up to the offset, which stays on a line
      boundary: each line is read once and in order. Stat, open and seek failures only delay the reading; when no
      open or seek fails, the offset is the length of the file. */
  lemma {:induction false} ExactlyOnce(s: MonitorState, path: string, c0: string, ticks: seq<Tick>)
    requires s.lastOffset <= |c0| && WholeLines(c0[..s.lastOffset]) && Grows(s.lastModTime, c0, ticks)
    ensures Run(s, path, ticks).lastOffset <= |Latest(c0, ticks)|
    ensures WholeLines(Latest(c0, ticks)[..Run(s, path, ticks).lastOffset])
    ensures SplitLines(c0[..s.lastOffset]) + Concat(Batches(s, path, ticks))
         == SplitLines(Latest(c0, ticks)[..Run(s, path, ticks).lastOffset])
    ensures Run(s, path, ticks).lastModTime == LatestTime(s.lastModTime, ticks)
    ensures s.lastOffset == |c0| && Opened(ticks) ==> Run(s, path, ticks).lastOffset == |Latest(c0, ticks)|
    decreases |ticks|
  {
    if ticks == [] {
      Seqs.AppendNil(SplitLines(c0[..s.lastOffset]));
    } else {
      var last := |ticks| - 1;
      var front := ticks[..last];
      var t := ticks[last];
      ExactlyOnce(s, path, c0, front);
      assert Opened(ticks) ==> Opened(front);
      var before := Run(s, path, front);
      var c := Latest(c0, front);
      GrowthStep(before, path, c, t);
      var batch := Read(before, t);
      ConcatSnoc(Batches(s, path, front), batch);
      Seqs.AppendAssoc(SplitLines(c0[..s.lastOffset]), Concat(Batches(s, path, front)), batch);
    }
  }

  /** A failed position query sets the offset to 0: the next iteration that reads the file reads it all again. */
  lemma FailedPositionQueryRereads(s: MonitorState, path: string, t: Tick, t': Tick)
    requires Reads(s, t) && t.tellFails
    requires Reads(Next(s, path, t), t') && t'.fault.None?
    ensures Next(s, path, t).lastOffset == 0
    ensures Read(Next(s, path, t), t') == SplitLines(t'.file.content)
  {
    assert Unread(t'.file.content, 0) == t'.file.content;
  }

  /** Over a run on an append-only file, the POSTs made are those for the matched lines after the stored
      position, each line once, in file order, up to the position finally reached. */
  lemma PostsEveryNewLineOnce(w: Watch, username: string, s: MonitorState, c0: string, ticks: seq<Tick>, respond: nat -> nat -> HttpOutcome)
    requires s.lastOffset <= |c0| && WholeLines(c0[..s.lastOffset]) && Grows(s.lastModTime, c0, ticks)
    ensures Run(s, w.filePath, ticks).lastOffset <= |Latest(c0, ticks)|
    ensures var before := SplitLines(c0[..s.lastOffset]);
            var after := SplitLines(Latest(c0, ticks)[..Run(s, w.filePath, ticks).lastOffset]);
            |before| <= |after| &&
            Posts(Outbox(w, username, Batches(s, w.filePath, ticks), respond), Deliveries(w, username, after[|before|..]))
  {
    var before := SplitLines(c0[..s.lastOffset]);
    var scanned := Concat(Batches(s, w.filePath, ticks));
    ExactlyOnce(s, w.filePath, c0, ticks);
    assert (before + scanned)[|before|..] == scanned;
  }

  // ---------------------------------------------------------------------
  // What a cycle posts

  /** A line is kept exactly as often as it occurs, when the filter accepts it, and never otherwise. */
  lemma {:induction false} FilterCount(lines: seq<string>, matches: string -> bool, x: string)
    ensures multiset(Filter(lines, matches))[x] == if matches(x) then multiset(lines)[x] else 0
    decreases |lines|
  {
    if lines != [] {
      var last := |lines| - 1;
      FilterCount(lines[..last], matches, x);
      assert lines == lines[..last] + [lines[last]];
    }
  }

  lemma MulStep(i: nat, f: nat, n: nat, j: nat)
    requires i < f && j < n
    ensures i * n + j < f * n
  {
    assert (i + 1) * n <= f * n;
  }

  /** The POSTs of a cycle are the matched lines times the URLs, line by line: POST number i * n + j sends the
      event of the i-th matched line to the j-th URL. */
  lemma {:induction false} CrossAt(matched: seq<string>, w: Watch, username: string, i: nat, j: nat)
    requires i < |matched| && j < |w.webhookURLs|
    ensures |Cross(matched, w, username)| == |matched| * |w.webhookURLs|
    ensures i * |w.webhookURLs| + j < |Cross(matched, w, username)|
    ensures Cross(matched, w, username)[i * |w.webhookURLs| + j] == Delivery(w.webhookURLs[j], Event(w, username, matched[i]))
    decreases |matched|
  {
    var n := |w.webhookURLs|;
    var last := |matched| - 1;
    var front := matched[..last];
    var head := Cross(front, w, username);
    assert (last + 1) * n == last * n + n;
    if i < last {
      CrossAt(front, w, username, i, j);
      MulStep(i, last, n, j);
    } else {
      assert i * n + j == |head| + j;
    }
  }

  /** Each attempt of a cycle goes to its delivery's URL with its event, and fails exactly when the answer is
      not a 200 response, whatever happened to the POSTs before it. */
  lemma AttemptAt(ds: seq<Delivery>, respond: nat -> HttpOutcome, k: nat)
    requires k < |ds|
    ensures Attempts(ds, respond)[k].url == ds[k].url
    ensures Attempts(ds, respond)[k].payload == ToWebhookPayload(ds[k].info)
    ensures Attempts(ds, respond)[k].err.None? <==> respond(k) == Response(StatusOK)
  {
    assert Attempts(ds, respond)[k] == SendToWebhook(ds[k].url, ds[k].info, respond(k));
  }

  /** A file whose only content is one plain line the filter accepts: the first cycle posts that line's event to
      every URL, in order, and stores the position just past its terminator. */
  lemma SingleLineFile(w: Watch, username: string, store: Store, line: string, m: int, t: Tick)
    requires w.filePath !in store && PlainLine(line) && w.matches(line) && m > ZeroTime
    requires t == Tick(Present(m, line + "\n"), false, false, None, false, false)
    ensures Deliveries(w, username, Read(Initial(store, w.filePath), t)) == FanOut(Event(w, username, line), w.webhookURLs)
    ensures Next(Initial(store, w.filePath), w.filePath, t).store == store[w.filePath := Progress(m, |line| + 1)]
  {
    SplitJoin([line]);
    assert JoinLines([line]) == line + "\n" by {
      assert [line][1..] == [];
    }
    assert Unread(line + "\n", 0) == line + "\n";
    assert Read(Initial(store, w.filePath), t) == [line];
    assert Filter([line], w.matches) == [line] by {
      assert [line][..0] == [];
    }
    assert Cross([line], w, username) == Cross([], w, username) + FanOut(Event(w, username, line), w.webhookURLs) by {
      assert [line][..0] == [];
    }
  }
}

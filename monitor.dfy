/**
  The per-file poll loop of monitorLogFile (main.go:136-211).

  The loop variables lastOffset and lastModTime and the progress store are
  the fields of class Monitor; one iteration of the `for` loop is Cycle, a
  finite prefix of the loop is Poll. Everything the environment decides in an
  iteration (what stat shows, which system calls fail, where the scanner
  stops, what each webhook answers) is an input. The pure functions Next and
  Read say what a cycle does to the state and which lines it reads; Cycle is
  proved to follow them.
*/
module Monitor {
  import opened Wrappers
  import opened Events
  import opened Webhook
  import opened Scanner
  import Seqs

  /** Go's zero time.Time (1 January of year 1, UTC) in nanoseconds since the Unix epoch. */
  const ZeroTime: int := -62135596800 * 1000000000

  /** A row of the progress store: last_mod_time and last_offset. */
  datatype Progress = Progress(lastModTime: int, lastOffset: nat)

  /** The file_mod_times table, keyed by file_path. */
  type Store = map<string, Progress>

  /** What a stat of the file shows: it fails, or the file has a modification time and contents. */
  datatype FileState = Missing | Present(modTime: int, content: string)

  /** A scanner that stops with an error. The lines it emits are those of the first `scanned` unread bytes: on a
      read error, whatever it had buffered, the last piece of a line included; on a token longer than its buffer,
      the lines before that token. `consumed` is how many bytes it had taken from the handle. */
  datatype ScanFault = ScanFault(scanned: nat, consumed: nat)

  /** Everything the environment decides during one iteration of the loop. */
  datatype Tick = Tick(
    file: FileState,
    openFails: bool,
    seekFails: bool,
    fault: Option<ScanFault>,
    tellFails: bool,  // Seek(0, io.SeekCurrent) fails; the 0 it returns becomes the offset
    saveFails: bool)  // the INSERT OR REPLACE fails

  /** The fixed arguments of one monitor: file path, webhook URLs, application label and compiled filter. */
  datatype Watch = Watch(filePath: string, webhookURLs: seq<string>, application: string, matches: string -> bool)

  /** The loop's variables together with the store. */
  datatype MonitorState = MonitorState(lastOffset: nat, lastModTime: int, store: Store)

  /** A POST the monitor intends: a URL and the event to send there. */
  datatype Delivery = Delivery(url: string, info: LogInfo)

  // ---------------------------------------------------------------------
  // Start-up

  /** The state before the first iteration: the stored row, or offset 0 and the zero time. */
  function Initial(store: Store, path: string): (s: MonitorState)
    ensures s.store == store
    ensures path in store ==> s.lastModTime == store[path].lastModTime && s.lastOffset == store[path].lastOffset
    ensures path !in store ==> s.lastOffset == 0 && s.lastModTime == ZeroTime
  {
    if path in store then MonitorState(store[path].lastOffset, store[path].lastModTime, store)
    else MonitorState(0, ZeroTime, store)
  }

  // ---------------------------------------------------------------------
  // Reading

  /** What reads from a handle positioned at offset return: nothing at or past the end. */
  function Unread(content: string, offset: nat): (rest: string)
    ensures offset <= |content| ==> content == content[..offset] + rest
    ensures |content| <= offset ==> rest == []
  {
    if offset < |content| then content[offset..] else []
  }

  /** The lines the scanner emits from the offset on. */
  function Scanned(content: string, offset: nat, fault: Option<ScanFault>): (lines: seq<string>)
    ensures fault.None? ==> lines == SplitLines(Unread(content, offset))
    ensures exists r :: 0 <= r <= |Unread(content, offset)| && lines == SplitLines(Unread(content, offset)[..r])
  {
    var rest := Unread(content, offset);
    match fault
    case None =>
      Seqs.TakeAll(rest);
      SplitLines(rest)
    case Some(f) => SplitLines(rest[..Min(f.scanned, |rest|)])
  }

  /** The handle position after the scan, as the position query reports it. */
  function EndOffset(content: string, offset: nat, fault: Option<ScanFault>, tellFails: bool): (end: nat)
    ensures tellFails ==> end == 0
    ensures !tellFails && fault.None? ==> end == Max(offset, |content|)
    ensures !tellFails ==> offset <= end <= Max(offset, |content|)
  {
    if tellFails then 0
    else match fault
      case None => Max(offset, |content|)
      case Some(f) => offset + Min(f.consumed, |Unread(content, offset)|)
  }

  /** The file's modification time is strictly after the last one seen. */
  predicate Modified(s: MonitorState, t: Tick) {
    t.file.Present? && t.file.modTime > s.lastModTime
  }

  /** The iteration gets as far as scanning the file. */
  predicate Reads(s: MonitorState, t: Tick) {
    Modified(s, t) && !t.openFails && !t.seekFails
  }

  /** The lines an iteration scans, in file order. */
  function Read(s: MonitorState, t: Tick): (lines: seq<string>)
    ensures !Reads(s, t) ==> lines == []
    ensures Reads(s, t) && t.fault.None? ==> lines == SplitLines(Unread(t.file.content, s.lastOffset))
    ensures Reads(s, t) ==>
              exists r :: 0 <= r <= |Unread(t.file.content, s.lastOffset)| && lines == SplitLines(Unread(t.file.content, s.lastOffset)[..r])
    ensures t.file.Present? && |t.file.content| <= s.lastOffset ==> lines == []
  {
    if Reads(s, t) then Scanned(t.file.content, s.lastOffset, t.fault) else []
  }

  /** The state after one iteration of the loop for the file at path. */
  function Next(s: MonitorState, path: string, t: Tick): (r: MonitorState)
    // stat failed, or the file is not newer: nothing changes
    ensures !Modified(s, t) ==> r == s
    // the new modification time is kept even when opening or seeking fails
    ensures Modified(s, t) ==> r.lastModTime == t.file.modTime
    ensures Modified(s, t) && !Reads(s, t) ==> r.lastOffset == s.lastOffset && r.store == s.store
    // a reading iteration stores exactly the in-memory progress under path, even after a scanner error
    ensures Reads(s, t) && !t.saveFails ==> r.store == s.store[path := Progress(r.lastModTime, r.lastOffset)]
    ensures Reads(s, t) && t.saveFails ==> r.store == s.store
    ensures Reads(s, t) && !t.tellFails && t.fault.None? ==> r.lastOffset == Max(s.lastOffset, |t.file.content|)
    ensures Reads(s, t) && t.tellFails ==> r.lastOffset == 0
    // unless the position query fails, the offset never moves back
    ensures !t.tellFails ==> s.lastOffset <= r.lastOffset
    // no other row of the store changes
    ensures forall p :: p != path ==> (p in r.store <==> p in s.store)
    ensures forall p :: p != path && p in s.store ==> r.store[p] == s.store[p]
  {
    if !Modified(s, t) then s
    else if !Reads(s, t) then s.(lastModTime := t.file.modTime)
    else
      var offset := EndOffset(t.file.content, s.lastOffset, t.fault, t.tellFails);
      var store := if t.saveFails then s.store else s.store[path := Progress(t.file.modTime, offset)];
      MonitorState(offset, t.file.modTime, store)
  }

  // ---------------------------------------------------------------------
  // Filtering and fan-out

  /** The lines the compiled filter accepts, in their order. */
  function Filter(lines: seq<string>, matches: string -> bool): (kept: seq<string>)
    ensures |kept| <= |lines|
    ensures forall k :: 0 <= k < |kept| ==> matches(kept[k]) && kept[k] in lines
  {
    if lines == [] then []
    else
      var last := |lines| - 1;
      Filter(lines[..last], matches) + (if matches(lines[last]) then [lines[last]] else [])
  }

  /** The event for one matched line. */
  function Event(w: Watch, username: string, line: string): (info: LogInfo)
    ensures info.eventName == w.application && info.username == username
    ensures info.actionType == line && info.status == ErrorStatus
  {
    ParseLogEntry(line, w.application, username, ErrorStatus)
  }

  /** One event to every URL, in list order. */
  function FanOut(info: LogInfo, urls: seq<string>): (ds: seq<Delivery>)
    ensures |ds| == |urls|
  {
    seq(|urls|, j requires 0 <= j < |urls| => Delivery(urls[j], info))
  }

  /** Matched lines times URLs, flattened line by line. */
  function Cross(matched: seq<string>, w: Watch, username: string): (ds: seq<Delivery>)
    ensures |ds| == |matched| * |w.webhookURLs|
    ensures forall k :: 0 <= k < |ds| ==>
              ds[k].url in w.webhookURLs && ds[k].info.actionType in matched && ds[k].info == Event(w, username, ds[k].info.actionType)
  {
    if matched == [] then []
    else
      var last := |matched| - 1;
      assert (last + 1) * |w.webhookURLs| == last * |w.webhookURLs| + |w.webhookURLs|;
      Cross(matched[..last], w, username) + FanOut(Event(w, username, matched[last]), w.webhookURLs)
  }

  /** The POSTs an iteration that scanned these lines makes. */
  function Deliveries(w: Watch, username: string, lines: seq<string>): (ds: seq<Delivery>)
    ensures |ds| == |Filter(lines, w.matches)| * |w.webhookURLs|
    ensures forall k :: 0 <= k < |ds| ==>
              var line := ds[k].info.actionType;
              ds[k].url in w.webhookURLs && line in lines && w.matches(line) && ds[k].info == Event(w, username, line)
  {
    Cross(Filter(lines, w.matches), w, username)
  }

  /** The attempts are POSTs of these deliveries, one each, in order. */
  predicate Posts(attempts: seq<Attempt>, ds: seq<Delivery>) {
    |attempts| == |ds| &&
    forall k :: 0 <= k < |ds| ==> attempts[k].url == ds[k].url && attempts[k].payload == ToWebhookPayload(ds[k].info)
  }

  /** The attempts made for these deliveries; respond(k) is what the network does with the k-th of them. */
  function Attempts(ds: seq<Delivery>, respond: nat -> HttpOutcome): (r: seq<Attempt>)
    ensures |r| == |ds|
    ensures Posts(r, ds)
  {
    var r := seq(|ds|, k requires 0 <= k < |ds| => SendToWebhook(ds[k].url, ds[k].info, respond(k)));
    assert forall k :: 0 <= k < |ds| ==> r[k] == SendToWebhook(ds[k].url, ds[k].info, respond(k));
    r
  }

  // ---------------------------------------------------------------------
  // Several iterations

  /** The state after the given iterations. */
  function Run(s: MonitorState, path: string, ticks: seq<Tick>): (r: MonitorState)
    ensures s.lastModTime <= r.lastModTime
    ensures (forall k :: 0 <= k < |ticks| ==> !ticks[k].tellFails) ==> s.lastOffset <= r.lastOffset
    ensures forall p :: p != path ==> (p in r.store <==> p in s.store)
    ensures forall p :: p != path && p in s.store ==> r.store[p] == s.store[p]
  {
    if ticks == [] then s
    else
      var last := |ticks| - 1;
      Next(Run(s, path, ticks[..last]), path, ticks[last])
  }

  /** The lines each of the given iterations scanned, one batch per iteration. */
  function Batches(s: MonitorState, path: string, ticks: seq<Tick>): (batches: seq<seq<string>>)
    ensures |batches| == |ticks|
  {
    if ticks == [] then []
    else
      var last := |ticks| - 1;
      Batches(s, path, ticks[..last]) + [Read(Run(s, path, ticks[..last]), ticks[last])]
  }

  function Concat(batches: seq<seq<string>>): seq<string> {
    if batches == [] then [] else Concat(batches[..|batches| - 1]) + batches[|batches| - 1]
  }

  /** The attempts made for successive batches of scanned lines; respond(k) answers the POSTs of the k-th batch. */
  function Outbox(w: Watch, username: string, batches: seq<seq<string>>, respond: nat -> nat -> HttpOutcome): (ob: seq<Attempt>)
    ensures Posts(ob, Deliveries(w, username, Concat(batches)))
  {
    if batches == [] then []
    else
      var last := |batches| - 1;
      var front := Outbox(w, username, batches[..last], respond);
      var now := Deliveries(w, username, batches[last]);
      DeliveriesAppend(w, username, Concat(batches[..last]), batches[last]);
      PostsAppend(front, Deliveries(w, username, Concat(batches[..last])), Attempts(now, respond(last)), now);
      front + Attempts(now, respond(last))
  }

  // ---------------------------------------------------------------------
  // One step more

  /** Filtering text read in two parts is filtering each part. */
  lemma {:induction false} FilterAppend(a: seq<string>, b: seq<string>, matches: string -> bool)
    ensures Filter(a + b, matches) == Filter(a, matches) + Filter(b, matches)
    decreases |b|
  {
    if b == [] {
      Seqs.AppendNil(a);
      Seqs.AppendNil(Filter(a, matches));
    } else {
      var last := |b| - 1;
      var front := b[..last];
      Seqs.AppendAssoc(a, front, [b[last]]);
      assert front + [b[last]] == b;
      Seqs.SnocParts(a + front, b[last]);
      FilterAppend(a, front, matches);
      Seqs.AppendAssoc(Filter(a, matches), Filter(front, matches), if matches(b[last]) then [b[last]] else []);
    }
  }

  /** Posting the lines matched in two parts is posting each part. */
  lemma {:induction false} CrossAppend(a: seq<string>, b: seq<string>, w: Watch, username: string)
    ensures Cross(a + b, w, username) == Cross(a, w, username) + Cross(b, w, username)
    decreases |b|
  {
    if b == [] {
      Seqs.AppendNil(a);
      Seqs.AppendNil(Cross(a, w, username));
    } else {
      var last := |b| - 1;
      var front := b[..last];
      Seqs.AppendAssoc(a, front, [b[last]]);
      assert front + [b[last]] == b;
      Seqs.SnocParts(a + front, b[last]);
      CrossAppend(a, front, w, username);
      Seqs.AppendAssoc(Cross(a, w, username), Cross(front, w, username), FanOut(Event(w, username, b[last]), w.webhookURLs));
    }
  }

  /** The POSTs for lines scanned in two parts are the POSTs for each part. */
  lemma DeliveriesAppend(w: Watch, username: string, a: seq<string>, b: seq<string>)
    ensures Deliveries(w, username, a + b) == Deliveries(w, username, a) + Deliveries(w, username, b)
  {
    FilterAppend(a, b, w.matches);
    CrossAppend(Filter(a, w.matches), Filter(b, w.matches), w, username);
  }

  lemma PostsAppend(a1: seq<Attempt>, d1: seq<Delivery>, a2: seq<Attempt>, d2: seq<Delivery>)
    requires Posts(a1, d1) && Posts(a2, d2)
    ensures Posts(a1 + a2, d1 + d2)
  {
    forall k | 0 <= k < |d1 + d2|
      ensures (a1 + a2)[k].url == (d1 + d2)[k].url && (a1 + a2)[k].payload == ToWebhookPayload((d1 + d2)[k].info)
    {
      if k >= |d1| {
        assert (a1 + a2)[k] == a2[k - |d1|] && (d1 + d2)[k] == d2[k - |d1|];
      }
    }
  }

  lemma AttemptsSnoc(ds: seq<Delivery>, d: Delivery, respond: nat -> HttpOutcome)
    ensures Attempts(ds + [d], respond) == Attempts(ds, respond) + [SendToWebhook(d.url, d.info, respond(|ds|))]
  {
    Seqs.SnocParts(ds, d);
  }

  lemma FanOutSnoc(info: LogInfo, urls: seq<string>, j: nat)
    requires j < |urls|
    ensures FanOut(info, urls[..j + 1]) == FanOut(info, urls[..j]) + [Delivery(urls[j], info)]
  {
  }

  lemma DeliveriesSnoc(w: Watch, username: string, lines: seq<string>, i: nat)
    requires i < |lines|
    ensures w.matches(lines[i]) ==>
              Deliveries(w, username, lines[..i + 1])
              == Deliveries(w, username, lines[..i]) + FanOut(Event(w, username, lines[i]), w.webhookURLs)
    ensures !w.matches(lines[i]) ==> Deliveries(w, username, lines[..i + 1]) == Deliveries(w, username, lines[..i])
  {
    Seqs.TakeSucc(lines, i);
    var kept := Filter(lines[..i], w.matches);
    if w.matches(lines[i]) {
      Seqs.SnocParts(kept, lines[i]);
    } else {
      Seqs.AppendNil(kept);
    }
  }

  lemma FanOutNone(base: seq<Attempt>, done: seq<Delivery>, info: LogInfo, urls: seq<string>, respond: nat -> HttpOutcome)
    ensures base + Attempts(done + FanOut(info, urls[..0]), respond) == base + Attempts(done, respond)
  {
    assert FanOut(info, urls[..0]) == [];
    Seqs.AppendNil(done);
  }

  /** One more POST in the fan-out of one line. */
  lemma FanOutStep(base: seq<Attempt>, done: seq<Delivery>, info: LogInfo, urls: seq<string>, j: nat, respond: nat -> HttpOutcome)
    requires j < |urls|
    ensures base + Attempts(done + FanOut(info, urls[..j + 1]), respond)
         == (base + Attempts(done + FanOut(info, urls[..j]), respond)) + [SendToWebhook(urls[j], info, respond(|done| + j))]
  {
    var d := Delivery(urls[j], info);
    var prefix := done + FanOut(info, urls[..j]);
    FanOutSnoc(info, urls, j);
    Seqs.AppendAssoc(done, FanOut(info, urls[..j]), [d]);
    assert done + FanOut(info, urls[..j + 1]) == prefix + [d];
    AttemptsSnoc(prefix, d, respond);
    assert |prefix| == |done| + j;
    var a := SendToWebhook(urls[j], info, respond(|done| + j));
    assert Attempts(prefix + [d], respond) == Attempts(prefix, respond) + [a];
    Seqs.AppendAssoc(base, Attempts(prefix, respond), [a]);
  }

  lemma RunSnoc(s: MonitorState, path: string, ticks: seq<Tick>, k: nat)
    requires k < |ticks|
    ensures Run(s, path, ticks[..k + 1]) == Next(Run(s, path, ticks[..k]), path, ticks[k])
  {
    Seqs.TakeSucc(ticks, k);
  }

  lemma BatchesSnoc(s: MonitorState, path: string, ticks: seq<Tick>, k: nat)
    requires k < |ticks|
    ensures Batches(s, path, ticks[..k + 1]) == Batches(s, path, ticks[..k]) + [Read(Run(s, path, ticks[..k]), ticks[k])]
  {
    Seqs.TakeSucc(ticks, k);
  }

  lemma OutboxSnoc(w: Watch, username: string, batches: seq<seq<string>>, b: seq<string>, respond: nat -> nat -> HttpOutcome)
    ensures Outbox(w, username, batches + [b], respond)
         == Outbox(w, username, batches, respond) + Attempts(Deliveries(w, username, b), respond(|batches|))
  {
    Seqs.SnocParts(batches, b);
  }

  // ---------------------------------------------------------------------
  // The monitor

  class Monitor {
    const watch: Watch
    const username: string
    var lastOffset: nat
    var lastModTime: int
    var store: Store
    /** Every POST issued so far, with the error it returned. */
    var sent: seq<Attempt>

    function State(): MonitorState
      reads this
    {
      MonitorState(lastOffset, lastModTime, store)
    }

    constructor (watch: Watch, username: string, store: Store)
      ensures this.watch == watch && this.username == username
      ensures State() == Initial(store, watch.filePath) && sent == []
    {
      this.watch := watch;
      this.username := username;
      this.store := store;
      if watch.filePath in store {
        lastOffset, lastModTime := store[watch.filePath].lastOffset, store[watch.filePath].lastModTime;
      } else {
        lastOffset, lastModTime := 0, ZeroTime;
      }
      sent := [];
    }

    /** One iteration of the poll loop; respond(n) is what the network does with the n-th POST of the iteration. */
    method Cycle(t: Tick, respond: nat -> HttpOutcome)
      modifies this
      ensures State() == Next(old(State()), watch.filePath, t)
      ensures sent == old(sent) + Attempts(Deliveries(watch, username, Read(old(State()), t)), respond)
    {
      if !t.file.Present? {
        return;  // stat failed
      }
      var modTime, content := t.file.modTime, t.file.content;
      if modTime <= lastModTime {
        return;
      }
      lastModTime := modTime;
      if t.openFails || t.seekFails {
        return;
      }
      var lines := Scanned(content, lastOffset, t.fault);
      Dispatch(lines, respond);
      lastOffset := EndOffset(content, lastOffset, t.fault, t.tellFails);
      if !t.saveFails {
        store := store[watch.filePath := Progress(lastModTime, lastOffset)];
      }
    }

    /** The scanner loop: every line the filter accepts goes to every URL, in order. */
    method Dispatch(lines: seq<string>, respond: nat -> HttpOutcome)
      modifies this`sent
      ensures sent == old(sent) + Attempts(Deliveries(watch, username, lines), respond)
    {
      var n := 0;  // POSTs made so far in this iteration
      var i := 0;
      while i < |lines|
        invariant 0 <= i <= |lines|
        invariant n == |Deliveries(watch, username, lines[..i])|
        invariant sent == old(sent) + Attempts(Deliveries(watch, username, lines[..i]), respond)
      {
        var entry := lines[i];
        DeliveriesSnoc(watch, username, lines, i);
        if watch.matches(entry) {
          var info := ParseLogEntry(entry, watch.application, username, ErrorStatus);
          n := Notify(info, old(sent), Deliveries(watch, username, lines[..i]), n, respond);
        }
        i := i + 1;
      }
      Seqs.TakeAll(lines);
    }

    /** One event to every webhook URL in list order, whatever each POST returns;
        the POSTs already made in this iteration are those for done. */
    method Notify(info: LogInfo, ghost base: seq<Attempt>, ghost done: seq<Delivery>, n: nat, respond: nat -> HttpOutcome)
      returns (n': nat)
      requires n == |done| && sent == base + Attempts(done, respond)
      modifies this`sent
      ensures n' == |done + FanOut(info, watch.webhookURLs)|
      ensures sent == base + Attempts(done + FanOut(info, watch.webhookURLs), respond)
    {
      var urls := watch.webhookURLs;
      FanOutNone(base, done, info, urls, respond);
      n' := n;
      var j := 0;
      while j < |urls|
        invariant 0 <= j <= |urls|
        invariant n' == |done| + j
        invariant sent == base + Attempts(done + FanOut(info, urls[..j]), respond)
      {
        FanOutStep(base, done, info, urls, j, respond);
        sent := sent + [SendToWebhook(urls[j], info, respond(n'))];
        n' := n' + 1;
        j := j + 1;
      }
      Seqs.TakeAll(urls);
    }

    /** The first iterations of the loop, one per tick; respond(k) answers the POSTs of the k-th iteration. */
    method Poll(ticks: seq<Tick>, respond: nat -> nat -> HttpOutcome)
      modifies this
      ensures State() == Run(old(State()), watch.filePath, ticks)
      ensures sent == old(sent) + Outbox(watch, username, Batches(old(State()), watch.filePath, ticks), respond)
    {
      ghost var s0, sent0 := State(), sent;
      var k := 0;
      while k < |ticks|
        invariant 0 <= k <= |ticks|
        invariant State() == Run(s0, watch.filePath, ticks[..k])
        invariant sent == sent0 + Outbox(watch, username, Batches(s0, watch.filePath, ticks[..k]), respond)
      {
        RunSnoc(s0, watch.filePath, ticks, k);
        BatchesSnoc(s0, watch.filePath, ticks, k);
        ghost var done := Batches(s0, watch.filePath, ticks[..k]);
        ghost var batch := Read(State(), ticks[k]);
        OutboxSnoc(watch, username, done, batch, respond);
        Cycle(ticks[k], respond(k));
        Seqs.AppendAssoc(sent0, Outbox(watch, username, done, respond), Attempts(Deliveries(watch, username, batch), respond(k)));
        k := k + 1;
      }
      Seqs.TakeAll(ticks);
    }
  }

  /** Start-up of a monitor: the current user and the stored row are looked up
      first; a failure of either ends the monitor before its loop. */
  method Start(w: Watch, store: Store, currentUser: Option<string>, queryFails: bool) returns (m: Option<Monitor>)
    ensures m.None? <==> currentUser.None? || queryFails
    ensures m.Some? ==> fresh(m.value) && m.value.watch == w && m.value.username == currentUser.value
    ensures m.Some? ==> m.value.State() == Initial(store, w.filePath) && m.value.sent == []
  {
    if currentUser.None? || queryFails {
      return None;
    }
    var monitor := new Monitor(w, currentUser.value, store);
    return Some(monitor);
  }
}

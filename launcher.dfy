/**
  The launch loop of main (main.go:113-131): for every target and every path
  of it, the glob is expanded and the target's filter compiled; a failure of
  either skips that path, and every matched file gets a monitor that posts to
  the first client's webhook URLs. Reading the first client panics when the
  configuration has none, at the first monitor launched.

  Globbing and regular-expression compilation are inputs: glob(path) is the
  list of matched files, or None for a bad pattern, and compiles(filter) says
  whether the filter is a valid expression.
*/
module Launcher {
  import opened Wrappers
  import Seqs

  datatype Client = Client(webhookURLs: seq<string>)

  datatype Target = Target(filter: string, application: string, paths: seq<string>)

  /** The arguments a monitor is started with. */
  datatype Launch = Launch(file: string, webhookURLs: seq<string>, application: string, filter: string)

  /** The index expression on an empty client list panics. */
  datatype LaunchError = NoClient

  /** The monitors one path of a target starts: one per matched file, in glob order. */
  function PathLaunches(t: Target, path: string, urls: seq<string>, glob: string -> Option<seq<string>>, compiles: string -> bool)
    : (ls: seq<Launch>)
    ensures glob(path).None? || !compiles(t.filter) ==> ls == []
    ensures glob(path).Some? && compiles(t.filter) ==>
              |ls| == |glob(path).value| &&
              forall k :: 0 <= k < |ls| ==> ls[k] == Launch(glob(path).value[k], urls, t.application, t.filter)
  {
    match glob(path)
    case None => []
    case Some(files) =>
      if !compiles(t.filter) then []
      else seq(|files|, k requires 0 <= k < |files| => Launch(files[k], urls, t.application, t.filter))
  }

  /** The monitors the given paths of a target start, path after path. */
  function TargetLaunches(t: Target, paths: seq<string>, urls: seq<string>, glob: string -> Option<seq<string>>, compiles: string -> bool)
    : (ls: seq<Launch>)
    ensures !compiles(t.filter) ==> ls == []
    ensures forall k :: 0 <= k < |ls| ==>
              ls[k].webhookURLs == urls && ls[k].application == t.application && ls[k].filter == t.filter
  {
    if paths == [] then []
    else
      var last := |paths| - 1;
      TargetLaunches(t, paths[..last], urls, glob, compiles) + PathLaunches(t, paths[last], urls, glob, compiles)
  }

  /** The monitors the given targets start, target after target. */
  function Launches(targets: seq<Target>, urls: seq<string>, glob: string -> Option<seq<string>>, compiles: string -> bool)
    : (ls: seq<Launch>)
    ensures forall k :: 0 <= k < |ls| ==> ls[k].webhookURLs == urls && compiles(ls[k].filter)
  {
    if targets == [] then []
    else
      var last := |targets| - 1;
      Launches(targets[..last], urls, glob, compiles) + TargetLaunches(targets[last], targets[last].paths, urls, glob, compiles)
  }

  /** The webhook URLs every monitor gets. */
  function Urls(clients: seq<Client>): seq<string> {
    if clients == [] then [] else clients[0].webhookURLs
  }

  /** What the launch loop does: start every monitor, or panic at the first one when there is no client. */
  function Plan(clients: seq<Client>, targets: seq<Target>, glob: string -> Option<seq<string>>, compiles: string -> bool)
    : (r: Result<seq<Launch>, LaunchError>)
    ensures clients != [] ==> r.Success?
    ensures r.Failure? ==> clients == [] && r.error == NoClient
    ensures r.Success? ==>
              forall k :: 0 <= k < |r.value| ==> r.value[k].webhookURLs == Urls(clients) && compiles(r.value[k].filter)
  {
    var ls := Launches(targets, Urls(clients), glob, compiles);
    if clients == [] && ls != [] then Failure(NoClient) else Success(ls)
  }

  // ---------------------------------------------------------------------
  // One step more

  lemma TargetLaunchesSnoc(t: Target, paths: seq<string>, p: nat, urls: seq<string>, glob: string -> Option<seq<string>>, compiles: string -> bool)
    requires p < |paths|
    ensures TargetLaunches(t, paths[..p + 1], urls, glob, compiles)
         == TargetLaunches(t, paths[..p], urls, glob, compiles) + PathLaunches(t, paths[p], urls, glob, compiles)
  {
    Seqs.TakeSucc(paths, p);
  }

  lemma LaunchesSnoc(targets: seq<Target>, i: nat, urls: seq<string>, glob: string -> Option<seq<string>>, compiles: string -> bool)
    requires i < |targets|
    ensures Launches(targets[..i + 1], urls, glob, compiles)
         == Launches(targets[..i], urls, glob, compiles) + TargetLaunches(targets[i], targets[i].paths, urls, glob, compiles)
  {
    Seqs.TakeSucc(targets, i);
  }

  /** The monitors of a path's first f files. */
  lemma PathLaunchesPrefix(t: Target, path: string, files: seq<string>, f: nat, urls: seq<string>, glob: string -> Option<seq<string>>, compiles: string -> bool)
    requires glob(path) == Some(files) && compiles(t.filter) && f < |files|
    ensures PathLaunches(t, path, urls, glob, compiles)[..f + 1]
         == PathLaunches(t, path, urls, glob, compiles)[..f] + [Launch(files[f], urls, t.application, t.filter)]
  {
    var ls := PathLaunches(t, path, urls, glob, compiles);
    Seqs.TakeSucc(ls, f);
  }

  // ---------------------------------------------------------------------
  // Splitting the lists of targets and paths

  /** The paths of a target launch independently of each other. */
  lemma {:induction false} TargetLaunchesAppend(t: Target, ps: seq<string>, qs: seq<string>, urls: seq<string>,
                                                glob: string -> Option<seq<string>>, compiles: string -> bool)
    ensures TargetLaunches(t, ps + qs, urls, glob, compiles)
         == TargetLaunches(t, ps, urls, glob, compiles) + TargetLaunches(t, qs, urls, glob, compiles)
    decreases |qs|
  {
    if qs == [] {
      Seqs.AppendNil(ps);
      Seqs.AppendNil(TargetLaunches(t, ps, urls, glob, compiles));
    } else {
      var last := |qs| - 1;
      var front := qs[..last];
      Seqs.AppendAssoc(ps, front, [qs[last]]);
      assert front + [qs[last]] == qs;
      Seqs.SnocParts(ps + front, qs[last]);
      TargetLaunchesAppend(t, ps, front, urls, glob, compiles);
      Seqs.AppendAssoc(TargetLaunches(t, ps, urls, glob, compiles), TargetLaunches(t, front, urls, glob, compiles),
                       PathLaunches(t, qs[last], urls, glob, compiles));
    }
  }

  /** The targets launch independently of each other. */
  lemma {:induction false} LaunchesAppend(ts: seq<Target>, us: seq<Target>, urls: seq<string>,
                                          glob: string -> Option<seq<string>>, compiles: string -> bool)
    ensures Launches(ts + us, urls, glob, compiles) == Launches(ts, urls, glob, compiles) + Launches(us, urls, glob, compiles)
    decreases |us|
  {
    if us == [] {
      Seqs.AppendNil(ts);
      Seqs.AppendNil(Launches(ts, urls, glob, compiles));
    } else {
      var last := |us| - 1;
      var front := us[..last];
      Seqs.AppendAssoc(ts, front, [us[last]]);
      assert front + [us[last]] == us;
      Seqs.SnocParts(ts + front, us[last]);
      LaunchesAppend(ts, front, urls, glob, compiles);
      Seqs.AppendAssoc(Launches(ts, urls, glob, compiles), Launches(front, urls, glob, compiles),
                       TargetLaunches(us[last], us[last].paths, urls, glob, compiles));
    }
  }

  // ---------------------------------------------------------------------
  // The loop

  /** The launch loop of main; the result lists the monitors started, in the order the goroutines are started. */
  method LaunchAll(clients: seq<Client>, targets: seq<Target>, glob: string -> Option<seq<string>>, compiles: string -> bool)
    returns (r: Result<seq<Launch>, LaunchError>)
    ensures r == Plan(clients, targets, glob, compiles)
  {
    var launched: seq<Launch> := [];
    var i := 0;
    while i < |targets|
      invariant 0 <= i <= |targets|
      invariant launched == Launches(targets[..i], Urls(clients), glob, compiles)
      invariant clients == [] ==> launched == []
    {
      var panicked;
      launched, panicked := LaunchTarget(clients, targets, i, launched, glob, compiles);
      if panicked {
        return Failure(NoClient);
      }
      i := i + 1;
    }
    Seqs.TakeAll(targets);
    r := Success(launched);
  }

  /** The paths of target i, after the monitors of the targets before it; panicked when a monitor is due and there is no client. */
  method LaunchTarget(clients: seq<Client>, targets: seq<Target>, i: nat, launched: seq<Launch>,
                      glob: string -> Option<seq<string>>, compiles: string -> bool)
    returns (launched': seq<Launch>, panicked: bool)
    requires i < |targets| && launched == Launches(targets[..i], Urls(clients), glob, compiles)
    requires clients == [] ==> launched == []
    ensures panicked ==> Plan(clients, targets, glob, compiles) == Failure(NoClient)
    ensures !panicked ==> launched' == Launches(targets[..i + 1], Urls(clients), glob, compiles)
    ensures !panicked && clients == [] ==> launched' == []
  {
    ghost var urls := Urls(clients);
    var target := targets[i];
    launched' := launched;
    var p := 0;
    while p < |target.paths|
      invariant 0 <= p <= |target.paths|
      invariant launched' == launched + TargetLaunches(target, target.paths[..p], urls, glob, compiles)
      invariant clients == [] ==> launched' == []
    {
      TargetLaunchesSnoc(target, target.paths, p, urls, glob, compiles);
      ghost var before := TargetLaunches(target, target.paths[..p], urls, glob, compiles);
      launched', panicked := LaunchPath(clients, targets, i, p, launched', glob, compiles);
      if panicked {
        return;
      }
      Seqs.AppendAssoc(launched, before, PathLaunches(target, target.paths[p], urls, glob, compiles));
      p := p + 1;
    }
    Seqs.TakeAll(target.paths);
    LaunchesSnoc(targets, i, urls, glob, compiles);
    panicked := false;
  }

  /** Path p of target i: expand the glob, compile the filter, and start a monitor per matched file. */
  method LaunchPath(clients: seq<Client>, targets: seq<Target>, i: nat, p: nat, launched: seq<Launch>,
                    glob: string -> Option<seq<string>>, compiles: string -> bool)
    returns (launched': seq<Launch>, panicked: bool)
    requires i < |targets| && p < |targets[i].paths|
    requires clients == [] ==> launched == []
    ensures panicked ==> Plan(clients, targets, glob, compiles) == Failure(NoClient)
    ensures !panicked ==> launched' == launched + PathLaunches(targets[i], targets[i].paths[p], Urls(clients), glob, compiles)
    ensures !panicked && clients == [] ==> launched' == []
  {
    ghost var urls := Urls(clients);
    var target := targets[i];
    var path := target.paths[p];
    panicked := false;
    var matched := glob(path);
    if matched.None? {
      Seqs.AppendNil(launched);
      return launched, false;  // bad glob pattern
    }
    var files := matched.value;
    if !compiles(target.filter) {
      Seqs.AppendNil(launched);
      return launched, false;  // bad filter
    }
    ghost var all := PathLaunches(target, path, urls, glob, compiles);
    launched' := launched;
    var f := 0;
    while f < |files|
      invariant 0 <= f <= |files|
      invariant launched' == launched + all[..f]
      invariant clients == [] ==> launched' == []
    {
      if clients == [] {
        PlanPanics(clients, targets, i, p, f, glob, compiles);
        return launched', true;
      }
      PathLaunchesPrefix(target, path, files, f, urls, glob, compiles);
      Seqs.AppendAssoc(launched, all[..f], [Launch(files[f], urls, target.application, target.filter)]);
      launched' := launched' + [Launch(files[f], clients[0].webhookURLs, target.application, target.filter)];
      f := f + 1;
    }
    Seqs.TakeAll(all);
  }

  /** A file matched under a good pattern and filter makes the plan panic when there is no client. */
  lemma PlanPanics(clients: seq<Client>, targets: seq<Target>, i: nat, p: nat, f: nat,
                   glob: string -> Option<seq<string>>, compiles: string -> bool)
    requires clients == [] && i < |targets| && p < |targets[i].paths|
    requires glob(targets[i].paths[p]).Some? && f < |glob(targets[i].paths[p]).value| && compiles(targets[i].filter)
    ensures Plan(clients, targets, glob, compiles) == Failure(NoClient)
  {
    var t := targets[i];
    var ls := PathLaunches(t, t.paths[p], [], glob, compiles);
    assert ls != [];
    TargetLaunchesAppend(t, t.paths[..p + 1], t.paths[p + 1..], [], glob, compiles);
    Seqs.SplitAt(t.paths, p + 1);
    TargetLaunchesSnoc(t, t.paths, p, [], glob, compiles);
    assert TargetLaunches(t, t.paths, [], glob, compiles) != [];
    LaunchesAppend(targets[..i + 1], targets[i + 1..], [], glob, compiles);
    Seqs.SplitAt(targets, i + 1);
    LaunchesSnoc(targets, i, [], glob, compiles);
  }

  // ---------------------------------------------------------------------
  // Properties of the plan

  /** Monitor l is one that path of target t starts: the glob and the filter are good,
      l's file is among the matches and l carries the URLs and the target's label and filter. */
  predicate Started(t: Target, path: string, urls: seq<string>, glob: string -> Option<seq<string>>, compiles: string -> bool, l: Launch) {
    glob(path).Some? && compiles(t.filter) && l.file in glob(path).value && l == Launch(l.file, urls, t.application, t.filter)
  }

  lemma PathLaunchIn(t: Target, path: string, urls: seq<string>, glob: string -> Option<seq<string>>, compiles: string -> bool, l: Launch)
    ensures l in PathLaunches(t, path, urls, glob, compiles) <==> Started(t, path, urls, glob, compiles, l)
  {
    if Started(t, path, urls, glob, compiles, l) {
      var files := glob(path).value;
      var k :| 0 <= k < |files| && files[k] == l.file;
      assert PathLaunches(t, path, urls, glob, compiles)[k] == l;
    }
  }

  /** A target starts exactly the monitors one of its paths starts. */
  lemma {:induction false} TargetLaunchIn(t: Target, paths: seq<string>, urls: seq<string>,
                                          glob: string -> Option<seq<string>>, compiles: string -> bool, l: Launch)
    ensures l in TargetLaunches(t, paths, urls, glob, compiles)
        <==> exists p :: 0 <= p < |paths| && Started(t, paths[p], urls, glob, compiles, l)
    decreases |paths|
  {
    if paths != [] {
      var last := |paths| - 1;
      var front := paths[..last];
      TargetLaunchIn(t, front, urls, glob, compiles, l);
      PathLaunchIn(t, paths[last], urls, glob, compiles, l);
      if exists p :: 0 <= p < |paths| && Started(t, paths[p], urls, glob, compiles, l) {
        var p :| 0 <= p < |paths| && Started(t, paths[p], urls, glob, compiles, l);
        if p < last {
          assert front[p] == paths[p];
        }
      }
      if l in TargetLaunches(t, front, urls, glob, compiles) {
        var p :| 0 <= p < |front| && Started(t, front[p], urls, glob, compiles, l);
        assert paths[p] == front[p];
      }
    }
  }

  /** Path p of target i starts monitor l. */
  predicate StartedBy(targets: seq<Target>, i: int, p: int, urls: seq<string>,
                      glob: string -> Option<seq<string>>, compiles: string -> bool, l: Launch) {
    0 <= i < |targets| && 0 <= p < |targets[i].paths| && Started(targets[i], targets[i].paths[p], urls, glob, compiles, l)
  }

  /** The plan starts exactly the monitors some path of some target starts. */
  lemma {:induction false} LaunchIn(targets: seq<Target>, urls: seq<string>,
                                    glob: string -> Option<seq<string>>, compiles: string -> bool, l: Launch)
    ensures l in Launches(targets, urls, glob, compiles) <==> exists i, p :: StartedBy(targets, i, p, urls, glob, compiles, l)
    decreases |targets|
  {
    if targets != [] {
      var last := |targets| - 1;
      var front := targets[..last];
      var t := targets[last];
      LaunchIn(front, urls, glob, compiles, l);
      TargetLaunchIn(t, t.paths, urls, glob, compiles, l);
      if exists i, p :: StartedBy(targets, i, p, urls, glob, compiles, l) {
        var i, p :| StartedBy(targets, i, p, urls, glob, compiles, l);
        if i < last {
          assert StartedBy(front, i, p, urls, glob, compiles, l);
        }
      }
      if exists i, p :: StartedBy(front, i, p, urls, glob, compiles, l) {
        var i, p :| StartedBy(front, i, p, urls, glob, compiles, l);
        assert StartedBy(targets, i, p, urls, glob, compiles, l);
      }
      if exists p :: 0 <= p < |t.paths| && Started(t, t.paths[p], urls, glob, compiles, l) {
        var p :| 0 <= p < |t.paths| && Started(t, t.paths[p], urls, glob, compiles, l);
        assert StartedBy(targets, last, p, urls, glob, compiles, l);
      }
    }
  }

  /** Every monitor the plan starts posts to the first client's webhook URLs;
      the plan panics exactly when there is no client and some good path of a target with a good filter matches a file. */
  lemma PlanOutcome(clients: seq<Client>, targets: seq<Target>, glob: string -> Option<seq<string>>, compiles: string -> bool)
    ensures Plan(clients, targets, glob, compiles).Failure?
        <==> clients == [] && exists i, p :: StartsSome(targets, i, p, glob, compiles)
    ensures Plan(clients, targets, glob, compiles).Success? ==>
              forall l :: l in Plan(clients, targets, glob, compiles).value ==> l.webhookURLs == Urls(clients)
  {
    var urls := Urls(clients);
    var ls := Launches(targets, urls, glob, compiles);
    forall l | l in ls
      ensures l.webhookURLs == urls
    {
      LaunchIn(targets, urls, glob, compiles, l);
    }
    if ls != [] {
      LaunchIn(targets, urls, glob, compiles, ls[0]);
      var i, p :| StartedBy(targets, i, p, urls, glob, compiles, ls[0]);
      assert StartsSome(targets, i, p, glob, compiles);
    }
    if exists i, p :: StartsSome(targets, i, p, glob, compiles) {
      var i, p :| StartsSome(targets, i, p, glob, compiles);
      var t := targets[i];
      var l := Launch(glob(t.paths[p]).value[0], urls, t.application, t.filter);
      assert StartedBy(targets, i, p, urls, glob, compiles, l);
      LaunchIn(targets, urls, glob, compiles, l);
    }
  }

  /** Path p of target i has a good pattern matching some file and the target's filter compiles. */
  predicate StartsSome(targets: seq<Target>, i: int, p: int, glob: string -> Option<seq<string>>, compiles: string -> bool) {
    0 <= i < |targets| && 0 <= p < |targets[i].paths| && compiles(targets[i].filter)
    && glob(targets[i].paths[p]).Some? && glob(targets[i].paths[p]).value != []
  }

  /** A path whose glob pattern is bad adds nothing, and the other paths of the target are unaffected. */
  lemma BadGlobSkipsOnlyThatPath(t: Target, paths: seq<string>, p: nat, urls: seq<string>,
                                 glob: string -> Option<seq<string>>, compiles: string -> bool)
    requires p < |paths| && glob(paths[p]).None?
    ensures TargetLaunches(t, paths, urls, glob, compiles)
         == TargetLaunches(t, paths[..p] + paths[p + 1..], urls, glob, compiles)
  {
    var before, after := paths[..p], paths[p + 1..];
    assert paths == (before + [paths[p]]) + after;
    TargetLaunchesAppend(t, before + [paths[p]], after, urls, glob, compiles);
    TargetLaunchesAppend(t, before, [paths[p]], urls, glob, compiles);
    assert TargetLaunches(t, [paths[p]], urls, glob, compiles) == TargetLaunches(t, [], urls, glob, compiles) + [] by {
      assert [paths[p]][..0] == [];
    }
    Seqs.AppendNil(TargetLaunches(t, before, urls, glob, compiles));
    TargetLaunchesAppend(t, before, after, urls, glob, compiles);
  }

  /** No path of a target whose filter does not compile starts a monitor. */
  lemma {:induction false} BadFilterNoLaunch(t: Target, paths: seq<string>, urls: seq<string>,
                                             glob: string -> Option<seq<string>>, compiles: string -> bool)
    requires !compiles(t.filter)
    ensures TargetLaunches(t, paths, urls, glob, compiles) == []
    decreases |paths|
  {
    if paths != [] {
      BadFilterNoLaunch(t, paths[..|paths| - 1], urls, glob, compiles);
    }
  }

  /** A target whose filter does not compile adds nothing, and the other targets are unaffected. */
  lemma BadFilterSkipsOnlyThatTarget(targets: seq<Target>, i: nat, urls: seq<string>,
                                     glob: string -> Option<seq<string>>, compiles: string -> bool)
    requires i < |targets| && !compiles(targets[i].filter)
    ensures Launches(targets, urls, glob, compiles) == Launches(targets[..i] + targets[i + 1..], urls, glob, compiles)
  {
    var before, after := targets[..i], targets[i + 1..];
    assert targets == targets[..i + 1] + after;
    LaunchesAppend(targets[..i + 1], after, urls, glob, compiles);
    LaunchesSnoc(targets, i, urls, glob, compiles);
    BadFilterNoLaunch(targets[i], targets[i].paths, urls, glob, compiles);
    Seqs.AppendNil(Launches(before, urls, glob, compiles));
    LaunchesAppend(before, after, urls, glob, compiles);
  }

  /** A file that two paths of a target both match gets a monitor for each of them. */
  lemma TwoPathsTwoMonitors(t: Target, a: nat, b: nat, file: string, urls: seq<string>,
                            glob: string -> Option<seq<string>>, compiles: string -> bool)
    requires a < b < |t.paths| && compiles(t.filter)
    requires glob(t.paths[a]).Some? && file in glob(t.paths[a]).value
    requires glob(t.paths[b]).Some? && file in glob(t.paths[b]).value
    ensures multiset(TargetLaunches(t, t.paths, urls, glob, compiles))[Launch(file, urls, t.application, t.filter)] >= 2
  {
    var paths := t.paths;
    var l := Launch(file, urls, t.application, t.filter);
    PathLaunchIn(t, paths[a], urls, glob, compiles, l);
    PathLaunchIn(t, paths[b], urls, glob, compiles, l);
    var upToA := TargetLaunches(t, paths[..a + 1], urls, glob, compiles);
    var upToB := TargetLaunches(t, paths[..b + 1], urls, glob, compiles);
    ContainsViaSnoc(t, paths, a, urls, glob, compiles, l);
    assert multiset(upToA)[l] >= 1;
    TargetLaunchesSnoc(t, paths, b, urls, glob, compiles);
    Seqs.TakeSplit(paths, a + 1, b);
    TargetLaunchesAppend(t, paths[..a + 1], paths[a + 1..b], urls, glob, compiles);
    CountAppend(upToA, TargetLaunches(t, paths[a + 1..b], urls, glob, compiles), l);
    CountAppend(TargetLaunches(t, paths[..b], urls, glob, compiles), PathLaunches(t, paths[b], urls, glob, compiles), l);
    assert multiset(upToB)[l] >= 2;
    Seqs.SplitAt(paths, b + 1);
    TargetLaunchesAppend(t, paths[..b + 1], paths[b + 1..], urls, glob, compiles);
    CountAppend(upToB, TargetLaunches(t, paths[b + 1..], urls, glob, compiles), l);
  }

  lemma ContainsViaSnoc(t: Target, paths: seq<string>, a: nat, urls: seq<string>,
                        glob: string -> Option<seq<string>>, compiles: string -> bool, l: Launch)
    requires a < |paths| && l in PathLaunches(t, paths[a], urls, glob, compiles)
    ensures l in TargetLaunches(t, paths[..a + 1], urls, glob, compiles)
  {
    TargetLaunchesSnoc(t, paths, a, urls, glob, compiles);
  }

  lemma CountAppend(xs: seq<Launch>, ys: seq<Launch>, l: Launch)
    ensures multiset(xs + ys)[l] == multiset(xs)[l] + multiset(ys)[l]
  {
  }
}

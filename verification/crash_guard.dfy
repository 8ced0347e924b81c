/**
 The crash-loop log: recent start times in a small file that is replaced atomically, trimmed at
 every start and emptied by a clean exit.

 Every write may stop at any of its steps, because the operation failed or because the process
 died there; only the final rename touches the file that is read back.
*/
module CrashGuard {
  import opened Options

  const LOOP_WINDOW_SECS: nat := 60
  const LOOP_THRESHOLD: nat := 3

  /** What a file holds: a log that parses, or anything else. */
  datatype Content = Log(attempts: seq<nat>) | Corrupt

  datatype File = File(content: Content, ownerOnly: bool)

  datatype Disk = Disk(log: Option<File>, tmp: Option<File>)

  datatype WriteStep = CreateDir | WriteTmp | Restrict | Rename

  /**
   How a write goes: to the end, or up to `at`, where it fails or the process dies. `partial` is what
   a broken-off write of the temporary file leaves.
  */
  datatype Fate = Completes | Stops(at: WriteStep, crash: bool, partial: Option<File>)

  datatype Event = Start(now: nat, fate: Fate) | CleanExit(fate: Fate)

  // ---- specification ----------------------------------------------------------------------------

  /** `read(..).unwrap_or_default()`: a missing or unreadable log is an empty one. */
  function ReadLog(file: Option<File>): seq<nat> {
    if file.Some? && file.value.content.Log? then file.value.content.attempts else []
  }

  function Retain(s: seq<nat>, cutoff: nat): (r: seq<nat>)
    ensures forall t :: t in r <==> t in s && t >= cutoff
  {
    if s == [] then []
    else
      var rest := Retain(s[..|s| - 1], cutoff);
      var last := s[|s| - 1];
      assert s == s[..|s| - 1] + [last];
      if last >= cutoff then rest + [last] else rest
  }

  function Cutoff(now: nat): nat {
    Max(now - LOOP_WINDOW_SECS, 0)
  }

  /** `write_json_atomic` as far as `f` lets it get. */
  function Written(d: Disk, attempts: seq<nat>, f: Fate): Disk {
    var whole := Log(attempts);
    match f
    case Completes => Disk(Some(File(whole, true)), None)
    case Stops(CreateDir, _, _) => d
    case Stops(WriteTmp, _, partial) => d.(tmp := partial)
    case Stops(Restrict, _, _) => d.(tmp := Some(File(whole, d.tmp.Some? && d.tmp.value.ownerOnly)))
    case Stops(Rename, _, _) => d.(tmp := Some(File(whole, true)))
  }

  /** The list `record_start_at` holds in memory when it decides. */
  function Attempts(d: Disk, now: nat): seq<nat> {
    Retain(ReadLog(d.log), Cutoff(now)) + [now]
  }

  function Apply(d: Disk, e: Event): Disk {
    match e
    case Start(now, f) => Written(d, Attempts(d, now), f)
    case CleanExit(f) => Written(d, [], f)
  }

  function Run(d: Disk, h: seq<Event>): Disk {
    if h == [] then d else Apply(Run(d, h[..|h| - 1]), h[|h| - 1])
  }

  function LoopDetected(d: Disk, now: nat): bool {
    |Attempts(d, now)| >= LOOP_THRESHOLD
  }

  // ---- atomic replacement -----------------------------------------------------------------------

  predicate Finished(e: Event) {
    e.fate.Completes?
  }

  function FinishedOnly(h: seq<Event>): seq<Event> {
    if h == [] then []
    else FinishedOnly(h[..|h| - 1]) + (if Finished(h[|h| - 1]) then [h[|h| - 1]] else [])
  }

  /**
   A write that failed, or during which the process died, at whatever step, leaves no trace in the
   log: it reads as if only the finished writes had been made, so always as a whole old or a whole
   new log, and once one finished it is readable by its owner alone.
  */
  lemma {:induction false} InterruptedWritesLeaveNoTrace(d: Disk, h: seq<Event>)
    ensures Run(d, h).log == Run(d, FinishedOnly(h)).log
    ensures var l := Run(d, h).log;
            if FinishedOnly(h) == [] then l == d.log
            else l.Some? && l.value.content.Log? && l.value.ownerOnly
  {
    if h != [] {
      var before, e := h[..|h| - 1], h[|h| - 1];
      InterruptedWritesLeaveNoTrace(d, before);
      if Finished(e) {
        assert FinishedOnly(h)[..|FinishedOnly(h)| - 1] == FinishedOnly(before);
      } else {
        assert FinishedOnly(h) == FinishedOnly(before);
      }
    }
  }

  // ---- what the log means -----------------------------------------------------------------------

  /** The starts that reached the disk since the last clean exit that did. */
  function Persisted(h: seq<Event>): seq<nat> {
    if h == [] then []
    else
      var before := Persisted(h[..|h| - 1]);
      match h[|h| - 1]
      case Start(now, Completes) => before + [now]
      case CleanExit(Completes) => []
      case _ => before
  }

  /** A start outlives the later ones when each came at most a window after it. */
  predicate Survives(p: seq<nat>, i: nat)
    requires i < |p|
  {
    forall j :: i < j < |p| ==> p[j] <= p[i] + LOOP_WINDOW_SECS
  }

  /** Those of the first `n` starts in `p` that outlive everything after them in `p`, in order. */
  function Survivors(p: seq<nat>, n: nat): seq<nat>
    requires n <= |p|
  {
    if n == 0 then []
    else Survivors(p, n - 1) + (if Survives(p, n - 1) then [p[n - 1]] else [])
  }

  lemma {:induction false} RetainKeepsSurvivors(p: seq<nat>, now: nat, n: nat)
    requires n <= |p|
    ensures Retain(Survivors(p, n), Cutoff(now)) == Survivors(p + [now], n)
  {
    if n > 0 {
      RetainKeepsSurvivors(p, now, n - 1);
      var q := p + [now];
      assert Survives(q, n - 1) <==> Survives(p, n - 1) && now <= p[n - 1] + LOOP_WINDOW_SECS by {
        assert q[|p|] == now;
        assert forall j :: 0 <= j < |p| ==> q[j] == p[j];
      }
      var kept := Survivors(p, n - 1);
      if Survives(p, n - 1) {
        assert (kept + [p[n - 1]])[..|kept|] == kept;
      } else {
        assert kept + [] == kept;
      }
    }
  }

  /** One more start trims exactly those it outlived. */
  lemma StartExtends(p: seq<nat>, now: nat)
    ensures var q := p + [now];
            Retain(Survivors(p, |p|), Cutoff(now)) + [now] == Survivors(q, |q|)
  {
    RetainKeepsSurvivors(p, now, |p|);
    assert Survives(p + [now], |p|);
  }

  lemma AppliedLog(d: Disk, e: Event)
    ensures ReadLog(Apply(d, e).log)
            == if !e.fate.Completes? then ReadLog(d.log) else if e.Start? then Attempts(d, e.now) else []
  {
  }

  /**
   The log on disk, after any history of starts and clean exits whose writes fail or crash anywhere,
   whatever the clock does: the persisted starts since the last persisted clean exit that outlive
   every later one.
  */
  lemma {:induction false} LogHoldsSurvivors(d: Disk, h: seq<Event>)
    requires ReadLog(d.log) == []
    ensures ReadLog(Run(d, h).log) == Survivors(Persisted(h), |Persisted(h)|)
  {
    if h != [] {
      var before, e := h[..|h| - 1], h[|h| - 1];
      LogHoldsSurvivors(d, before);
      AppliedLog(Run(d, before), e);
      hide Survives, Retain, Cutoff, Apply, ReadLog;
      if e.Start? {
        StartExtends(Persisted(before), e.now);
      }
    }
  }

  /**
   And the verdict: at least three starts, this one counted, of which none is more than a window
   before a later one.
  */
  lemma DetectionIff(d: Disk, h: seq<Event>, now: nat)
    requires ReadLog(d.log) == []
    ensures var p := Persisted(h) + [now];
            LoopDetected(Run(d, h), now) <==> |Survivors(p, |p|)| >= 3
  {
    hide Survives, Retain, Cutoff, Survivors, Persisted, Run;
    LogHoldsSurvivors(d, h);
    StartExtends(Persisted(h), now);
  }

  /** No start of the window was trimmed by a later one the clock has since stepped back behind. */
  predicate WindowIntact(p: seq<nat>, now: nat) {
    forall i :: 0 <= i < |p| && p[i] >= Cutoff(now) ==> Survives(p + [now], i)
  }

  lemma {:induction false} RetainPrefix(p: seq<nat>, n: nat, cutoff: nat)
    requires 0 < n <= |p|
    ensures Retain(p[..n], cutoff) == Retain(p[..n - 1], cutoff) + (if p[n - 1] >= cutoff then [p[n - 1]] else [])
  {
    assert p[..n][..n - 1] == p[..n - 1];
  }

  lemma SurvivorIsRecent(p: seq<nat>, now: nat, i: nat)
    requires i < |p| && Survives(p + [now], i)
    ensures p[i] >= Cutoff(now)
  {
    var q := p + [now];
    assert q[|p|] == now && q[i] == p[i];
  }

  /** What survives is never more than the window, and is the window exactly when nothing in it was trimmed. */
  lemma {:induction false} SurvivorsAgainstWindow(p: seq<nat>, now: nat, n: nat)
    requires n <= |p|
    ensures var kept, recent := Survivors(p + [now], n), Retain(p[..n], Cutoff(now));
            && |kept| <= |recent|
            && (kept == recent <==> |kept| == |recent|)
            && (kept == recent <==> forall i :: 0 <= i < n && p[i] >= Cutoff(now) ==> Survives(p + [now], i))
  {
    if n > 0 {
      SurvivorsAgainstWindow(p, now, n - 1);
      RetainPrefix(p, n, Cutoff(now));
      var q := p + [now];
      if Survives(q, n - 1) { SurvivorIsRecent(p, now, n - 1); }
      hide Survives, Retain;
    }
  }

  /**
   For every clock: what `record_start_at` counts is the documented window exactly when no start in
   the window was trimmed by a later one further ahead. No clock makes it count more, so a crash loop
   is never reported that the window does not hold.
  */
  lemma WindowIsCountedIff(d: Disk, h: seq<Event>, now: nat)
    requires ReadLog(d.log) == []
    ensures var p, counted := Persisted(h), Attempts(Run(d, h), now);
            var window := Retain(p, Cutoff(now)) + [now];
            && (counted == window <==> WindowIntact(p, now))
            && |counted| <= |window|
            && (LoopDetected(Run(d, h), now) ==> |window| >= LOOP_THRESHOLD)
  {
    hide Survives, Persisted, Run;
    LogHoldsSurvivors(d, h);
    var p := Persisted(h);
    RetainKeepsSurvivors(p, now, |p|);
    SurvivorsAgainstWindow(p, now, |p|);
    assert p[..|p|] == p;
    hide Retain, Survivors;
    var kept, recent := Survivors(p + [now], |p|), Retain(p, Cutoff(now));
    assert kept + [now] == recent + [now] <==> kept == recent by {
      assert (kept + [now])[..|kept|] == kept && (recent + [now])[..|recent|] == recent;
    }
  }

  predicate NonDecreasing(p: seq<nat>) {
    forall i, j :: 0 <= i < j < |p| ==> p[i] <= p[j]
  }

  lemma {:induction false} SurvivorsAreRecent(p: seq<nat>, now: nat, n: nat)
    requires n <= |p| && NonDecreasing(p + [now])
    ensures Survivors(p + [now], n) == Retain(p[..n], Cutoff(now))
  {
    if n > 0 {
      SurvivorsAreRecent(p, now, n - 1);
      var q := p + [now];
      assert p[..n][..n - 1] == p[..n - 1];
      assert q[|p|] == now && q[n - 1] == p[n - 1];
      assert Survives(q, n - 1) <==> p[n - 1] >= Cutoff(now);
    }
  }

  /**
   With a clock that does not step back this is the window the documentation describes: a start is a
   crash loop exactly when it is at least the third in the last 60 s since the last clean exit.
  */
  lemma WindowDetectionIff(d: Disk, h: seq<Event>, now: nat)
    requires ReadLog(d.log) == [] && NonDecreasing(Persisted(h) + [now])
    ensures Attempts(Run(d, h), now) == Retain(Persisted(h), Cutoff(now)) + [now]
    ensures LoopDetected(Run(d, h), now) <==> |Retain(Persisted(h), Max(now - 60, 0))| + 1 >= 3
  {
    assert Cutoff(now) == Max(now - 60, 0);
    hide Survives, Retain, Cutoff, Survivors, Persisted, Run, NonDecreasing;
    LogHoldsSurvivors(d, h);
    var p := Persisted(h);
    RetainKeepsSurvivors(p, now, |p|);
    SurvivorsAreRecent(p, now, |p|);
    assert p[..|p|] == p;
  }

  lemma PersistedPair(a: nat, b: nat)
    ensures Persisted([Start(a, Completes), Start(b, Completes)]) == [a, b]
  {
    var h := [Start(a, Completes), Start(b, Completes)];
    assert h[..1] == [Start(a, Completes)] && h[..1][..0] == [];
    assert Persisted(h[..1]) == [a];
  }

  lemma SurvivorsOfThree(p: seq<nat>)
    requires |p| == 3 && p[1] > p[0] + LOOP_WINDOW_SECS
    ensures |Survivors(p, 3)| <= 2
  {
    assert !Survives(p, 0);
    assert Survivors(p, 1) == [];
    assert |Survivors(p, 2)| <= 1;
  }

  lemma RetainPair(a: nat, b: nat, cutoff: nat)
    requires a >= cutoff && b >= cutoff
    ensures |Retain([a, b], cutoff)| == 2
  {
    assert [a, b][..1] == [a] && [a][..0] == [];
    assert Retain([a], cutoff) == [a];
  }

  /**
   A clock that steps back can hide a loop: of two starts inside the window one was already trimmed
   by the other, which the clock put far ahead of it.
  */
  lemma ClockStepBackHidesLoop(d: Disk, a: nat, b: nat, now: nat)
    requires ReadLog(d.log) == [] && b > a + LOOP_WINDOW_SECS && Cutoff(now) <= a
    ensures var h := [Start(a, Completes), Start(b, Completes)];
            && !LoopDetected(Run(d, h), now)
            && |Retain(Persisted(h), Cutoff(now))| + 1 >= LOOP_THRESHOLD
  {
    var h := [Start(a, Completes), Start(b, Completes)];
    hide Run, LoopDetected, Persisted;
    PersistedPair(a, b);
    RetainPair(a, b, Cutoff(now));
    DetectionIff(d, h, now);
    assert [a, b] + [now] == [a, b, now];
    SurvivorsOfThree([a, b, now]);
  }

  // ---- in place ---------------------------------------------------------------------------------

  datatype Outcome = Wrote | Failed | Died

  function OutcomeOf(f: Fate): Outcome {
    if f.Completes? then Wrote else if f.crash then Died else Failed
  }

  class Store {
    var log: Option<File>
    var tmp: Option<File>

    ghost function Model(): Disk
      reads this
    {
      Disk(log, tmp)
    }

    method WriteJsonAtomic(attempts: seq<nat>, f: Fate) returns (r: Outcome)
      modifies this
      ensures Model() == Written(old(Model()), attempts, f)
      ensures r == OutcomeOf(f)
    {
      r := OutcomeOf(f);
      if f.Stops? && f.at == CreateDir { return; }
      if f.Stops? && f.at == WriteTmp { tmp := f.partial; return; }
      tmp := Some(File(Log(attempts), tmp.Some? && tmp.value.ownerOnly));
      if f.Stops? && f.at == Restrict { return; }
      tmp := Some(tmp.value.(ownerOnly := true));
      if f.Stops? { return; }
      log, tmp := tmp, None;
    }

    /**
     `record_start_at`: the verdict comes from memory, so a failed write does not change it; a
     process that died gives none.
    */
    method RecordStartAt(now: nat, f: Fate) returns (verdict: Option<bool>)
      modifies this
      ensures Model() == Apply(old(Model()), Start(now, f))
      ensures verdict == if OutcomeOf(f).Died? then None else Some(LoopDetected(old(Model()), now))
    {
      var was := ReadLog(log);
      var cutoff := Cutoff(now);
      var attempts: seq<nat> := [];
      var i := 0;
      while i < |was|
        invariant i <= |was| && attempts == Retain(was[..i], cutoff)
      {
        assert was[..i + 1][..i] == was[..i];
        if was[i] >= cutoff {
          attempts := attempts + [was[i]];
        }
        i := i + 1;
      }
      assert was[..|was|] == was;
      attempts := attempts + [now];
      var detected := |attempts| >= LOOP_THRESHOLD;
      var r := WriteJsonAtomic(attempts, f);
      verdict := if r.Died? then None else Some(detected);
    }

    method RecordCleanExit(f: Fate)
      modifies this
      ensures Model() == Apply(old(Model()), CleanExit(f))
    {
      var _ := WriteJsonAtomic([], f);
    }
  }
}

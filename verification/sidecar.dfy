/**
 * The sidecar beside a stored certificate records the observation it mirrors. When a
 * save gets no further than the certificate, the sidecar of an earlier save stays.
 */
module Sidecar {
  import opened Text
  import opened Clipping
  import opened Mirror
  import R = Routing

  /** What an entry claims to mirror is what its names are clipped from. */
  predicate Describes(l: Listener, k: Key, e: Entry) {
    e.observed.Some? ==> e.sans == Mirrored(l, k, e.observed.value).sans
  }

  predicate FileDescribes(l: Listener, s: State, k: Key) {
    k in s.files ==> Describes(l, k, s.files[k])
  }

  /** The names of the certificate a step saves for `k`, if it saves one. */
  function Saving(l: Listener, s: State, e: Event, k: Key): Option<seq<string>> {
    match e
    case Issue(t, fate) =>
      if PhaseOf(s, t) == Issuing(k) && k !in s.cache && Decide(s.files, k, fate).Sign?
      then Some(Exact(k).sans) else None
    case Record(t, fate) =>
      var p := PhaseOf(s, t);
      if p.Recording? && p.key == k && fate.signs && !(k in s.cache && s.cache[k].observed == Some(p.observed))
      then Some(Mirrored(l, k, p.observed).sans) else None
    case _ => None
  }

  /** The step writes a certificate but not its sidecar, and the sidecar on file is of
      an observation with another clip. */
  predicate Misfiles(l: Listener, s: State, e: Event, k: Key) {
    && Saving(l, s, e, k).Some? && e.fate.saves.CertificateOnly?
    && k in s.files && s.files[k].observed.Some?
    && Mirrored(l, k, s.files[k].observed.value).sans != Saving(l, s, e, k).value
  }

  ghost predicate PhaseDescribes(l: Listener, k: Key, p: Phase) {
    p.IssueReady? && p.key == k ==> Describes(l, k, p.entry)
  }

  ghost predicate Described(l: Listener, s: State, k: Key) {
    && FileDescribes(l, s, k)
    && (k in s.cache ==> Describes(l, k, s.cache[k]))
    && forall t: Task :: PhaseDescribes(l, k, PhaseOf(s, t))
  }

  lemma SavesDescribeExactly(l: Listener, files: Entries, k: Key, e: Entry, how: Save)
    requires Describes(l, k, e) && (k in files ==> Describes(l, k, files[k]))
    ensures var files' := SaveOver(files, k, e, how);
      (k in files' ==> Describes(l, k, files'[k])) <==>
        !(how.CertificateOnly? && k in files && files[k].observed.Some?
          && Mirrored(l, k, files[k].observed.value).sans != e.sans)
  {
    hide Mirrored;
  }

  /** A step that misfiles nothing changes a key's file in no way, or by saving. */
  lemma FilesAfter(l: Listener, s: State, e: Event, k: Key)
    requires Enabled(l, s, e)
    ensures var files' := Next(l, s, e).files;
      match Saving(l, s, e, k)
      case Some(sans) =>
        var entry := if e.Issue? then Exact(k) else Mirrored(l, k, PhaseOf(s, e.task).observed);
        entry.sans == sans && files' == SaveOver(s.files, k, entry, e.fate.saves)
      case None => SameAt(s.files, files', k)
  {
    hide Mirrored, KeyOf, Asks, Decide, SaveOver, Exact;
    if (e.Issue? || e.Record?) && PhaseOf(s, e.task).key != k {
      var own := PhaseOf(s, e.task).key;
      if e.Issue? {
        SavingStaysLocal(s.files, own, k, Exact(own), e.fate.saves);
      } else {
        SavingStaysLocal(s.files, own, k, Mirrored(l, own, PhaseOf(s, e.task).observed), e.fate.saves);
      }
    }
  }

  lemma StepsFile(l: Listener, s: State, e: Event, k: Key)
    requires FileDescribes(l, s, k) && Enabled(l, s, e)
    ensures FileDescribes(l, Next(l, s, e), k) <==> !Misfiles(l, s, e, k)
  {
    hide Mirrored, Next, Enabled, SaveOver;
    FilesAfter(l, s, e, k);
    if Saving(l, s, e, k).Some? {
      var entry := if e.Issue? then Exact(k) else Mirrored(l, k, PhaseOf(s, e.task).observed);
      if e.Record? {
        MirrorsRecordWhatTheyMirror(l, k, PhaseOf(s, e.task).observed);
      }
      SavesDescribeExactly(l, s.files, k, entry, e.fate.saves);
    }
  }

  lemma CacheDescribes(l: Listener, s: State, e: Event, k: Key)
    requires Described(l, s, k) && Enabled(l, s, e)
    ensures k in Next(l, s, e).cache ==> Describes(l, k, Next(l, s, e).cache[k])
  {
    hide Mirrored, KeyOf, Asks, Decide, SaveOver;
    if e.InsertIssued? {
      assert PhaseDescribes(l, k, PhaseOf(s, e.task));
    } else if e.InsertRecorded? {
      MirrorsRecordWhatTheyMirror(l, PhaseOf(s, e.task).key, PhaseOf(s, e.task).observed);
    }
  }

  lemma PhasesDescribe(l: Listener, s: State, e: Event, k: Key, t: Task)
    requires Described(l, s, k) && Enabled(l, s, e)
    ensures PhaseDescribes(l, k, PhaseOf(Next(l, s, e), t))
  {
    hide Described, Next, Describes;
    if e.Restart? {
      RestartedTasksAreIdle(l, s, t);
    } else if e.Evict? || e.task != t {
      OtherTasksAreUntouched(l, s, e, t);
      PhasesAreDescribed(l, s, k, t);
    } else {
      OwnPhaseDescribes(l, s, e, k);
    }
  }

  lemma RestartedTasksAreIdle(l: Listener, s: State, t: Task)
    ensures PhaseOf(Next(l, s, Restart), t).Idle?
  {
  }

  lemma PhasesAreDescribed(l: Listener, s: State, k: Key, t: Task)
    requires Described(l, s, k)
    ensures PhaseDescribes(l, k, PhaseOf(s, t))
  {
  }

  lemma OwnPhaseDescribes(l: Listener, s: State, e: Event, k: Key)
    requires Described(l, s, k) && Enabled(l, s, e) && !e.Restart? && !e.Evict?
    ensures PhaseDescribes(l, k, PhaseOf(Next(l, s, e), e.task))
  {
    hide Mirrored, KeyOf, Asks, SaveOver, Servable, Described;
    PhasesAreDescribed(l, s, k, e.task);
    if e.Issue? {
      FilesAreDescribed(l, s, k);
      ExactDescribes(l, k);
    }
  }

  lemma FilesAreDescribed(l: Listener, s: State, k: Key)
    requires Described(l, s, k)
    ensures FileDescribes(l, s, k)
  {
  }

  lemma ExactDescribes(l: Listener, k: Key)
    ensures Describes(l, k, Exact(k))
  {
  }

  /**
   * The sidecar never survives a certificate it does not describe, exactly as long as
   * no save of the key stops before the sidecar over one with another clip: in every
   * run, under every interleaving and whatever else fails.
   */
  lemma {:induction false} SidecarsDescribeExactly(
    l: Listener, states: seq<State>, events: seq<Event>, k: Key, n: nat)
    requires IsRun(l, states, events) && FileDescribes(l, states[0], k) && n <= |events|
    ensures (forall i :: 0 <= i <= n ==> FileDescribes(l, states[i], k))
       <==> (forall i :: 0 <= i < n ==> !Misfiles(l, states[i], events[i], k))
    ensures (forall i :: 0 <= i < n ==> !Misfiles(l, states[i], events[i], k)) ==> Described(l, states[n], k)
  {
    hide Next, Enabled, FileDescribes, Misfiles, Described;
    if n == 0 {
      StartsDescribed(l, states, events, k);
    } else {
      SidecarsDescribeExactly(l, states, events, k, n - 1);
      var s, e := states[n - 1], events[n - 1];
      assert Enabled(l, s, e) && states[n] == Next(l, s, e);
      if forall i :: 0 <= i < n - 1 ==> !Misfiles(l, states[i], events[i], k) {
        StepsFile(l, s, e, k);
        if !Misfiles(l, s, e, k) {
          StepDescribes(l, s, e, k);
        }
      }
    }
  }

  lemma StartsDescribed(l: Listener, states: seq<State>, events: seq<Event>, k: Key)
    requires IsRun(l, states, events) && FileDescribes(l, states[0], k)
    ensures Described(l, states[0], k)
  {
    hide Next, Enabled;
  }

  lemma StepDescribes(l: Listener, s: State, e: Event, k: Key)
    requires Described(l, s, k) && Enabled(l, s, e) && !Misfiles(l, s, e, k)
    ensures Described(l, Next(l, s, e), k)
  {
    StepsFile(l, s, e, k);
    CacheDescribes(l, s, e, k);
    hide Next, Enabled, Misfiles, PhaseDescribes, FileDescribes, Describes;
    forall t: Task ensures PhaseDescribes(l, k, PhaseOf(Next(l, s, e), t)) {
      PhasesDescribe(l, s, e, k, t);
    }
  }

  /** So while nothing is misfiled, a mirror that is taken for current is the clip of
      what was observed. */
  lemma CurrentMeansMirrored(
    l: Listener, states: seq<State>, events: seq<Event>, k: Key, n: nat, observed: seq<string>)
    requires IsRun(l, states, events) && FileDescribes(l, states[0], k) && n <= |events|
    requires forall i :: 0 <= i < n ==> !Misfiles(l, states[i], events[i], k)
    requires k in states[n].cache && states[n].cache[k].observed == Some(observed)
    ensures states[n].cache[k].sans == Mirrored(l, k, observed).sans
  {
    hide Next, Enabled, Misfiles;
    SidecarsDescribeExactly(l, states, events, k, n);
  }

  // ---------------------------------------------------------------------
  // What misfiling leads to
  // ---------------------------------------------------------------------

  lemma MisfiledIsServable(l: Listener, s: State, e: Event, k: Key)
    requires Enabled(l, s, e) && Misfiles(l, s, e, k) && IsHostName(k.host)
    ensures var files := Next(l, s, e).files;
      k in files && Servable(k, files[k]) && files[k].observed.Some? && !Describes(l, k, files[k])
  {
    hide Next, Enabled, HostCoveredBy, IsHostName;
    FilesAfter(l, s, e, k);
    var observed := if e.Issue? then [] else PhaseOf(s, e.task).observed;
    HostNamesAreNormal(k.host);
    ClipCoversTheHost(l, k.scope, k.host, observed);
    ExactCoversItself(k);
  }

  lemma ExactCoversItself(k: Key)
    ensures HostCoveredBy(Exact(k).sans, k.host)
  {
    CoversItself(k.host);
    assert [k.host][0] == k.host;
  }

  /** Ask for a certificate after a restart, then report what the sidecar records. */
  function AfterRestart(sni: string, observed: seq<string>): seq<Event> {
    [Restart, AskCertificate(0, sni), LockToIssue(0), Issue(0, SMOOTH), InsertIssued(0), ReportSans(0, sni, observed)]
  }

  /** The states those six events lead to from `s`. */
  function Resumed(l: Listener, s: State, k: Key, i: nat): State
    requires k in s.files
  {
    var empty := s.(cache := map[], holders := map[], phases := map[], settled := s.saved);
    if i == 0 then s
    else if i == 1 then empty
    else if i == 2 then empty.(phases := map[0 := IssueWaiting(k)])
    else if i == 3 then empty.(phases := map[0 := Issuing(k)], holders := map[k := 0])
    else if i == 4 then empty.(phases := map[0 := IssueReady(k, s.files[k])], holders := map[k := 0])
    else empty.(phases := map[0 := Idle], cache := map[k := s.files[k]])
  }

  lemma ResumedSteps(l: Listener, s: State, k: Key, sni: string, i: nat)
    requires Asks(l, sni) && KeyOf(l, sni) == k && k in s.files && Servable(k, s.files[k])
    requires s.files[k].observed.Some? && i < 6
    ensures Enabled(l, Resumed(l, s, k, i), AfterRestart(sni, s.files[k].observed.value)[i])
    ensures Next(l, Resumed(l, s, k, i), AfterRestart(sni, s.files[k].observed.value)[i]) == Resumed(l, s, k, i + 1)
  {
    hide Servable, Resumed, Next, Enabled, Asks, KeyOf;
    AsksForKey(l, sni, k);
    if i < 2 {
      AskingSteps(l, s, k, sni, i);
    } else if i < 4 {
      LoadingSteps(l, s, k, sni, i);
    } else if i == 4 {
      InsertingStep(l, s, k);
    } else {
      ReportingStep(l, s, k, sni);
    }
  }

  lemma AskingSteps(l: Listener, s: State, k: Key, sni: string, i: nat)
    requires Asks(l, sni) && KeyOf(l, sni) == k && k in s.files
    requires s.files[k].observed.Some? && i < 2
    ensures Enabled(l, Resumed(l, s, k, i), AfterRestart(sni, s.files[k].observed.value)[i])
    ensures Next(l, Resumed(l, s, k, i), AfterRestart(sni, s.files[k].observed.value)[i]) == Resumed(l, s, k, i + 1)
  {
    hide KeyOf, Decide, Recorded, Issued;
    AsksForKey(l, sni, k);
    hide Asks;
  }

  lemma LoadingSteps(l: Listener, s: State, k: Key, sni: string, i: nat)
    requires Asks(l, sni) && KeyOf(l, sni) == k && k in s.files && Servable(k, s.files[k])
    requires s.files[k].observed.Some? && 2 <= i < 4
    ensures Enabled(l, Resumed(l, s, k, i), AfterRestart(sni, s.files[k].observed.value)[i])
    ensures Next(l, Resumed(l, s, k, i), AfterRestart(sni, s.files[k].observed.value)[i]) == Resumed(l, s, k, i + 1)
  {
    hide KeyOf, Servable, Recorded, Asks;
    assert Resumed(l, s, k, 3).phases == map[0 := Issuing(k)] && Resumed(l, s, k, 3).cache == map[];
  }

  lemma InsertingStep(l: Listener, s: State, k: Key)
    requires k in s.files
    ensures Enabled(l, Resumed(l, s, k, 4), InsertIssued(0))
    ensures Next(l, Resumed(l, s, k, 4), InsertIssued(0)) == Resumed(l, s, k, 5)
  {
    assert map[k := 0] - {k} == map[];
  }

  lemma ReportingStep(l: Listener, s: State, k: Key, sni: string)
    requires Asks(l, sni) && KeyOf(l, sni) == k && k in s.files && s.files[k].observed.Some?
    ensures Enabled(l, Resumed(l, s, k, 5), ReportSans(0, sni, s.files[k].observed.value))
    ensures Next(l, Resumed(l, s, k, 5), ReportSans(0, sni, s.files[k].observed.value)) == Resumed(l, s, k, 6)
  {
    hide KeyOf, Issued, Recorded;
    AsksForKey(l, sni, k);
    hide Asks;
  }

  lemma AsksForKey(l: Listener, sni: string, k: Key)
    requires Asks(l, sni) && KeyOf(l, sni) == k
    ensures ScopeOf(l, sni).Some?
  {
  }

  /** A run and one that goes on from its last state make one run. */
  lemma RunsConnect(
    l: Listener, states: seq<State>, events: seq<Event>, later: seq<State>, more: seq<Event>)
    requires IsRun(l, states, events) && |later| == |more| + 1 && later[0] == states[|events|]
    requires forall i :: 0 <= i < |more| ==> Enabled(l, later[i], more[i]) && later[i + 1] == Next(l, later[i], more[i])
    ensures IsRun(l, states + later[1..], events + more)
    ensures forall i :: 0 <= i < |later| ==> (states + later[1..])[|events| + i] == later[i]
  {
    hide Enabled, Next;
    var all, m := states + later[1..], |events|;
    forall i | 0 <= i < m + |more|
      ensures Enabled(l, all[i], (events + more)[i]) && all[i + 1] == Next(l, all[i], (events + more)[i])
    {
      if i < m {
        assert all[i] == states[i] && all[i + 1] == states[i + 1];
      } else {
        assert all[i] == later[i - m] && all[i + 1] == later[i - m + 1];
      }
    }
  }

  /** Any run that misfiles goes on to one in which, after a restart, a certificate is
      served that is not the clip of what the upstream presents, and recording that
      observation again does nothing. */
  lemma MisfiledMirrorsLookCurrent(l: Listener, states: seq<State>, events: seq<Event>, k: Key, sni: string)
    returns (states': seq<State>, events': seq<Event>)
    requires IsRun(l, states, events) && events != [] && Asks(l, sni) && KeyOf(l, sni) == k
    requires Misfiles(l, states[|events| - 1], events[|events| - 1], k)
    ensures IsRun(l, states', events') && events <= events'
    ensures var n := |events'| - 1;
      && n > 0 && events'[n].ReportSans? && states'[n + 1].cache == states'[n].cache && k in states'[n].cache
      && PhaseOf(states'[n + 1], events'[n].task).Idle?
      && states'[n].cache[k].sans != Mirrored(l, k, events'[n].observed).sans
  {
    var m, s := |events|, states[|events|];
    assert s == Next(l, states[m - 1], events[m - 1]);
    AsksForKey(l, sni, k);
    MisfiledIsServable(l, states[m - 1], events[m - 1], k);
    hide Misfiles, Mirrored, Servable, Asks, KeyOf, Next, Enabled, IsRun, IsHostName;
    var observed := s.files[k].observed.value;
    var later, more := seq(7, i requires 0 <= i => Resumed(l, s, k, i)), AfterRestart(sni, observed);
    forall i | 0 <= i < 6 ensures Enabled(l, later[i], more[i]) && later[i + 1] == Next(l, later[i], more[i]) {
      ResumedSteps(l, s, k, sni, i);
    }
    RunsConnect(l, states, events, later, more);
    states', events' := states + later[1..], events + more;
    assert states'[m + 5] == Resumed(l, s, k, 5) && states'[m + 6] == Resumed(l, s, k, 6);
  }
}

/**
 The email worker's sent marker: one job id, run any number of times by the queue (retries, stalled
 re-runs, re-publishes of a finished job), with crashes between any two statements.
 */
module EmailJobs {
  import opened Options

  type Pid = nat

  const SENT_MARKER_TTL_SECONDS := 86_400

  /** One job: whether it has an id (and so a marker key), the marker's expiry, the runs in flight
      (true once their mail went out), and the counts of mails sent, of runs that sent and then wrote
      the marker, and of runs that sent and died before that. */
  datatype State = State(
    clock: int, hasId: bool, marker: Option<int>, runs: map<Pid, bool>,
    sends: nat, finished: nat, unfinished: nat)

  datatype Event =
    | Tick(elapsed: nat)
    | Begin(pid: Pid)
    | Send(pid: Pid)
    | Fail(pid: Pid)
    | Mark(pid: Pid)
    | Crash(pid: Pid)

  function Init(hasId: bool): State {
    State(0, hasId, None, map[], 0, 0, 0)
  }

  predicate Marked(s: State) {
    s.hasId && s.marker.Some? && s.clock < s.marker.value
  }

  function Without(runs: map<Pid, bool>, pid: Pid): map<Pid, bool> {
    map p | p in runs && p != pid :: runs[p]
  }

  predicate HasSent(s: State, pid: Pid) {
    pid in s.runs && s.runs[pid]
  }

  function Next(s: State, e: Event): State {
    match e
    case Tick(elapsed) => s.(clock := s.clock + elapsed)
    case Begin(pid) => if pid in s.runs || Marked(s) then s else s.(runs := s.runs[pid := false])
    case Send(pid) =>
      if pid in s.runs && !s.runs[pid] then s.(runs := s.runs[pid := true], sends := s.sends + 1) else s
    case Fail(pid) => if pid in s.runs && !s.runs[pid] then s.(runs := Without(s.runs, pid)) else s
    case Mark(pid) =>
      if HasSent(s, pid)
      then s.(runs := Without(s.runs, pid), finished := s.finished + 1,
              marker := if s.hasId then Some(s.clock + SENT_MARKER_TTL_SECONDS) else s.marker)
      else s
    case Crash(pid) =>
      s.(runs := Without(s.runs, pid), unfinished := s.unfinished + if HasSent(s, pid) then 1 else 0)
  }

  function Run(s: State, es: seq<Event>): State
    decreases |es|
  {
    if es == [] then s else Run(Next(s, es[0]), es[1..])
  }

  // ---------------------------------------------------------------- every mail is accounted for

  function SentRuns(runs: map<Pid, bool>): set<Pid> {
    set p | p in runs && runs[p]
  }

  /** Mails sent are those of finished runs, of runs that died after sending, and of runs still between
      the send and the marker. */
  predicate Balanced(s: State) {
    s.sends == s.finished + s.unfinished + |SentRuns(s.runs)|
  }

  lemma SentKept(runs: map<Pid, bool>, pid: Pid)
    requires pid !in SentRuns(runs)
    ensures SentRuns(runs[pid := false]) == SentRuns(runs) == SentRuns(Without(runs, pid))
    ensures |SentRuns(runs[pid := true])| == |SentRuns(runs)| + 1
  {
    assert SentRuns(runs[pid := false]) == SentRuns(runs);
    assert SentRuns(Without(runs, pid)) == SentRuns(runs);
    assert SentRuns(runs[pid := true]) == SentRuns(runs) + {pid};
  }

  lemma SentDropped(runs: map<Pid, bool>, pid: Pid)
    requires pid in SentRuns(runs)
    ensures |SentRuns(Without(runs, pid))| == |SentRuns(runs)| - 1
  {
    assert SentRuns(runs) == SentRuns(Without(runs, pid)) + {pid};
  }

  lemma BalancedNext(s: State, e: Event)
    requires Balanced(s)
    ensures Balanced(Next(s, e))
  {
    if !e.Tick? {
      if e.pid in SentRuns(s.runs) {
        SentDropped(s.runs, e.pid);
      } else {
        SentKept(s.runs, e.pid);
      }
    }
  }

  /** In every run, orderly or not, every mail is accounted for. */
  lemma {:induction false} BalancedRun(s: State, es: seq<Event>)
    requires Balanced(s)
    ensures Balanced(Run(s, es))
    decreases |es|
  {
    if es != [] {
      BalancedNext(s, es[0]);
      BalancedRun(Next(s, es[0]), es[1..]);
    }
  }

  // ---------------------------------------------------------------- at most one mail

  /** The run really starts: it finds no marker. */
  predicate Starts(s: State, e: Event) {
    e.Begin? && e.pid !in s.runs && !Marked(s)
  }

  /** No run of the job is in flight, and none has finished. */
  predicate SafeStart(s: State) {
    s.runs == map[] && s.finished == 0
  }

  ghost predicate Orderly(s: State, es: seq<Event>)
    decreases |es|
  {
    es == [] || ((Starts(s, es[0]) ==> SafeStart(s)) && Orderly(Next(s, es[0]), es[1..]))
  }

  /** A finished run has left a marker. */
  predicate MarkerLeft(s: State) {
    s.hasId && s.finished > 0 ==> s.marker.Some?
  }

  /** In other words: a run that starts although another has finished comes after that one's marker expired
      (or the job has no id and so no marker). */
  lemma {:induction false} LateStartsAfterExpiry(s: State, es: seq<Event>, pid: Pid)
    requires MarkerLeft(s)
    ensures var t := Run(s, es);
            Starts(t, Begin(pid)) && t.finished > 0 && t.hasId ==> t.marker.Some? && t.marker.value <= t.clock
    decreases |es|
  {
    if es != [] {
      LateStartsAfterExpiry(Next(s, es[0]), es[1..], pid);
    }
  }

  predicate AtMostOneRun(runs: map<Pid, bool>) {
    forall p, q :: p in runs && q in runs ==> p == q
  }

  /** Once a run has finished, no other run is in flight. */
  ghost predicate OneMail(s: State) {
    && Balanced(s) && AtMostOneRun(s.runs) && s.finished <= 1
    && (s.finished == 1 ==> s.runs == map[])
  }

  lemma OneMailNext(s: State, e: Event)
    requires OneMail(s) && (Starts(s, e) ==> SafeStart(s))
    ensures OneMail(Next(s, e))
  {
    BalancedNext(s, e);
    if e.Mark? && HasSent(s, e.pid) {
      assert Next(s, e).runs == map[];
    }
  }

  lemma {:induction false} OneMailRun(s: State, es: seq<Event>)
    requires OneMail(s) && Orderly(s, es)
    ensures OneMail(Run(s, es))
    decreases |es|
  {
    if es != [] {
      OneMailNext(s, es[0]);
      OneMailRun(Next(s, es[0]), es[1..]);
    }
  }

  lemma SingleSent(runs: map<Pid, bool>)
    requires AtMostOneRun(runs)
    ensures |SentRuns(runs)| <= 1
  {
    if p :| p in SentRuns(runs) {
      assert SentRuns(runs) == {p};
    }
  }

  /** If runs start only while none is in flight and none has finished, the mails sent for a job are at most
      one more than the runs that sent and died before writing the marker. */
  lemma SentAtMostOnce(hasId: bool, es: seq<Event>)
    requires Orderly(Init(hasId), es)
    ensures var s := Run(Init(hasId), es); s.sends <= 1 + s.unfinished
  {
    OneMailRun(Init(hasId), es);
    SingleSent(Run(Init(hasId), es).runs);
  }

  // ---------------------------------------------------------------- unsafe starts

  /** What can follow a start: the other run `q`, if there is one, and the new run both send and finish. */
  function BothSend(q: Pid, pid: Pid): seq<Event> {
    [Send(q), Mark(q), Send(pid), Mark(pid)]
  }

  lemma RunFour(s: State, a: Event, b: Event, c: Event, d: Event)
    ensures Run(s, [a, b, c, d]) == Next(Next(Next(Next(s, a), b), c), d)
  {
    assert [a, b, c, d][1..] == [b, c, d] && [b, c, d][1..] == [c, d] && [c, d][1..] == [d] && [d][1..] == [];
    assert Run(Next(Next(s, a), b), [c, d]) == Run(Next(Next(Next(s, a), b), c), [d]);
    assert Run(Next(Next(Next(s, a), b), c), [d]) == Run(Next(Next(Next(Next(s, a), b), c), d), []);
  }

  lemma Finishes(s: State, pid: Pid)
    requires pid in s.runs
    ensures var t := Next(Next(s, Send(pid)), Mark(pid));
            t.finished == s.finished + 1 && t.unfinished == s.unfinished && t.runs == Without(s.runs, pid)
  {
    var m := Next(s, Send(pid));
    assert HasSent(m, pid) && Without(m.runs, pid) == Without(s.runs, pid);
  }

  lemma Nothing(s: State, q: Pid)
    requires q !in s.runs
    ensures Next(Next(s, Send(q)), Mark(q)) == s
  {
  }

  /** The condition is exact: in every state in which mails are accounted for, a run that starts while another
      is in flight, or after another has finished, can be continued so that one mail too many is sent. */
  lemma UnsafeStartCanRepeat(s: State, pid: Pid, q: Pid)
    requires Balanced(s) && Starts(s, Begin(pid)) && (q in s.runs || s.finished > 0)
    ensures var t := Run(Next(s, Begin(pid)), BothSend(q, pid)); t.sends > 1 + t.unfinished
  {
    var b := Next(s, Begin(pid));
    var m := Next(Next(b, Send(q)), Mark(q));
    BalancedNext(s, Begin(pid));
    BalancedRun(b, BothSend(q, pid));
    RunFour(b, Send(q), Mark(q), Send(pid), Mark(pid));
    if q in b.runs { Finishes(b, q); } else { Nothing(b, q); }
    if q != pid { Finishes(m, pid); } else { Nothing(m, pid); }
  }

  /** Both kinds of unsafe start are reachable: a second run while the first is in flight, and one after the
      first one's marker has expired. */
  lemma UnsafeStartsReachable()
    ensures var s := Run(Init(true), [Begin(0)]); Starts(s, Begin(1)) && 0 in s.runs
    ensures var s := Run(Init(true), [Begin(0), Send(0), Mark(0), Tick(SENT_MARKER_TTL_SECONDS)]);
            Starts(s, Begin(1)) && s.runs == map[] && s.finished == 1
  {
    assert Run(Init(true), [Begin(0)]) == Run(Next(Init(true), Begin(0)), []);
    RunFour(Init(true), Begin(0), Send(0), Mark(0), Tick(SENT_MARKER_TTL_SECONDS));
    Finishes(Next(Init(true), Begin(0)), 0);
  }

  lemma {:induction false} RunConcat(s: State, es: seq<Event>, fs: seq<Event>)
    ensures Run(s, es + fs) == Run(Run(s, es), fs)
    decreases |es|
  {
    if es == [] {
      assert es + fs == fs;
    } else {
      assert (es + fs)[0] == es[0] && (es + fs)[1..] == es[1..] + fs;
      RunConcat(Next(s, es[0]), es[1..], fs);
    }
  }

  lemma RunAround(s: State, first: Event, es: seq<Event>, last: Event)
    ensures Run(s, [first] + es + [last]) == Next(Run(Next(s, first), es), last)
  {
    assert ([first] + es + [last])[1..] == es + [last];
    RunConcat(Next(s, first), es, [last]);
    assert Run(Run(Next(s, first), es), [last]) == Run(Next(Run(Next(s, first), es), last), []);
  }

  // ---------------------------------------------------------------- the processor

  /** How the dispatch ends: delivered, failed for good (a missing field, an unknown job name, a permanent mail
      error) or failed so that the queue retries. It may fail although its mail went out, and so may the write of
      the marker, whether the marker was written or not. */
  datatype Dispatch = Delivered(write: Write) | Permanent(sent: bool) | Transient(sent: bool)
  datatype Write = Written | Unconfirmed | Lost

  /** The mail went out. */
  predicate Sends(d: Dispatch) {
    d.Delivered? || d.sent
  }

  datatype JobResult = Skipped | Done | Unrecoverable | Retryable

  ghost predicate Elsewhere(es: seq<Event>, pid: Pid) {
    forall e :: e in es ==> e.Tick? || e.pid != pid
  }

  lemma RunKeptNext(s: State, e: Event, pid: Pid)
    requires pid in s.runs && (e.Tick? || e.pid != pid)
    ensures pid in Next(s, e).runs && Next(s, e).runs[pid] == s.runs[pid]
  {
  }

  lemma {:induction false} RunKept(s: State, es: seq<Event>, pid: Pid)
    requires Balanced(s) && pid in s.runs && Elsewhere(es, pid)
    ensures Balanced(Run(s, es)) && pid in Run(s, es).runs && Run(s, es).runs[pid] == s.runs[pid]
    decreases |es|
  {
    if es != [] {
      RunKeptNext(s, es[0], pid);
      BalancedNext(s, es[0]);
      RunKept(Next(s, es[0]), es[1..], pid);
    }
  }

  /** The marker is written, or there is none to write. */
  predicate Marks(hasId: bool, d: Dispatch) {
    d.Delivered? && (!hasId || !d.write.Lost?)
  }

  /** What the queue is told: to give up exactly after a failure for good, to run the job again exactly after any
      other failure, of the dispatch or of the marker write of a job with an id. */
  predicate Reports(hasId: bool, d: Dispatch, r: JobResult) {
    && (r.Unrecoverable? <==> d.Permanent?)
    && (r.Retryable? <==> d.Transient? || (d.Delivered? && hasId && !d.write.Written?))
    && (r.Done? <==> d.Delivered? && (!hasId || d.write.Written?))
  }

  /** What one run of the processor does, from `a` to `b`: nothing if it finds the marker; else it dispatches
      after `first`, and if its mail went out, `second` comes before the marker. */
  ghost predicate Processed(a: State, b: State, pid: Pid, d: Dispatch, first: seq<Event>, second: seq<Event>,
                            r: JobResult)
  {
    if a.hasId && a.marker.Some? && a.clock < a.marker.value then r.Skipped? && b == a
    else
      var m := Run(Next(a, Begin(pid)), first);
      && pid in m.runs && !m.runs[pid] && Reports(a.hasId, d, r)
      && (if Sends(d) then SentAndEnded(m, b, pid, d, second)
          else b == Next(m, Fail(pid)) && b.sends == m.sends && b.marker == m.marker)
  }

  /** One mail went out after `m`; the run wrote the marker and is finished, or left the marker alone and is
      counted as unfinished. */
  ghost predicate SentAndEnded(m: State, b: State, pid: Pid, d: Dispatch, second: seq<Event>) {
    var t := Run(Next(m, Send(pid)), second);
    && HasSent(t, pid) && Next(m, Send(pid)).sends == m.sends + 1
    && if Marks(m.hasId, d) then
         && b == Next(t, Mark(pid)) && b.finished == t.finished + 1 && b.unfinished == t.unfinished
         && b.marker == if m.hasId then Some(t.clock + SENT_MARKER_TTL_SECONDS) else t.marker
       else b == Next(t, Crash(pid)) && b.finished == t.finished && b.unfinished == t.unfinished + 1 && b.marker == t.marker
  }

  lemma {:induction false} SameJob(s: State, es: seq<Event>)
    ensures Run(s, es).hasId == s.hasId
    decreases |es|
  {
    if es != [] { SameJob(Next(s, es[0]), es[1..]); }
  }

  // ---------------------------------------------------------------- when the queue stops

  /** A marker comes from a finished run. */
  predicate Earned(s: State) {
    Balanced(s) && (s.marker.Some? ==> s.finished > 0)
  }

  lemma EarnedNext(s: State, e: Event)
    requires Earned(s)
    ensures Earned(Next(s, e)) && s.sends <= Next(s, e).sends
  {
    BalancedNext(s, e);
  }

  lemma {:induction false} EarnedRun(s: State, es: seq<Event>)
    requires Earned(s)
    ensures Earned(Run(s, es)) && s.sends <= Run(s, es).sends
    decreases |es|
  {
    if es != [] {
      EarnedNext(s, es[0]);
      EarnedRun(Next(s, es[0]), es[1..]);
    }
  }

  /** One run of the job, after `gap`, among what the other sessions do. */
  datatype Try = Try(
    gap: seq<Event>, pid: Pid, d: Dispatch, first: seq<Event>, second: seq<Event>, r: JobResult, end: State)

  function LastEnd(s: State, tries: seq<Try>): State {
    if tries == [] then s else tries[|tries| - 1].end
  }

  /** The queue runs the job again exactly after Retryable. */
  ghost predicate Tried(s: State, tries: seq<Try>)
    decreases |tries|
  {
    tries == [] ||
    var n := |tries| - 1;
    && Tried(s, tries[..n]) && (n > 0 ==> tries[n - 1].r.Retryable?)
    && var start := Run(LastEnd(s, tries[..n]), tries[n].gap);
       Processed(start, tries[n].end, tries[n].pid, tries[n].d, tries[n].first, tries[n].second, tries[n].r)
  }

  /** A run that ends the retries has sent a mail, follows one that did, or failed for good. */
  lemma StopsAfterMail(a: State, b: State, pid: Pid, d: Dispatch, first: seq<Event>, second: seq<Event>, r: JobResult)
    requires Earned(a) && Processed(a, b, pid, d, first, second, r)
    ensures Earned(b) && (!r.Retryable? ==> b.sends > 0 || d.Permanent?)
  {
    if !Marked(a) {
      var m := Run(Next(a, Begin(pid)), first);
      EarnedNext(a, Begin(pid));
      EarnedRun(Next(a, Begin(pid)), first);
      if Sends(d) {
        EarnedNext(m, Send(pid));
        EarnedRun(Next(m, Send(pid)), second);
        EarnedNext(Run(Next(m, Send(pid)), second), if Marks(m.hasId, d) then Mark(pid) else Crash(pid));
      } else {
        EarnedNext(m, Fail(pid));
      }
    }
  }

  lemma {:induction false} TriedEarned(hasId: bool, tries: seq<Try>)
    requires Tried(Init(hasId), tries)
    ensures Earned(LastEnd(Init(hasId), tries))
    decreases |tries|
  {
    if tries != [] {
      var n := |tries| - 1;
      TriedEarned(hasId, tries[..n]);
      EarnedRun(LastEnd(Init(hasId), tries[..n]), tries[n].gap);
      StopsAfterMail(Run(LastEnd(Init(hasId), tries[..n]), tries[n].gap), tries[n].end, tries[n].pid, tries[n].d,
                     tries[n].first, tries[n].second, tries[n].r);
    }
  }

  /** A job that the queue runs again exactly after Retryable is never given up before a mail went out, unless its
      last dispatch failed for good. */
  lemma GivenUpOnlyForGood(hasId: bool, tries: seq<Try>)
    requires Tried(Init(hasId), tries) && tries != [] && !tries[|tries| - 1].r.Retryable?
    ensures tries[|tries| - 1].end.sends > 0 || tries[|tries| - 1].d.Permanent?
  {
    var n := |tries| - 1;
    TriedEarned(hasId, tries[..n]);
    EarnedRun(LastEnd(Init(hasId), tries[..n]), tries[n].gap);
    StopsAfterMail(Run(LastEnd(Init(hasId), tries[..n]), tries[n].gap), tries[n].end, tries[n].pid, tries[n].d,
                   tries[n].first, tries[n].second, tries[n].r);
  }

  class EmailWorker {
    var s: State

    constructor (hasId: bool)
      ensures s == Init(hasId)
    {
      s := Init(hasId);
    }

    /** `processEmailJob`; `first` and `second` are what other runs of the job do, and the time that passes,
        between the marker read and the dispatch and between the dispatch and the marker write. */
    method ProcessEmailJob(pid: Pid, dispatch: Dispatch, first: seq<Event>, second: seq<Event>)
      returns (r: JobResult, ghost trace: seq<Event>)
      requires Balanced(s) && pid !in s.runs && Elsewhere(first, pid) && Elsewhere(second, pid)
      modifies this
      ensures Balanced(s) && s == Run(old(s), trace) && pid !in s.runs
      ensures Processed(old(s), s, pid, dispatch, first, second, r)
    {
      trace := [];
      if s.hasId && s.marker.Some? && s.clock < s.marker.value {
        return Skipped, trace;
      }
      ghost var a := s;
      BalancedNext(s, Begin(pid));
      s := Next(s, Begin(pid));
      RunKept(s, first, pid);
      SameJob(s, first);
      s := Run(s, first);
      if dispatch.Delivered? || dispatch.sent {
        trace := SendAndMark(pid, dispatch, second);
      } else {
        BalancedNext(s, Fail(pid));
        assert Run(s, [Fail(pid)]) == Run(Next(s, Fail(pid)), []);
        s := Next(s, Fail(pid));
        trace := [Fail(pid)];
      }
      RunBegin(a, pid, first, trace);
      match dispatch {
        case Delivered(write) => r := if !s.hasId || write.Written? then Done else Retryable;
        case Permanent(_) => r := Unrecoverable;
        case Transient(_) => r := Retryable;
      }
      trace := [Begin(pid)] + first + trace;
    }

    /** The mail goes out; then the marker is written, unless something fails. */
    method SendAndMark(pid: Pid, d: Dispatch, second: seq<Event>) returns (ghost trace: seq<Event>)
      requires Balanced(s) && pid in s.runs && !s.runs[pid] && Elsewhere(second, pid) && Sends(d)
      modifies this
      ensures Balanced(s) && s == Run(old(s), trace) && pid !in s.runs && s.hasId == old(s).hasId
      ensures SentAndEnded(old(s), s, pid, d, second)
    {
      ghost var a := s;
      BalancedNext(s, Send(pid));
      s := Next(s, Send(pid));
      RunKept(s, second, pid);
      SameJob(s, second);
      s := Run(s, second);
      var e := if d.Delivered? && (!s.hasId || !d.write.Lost?) then Mark(pid) else Crash(pid);
      BalancedNext(s, e);
      RunAround(a, Send(pid), second, e);
      s := Next(s, e);
      trace := [Send(pid)] + second + [e];
    }
  }

  lemma RunBegin(a: State, pid: Pid, first: seq<Event>, rest: seq<Event>)
    ensures Run(a, [Begin(pid)] + first + rest) == Run(Run(Next(a, Begin(pid)), first), rest)
  {
    RunConcat(a, [Begin(pid)] + first, rest);
    assert ([Begin(pid)] + first)[1..] == first;
  }
}

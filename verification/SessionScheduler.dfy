/** Session events derived from bar timestamps. */
module Scheduler {
  import opened Domain
  import opened Orders

  /** last day seen (-1 before the first bar), warning sent, session open. */
  datatype SchedulerState = SchedulerState(lastDay: int, misFired: bool, open: bool)

  const INITIAL := SchedulerState(-1, false, false)
  const SQUAREOFF_MINUTE := 15 * 60 + 15

  function OnBarEvents(s: SchedulerState, ts: Timestamp): seq<SystemEvent> {
    var newDay := s.lastDay != IstDay(ts);
    var open := newDay || s.open;
    var fired := !newDay && s.misFired;
    (if newDay && s.open then [SessionEnd] else []) +
    (if newDay then [SessionStart] else []) +
    (if open && !fired && IstMinuteOfDay(ts) >= SQUAREOFF_MINUTE then [MisSquareoffWarning] else [])
  }

  function OnBarState(s: SchedulerState, ts: Timestamp): SchedulerState {
    var newDay := s.lastDay != IstDay(ts);
    var open := newDay || s.open;
    var fired := !newDay && s.misFired;
    SchedulerState(IstDay(ts), fired || (open && IstMinuteOfDay(ts) >= SQUAREOFF_MINUTE), open)
  }

  // ---------------------------------------------------------------- the event grammar

  /** Automaton of (Start Warning? End)*: between sessions, in a session, warned, or off the grammar. */
  datatype Phase = Closed | Open | Warned | Wrong

  function Follow(p: Phase, e: SystemEvent): Phase {
    match (p, e)
    case (Closed, SessionStart) => Open
    case (Open, MisSquareoffWarning) => Warned
    case (Open, SessionEnd) => Closed
    case (Warned, SessionEnd) => Closed
    case _ => Wrong
  }

  function FollowAll(p: Phase, es: seq<SystemEvent>): Phase {
    if es == [] then p else Follow(FollowAll(p, es[..|es| - 1]), es[|es| - 1])
  }

  lemma {:induction false} FollowConcat(p: Phase, a: seq<SystemEvent>, b: seq<SystemEvent>)
    ensures FollowAll(p, a + b) == FollowAll(FollowAll(p, a), b)
  {
    if b == [] {
      assert a + b == a;
    } else {
      var n := |b| - 1;
      FollowConcat(p, a, b[..n]);
      assert (a + b)[..|a + b| - 1] == a + b[..n];
    }
  }

  function PhaseOf(s: SchedulerState): Phase {
    if !s.open then Closed else if s.misFired then Warned else Open
  }

  datatype Call = Bar(ts: Timestamp) | Flush

  function Emits(s: SchedulerState, c: Call): seq<SystemEvent> {
    match c case Bar(ts) => OnBarEvents(s, ts) case Flush => if s.open then [SessionEnd] else []
  }

  function Next(s: SchedulerState, c: Call): SchedulerState {
    match c case Bar(ts) => OnBarState(s, ts) case Flush => s.(open := false)
  }

  lemma FollowFew(p: Phase, a: SystemEvent, b: SystemEvent, c: SystemEvent)
    ensures FollowAll(p, []) == p
    ensures FollowAll(p, [a]) == Follow(p, a)
    ensures FollowAll(p, [a, b]) == Follow(Follow(p, a), b)
    ensures FollowAll(p, [a, b, c]) == Follow(Follow(Follow(p, a), b), c)
  {
    assert [a][..0] == [] && [a, b][..1] == [a] && [a, b, c][..2] == [a, b];
  }

  lemma CallFollowsGrammar(s: SchedulerState, c: Call)
    ensures FollowAll(PhaseOf(s), Emits(s, c)) == PhaseOf(Next(s, c))
  {
    hide FollowAll;
    var es := Emits(s, c);
    var a, b, x := if |es| > 0 then es[0] else SessionEnd, if |es| > 1 then es[1]
      else SessionEnd, if |es| > 2 then es[2] else SessionEnd;
    FollowFew(PhaseOf(s), a, b, x);
    assert es == [] || es == [a] || es == [a, b] || es == [a, b, x];
  }

  /** All events emitted by a sequence of calls on a new scheduler, and its final state. */
  function Stream(calls: seq<Call>): (seq<SystemEvent>, SchedulerState) {
    if calls == [] then ([], INITIAL)
    else
      var n := |calls| - 1;
      var (es, s) := Stream(calls[..n]);
      (es + Emits(s, calls[n]), Next(s, calls[n]))
  }

  /** Whatever bars and flushes arrive, the event stream is a prefix of (Start Warning? End)*. */
  lemma {:induction false} StreamFollowsGrammar(calls: seq<Call>)
    ensures FollowAll(Closed, Stream(calls).0) == PhaseOf(Stream(calls).1)
    ensures FollowAll(Closed, Stream(calls).0) != Wrong
  {
    hide OnBarEvents; hide OnBarState;
    if calls != [] {
      var n := |calls| - 1;
      StreamFollowsGrammar(calls[..n]);
      var (es, s) := Stream(calls[..n]);
      FollowConcat(Closed, es, Emits(s, calls[n]));
      CallFollowsGrammar(s, calls[n]);
    }
  }

  // ---------------------------------------------------------------- when each event is sent

  function StateAfter(bars: seq<Timestamp>): SchedulerState {
    if bars == [] then INITIAL else OnBarState(StateAfter(bars[..|bars| - 1]), bars[|bars| - 1])
  }

  /** From bar j on, all bars are of one IST day. */
  ghost predicate SameDayFrom(bars: seq<Timestamp>, j: nat) {
    j < |bars| && forall i :: j <= i < |bars| ==> IstDay(bars[i]) == IstDay(bars[|bars| - 1])
  }

  /** Some bar of the last stretch of one day came at or after 15:15. */
  ghost predicate LateToday(bars: seq<Timestamp>) {
    exists j :: 0 <= j < |bars| && SameDayFrom(bars, j) && IstMinuteOfDay(bars[j]) >= 915
  }

  lemma LateTodayStep(bars: seq<Timestamp>, ts: Timestamp)
    ensures LateToday(bars + [ts]) <==>
      IstMinuteOfDay(ts) >= 915 || (bars != [] && IstDay(bars[|bars| - 1]) == IstDay(ts) && LateToday(bars))
  {
    hide IstDay; hide IstMinuteOfDay;
    var all, n := bars + [ts], |bars|;
    assert SameDayFrom(all, n) && all[n] == ts;
    forall j | 0 <= j < n
      ensures SameDayFrom(all, j) <==> SameDayFrom(bars, j) && IstDay(bars[n - 1]) == IstDay(ts)
    {
      assert forall i :: 0 <= i < n ==> all[i] == bars[i];
      if SameDayFrom(all, j) { assert IstDay(all[n - 1]) == IstDay(all[n]); }
    }
    if LateToday(all) {
      var j :| 0 <= j < |all| && SameDayFrom(all, j) && IstMinuteOfDay(all[j]) >= 915;
      if j < n { assert SameDayFrom(bars, j) && bars[j] == all[j]; }
    }
    if bars != [] && IstDay(bars[n - 1]) == IstDay(ts) && LateToday(bars) {
      var j :| 0 <= j < n && SameDayFrom(bars, j) && IstMinuteOfDay(bars[j]) >= 915;
      assert SameDayFrom(all, j) && all[j] == bars[j];
    }
  }

  lemma {:induction false} StateSummarised(bars: seq<Timestamp>)
    ensures bars == [] ==> StateAfter(bars) == INITIAL
    ensures bars != [] ==>
      var s := StateAfter(bars); s.open && s.lastDay == IstDay(bars[|bars| - 1]) && (s.misFired <==> LateToday(bars))
  {
    hide IstDay; hide IstMinuteOfDay; hide LateToday;
    if bars != [] {
      var n := |bars| - 1;
      StateSummarised(bars[..n]);
      LateTodayStep(bars[..n], bars[n]);
      assert bars[..n] + [bars[n]] == bars;
    }
  }

  /** A session starts with the first bar and with every bar of another IST day than the one before, which
      ends the previous session; the warning comes with the first bar of a day at or after 15:15. */
  lemma EventsIff(bars: seq<Timestamp>, ts: Timestamp)
    ensures var es := OnBarEvents(StateAfter(bars), ts);
      var sameDay := bars != [] && IstDay(bars[|bars| - 1]) == IstDay(ts);
      && (SessionStart in es <==> !sameDay)
      && (SessionEnd in es <==> bars != [] && !sameDay)
      && (MisSquareoffWarning in es <==> IstMinuteOfDay(ts) >= 915 && !(sameDay && LateToday(bars)))
      && KillSwitch !in es && |es| <= 3
  {
    hide IstDay; hide IstMinuteOfDay; hide LateToday; hide StateAfter;
    StateSummarised(bars);
  }

  class SessionScheduler {
    var lastDay: int
    var misFired: bool
    var open: bool

    constructor ()
      ensures State() == INITIAL
    {
      lastDay, misFired, open := -1, false, false;
    }

    function State(): SchedulerState
      reads this
    {
      SchedulerState(lastDay, misFired, open)
    }

    method OnBar(ts: Timestamp) returns (out: seq<SystemEvent>)
      modifies this
      ensures out == OnBarEvents(old(State()), ts)
      ensures State() == OnBarState(old(State()), ts)
    {
      out := [];
      var day := IstDay(ts);
      var minute := IstMinuteOfDay(ts);
      if lastDay != day {
        if open {
          out := out + [SessionEnd];
          open := false;
        }
        lastDay := day;
        misFired := false;
        out := out + [SessionStart];
        open := true;
      }
      if open && !misFired && minute >= SQUAREOFF_MINUTE {
        misFired := true;
        out := out + [MisSquareoffWarning];
      }
    }

    method FlushSession() returns (end: Option<SystemEvent>)
      modifies this
      ensures end == if old(open) then Some(SessionEnd) else None
      ensures State() == old(State()).(open := false)
    {
      if !open { return None; }
      open := false;
      end := Some(SessionEnd);
    }
  }
}

/**
 The RST check beside other traffic. Each access to the half-open table takes its lock by itself, so a
 SYN may put a key back between the removal of a flow and the look-up of it.
 */
module RstRaces {
  import opened Types
  import SF = SynFlood

  type FlowKey = SF.FlowKey

  type Thread = nat

  /** The next access of a segment that carries RST and is no SYN. */
  datatype Access = RemoveReverse | RemoveForward | LookForward | LookReverse | Fired | Quiet

  /**
   A check under way. `keyBack` and `revBack` are its history: whether, since the direction was last
   removed by anyone, a SYN has opened it again. `metKey` and `metRev` keep what held at the look-ups.
   */
  datatype Check = Check(
    key: FlowKey, rev: FlowKey, at: Access, keyBack: bool, revBack: bool, metKey: bool, metRev: bool)

  datatype State = State(table: set<FlowKey>, checks: map<Thread, Check>)

  datatype Step =
    | Opens(key: FlowKey)                        // a SYN of some other worker
    | Settles(key: FlowKey)                      // a removal by some other worker, or an expiry
    | Begins(thread: Thread, key: FlowKey, rev: FlowKey)
    | Advances(thread: Thread)

  /** What opening or removing a flow means to the history of a check. */
  function Witness(c: Check, k: FlowKey, up: bool): Check {
    c.(keyBack := if c.key == k then up else c.keyBack, revBack := if c.rev == k then up else c.revBack)
  }

  function WitnessAll(checks: map<Thread, Check>, k: FlowKey, up: bool): map<Thread, Check> {
    map t | t in checks :: Witness(checks[t], k, up)
  }

  predicate Enabled(s: State, e: Step) {
    match e
    case Opens(_) => true
    case Settles(_) => true
    case Begins(t, _, _) => t !in s.checks
    case Advances(t) => t in s.checks && !s.checks[t].at.Fired? && !s.checks[t].at.Quiet?
  }

  function Removed(s: State, k: FlowKey): State {
    State(s.table - {k}, WitnessAll(s.checks, k, false))
  }

  function Next(s: State, e: Step): State
    requires Enabled(s, e)
  {
    match e
    case Opens(k) => State(s.table + {k}, WitnessAll(s.checks, k, true))
    case Settles(k) => Removed(s, k)
    case Begins(t, key, rev) =>
      s.(checks := s.checks[t := Check(key, rev, RemoveReverse, false, false, false, false)])
    case Advances(t) =>
      var c := s.checks[t];
      match c.at
      case RemoveReverse =>
        var r := Removed(s, c.rev);
        r.(checks := r.checks[t := r.checks[t].(at := RemoveForward)])
      case RemoveForward =>
        var r := Removed(s, c.key);
        r.(checks := r.checks[t := r.checks[t].(at := LookForward)])
      case LookForward =>
        s.(checks := s.checks[t := c.(metKey := c.keyBack, at := if c.key in s.table then Quiet else LookReverse)])
      case LookReverse =>
        s.(checks := s.checks[t := c.(metRev := c.revBack, at := if c.rev in s.table then Quiet else Fired)])
      case _ => s
  }

  /** The state a trace leads to, if each of its steps is enabled where it is taken. */
  function Exec(table: set<FlowKey>, trace: seq<Step>): Option<State> {
    if trace == [] then Some(State(table, map[]))
    else
      var m := Exec(table, Init(trace));
      if m.Some? && Enabled(m.value, Last(trace)) then Some(Next(m.value, Last(trace))) else None
  }

  /** Once a check has removed a direction, the table holds it exactly if it was opened again since. */
  predicate Tracks(table: set<FlowKey>, c: Check) {
    && (!c.at.RemoveReverse? ==> (c.rev in table <==> c.revBack))
    && (!c.at.RemoveReverse? && !c.at.RemoveForward? ==> (c.key in table <==> c.keyBack))
    && (c.at.LookReverse? ==> !c.metKey)
    && (c.at.Fired? ==> !c.metKey && !c.metRev)
    && (c.at.Quiet? ==> c.metKey || c.metRev)
  }

  predicate AllTrack(s: State) {
    forall t :: t in s.checks ==> Tracks(s.table, s.checks[t])
  }

  lemma {:induction false} RemovalTracks(s: State, k: FlowKey)
    requires AllTrack(s)
    ensures AllTrack(Removed(s, k))
  {}

  lemma {:induction false} AdvanceTracks(s: State, t: Thread)
    requires AllTrack(s) && Enabled(s, Advances(t))
    ensures AllTrack(Next(s, Advances(t)))
  {
    var c := s.checks[t];
    match c.at {
      case RemoveReverse => RemovalTracks(s, c.rev);
      case RemoveForward => RemovalTracks(s, c.key);
      case _ =>
    }
  }

  lemma {:induction false} StepTracks(s: State, e: Step)
    requires AllTrack(s) && Enabled(s, e)
    ensures AllTrack(Next(s, e))
  {
    match e {
      case Settles(k) => RemovalTracks(s, k);
      case Advances(t) => AdvanceTracks(s, t);
      case _ =>
    }
  }

  lemma {:induction false} EveryRunTracks(table: set<FlowKey>, trace: seq<Step>)
    requires Exec(table, trace).Some?
    ensures AllTrack(Exec(table, trace).value)
  {
    if trace != [] {
      EveryRunTracks(table, Init(trace));
      StepTracks(Exec(table, Init(trace)).value, Last(trace));
    }
  }

  /**
   Under every interleaving: a finished check has fired exactly if neither direction stood opened again,
   after its removal, when it was looked up; it was kept quiet exactly if one did.
   */
  lemma {:induction false} RstFiresUnlessReopened(table: set<FlowKey>, trace: seq<Step>, t: Thread)
    requires Exec(table, trace).Some? && t in Exec(table, trace).value.checks
    ensures var c := Exec(table, trace).value.checks[t];
            c.at.Fired? || c.at.Quiet? ==> (c.at.Fired? <==> !c.metKey && !c.metRev)
  {
    EveryRunTracks(table, trace);
  }

  /** No step of the trace opens either direction. */
  predicate NeverOpens(trace: seq<Step>, key: FlowKey, rev: FlowKey) {
    trace == [] || (NeverOpens(Init(trace), key, rev) && Last(trace) != Opens(key) && Last(trace) != Opens(rev))
  }

  predicate Undisturbed(c: Check) {
    !c.keyBack && !c.revBack && !c.metKey && !c.metRev
  }

  lemma {:induction false} StepLeavesUndisturbed(s: State, e: Step, t: Thread)
    requires Enabled(s, e) && t in s.checks && Undisturbed(s.checks[t])
    requires e != Opens(s.checks[t].key) && e != Opens(s.checks[t].rev)
    ensures t in Next(s, e).checks && Undisturbed(Next(s, e).checks[t])
    ensures Next(s, e).checks[t].key == s.checks[t].key && Next(s, e).checks[t].rev == s.checks[t].rev
  {}

  /** From its beginning on, a check whose flow nobody opens meets nothing. */
  lemma {:induction false} UndisturbedStays(
    table: set<FlowKey>, before: seq<Step>, trace: seq<Step>, t: Thread, key: FlowKey, rev: FlowKey)
    requires Exec(table, before + [Begins(t, key, rev)] + trace).Some? && NeverOpens(trace, key, rev)
    ensures var s := Exec(table, before + [Begins(t, key, rev)] + trace).value;
            t in s.checks && Undisturbed(s.checks[t]) && s.checks[t].key == key && s.checks[t].rev == rev
    decreases |trace|
  {
    var start := before + [Begins(t, key, rev)];
    if trace == [] {
      assert start + trace == start && Init(start) == before;
    } else {
      assert Init(start + trace) == start + Init(trace);
      UndisturbedStays(table, before, Init(trace), t, key, rev);
      StepLeavesUndisturbed(Exec(table, start + Init(trace)).value, Last(trace), t);
    }
  }

  /** So a RST whose flow no SYN opens while it is checked is reported, whatever else happens. */
  lemma {:induction false} UndisturbedRstFires(
    table: set<FlowKey>, before: seq<Step>, trace: seq<Step>, t: Thread, key: FlowKey, rev: FlowKey)
    requires Exec(table, before + [Begins(t, key, rev)] + trace).Some? && NeverOpens(trace, key, rev)
    ensures var s := Exec(table, before + [Begins(t, key, rev)] + trace).value;
            t in s.checks && !s.checks[t].at.Quiet?
  {
    UndisturbedStays(table, before, trace, t, key, rev);
    EveryRunTracks(table, before + [Begins(t, key, rev)] + trace);
  }

  /** A SYN of the same flow just before either look-up keeps the RST from being reported. */
  lemma {:induction false} ReopeningSilences(s: State, t: Thread)
    requires t in s.checks && (s.checks[t].at.LookForward? || s.checks[t].at.LookReverse?)
    ensures var c := s.checks[t];
            var reopened := Next(s, Opens(if c.at.LookForward? then c.key else c.rev));
            Enabled(reopened, Advances(t)) && Next(reopened, Advances(t)).checks[t].at.Quiet?
  {
    var c := s.checks[t];
    var k := if c.at.LookForward? then c.key else c.rev;
    var reopened := Next(s, Opens(k));
    assert t in reopened.checks && reopened.checks[t] == Witness(c, k, true);
  }
}

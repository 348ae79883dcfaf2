/**
 Progress of one logical request, shared between the public stream and the retry runner. The
 operations are modelled twice: as uninterrupted methods, and as the single atomic accesses that
 threads may interleave in any order.
 */
module ExecutionState {

  datatype Progress = Planned | Attempting | Streaming | Terminal

  class RequestExecutionState {
    var progress: Progress
    var delivered: bool
    var terminal: bool

    constructor ()
      ensures progress == Planned && !delivered && !terminal
    {
      progress, delivered, terminal := Planned, false, false;
    }

    method BeginAttempt()
      modifies this`progress
      ensures progress == if terminal then old(progress) else Attempting
    {
      if !terminal { progress := Attempting; }
    }

    method MarkDelivered()
      modifies this`delivered, this`progress
      ensures delivered
      ensures progress == if terminal then old(progress) else Streaming
    {
      delivered := true;
      if !terminal { progress := Streaming; }
    }

    /** True for the one call that ends the request. */
    method MarkTerminal() returns (won: bool)
      modifies this`terminal, this`progress
      ensures terminal && won == !old(terminal)
      ensures progress == if won then Terminal else old(progress)
    {
      won := !terminal;
      if won {
        terminal := true;
        progress := Terminal;
      }
    }
  }

  // ---------------------------------------------------------------- interleavings

  /** Where a thread stands inside an operation. */
  datatype Position =
    | Idle
    | Delivering                      // has stored `delivered`, will look at `terminal`
    | Storing(next: Progress)         // saw `terminal` unset, will store `next`
    | Winning                         // its exchange succeeded, will store `Terminal`

  datatype Shared = Shared(progress: Progress, delivered: bool, terminal: bool, wins: nat, threads: seq<Position>)

  /** One atomic access of a thread; `wins` counts the exchanges that succeeded. */
  datatype Access = LoadForAttempt | StoreDelivered | LoadForDelivery | StoreProgress | Exchange

  predicate Enabled(s: Shared, i: nat, a: Access) {
    && i < |s.threads|
    && match a
       case LoadForAttempt => s.threads[i].Idle?
       case StoreDelivered => s.threads[i].Idle?
       case Exchange => s.threads[i].Idle?
       case LoadForDelivery => s.threads[i].Delivering?
       case StoreProgress => s.threads[i].Storing? || s.threads[i].Winning?
  }

  function Move(s: Shared, i: nat, to: Position): Shared
    requires i < |s.threads|
  {
    s.(threads := s.threads[i := to])
  }

  function Perform(s: Shared, i: nat, a: Access): Shared
    requires Enabled(s, i, a)
  {
    match a
    case LoadForAttempt => Move(s, i, if s.terminal then Idle else Storing(Attempting))
    case StoreDelivered => Move(s, i, Delivering).(delivered := true)
    case LoadForDelivery => Move(s, i, if s.terminal then Idle else Storing(Streaming))
    case StoreProgress => Move(s, i, Idle).(progress := if s.threads[i].Winning? then Terminal else s.threads[i].next)
    case Exchange => if s.terminal then s else Move(s, i, Winning).(terminal := true, wins := s.wins + 1)
  }

  /** A schedule: which thread makes which access. */
  predicate Possible(s: Shared, schedule: seq<(nat, Access)>)
    decreases |schedule|
  {
    schedule == [] ||
    (Enabled(s, schedule[0].0, schedule[0].1) && Possible(Perform(s, schedule[0].0, schedule[0].1), schedule[1..]))
  }

  function Run(s: Shared, schedule: seq<(nat, Access)>): Shared
    requires Possible(s, schedule)
    decreases |schedule|
  {
    if schedule == [] then s else Run(Perform(s, schedule[0].0, schedule[0].1), schedule[1..])
  }

  predicate Initial(s: Shared) {
    && !s.delivered && !s.terminal && s.wins == 0 && s.progress.Planned?
    && forall i :: 0 <= i < |s.threads| ==> s.threads[i].Idle?
  }

  /** What every interleaving keeps. */
  predicate Consistent(s: Shared) {
    && s.wins == (if s.terminal then 1 else 0)
    && (!s.terminal ==> !s.progress.Terminal?)
    && (forall i :: 0 <= i < |s.threads| ==> s.threads[i].Winning? ==> s.terminal)
    && (forall i :: 0 <= i < |s.threads| ==> s.threads[i].Storing? ==> !s.threads[i].next.Terminal?)
  }

  lemma StepKeeps(s: Shared, i: nat, a: Access)
    requires Consistent(s) && Enabled(s, i, a)
    ensures var s' := Perform(s, i, a);
            Consistent(s') && (s.delivered ==> s'.delivered) && (s.terminal ==> s'.terminal)
              && |s'.threads| == |s.threads|
  {
  }

  lemma {:induction false} RunKeeps(s: Shared, schedule: seq<(nat, Access)>)
    requires Consistent(s) && Possible(s, schedule)
    ensures var s' := Run(s, schedule);
            Consistent(s') && (s.delivered ==> s'.delivered) && (s.terminal ==> s'.terminal)
              && |s'.threads| == |s.threads|
    decreases |schedule|
  {
    if schedule != [] {
      StepKeeps(s, schedule[0].0, schedule[0].1);
      RunKeeps(Perform(s, schedule[0].0, schedule[0].1), schedule[1..]);
    }
  }

  /** However threads interleave: one exchange at most succeeds, and delivery and termination are never undone. */
  lemma TerminalIsWonOnce(s: Shared, first: seq<(nat, Access)>, then': seq<(nat, Access)>)
    requires Initial(s) && Possible(s, first) && Possible(Run(s, first), then')
    ensures var mid := Run(s, first);
            var end := Run(mid, then');
            && end.wins <= 1 && (end.wins == 1 <==> end.terminal)
            && (mid.delivered ==> end.delivered) && (mid.terminal ==> end.terminal)
  {
    RunKeeps(s, first);
    RunKeeps(Run(s, first), then');
  }

  // ---------------------------------------------------------------- the progress byte

  /** A thread that looked at `terminal` too early is about to overwrite the progress. */
  predicate StaleStore(s: Shared) { exists i :: 0 <= i < |s.threads| && s.threads[i].Storing? }

  /** The progress is terminal now and after every continuation. */
  ghost predicate StaysTerminal(s: Shared) {
    forall schedule | Possible(s, schedule) :: Run(s, schedule).progress.Terminal?
  }

  lemma {:induction false} SettledStays(s: Shared, schedule: seq<(nat, Access)>)
    requires Consistent(s) && s.terminal && s.progress.Terminal? && !StaleStore(s) && Possible(s, schedule)
    ensures Run(s, schedule).progress.Terminal?
    decreases |schedule|
  {
    if schedule != [] {
      var i, a := schedule[0].0, schedule[0].1;
      StepKeeps(s, i, a);
      var s' := Perform(s, i, a);
      assert forall k :: 0 <= k < |s.threads| && k != i ==> s'.threads[k] == s.threads[k];
      assert !StaleStore(s');
      SettledStays(s', schedule[1..]);
    }
  }

  /** Once terminal, the progress stays terminal for good if and only if no stale store is under way. */
  lemma ProgressStaysTerminal(s: Shared)
    requires Consistent(s) && s.terminal && s.progress.Terminal?
    ensures StaysTerminal(s) <==> !StaleStore(s)
  {
    if StaleStore(s) {
      var i :| 0 <= i < |s.threads| && s.threads[i].Storing?;
      var schedule := [(i, StoreProgress)];
      assert schedule[1..] == [];
      assert Possible(s, schedule);
      assert !Run(s, schedule).progress.Terminal?;
    } else {
      forall schedule | Possible(s, schedule) ensures Run(s, schedule).progress.Terminal? {
        SettledStays(s, schedule);
      }
    }
  }

  /** It does happen: an attempt begins, another thread ends the request, and the attempt's store comes last. */
  lemma ProgressCanRegress()
    ensures var s := Shared(Planned, false, false, 0, [Idle, Idle]);
            var schedule := [(0, LoadForAttempt), (1, Exchange), (1, StoreProgress), (0, StoreProgress)];
            Initial(s) && Possible(s, schedule) && Run(s, schedule).terminal && Run(s, schedule).progress.Attempting?
  {
    var s := Shared(Planned, false, false, 0, [Idle, Idle]);
    var s1 := Perform(s, 0, LoadForAttempt);
    var s2 := Perform(s1, 1, Exchange);
    var s3 := Perform(s2, 1, StoreProgress);
    var s4 := Perform(s3, 0, StoreProgress);
    var schedule := [(0, LoadForAttempt), (1, Exchange), (1, StoreProgress), (0, StoreProgress)];
    var schedule1, schedule2 := schedule[1..], schedule[2..];
    var schedule3, schedule4 := schedule[3..], schedule[4..];
    assert schedule1[1..] == schedule2 && schedule2[1..] == schedule3 && schedule3[1..] == schedule4;
    assert Possible(s4, schedule4) && Run(s4, schedule4) == s4;
    assert Possible(s3, schedule3) && Run(s3, schedule3) == s4;
    assert Possible(s2, schedule2) && Run(s2, schedule2) == s4;
    assert Possible(s1, schedule1) && Run(s1, schedule1) == s4;
  }
}

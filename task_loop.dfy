/**
 * The command-line loop: ask for a task, run it, and go on while the task
 * says so.  The answers the user would give are a finite script of turns;
 * when the script runs out the model stops where the program would wait for
 * more input.
 */
module TaskLoop {
  import opened Types
  import opened Inquirer

  /** One round of the loop: the task picked from the menu and what its workflow would answer. */
  datatype Turn = Turn(task: string, replies: Replies)

  /** Why the loop ended: a task returned false, a task threw, or the script ran out. */
  datatype StopReason = Exited | Crashed | OutOfInput

  datatype RunEnd = RunEnd(processed: nat, session: Option<Auth>, reason: StopReason)

  /** The loop's meaning: how many turns it takes, the session file it leaves, and why it ends. */
  function Run(turns: seq<Turn>, session: Option<Auth>): RunEnd
    decreases |turns|
  {
    if turns == [] then RunEnd(0, session, OutOfInput)
    else
      match ProcessTask(turns[0].task, session, turns[0].replies)
      case Threw => RunEnd(1, session, Crashed)
      case Returned(keepRunning, next) =>
        if !keepRunning then RunEnd(1, next, Exited)
        else
          var rest := Run(turns[1..], next);
          rest.(processed := rest.processed + 1)
  }

  /** The loop itself, one turn per iteration. */
  method RunTaskLoop(turns: seq<Turn>, initial: Option<Auth>) returns (processed: nat, session: Option<Auth>, reason: StopReason)
    ensures RunEnd(processed, session, reason) == Run(turns, initial)
  {
    processed, session, reason := 0, initial, OutOfInput;
    var isRunning := true;
    while isRunning && processed < |turns|
      invariant processed <= |turns|
      invariant isRunning ==> reason == OutOfInput
      invariant isRunning ==>
        var rest := Run(turns[processed..], session);
        rest.(processed := rest.processed + processed) == Run(turns, initial)
      invariant !isRunning ==> RunEnd(processed, session, reason) == Run(turns, initial)
      decreases |turns| - processed
    {
      var turn := turns[processed];
      assert turns[processed..][0] == turn;
      assert turns[processed..][1..] == turns[processed + 1..];
      var result := ProcessTask(turn.task, session, turn.replies);
      processed := processed + 1;
      match result
      case Threw =>
        isRunning, reason := false, Crashed;
      case Returned(keepRunning, next) =>
        session := next;
        isRunning := keepRunning;
        if !keepRunning {
          reason := Exited;
        }
    }
    if isRunning {
      assert turns[processed..] == [];
    }
  }

  /** The session file as it stands before turn k, the turns before it having all returned. */
  function SessionBefore(turns: seq<Turn>, session: Option<Auth>, k: nat): Option<Auth>
    requires k <= |turns|
    decreases k
  {
    if k == 0 then session
    else
      match ProcessTask(turns[0].task, session, turns[0].replies)
      case Threw => session
      case Returned(_, next) => SessionBefore(turns[1..], next, k - 1)
  }

  /**
   * The loop runs every turn before the last one it takes to completion with
   * "keep running".  It crashes exactly when that last task, run on the
   * session file as it then stands, throws; it exits exactly when that task
   * returns "stop"; when the script runs out every task said keep running.
   */
  lemma {:induction false} RunStopsAtFirstStop(turns: seq<Turn>, session: Option<Auth>)
    ensures var r := Run(turns, session);
      && r.processed <= |turns|
      && (forall j :: 0 <= j < r.processed - 1 ==> KeepsRunning(turns[j].task))
      && (r.reason == OutOfInput ==> r.processed == |turns| && forall j :: 0 <= j < |turns| ==> KeepsRunning(turns[j].task))
      && (r.reason != OutOfInput ==> 0 < r.processed)
      && (r.reason == Exited ==> 0 < r.processed && !KeepsRunning(turns[r.processed - 1].task))
      && (0 < r.processed ==>
            var last := turns[r.processed - 1];
            var step := ProcessTask(last.task, SessionBefore(turns, session, r.processed - 1), last.replies);
            && (r.reason == Crashed <==> step.Threw?)
            && (r.reason == Crashed ==> r.session == SessionBefore(turns, session, r.processed - 1))
            && (r.reason == Exited <==> step == Returned(false, r.session)))
    decreases |turns|
  {
    if turns != [] {
      var result := ProcessTask(turns[0].task, session, turns[0].replies);
      if result.Returned? && result.keepRunning {
        RunStopsAtFirstStop(turns[1..], result.session);
        var rest := Run(turns[1..], result.session);
        forall j | 0 <= j < rest.processed ensures KeepsRunning(turns[j].task) {
          if j > 0 { assert turns[j] == turns[1..][j - 1]; }
        }
        if rest.processed > 0 {
          assert turns[rest.processed] == turns[1..][rest.processed - 1];
          assert SessionBefore(turns, session, rest.processed) == SessionBefore(turns[1..], result.session, rest.processed - 1);
        }
        if rest.reason == OutOfInput {
          forall j | 0 <= j < |turns| ensures KeepsRunning(turns[j].task) {
            if j > 0 { assert turns[j] == turns[1..][j - 1]; }
          }
        }
      }
    }
  }

  /** A task that says stop at position k ends the loop there at the latest. */
  lemma {:induction false} RunEndsByFirstStop(turns: seq<Turn>, session: Option<Auth>, k: nat)
    requires k < |turns| && !KeepsRunning(turns[k].task)
    ensures Run(turns, session).processed <= k + 1
    ensures Run(turns, session).reason != OutOfInput
    decreases k
  {
    var result := ProcessTask(turns[0].task, session, turns[0].replies);
    if k > 0 && result.Returned? && result.keepRunning {
      assert turns[1..][k - 1] == turns[k];
      RunEndsByFirstStop(turns[1..], result.session, k - 1);
    }
  }

  /** Only the login and logout tasks change the session file over a whole run. */
  lemma {:induction false} RunSessionChangesOnlyByLoginOrLogout(turns: seq<Turn>, session: Option<Auth>)
    requires forall j :: 0 <= j < |turns| ==> turns[j].task != Login && turns[j].task != Logout
    ensures Run(turns, session).session == session
    decreases |turns|
  {
    if turns != [] {
      var result := ProcessTask(turns[0].task, session, turns[0].replies);
      if result.Returned? && result.keepRunning {
        forall j | 0 <= j < |turns[1..]| ensures turns[1..][j].task != Login && turns[1..][j].task != Logout {
          assert turns[1..][j] == turns[j + 1];
        }
        RunSessionChangesOnlyByLoginOrLogout(turns[1..], result.session);
      }
    }
  }
}

/**
 arena/match.py, run_match: what is left on disk, and what was attempted, when any step
 of a match may fail and any step of the cleanup may fail after it.
 */
module CrashCustody {
  import opened Wrappers

  // The steps of the try block that matter to custody, in the order they are taken. Play
  // stands for everything from the opening position to the score.
  datatype Step = OpenTranscript | OpenSidecar | AppendHeader | Construct(seat: nat) | Play | AppendResult | Summarize

  datatype Action =
    | CloseEntrant(seat: nat)
    | NoteStderr(seat: nat)
    | CloseSidecar
    | CloseTranscript
    | UnlinkTranscript
    | UnlinkSidecar
    | RemoveScratch

  type Error = string

  // A step that fails may still have left its mark on disk.
  datatype Failure = Failure(error: Error, marked: bool)

  // What goes wrong in one cleanup action: an exception, and a deletion that leaves things
  // where they are. Removing scratch ignores errors, so the second can come without the first.
  datatype Mishap = Mishap(raised: Option<Error>, kept: bool)

  // What goes wrong in one run.
  datatype Faults = Faults(step: Step -> Option<Failure>, action: Action -> Mishap)

  // An output path: nothing there, something another process put there, or this run's.
  datatype Place = Absent | Foreign | Own

  datatype Disk = Disk(transcript: Place, sidecar: Place, scratch: Place) {
    predicate Occupied() {
      transcript != Absent || sidecar != Absent || scratch != Absent
    }
  }

  const EXISTS: Error := "FileExistsError"
  const SEATS := 2
  const STEPS: seq<Step> :=
    [OpenTranscript, OpenSidecar, AppendHeader, Construct(0), Construct(1), Play, AppendResult, Summarize]
  const COMMIT := 6

  // -- the try block, as a function of what fails -----------------------------------

  // The exception a step ends in, if it does. The two opens are exclusive.
  function StepError(faults: Faults, before: Disk, step: Step): Option<Error> {
    if (step == OpenTranscript && before.transcript != Absent) || (step == OpenSidecar && before.sidecar != Absent) then
      Some(EXISTS)
    else
      match faults.step(step)
      case Some(failure) => Some(failure.error)
      case None => None
  }

  // The first step from i on that fails, or the number of steps.
  function Stop(faults: Faults, before: Disk, i: nat): (stop: nat)
    requires i <= |STEPS|
    ensures i <= stop <= |STEPS|
    ensures forall k | i <= k < stop :: StepError(faults, before, STEPS[k]).None?
    ensures stop < |STEPS| ==> StepError(faults, before, STEPS[stop]).Some?
    decreases |STEPS| - i
  {
    if i == |STEPS| || StepError(faults, before, STEPS[i]).Some? then i else Stop(faults, before, i + 1)
  }

  function StopError(faults: Faults, before: Disk): Option<Error> {
    var stop := Stop(faults, before, 0);
    if stop == |STEPS| then None else StepError(faults, before, STEPS[stop])
  }

  // Every step before the k-th is taken.
  ghost predicate Reached(faults: Faults, before: Disk, k: nat)
    requires k <= |STEPS|
  {
    Stop(faults, before, 0) == Stop(faults, before, k)
  }

  lemma NextStep(faults: Faults, before: Disk, k: nat)
    requires k < |STEPS| && (k == 0 || Reached(faults, before, k))
    ensures var error := StepError(faults, before, STEPS[k]);
      && (error.Some? ==> Stop(faults, before, 0) == k && StopError(faults, before) == error)
      && (error.None? <==> Reached(faults, before, k + 1))
      && (error.None? && k + 1 == |STEPS| ==> Stop(faults, before, 0) == k + 1 && StopError(faults, before) == None)
  {
    hide StepError;
  }

  // How many entrants are constructed once the steps before stop are taken.
  function Constructed(stop: nat): (n: nat)
    ensures n <= SEATS
  {
    if stop <= 3 then 0 else if stop == 4 then 1 else 2
  }

  // What an exclusive open leaves at a place, and whether it is reached at all.
  function Opened(faults: Faults, place: Place, step: Step, reached: bool): Place {
    if !reached || place != Absent then place
    else if faults.step(step).None? || faults.step(step).value.marked then Own
    else Absent
  }

  // The disk when the try block is left.
  function LeftBy(faults: Faults, before: Disk): Disk {
    var stop := Stop(faults, before, 0);
    Disk(Opened(faults, before.transcript, OpenTranscript, true),
         Opened(faults, before.sidecar, OpenSidecar, stop >= 1),
         Opened(faults, before.scratch, Play, stop >= 5))
  }

  // -- the finally block ----------------------------------------------------------------

  function Closes(n: nat): (r: seq<Action>)
    ensures forall i | 0 <= i < n :: CloseEntrant(i) in r
  {
    if n == 0 then [] else Closes(n - 1) + [CloseEntrant(n - 1)]
  }

  function Notes(n: nat): seq<Action> {
    if n == 0 then [] else Notes(n - 1) + [NoteStderr(n - 1)]
  }

  function When(condition: bool, actions: seq<Action>): seq<Action> {
    if condition then actions else []
  }

  // Everything the finally block attempts, in order.
  function Plan(procs: nat, hasSidecar: bool, hasTranscript: bool, abandoned: bool, keepScratch: bool): seq<Action> {
    Closes(procs) + When(hasSidecar, Notes(procs)) + When(hasSidecar, [CloseSidecar])
    + When(hasTranscript, [CloseTranscript]) + When(abandoned, [UnlinkTranscript, UnlinkSidecar])
    + When(!keepScratch, [RemoveScratch])
  }

  // The exception of one action, on a disk. What is not there is not unlinked.
  function ActionError(faults: Faults, disk: Disk, a: Action): Option<Error> {
    if (a == UnlinkTranscript && disk.transcript == Absent) || (a == UnlinkSidecar && disk.sidecar == Absent) then None
    else faults.action(a).raised
  }

  // The first error among some actions, on the disk the try block left.
  function FirstError(actions: seq<Action>, faults: Faults, left: Disk): Option<Error> {
    if actions == [] then None
    else
      var earlier := FirstError(actions[..|actions| - 1], faults, left);
      if earlier.Some? then earlier else ActionError(faults, left, actions[|actions| - 1])
  }

  lemma FirstErrorNext(actions: seq<Action>, a: Action, faults: Faults, left: Disk)
    ensures FirstError(actions + [a], faults, left) ==
      if FirstError(actions, faults, left).Some? then FirstError(actions, faults, left)
      else ActionError(faults, left, a)
  {
    assert (actions + [a])[..|actions|] == actions;
  }

  lemma BothOpened(faults: Faults, before: Disk)
    requires Reached(faults, before, 2)
    ensures var left := LeftBy(faults, before);
      2 <= Stop(faults, before, 0) && left.transcript == Own && left.sidecar == Own
  {
    assert StepError(faults, before, STEPS[0]).None? && StepError(faults, before, STEPS[1]).None?;
  }

  // A deletion leaves what is there: an unlink only if it raises, the removal of scratch
  // also in silence.
  predicate Kept(faults: Faults, action: Action) {
    faults.action(action).kept && (action == RemoveScratch || faults.action(action).raised.Some?)
  }

  // A place after the attempt to delete what is there.
  function Deleted(faults: Faults, place: Place, action: Action, attempted: bool): Place {
    if attempted && !Kept(faults, action) then Absent else place
  }

  // The disk after one action.
  function Cleaned(faults: Faults, disk: Disk, action: Action): Disk {
    Disk(Deleted(faults, disk.transcript, action, action == UnlinkTranscript),
         Deleted(faults, disk.sidecar, action, action == UnlinkSidecar),
         Deleted(faults, disk.scratch, action, action == RemoveScratch))
  }

  // The disk after the whole finally block.
  function Emptied(faults: Faults, disk: Disk, abandoned: bool, keepScratch: bool): Disk {
    Disk(Deleted(faults, disk.transcript, UnlinkTranscript, abandoned),
         Deleted(faults, disk.sidecar, UnlinkSidecar, abandoned),
         Deleted(faults, disk.scratch, RemoveScratch, !keepScratch))
  }

  datatype Outcome = Outcome(disk: Disk, committed: bool, attempted: seq<Action>, raised: Option<Error>)

  // One run after the check for existing output, given the disk that the opens meet.
  function After(faults: Faults, before: Disk, keepScratch: bool): Outcome {
    var stop, left := Stop(faults, before, 0), LeftBy(faults, before);
    var committed := stop > COMMIT;
    var attempted := Plan(Constructed(stop), stop > 1, stop > 0, !committed, keepScratch);
    Outcome(
      Emptied(faults, left, !committed, keepScratch), committed, attempted,
      if FirstError(attempted, faults, left).Some? then FirstError(attempted, faults, left)
      else StopError(faults, before))
  }

  class Custody {
    const faults: Faults
    var disk: Disk
    // in the runner
    var procs: nat
    var hasTranscript: bool
    var hasSidecar: bool
    var committed: bool
    var attempted: seq<Action>
    var cleanupError: Option<Error>

    constructor (faults: Faults, disk: Disk)
      ensures this.faults == faults && this.disk == disk && Idle()
    {
      this.faults, this.disk := faults, disk;
      procs, hasTranscript, hasSidecar, committed, attempted, cleanupError := 0, false, false, false, [], None;
    }

    predicate Idle()
      reads this
    {
      procs == 0 && !hasTranscript && !hasSidecar && !committed && attempted == [] && cleanupError == None
    }

    // Taking one step; an exclusive open fails on whatever is in its way.
    method Take(step: Step, place: Place) returns (error: Option<Error>, after: Place)
      ensures error == if place != Absent && (step == OpenTranscript || step == OpenSidecar) then Some(EXISTS)
                       else if faults.step(step).Some? then Some(faults.step(step).value.error) else None
      ensures after == Opened(faults, place, step, true)
    {
      if place != Absent && (step == OpenTranscript || step == OpenSidecar) {
        return Some(EXISTS), place;
      }
      match faults.step(step)
      case None => return None, if place == Absent then Own else place;
      case Some(failure) => return Some(failure.error), if place == Absent && failure.marked then Own else place;
    }

    // Opening both files: the number of steps taken, and the exception if one fails.
    method OpenOutputs() returns (active: Option<Error>)
      requires Idle()
      modifies this`disk, this`hasTranscript, this`hasSidecar
      ensures active.None? <==> Reached(faults, old(disk), 2)
      ensures active.None? ==> hasTranscript && hasSidecar && disk == old(disk).(transcript := Own, sidecar := Own)
      ensures active.Some? ==> StopError(faults, old(disk)) == active
      ensures active.Some? ==> Stop(faults, old(disk), 0) == (if hasTranscript then 1 else 0)
      ensures active.Some? ==> !hasSidecar && disk == LeftBy(faults, old(disk))
    {
      ghost var before := disk;
      var place;
      active, place := Take(OpenTranscript, disk.transcript);
      disk := disk.(transcript := place);
      NextStep(faults, before, 0);
      if active.Some? { return; }
      hasTranscript := true;
      active, place := Take(OpenSidecar, disk.sidecar);
      disk := disk.(sidecar := place);
      NextStep(faults, before, 1);
      hasSidecar := active.None?;
    }

    // From the header to the end of the try block.
    method PlayMatch(ghost before: Disk) returns (active: Option<Error>)
      requires Reached(faults, before, 2) && procs == 0 && !committed
      modifies this`disk, this`procs, this`committed
      ensures var stop := Stop(faults, before, 0);
        && 2 <= stop && procs == Constructed(stop) && committed == (stop > COMMIT)
        && disk == old(disk).(scratch := Opened(faults, old(disk).scratch, Play, stop >= 5))
      ensures active == StopError(faults, before)
    {
      hide Stop, Reached;
      var place;
      active, place := Take(AppendHeader, Absent);
      NextStep(faults, before, 2);
      if active.Some? { return; }
      for i := 0 to SEATS
        invariant procs == i && !committed && disk == old(disk) && Reached(faults, before, 3 + i)
      {
        active, place := Take(Construct(i), Absent);
        NextStep(faults, before, 3 + i);
        if active.Some? { return; }
        procs := procs + 1;
      }
      active, place := Take(Play, disk.scratch);
      disk := disk.(scratch := place);
      NextStep(faults, before, 5);
      if active.Some? { return; }
      active, place := Take(AppendResult, Absent);
      NextStep(faults, before, 6);
      if active.Some? { return; }
      committed := true;
      active, place := Take(Summarize, Absent);
      NextStep(faults, before, 7);
    }

    // The try block: None when it returns, the exception that leaves it otherwise.
    method TryBlock() returns (active: Option<Error>)
      requires Idle()
      modifies this`disk, this`procs, this`hasTranscript, this`hasSidecar, this`committed
      ensures active == StopError(faults, old(disk)) && disk == LeftBy(faults, old(disk))
      ensures var stop := Stop(faults, old(disk), 0);
        && procs == Constructed(stop) && hasTranscript == (stop > 0) && hasSidecar == (stop > 1)
        && committed == (stop > COMMIT)
    {
      hide Stop, StepError;
      active := OpenOutputs();
      if active.None? {
        BothOpened(faults, old(disk));
        active := PlayMatch(old(disk));
      }
    }

    // attempt(action)
    method Attempt(a: Action, ghost left: Disk)
      requires ActionError(faults, disk, a) == ActionError(faults, left, a)
      requires cleanupError == FirstError(attempted, faults, left)
      modifies this`attempted, this`cleanupError, this`disk
      ensures attempted == old(attempted) + [a] && cleanupError == FirstError(attempted, faults, left)
      ensures disk == Cleaned(faults, old(disk), a)
    {
      FirstErrorNext(attempted, a, faults, left);
      attempted := attempted + [a];
      var error := ActionError(faults, disk, a);
      if cleanupError.None? {
        cleanupError := error;
      }
      if !Kept(faults, a) {
        if a == UnlinkTranscript {
          disk := disk.(transcript := Absent);
        } else if a == UnlinkSidecar {
          disk := disk.(sidecar := Absent);
        } else if a == RemoveScratch {
          disk := disk.(scratch := Absent);
        }
      }
    }

    method CloseEntrants(ghost left: Disk)
      requires attempted == [] && cleanupError == None
      modifies this`attempted, this`cleanupError, this`disk
      ensures attempted == Closes(procs) && cleanupError == FirstError(attempted, faults, left)
      ensures disk == old(disk)
    {
      for i := 0 to procs
        invariant attempted == Closes(i) && cleanupError == FirstError(attempted, faults, left)
        invariant disk == old(disk)
      {
        Attempt(CloseEntrant(i), left);
      }
    }

    method WriteDiagnostics(ghost left: Disk)
      requires cleanupError == FirstError(attempted, faults, left)
      modifies this`attempted, this`cleanupError, this`disk
      ensures attempted == old(attempted) + When(hasSidecar, Notes(procs))
      ensures cleanupError == FirstError(attempted, faults, left)
      ensures disk == old(disk)
    {
      for i := 0 to procs
        invariant attempted == old(attempted) + When(hasSidecar, Notes(i))
        invariant cleanupError == FirstError(attempted, faults, left)
        invariant disk == old(disk)
      {
        if hasSidecar {
          Attempt(NoteStderr(i), left);
        }
      }
    }

    method CloseFiles(ghost left: Disk)
      requires cleanupError == FirstError(attempted, faults, left)
      modifies this`attempted, this`cleanupError, this`disk
      ensures attempted == old(attempted) + When(hasSidecar, [CloseSidecar]) + When(hasTranscript, [CloseTranscript])
      ensures cleanupError == FirstError(attempted, faults, left)
      ensures disk == old(disk)
    {
      if hasSidecar {
        Attempt(CloseSidecar, left);
      }
      if hasTranscript {
        Attempt(CloseTranscript, left);
      }
    }

    method RemoveFiles(ghost left: Disk, abandoned: bool, keepScratch: bool)
      requires disk == left
      requires cleanupError == FirstError(attempted, faults, left)
      modifies this`attempted, this`cleanupError, this`disk
      ensures attempted ==
        old(attempted) + When(abandoned, [UnlinkTranscript, UnlinkSidecar]) + When(!keepScratch, [RemoveScratch])
      ensures cleanupError == FirstError(attempted, faults, left)
      ensures disk == Emptied(faults, old(disk), abandoned, keepScratch)
    {
      if abandoned {
        Attempt(UnlinkTranscript, left);
        Attempt(UnlinkSidecar, left);
      }
      if !keepScratch {
        Attempt(RemoveScratch, left);
      }
    }

    // The finally block, given the exception in flight.
    method Finally(active: Option<Error>, keepScratch: bool) returns (raised: Option<Error>)
      requires attempted == [] && cleanupError == None
      modifies this`attempted, this`cleanupError, this`disk
      ensures attempted == Plan(procs, hasSidecar, hasTranscript, active.Some? && !committed, keepScratch)
      ensures raised == if FirstError(attempted, faults, old(disk)).Some? then FirstError(attempted, faults, old(disk))
                        else active
      ensures disk == Emptied(faults, old(disk), active.Some? && !committed, keepScratch)
    {
      hide When, Closes, Notes, FirstError;
      ghost var left := disk;
      CloseEntrants(left);
      WriteDiagnostics(left);
      CloseFiles(left);
      RemoveFiles(left, active.Some? && !committed, keepScratch);
      return if cleanupError.Some? then cleanupError else active;
    }

    /** run_match's custody of its output. Existing output is refused and left alone;
        otherwise the run comes to exactly the outcome that its faults and the disk its
        opens meet determine. */
    method Run(atCheck: Disk, keepScratch: bool) returns (raised: Option<Error>)
      requires Idle()
      modifies this
      ensures atCheck.Occupied() ==> raised == Some(EXISTS) && unchanged(this)
      ensures !atCheck.Occupied() ==>
        Outcome(disk, committed, attempted, raised) == After(faults, old(disk), keepScratch)
    {
      hide Stop, StopError, LeftBy, Emptied, Plan, FirstError;
      if atCheck.Occupied() {
        return Some(EXISTS);
      }
      var active := TryBlock();
      CommittedOrStopped(faults, old(disk));
      raised := Finally(active, keepScratch);
    }
  }

  lemma CommittedOrStopped(faults: Faults, before: Disk)
    ensures Stop(faults, before, 0) <= COMMIT ==> StopError(faults, before).Some?
  {
  }

  // -- what it amounts to -----------------------------------------------------------------

  /** When deletion works the transcript is there afterwards exactly if its result was
      committed, and it was committed exactly if no step up to that one failed. */
  lemma TranscriptSurvivesIffCommitted(faults: Faults, before: Disk, keepScratch: bool)
    ensures var r := After(faults, before, keepScratch);
      && (r.committed <==> forall k | 0 <= k <= COMMIT :: StepError(faults, before, STEPS[k]).None?)
      && (r.committed ==> r.disk.transcript == Own && r.disk.sidecar == Own)
      && (!Kept(faults, UnlinkTranscript) ==> (r.disk.transcript != Absent <==> r.committed))
      && (!Kept(faults, UnlinkSidecar) ==> (r.disk.sidecar != Absent <==> r.committed))
  {
    var stop := Stop(faults, before, 0);
    if stop > COMMIT {
      assert StepError(faults, before, STEPS[0]).None? && StepError(faults, before, STEPS[1]).None?;
    }
  }

  /** Every entrant whose construction succeeded gets a close attempt, whatever fails, and
      so does the rest of the plan: the first cleanup error is raised, or else the exception
      of the first step that failed. */
  lemma EveryEntrantIsClosed(faults: Faults, before: Disk, keepScratch: bool, seat: nat)
    requires seat < SEATS && forall k | 0 <= k <= 3 + seat :: StepError(faults, before, STEPS[k]).None?
    ensures CloseEntrant(seat) in After(faults, before, keepScratch).attempted
  {
    var stop := Stop(faults, before, 0);
    assert stop > 3 + seat;
    PlanCloses(Constructed(stop), stop > 1, stop > 0, stop <= COMMIT, keepScratch);
  }

  lemma RaisedIsFirst(faults: Faults, before: Disk, keepScratch: bool)
    ensures var r, left := After(faults, before, keepScratch), LeftBy(faults, before);
      && (AllWork(r.attempted, faults, left) ==> r.raised == StopError(faults, before))
      && (!AllWork(r.attempted, faults, left) ==> exists i | 0 <= i < |r.attempted| ::
            && AllWork(r.attempted[..i], faults, left)
            && ActionError(faults, left, r.attempted[i]) == r.raised && r.raised.Some?)
  {
    hide Plan, Stop, StepError, LeftBy, StopError, FirstError, ActionError;
    FirstErrorIsFirst(After(faults, before, keepScratch).attempted, faults, LeftBy(faults, before));
  }

  /** A file that another process put at an output path, after the check and before the
      exclusive open, is removed if and only if its deletion works; left standing, it is
      still that other file. The run never owns it. */
  lemma ForeignFilesAreRemoved(faults: Faults, before: Disk, keepScratch: bool)
    ensures var r := After(faults, before, keepScratch);
      && (before.transcript == Foreign ==>
            !r.committed && r.disk.transcript == if Kept(faults, UnlinkTranscript) then Foreign else Absent)
      && (before.sidecar == Foreign ==>
            !r.committed && r.disk.sidecar == if Kept(faults, UnlinkSidecar) then Foreign else Absent)
      && (before.scratch == Foreign ==>
            r.disk.scratch == if keepScratch || Kept(faults, RemoveScratch) then Foreign else Absent)
  {
    assert STEPS[0] == OpenTranscript && STEPS[1] == OpenSidecar;
  }

  const FLAWLESS := Faults((step: Step) => None, (action: Action) => Mishap(None, false))

  /** The input that shows it: nothing fails but the exclusive open of the transcript, on a
      file that is not the run's own, and the cleanup removes that file. */
  lemma ForeignTranscriptIsDeleted()
    ensures var r := After(FLAWLESS, Disk(Foreign, Absent, Absent), false);
      r.disk == Disk(Absent, Absent, Absent) && r.raised == Some(EXISTS) && !r.committed
  {
    ForeignFilesAreRemoved(FLAWLESS, Disk(Foreign, Absent, Absent), false);
    RaisedIsFirst(FLAWLESS, Disk(Foreign, Absent, Absent), false);
    assert STEPS[0] == OpenTranscript;
  }

  /** With no fault and nothing in the way, the run returns, its result is committed and
      both entrants are closed. */
  lemma FlawlessRunCommits(keepScratch: bool)
    ensures var r := After(FLAWLESS, Disk(Absent, Absent, Absent), keepScratch);
      && r.committed && r.raised == None && r.disk.transcript == Own
      && CloseEntrant(0) in r.attempted && CloseEntrant(1) in r.attempted
  {
    var clear := Disk(Absent, Absent, Absent);
    RaisedIsFirst(FLAWLESS, clear, keepScratch);
    TranscriptSurvivesIffCommitted(FLAWLESS, clear, keepScratch);
    EveryEntrantIsClosed(FLAWLESS, clear, keepScratch, 0);
    EveryEntrantIsClosed(FLAWLESS, clear, keepScratch, 1);
  }

  lemma PlanCloses(procs: nat, hasSidecar: bool, hasTranscript: bool, abandoned: bool, keepScratch: bool)
    ensures forall i | 0 <= i < procs ::
      CloseEntrant(i) in Plan(procs, hasSidecar, hasTranscript, abandoned, keepScratch)
  {
    forall i | 0 <= i < procs
      ensures CloseEntrant(i) in Plan(procs, hasSidecar, hasTranscript, abandoned, keepScratch)
    {
      assert CloseEntrant(i) in Closes(procs);
    }
  }

  predicate AllWork(actions: seq<Action>, faults: Faults, left: Disk) {
    forall a | a in actions :: ActionError(faults, left, a).None?
  }

  /** The error reported is a genuine first one: some attempted action failed with it, and
      no action attempted before that one failed. */
  lemma {:induction false} FirstErrorIsFirst(actions: seq<Action>, faults: Faults, left: Disk)
    ensures FirstError(actions, faults, left).None? <==> AllWork(actions, faults, left)
    ensures FirstError(actions, faults, left).Some? ==>
      exists i | 0 <= i < |actions| ::
        && AllWork(actions[..i], faults, left)
        && ActionError(faults, left, actions[i]) == FirstError(actions, faults, left)
  {
    hide ActionError;
    if actions != [] {
      var n := |actions| - 1;
      FirstErrorIsFirst(actions[..n], faults, left);
      assert actions == actions[..n] + [actions[n]];
      if FirstError(actions[..n], faults, left).Some? {
        var i :| 0 <= i < n && AllWork(actions[..n][..i], faults, left)
                 && ActionError(faults, left, actions[..n][i]) == FirstError(actions[..n], faults, left);
        assert actions[..n][..i] == actions[..i];
      }
    }
  }

  // The first failing step, found.
  lemma StopIs(faults: Faults, before: Disk, n: nat)
    requires n < |STEPS| && StepError(faults, before, STEPS[n]).Some?
    requires forall k | 0 <= k < n :: StepError(faults, before, STEPS[k]).None?
    ensures Stop(faults, before, 0) == n && StopError(faults, before) == StepError(faults, before, STEPS[n])
  {
    hide StepError, STEPS;
  }

  // Play fails, and scratch cannot be removed.
  function StuckScratch(error: Error): Faults {
    Faults((step: Step) => if step == Play then Some(Failure(error, true)) else None,
           (action: Action) => Mishap(None, action == RemoveScratch))
  }

  // The transcript cannot be opened, and no deletion would work.
  function NothingWorks(error: Error): Faults {
    Faults((step: Step) => if step == OpenTranscript then Some(Failure(error, false)) else None,
           (action: Action) => Mishap(Some("OSError"), true))
  }

  const CLEAR := Disk(Absent, Absent, Absent)

  /** Scratch can stay without an error. */
  lemma ScratchStaysInSilence(error: Error)
    ensures var r := After(StuckScratch(error), CLEAR, false);
      r.disk == Disk(Absent, Absent, Own) && r.raised == Some(error) && !r.committed
  {
    hide Stop, STEPS, Plan, FirstError, StopError;
    var faults := StuckScratch(error);
    PlayIsFifth();
    StopIs(faults, CLEAR, 5);
    RaisedIsFirst(faults, CLEAR, false);
  }

  lemma PlayIsFifth()
    ensures |STEPS| == 8 && STEPS[0] == OpenTranscript && STEPS[5] == Play
    ensures forall k | 0 <= k < 5 :: STEPS[k] != Play
  {
  }

  /** A transcript that was never made is no cause for an error. */
  lemma NothingToUnlink(error: Error)
    ensures var r := After(NothingWorks(error), CLEAR, true);
      r.disk == CLEAR && r.raised == Some(error) && UnlinkTranscript in r.attempted
  {
    hide Stop, STEPS, FirstError, StopError;
    var faults := NothingWorks(error);
    PlayIsFifth();
    StopIs(faults, CLEAR, 0);
    RaisedIsFirst(faults, CLEAR, true);
  }
}

/**
 * Placing an image (core/thin/editor/toolaction/imageaction.js): the file
 * dialog's answer decides whether the action is cancelled, and a valid file
 * is then polled until the image reports its natural size. The poll is a
 * counter starting at 1: a tick that finds the image ready updates the
 * properties and stops; a tick that does not either restarts the timer and
 * counts up (while the counter is at most 5) or gives up with one undo,
 * a second end of the action and one alert.
 *
 * The timer is modelled as a sequence of readiness observations, one per tick;
 * when the observations run out while the poll would go on, the outcome is
 * still `Polling`.
 */
module ImageAction {

  /** The file dialog's answer. */
  datatype FileChoice = NoFile | InvalidFile | ValidFile

  datatype Ending = Cancelled | Loaded | Failed | Polling

  /**
   * What one mouse-down did: how it ended, the `cancel` argument of each
   * `commonEndAction` call in order, the ticks that ran the check, the timer
   * restarts, the undos, the alerts and the property updates.
   */
  datatype Outcome = Outcome(ending: Ending, endCalls: seq<bool>, checks: nat, restarts: nat,
                             undos: nat, alerts: nat, updates: nat)

  /** The highest counter value at which a not-ready tick still restarts the timer. */
  const MAX_RETRY: nat := 5

  /** The index of the first ready observation, or the length when there is none. */
  function FirstReady(ready: seq<bool>): (k: nat)
    ensures k <= |ready|
    ensures forall j :: 0 <= j < k ==> !ready[j]
    ensures k < |ready| ==> ready[k]
    decreases |ready|
  {
    if ready == [] then 0 else if ready[0] then 0 else 1 + FirstReady(ready[1..])
  }

  /**
   * The reference outcome, in closed form. A ready image within the first six
   * ticks loads; otherwise six checks fail with one undo and one alert, unless
   * the observations end first.
   */
  function Expected(file: FileChoice, ready: seq<bool>): Outcome {
    if file != ValidFile then
      Outcome(Cancelled, [true], 0, 0, 0, if file == InvalidFile then 1 else 0, 0)
    else
      var k := FirstReady(ready);
      if k < |ready| && k <= MAX_RETRY then Outcome(Loaded, [false], k + 1, k, 0, 0, 1)
      else if |ready| > MAX_RETRY then Outcome(Failed, [false, true], MAX_RETRY + 1, MAX_RETRY, 1, 1, 0)
      else Outcome(Polling, [false], |ready|, |ready|, 0, 0, 0)
  }

  /** `handleMouseDownAction_` from the file dialog on. */
  method HandleMouseDown(file: FileChoice, ready: seq<bool>) returns (r: Outcome)
    ensures r == Expected(file, ready)
  {
    var isFileExist := file != NoFile;
    var isValid := isFileExist && file == ValidFile;
    var endCalls := [!isValid];
    if !isValid {
      var alerts := if isFileExist && !isValid then 1 else 0;
      return Outcome(Cancelled, endCalls, 0, 0, 0, alerts, 0);
    }
    var count := 1;
    var i := 0;
    var restarts, undos, alerts, updates := 0, 0, 0, 0;
    var ending := Polling;
    while ending == Polling && i < |ready|
      invariant 0 <= i <= |ready|
      invariant ending == Polling ==> count == i + 1 <= MAX_RETRY + 1 && restarts == i && undos == 0 && alerts == 0
                                      && updates == 0 && endCalls == [false] && forall j :: 0 <= j < i ==> !ready[j]
      invariant ending == Loaded ==> i == FirstReady(ready) + 1 <= MAX_RETRY + 1 && restarts == i - 1 && undos == 0
                                     && alerts == 0 && updates == 1 && endCalls == [false]
      invariant ending == Failed ==> i == MAX_RETRY + 1 && restarts == MAX_RETRY && undos == 1 && alerts == 1
                                     && updates == 0 && endCalls == [false, true] && forall j :: 0 <= j < i ==> !ready[j]
      invariant ending != Cancelled
    {
      if ready[i] {
        updates := updates + 1;
        ending := Loaded;
      } else if count > MAX_RETRY {
        undos := undos + 1;
        endCalls := endCalls + [true];
        alerts := alerts + 1;
        ending := Failed;
      } else {
        count := count + 1;
        restarts := restarts + 1;
      }
      i := i + 1;
    }
    r := Outcome(ending, endCalls, i, restarts, undos, alerts, updates);
  }

  /** The action is cancelled exactly when there is no valid file, and only an invalid file raises an alert. */
  lemma CancelledIffNoValidFile(file: FileChoice, ready: seq<bool>)
    ensures Expected(file, ready).ending == Cancelled <==> file != ValidFile
    ensures Expected(file, ready).endCalls[0] <==> file != ValidFile
    ensures file == NoFile ==> Expected(file, ready).alerts == 0
    ensures file == InvalidFile ==> Expected(file, ready).alerts == 1 && Expected(file, ready).checks == 0
  {
  }

  /** An image that is never ready is checked six times, restarted five times, undone once and alerted once. */
  lemma NeverReady(ready: seq<bool>)
    requires |ready| >= MAX_RETRY + 1
    requires forall j :: 0 <= j < |ready| ==> !ready[j]
    ensures Expected(ValidFile, ready) == Outcome(Failed, [false, true], 6, 5, 1, 1, 0)
  {
  }

  /** An image that is ready at one of the first six ticks loads there, with no undo and no alert. */
  lemma ReadyInTime(ready: seq<bool>, k: nat)
    requires k < |ready| && k <= MAX_RETRY && ready[k]
    requires forall j :: 0 <= j < k ==> !ready[j]
    ensures Expected(ValidFile, ready) == Outcome(Loaded, [false], k + 1, k, 0, 0, 1)
  {
  }

  /** Whatever the observations, the poll never checks more than six times, undoes or alerts more than once. */
  lemma Bounded(file: FileChoice, ready: seq<bool>)
    ensures Expected(file, ready).checks <= MAX_RETRY + 1
    ensures Expected(file, ready).undos <= 1 && Expected(file, ready).alerts <= 1
    ensures Expected(file, ready).undos == 1 <==> Expected(file, ready).ending == Failed
    ensures Expected(file, ready).restarts + 1 >= Expected(file, ready).checks
  {
  }
}

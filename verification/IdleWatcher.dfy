/** The goroutine that disconnects an idle participant, with its timer. The timer behaves as in Go 1.21: a
    channel of capacity one, and a Stop that reports whether the timer was still armed. */
module IdleWatcher {
  datatype Point = Selecting | Aborted | Draining | Resetting | Closing | Cancelling | Returned

  datatype Watcher = Watcher(at: Point, armed: bool, ticks: nat)

  const STARTED := Watcher(Selecting, true, 0)

  function Fire(w: Watcher): Watcher
    requires w.armed
  {
    w.(armed := false, ticks := if w.ticks == 0 then 1 else w.ticks)
  }

  // The three cases of the select statement.
  function TakeTick(w: Watcher): Watcher
    requires w.at == Selecting && w.ticks > 0
  {
    w.(at := Closing, ticks := w.ticks - 1)
  }

  function TakeAbort(w: Watcher): Watcher
    requires w.at == Selecting
  {
    w.(at := Aborted)
  }

  function TakeDone(w: Watcher): Watcher
    requires w.at == Selecting
  {
    w.(at := Returned)
  }

  // Whether a watcher outside its select can take its next step on its own: only the drain can wait.
  predicate CanAdvance(w: Watcher) {
    match w.at
    case Selecting => false
    case Draining => w.ticks > 0
    case Returned => false
    case _ => true
  }

  function Advance(w: Watcher): Watcher
    requires CanAdvance(w)
  {
    match w.at
    case Aborted => if w.armed then w.(at := Resetting, armed := false) else w.(at := Draining)
    case Draining => w.(at := Resetting, ticks := w.ticks - 1)
    case Resetting => w.(at := Selecting, armed := true)
    case Closing => w.(at := Cancelling)
    case Cancelling => w.(at := Returned)
  }

  // At the select the timer is armed or has exactly one undelivered tick, never both and never neither.
  predicate WatcherOk(w: Watcher) {
    match w.at
    case Selecting => if w.armed then w.ticks == 0 else w.ticks == 1
    case Aborted => if w.armed then w.ticks == 0 else w.ticks == 1
    case Draining => !w.armed && w.ticks == 1
    case Resetting => !w.armed && w.ticks == 0
    case Closing => !w.armed && w.ticks == 0
    case Cancelling => !w.armed && w.ticks == 0
    case Returned => if w.armed then w.ticks == 0 else w.ticks <= 1
  }

  // Left its select by the tick. One that has returned for another reason still has its timer armed, or the
  // tick undelivered.
  predicate TimedOut(w: Watcher) {
    w.at == Closing || w.at == Cancelling || (w.at == Returned && !w.armed && w.ticks == 0)
  }

  lemma StepsKeepWatcherOk(w: Watcher)
    requires WatcherOk(w)
    ensures w.armed ==> WatcherOk(Fire(w))
    ensures w.at == Selecting && w.ticks > 0 ==> WatcherOk(TakeTick(w))
    ensures w.at == Selecting ==> WatcherOk(TakeAbort(w)) && WatcherOk(TakeDone(w))
    ensures CanAdvance(w) ==> WatcherOk(Advance(w))
    // The drain after a failed Stop never waits: only the select can block.
    ensures w.at == Selecting || w.at == Returned || CanAdvance(w)
  {
  }

  // How many steps of its own a watcher still has when nobody sends it abort signals any more.
  function StepsLeft(w: Watcher): nat {
    match w.at
    case Aborted => 6
    case Draining => 5
    case Resetting => 4
    case Selecting => 3
    case Closing => 2
    case Cancelling => 1
    case Returned => 0
  }

  // The goroutine's own variables: its place in the loop, and its timer.
  class IdleLoop {
    var at: Point
    var armed: bool
    var ticks: nat

    ghost function View(): Watcher
      reads this
    {
      Watcher(at, armed, ticks)
    }

    constructor ()
      ensures View() == STARTED && WatcherOk(View())
    {
      at, armed, ticks := Selecting, true, 0;
    }

    // The runtime delivers a tick, unless one is waiting already.
    method TimerFires()
      requires WatcherOk(View()) && armed
      modifies this
      ensures View() == Fire(old(View())) && WatcherOk(View())
    {
      armed := false;
      if ticks == 0 {
        ticks := 1;
      }
    }

    method Tick()
      requires WatcherOk(View()) && at == Selecting && ticks > 0
      modifies this
      ensures View() == TakeTick(old(View())) && WatcherOk(View())
    {
      ticks := ticks - 1;
      at := Closing;
    }

    method Abort()
      requires WatcherOk(View()) && at == Selecting
      modifies this
      ensures View() == TakeAbort(old(View())) && WatcherOk(View())
    {
      at := Aborted;
    }

    // Returns whether the timer was still armed; if not, its tick is waiting to be drained.
    method Stop() returns (stopped: bool)
      requires WatcherOk(View()) && at == Aborted
      modifies this
      ensures stopped == old(armed) && View() == Advance(old(View())) && WatcherOk(View())
      ensures !stopped ==> CanAdvance(View())
    {
      stopped := armed;
      armed := false;
      at := if stopped then Resetting else Draining;
    }

    method Drain()
      requires WatcherOk(View()) && at == Draining
      modifies this
      ensures CanAdvance(old(View())) && View() == Advance(old(View())) && WatcherOk(View())
    {
      ticks := ticks - 1;
      at := Resetting;
    }

    method Reset()
      requires WatcherOk(View()) && at == Resetting
      modifies this
      ensures View() == Advance(old(View())) && WatcherOk(View())
    {
      armed := true;
      at := Selecting;
    }

    // The whole abort case: however the timer stood, the drain does not block and the timer is armed again.
    method AbortCase()
      requires WatcherOk(View()) && at == Selecting
      modifies this
      ensures View() == STARTED
    {
      Abort();
      var stopped := Stop();
      if !stopped {
        Drain();
      }
      Reset();
    }
  }
}

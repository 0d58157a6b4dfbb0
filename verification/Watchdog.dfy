/** tracky's task manager: the watchdog's unsigned arithmetic and its loop over the tasks. */
module Watchdog {
  import opened Words

  /** Go's int(u) and uint64(i): the same 64 bits. */
  function ToInt(u: uint64): int64 {
    if u < TWO_63 then u else u - TWO_64
  }

  function ToUint(i: int64): uint64 {
    if i < 0 then i + TWO_64 else i
  }

  function Minus(a: uint64, b: uint64): uint64 {
    (a - b) % TWO_64
  }

  predicate Fires(now: uint64, lastKick: int64, wtd: int64) {
    Minus(now, ToUint(lastKick)) > ToUint(wtd)
  }

  /** The check, for every value of its 64-bit operands: with the kick not after `now` it fires
      just when the gap exceeds the limit; a kick after `now` looks almost 2^64 seconds old, and
      fires it for every limit up to 2^64 minus the lead. A negative limit counts as itself plus
      2^64. */
  lemma {:induction false} FiresExactly(now: uint64, kicked: uint64, wtd: int64)
    ensures
      var limit := if wtd < 0 then wtd + TWO_64 else wtd;
      Fires(now, ToInt(kicked), wtd)
      <==> if kicked <= now then now - kicked > limit else TWO_64 - (kicked - now) > limit
  {
    assert ToUint(ToInt(kicked)) == kicked;
    if kicked > now {
      assert now - kicked == -1 * TWO_64 + (now - kicked + TWO_64);
    }
  }

  /** A kick one second ahead of the clock reading fires every limit but the largest, -1; so it
      fires the 120 seconds of every task. */
  lemma {:induction false} OneSecondAhead(now: uint64, wtd: int64)
    requires now + 1 < TWO_64
    ensures Fires(now, ToInt(now + 1), wtd) <==> wtd < -1 || wtd >= 0
  {
    FiresExactly(now, now + 1, wtd);
  }

  /** A negative limit never fires while the kick is less than 2^63 seconds old. */
  lemma {:induction false} NegativeLimitIsHuge(now: uint64, kicked: uint64, wtd: int64)
    requires wtd < 0 && kicked <= now && now - kicked < TWO_63
    ensures !Fires(now, ToInt(kicked), wtd)
  {
    assert ToUint(ToInt(kicked)) == kicked;
  }

  const WATCHDOG := 98

  /** tracky/src/trackeroo/task.go. */
  class Task {
    var running: bool
    var resetting: bool
    var reason: int
    var wtd: int64
    var kicked: uint64

    constructor (now: uint64)
      ensures !running && !resetting && kicked == now && wtd == 120
    {
      kicked, resetting, running, reason, wtd := now, false, false, 0, 120;
    }

    function View(): TaskView
      reads this
    {
      TaskView(resetting, reason, ToInt(kicked), wtd)
    }

    method Kick(now: uint64)
      modifies this`kicked
      ensures kicked == now && View().lastKick == ToInt(now)
    {
      kicked := now;
    }

    method Kill()
      modifies this`running
      ensures !running
    {
      running := false;
    }

    method Reset(reason: int)
      modifies this`reason, this`resetting
      ensures this.reason == reason && resetting
    {
      this.reason := reason;
      resetting := true;
    }
  }

  /** A check sees the task's own fields, and its kick time as the same 64 bits. */
  lemma {:induction false} ViewInPlace(t: Task)
    ensures t.View().resetting == t.resetting && t.View().reason == t.reason && t.View().wtd == t.wtd
    ensures ToUint(t.View().lastKick) == t.kicked
  {
  }

  /** What one check reads of a task. */
  datatype TaskView = TaskView(resetting: bool, reason: int, lastKick: int64, wtd: int64)

  predicate Late(now: uint64, v: TaskView) {
    Fires(now, v.lastKick, v.wtd)
  }

  function FirstResetting(vs: seq<TaskView>): (j: nat)
    ensures j <= |vs|
    ensures forall i | 0 <= i < j :: !vs[i].resetting
    ensures j < |vs| ==> vs[j].resetting
  {
    if vs == [] || vs[0].resetting then 0 else 1 + FirstResetting(vs[1..])
  }

  datatype Manager = Manager(running: bool, resetting: bool, reason: int)

  /** A scan stops the manager: some task asks for a reset, or one before it is late. */
  predicate Stops(now: uint64, vs: seq<TaskView>) {
    FirstResetting(vs) < |vs| || exists i | 0 <= i < |vs| :: Late(now, vs[i])
  }

  /** A resetting task's reason wins over the watchdog's, which is not overwritten otherwise. */
  function ScanReason(reason: int, now: uint64, vs: seq<TaskView>): int {
    if FirstResetting(vs) < |vs| then vs[FirstResetting(vs)].reason
    else if exists i | 0 <= i < |vs| :: Late(now, vs[i]) then WATCHDOG
    else reason
  }

  /** tracky/src/trackeroo/task_manager.go. */
  class TaskManager {
    const tasks: seq<Task>
    var running: bool
    var resetting: bool
    var reason: int

    constructor (tasks: seq<Task>)
      ensures this.tasks == tasks && running && !resetting
    {
      this.tasks := tasks;
      running, resetting, reason := true, false, 0;
    }

    function Self(): Manager
      reads this
    {
      Manager(running, resetting, reason)
    }

    function Views(): (vs: seq<TaskView>)
      reads tasks
      ensures |vs| == |tasks|
      ensures forall i | 0 <= i < |tasks| :: vs[i] == tasks[i].View()
    {
      seq(|tasks|, i requires 0 <= i < |tasks| reads tasks => tasks[i].View())
    }

    method Shutdown(reason: int)
      modifies this`reason, this`resetting
      ensures Self() == Apply(old(Self()), Op.Shutdown(reason))
      ensures this.reason == reason && resetting && running == old(running)
    {
      this.reason := reason;
      resetting := true;
    }

    /** The body of the manager's loop: one pass over the tasks, with its early exit. */
    method Scan(now: uint64)
      requires running
      modifies this`running, this`reason
      ensures Self() == Apply(old(Self()), Op.Scan(now, Views()))
    {
      ghost var vs := Views();
      var i := 0;
      while i < |tasks|
        invariant 0 <= i <= |tasks| && Views() == vs && resetting == old(resetting)
        invariant forall k | 0 <= k < i :: !vs[k].resetting
        invariant running <==> forall k | 0 <= k < i :: !Late(now, vs[k])
        invariant reason == if running then old(reason) else WATCHDOG
      {
        if tasks[i].resetting {
          running := false;
          reason := tasks[i].reason;
          assert FirstResetting(vs) == i;
          return;
        }
        assert Late(now, vs[i]) <==> Fires(now, ToInt(tasks[i].kicked), tasks[i].wtd);
        if Fires(now, ToInt(tasks[i].kicked), tasks[i].wtd) {
          running := false;
          reason := WATCHDOG;
        }
        i := i + 1;
      }
    }

    /** The shutdown sequence. Killing a task only clears the flag its loop condition reads. */
    method KillAll()
      modifies tasks
      ensures forall t | t in tasks :: !t.running && t.kicked == old(t.kicked) && t.View() == old(t.View())
    {
      for i := 0 to |tasks|
        invariant forall k | 0 <= k < i :: !tasks[k].running
        invariant forall t | t in tasks :: t.kicked == old(t.kicked) && t.View() == old(t.View())
      {
        tasks[i].Kill();
      }
    }
  }

  // ----- Over any sequence of scans and shutdown requests -----

  datatype Op = Shutdown(reason: int) | Scan(now: uint64, views: seq<TaskView>)

  function Apply(m: Manager, op: Op): Manager {
    match op
    case Shutdown(reason) => m.(resetting := true, reason := reason)
    case Scan(now, vs) =>
      m.(running := m.running && !Stops(now, vs), reason := ScanReason(m.reason, now, vs))
  }

  /** The first task that asks for a reset. */
  ghost predicate FirstToReset(vs: seq<TaskView>, i: nat) {
    i < |vs| && vs[i].resetting && forall j | 0 <= j < i :: !vs[j].resetting
  }

  /** The kick is older than the limit, in unsigned 64-bit arithmetic. */
  predicate Overdue(now: uint64, v: TaskView) {
    (now - v.lastKick) % TWO_64 > (if v.wtd < 0 then v.wtd + TWO_64 else v.wtd)
  }

  lemma {:induction false} OverdueIsLate(now: uint64, v: TaskView)
    ensures Overdue(now, v) <==> Late(now, v)
  {
    if v.lastKick < 0 {
      ShiftByWord(now - v.lastKick);
    }
  }

  lemma {:induction false} ShiftByWord(x: int)
    ensures (x - TWO_64) % TWO_64 == x % TWO_64
  {
  }

  /** When one scan stops the manager, and with which reason: it goes on exactly when no task asks
      for a reset and none is overdue; the first task that asks gives the reason, though another
      be overdue; otherwise an overdue one makes it 98; otherwise it stays. */
  lemma {:induction false} ScanExactly(m: Manager, now: uint64, vs: seq<TaskView>)
    requires m.running
    ensures
      var n := Apply(m, Op.Scan(now, vs));
      && (n.running <==> forall i | 0 <= i < |vs| :: !vs[i].resetting && !Overdue(now, vs[i]))
      && (forall i: nat | FirstToReset(vs, i) :: n.reason == vs[i].reason)
      && ((forall i | 0 <= i < |vs| :: !vs[i].resetting) ==>
            n.reason == if exists i | 0 <= i < |vs| :: Overdue(now, vs[i]) then 98 else m.reason)
      && n.resetting == m.resetting
  {
    forall i | 0 <= i < |vs| ensures Overdue(now, vs[i]) <==> Late(now, vs[i]) { OverdueIsLate(now, vs[i]); }
    forall i: nat | FirstToReset(vs, i) ensures FirstResetting(vs) == i {
      assert FirstResetting(vs) <= i;
    }
  }

  function ApplyAll(m: Manager, ops: seq<Op>): Manager
    decreases |ops|
  {
    if ops == [] then m else ApplyAll(Apply(m, ops[0]), ops[1..])
  }

  /** Shutdown never ends the loop: whatever the requests, the manager is still running after
      any sequence of operations if and only if none of its scans stopped it. */
  lemma {:induction false} OnlyTasksStopTheManager(m: Manager, ops: seq<Op>)
    ensures ApplyAll(m, ops).running
       <==> m.running && forall i | 0 <= i < |ops| && ops[i].Scan? :: !Stops(ops[i].now, ops[i].views)
    decreases |ops|
  {
    if ops != [] {
      OnlyTasksStopTheManager(Apply(m, ops[0]), ops[1..]);
      assert forall i | 0 <= i < |ops[1..]| :: ops[1..][i] == ops[i + 1];
      assert forall i | 1 <= i < |ops| :: ops[i] == ops[1..][i - 1];
    }
  }
}

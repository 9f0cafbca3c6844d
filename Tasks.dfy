/** The mission engine (src/tasks/tasks.service.ts): per-user task records
    keyed by (user, task), the daily streak counter hash, the per-day sets of
    users credited that day, the claim locks, the claim audit log, the
    share-on-X order log and the credits sent to the wallet ledger. Database
    and cache calls become updates of these maps, sets and sequences; days
    are integers and the spinner draw is a parameter. */
module Tasks {
  import opened Common
  import TaskReward

  datatype Status = Locked | Available | Claimable | Completed

  /** Task kinds the engine distinguishes; every other kind is `OtherType`. */
  datatype TaskType = DailyStreak | OneTime | OtherType

  datatype Condition =
    | DailyTrading | DailyCheckIn
    | ReachDepositVolume | ReachTradeVolume | CompleteChildMission
    | AffiliateClick | SubscribeTwitter | JoinTelegramGroup | SubscribeTelegramChannel
    | OtherCondition

  /** A task of the catalogue; `total` is the optional volume threshold of
      its metadata. */
  datatype Task = Task(
    id: int, code: string, condition: Condition, isEnable: bool,
    taskType: TaskType, rewardQuantity: real, total: Option<real>)

  /** A user's record for one task (unique per user and task). */
  datatype UserTask = UserTask(
    taskType: TaskType, status: Status, progress: Option<real>, total: Option<real>)

  datatype Key = Key(userId: int, taskId: int)

  /** The claim lock `task:{taskId}:{userId}:lock`. */
  datatype LockKey = LockKey(taskId: int, userId: int)

  /** An entry of the claim audit log (action CLAIM). */
  datatype ClaimRecord = ClaimRecord(userId: int, taskId: int, reward: TaskReward.Prize)

  datatype ClaimError =
    | ClaimInProgress     // the lock key is held
    | TaskNotFound        // missing or disabled task
    | CannotManualClaim   // condition outside the manual-claim list
    | NotClaimable        // an existing record that is not CLAIMABLE
    | SpinFailed          // the spinner had no tier to award
    | CreditFailed        // the wallet refused the credit

  /** The source of a volume event. */
  datatype VolumeType = Trade | Deposit | OtherVolume

  /** Ledger category of task rewards. */
  const TaskCategory: int := 2001
  /** HOPIUM paid for sharing an order's PnL on X. */
  const ShareReward: real := 300.0
  /** Number of steps of the daily streak. */
  const StreakLength: int := 7
  /** Id of the first streak step, reopened by every streak reset. */
  const FirstStreakTaskId: int := 1

  // ---------------------------------------------------------------------
  // Catalogue lookups

  /** `findOne` over the catalogue in its natural order. */
  function FirstTask(tasks: seq<Task>, p: Task -> bool): (r: Option<Task>)
    ensures r.Some? ==> r.value in tasks && p(r.value)
    ensures r.None? ==> forall t :: t in tasks ==> !p(t)
  {
    match FirstWhere(tasks, p)
    case None => None
    case Some(i) => Some(tasks[i])
  }

  /** `findById`. */
  function FindTask(tasks: seq<Task>, id: int): (r: Option<Task>)
    ensures r.Some? ==> r.value in tasks && r.value.id == id
    ensures r.None? ==> forall t :: t in tasks ==> t.id != id
  {
    FirstTask(tasks, (t: Task) => t.id == id)
  }

  function Lookup(ut: map<Key, UserTask>, k: Key): Option<UserTask>
  {
    if k in ut then Some(ut[k]) else None
  }

  // ---------------------------------------------------------------------
  // Displayed status

  /** The code of streak step `n`. */
  function StreakCode(n: int): (code: string)
    requires 0 <= n <= 9
    ensures |code| == 3 && code[..2] == "DS"
  {
    "DS" + [(48 + n) as char]
  }

  lemma StreakCodeInjective(a: int, b: int)
    requires 0 <= a <= 9 && 0 <= b <= 9
    ensures StreakCode(a) == StreakCode(b) <==> a == b
  {
    if StreakCode(a) == StreakCode(b) {
      assert StreakCode(a)[2] == StreakCode(b)[2];
    }
  }

  /** `getUserTaskStatus`: the stored status, else AVAILABLE, except that a
      streak step without a record other than the first one is LOCKED. */
  function DisplayStatus(code: string, taskType: TaskType, rec: Option<UserTask>): (s: Status)
    ensures rec.Some? ==> s == rec.value.status
    ensures rec.None? && taskType != DailyStreak ==> s == Available
    ensures rec.None? && taskType == DailyStreak ==> (s == Available <==> code == StreakCode(1))
    ensures rec.None? ==> s == Available || s == Locked
  {
    if taskType != DailyStreak then
      if rec.Some? then rec.value.status else Available
    else if rec.None? && code == "DS1" then Available
    else if rec.Some? then rec.value.status else Locked
  }

  // ---------------------------------------------------------------------
  // Streak arithmetic

  /** The counter of the streak hash for `u`; a missing field reads as 0. */
  function Stored(streak: map<int, int>, u: int): int
  {
    if u in streak then streak[u] else 0
  }

  /** The step a streak credit moves to: one past the stored step, wrapping
      past the last step back to the first. */
  function NextStreak(stored: int): (n: int)
    requires 0 <= stored <= StreakLength
    ensures 1 <= n <= StreakLength
    ensures n == 1 <==> stored == 0 || stored == StreakLength
    ensures stored < StreakLength ==> n == stored + 1
  {
    if stored + 1 > StreakLength then 1 else stored + 1
  }

  /** `getActiveUserStreak` as written: it wraps only past 7, so after the
      seventh credit it names a step 8 that does not exist. */
  function ActiveStreakAsWritten(stored: int): int
  {
    if stored > StreakLength then 1 else stored + 1
  }

  lemma ActiveStreakAsWrittenOverruns()
    ensures ActiveStreakAsWritten(StreakLength) == StreakLength + 1
    ensures NextStreak(StreakLength) == 1
  {
  }

  /** `getActiveUserStreak` as intended: the step the next credit lands on. */
  function ActiveUserStreak(stored: int): (n: int)
    requires 0 <= stored <= StreakLength
    ensures 1 <= n <= StreakLength
  {
    if stored >= StreakLength then 1 else stored + 1
  }

  /** The step shown as active, and reopened by the daily reset, is the step
      the next credit marks claimable. */
  lemma ActiveStepIsNextCredit(stored: int)
    requires 0 <= stored <= StreakLength
    ensures ActiveUserStreak(stored) == NextStreak(stored)
    ensures stored < StreakLength ==> ActiveStreakAsWritten(stored) == NextStreak(stored)
  {
  }

  // ---------------------------------------------------------------------
  // Click marking

  predicate IsClickCondition(c: Condition)
  {
    c.AffiliateClick? || c.SubscribeTwitter? || c.JoinTelegramGroup? || c.SubscribeTelegramChannel?
  }

  /** `updateUserTaskClickable` on the record store. */
  function Click(tasks: seq<Task>, ut: map<Key, UserTask>, userId: int, taskId: int): map<Key, UserTask>
  {
    match FindTask(tasks, taskId)
    case None => ut
    case Some(t) =>
      var k := Key(userId, taskId);
      if !t.isEnable || !IsClickCondition(t.condition) then ut
      else if k !in ut then ut[k := UserTask(t.taskType, Claimable, None, None)]
      else if ut[k].status == Available then ut[k := ut[k].(status := Claimable)]
      else ut
  }

  /** A click changes nothing but the clicked record, changes it only for an
      enabled click task, and then only from missing or AVAILABLE to
      CLAIMABLE. */
  lemma ClickOutcome(tasks: seq<Task>, ut: map<Key, UserTask>, userId: int, taskId: int)
    ensures var r := Click(tasks, ut, userId, taskId);
            var k := Key(userId, taskId);
            var found := FindTask(tasks, taskId);
            var eligible := found.Some? && found.value.isEnable && IsClickCondition(found.value.condition);
            && r.Keys == (if eligible then ut.Keys + {k} else ut.Keys)
            && (forall k' :: k' in ut && k' != k ==> r[k'] == ut[k'])
            && (k in r ==> (r[k].status == Claimable <==>
                              (k in ut && ut[k].status == Claimable)
                              || (eligible && (k !in ut || ut[k].status == Available))))
            && (k in ut && ut[k].status != Available ==> r[k] == ut[k])
  {
  }

  lemma ClickIdempotent(tasks: seq<Task>, ut: map<Key, UserTask>, userId: int, taskId: int)
    ensures Click(tasks, Click(tasks, ut, userId, taskId), userId, taskId) == Click(tasks, ut, userId, taskId)
  {
  }

  // ---------------------------------------------------------------------
  // Marking a task claimable

  /** `updateUserTaskClaimable` for a task that exists: a disabled task
      changes nothing; otherwise the record is created or set CLAIMABLE,
      whatever its status was. */
  function MarkClaimable(ut: map<Key, UserTask>, userId: int, t: Task): (r: map<Key, UserTask>)
    ensures t.isEnable ==> r.Keys == ut.Keys + {Key(userId, t.id)}
                           && r[Key(userId, t.id)].status == Claimable
    ensures !t.isEnable ==> r == ut
    ensures forall k :: k in ut && k != Key(userId, t.id) ==> k in r && r[k] == ut[k]
  {
    var k := Key(userId, t.id);
    if !t.isEnable then ut
    else if k !in ut then ut[k := UserTask(t.taskType, Claimable, None, None)]
    else ut[k := ut[k].(status := Claimable)]
  }

  // ---------------------------------------------------------------------
  // The claim pipeline

  /** The nine conditions whose tasks the user claims by hand. */
  predicate IsManualClaim(c: Condition)
  {
    !c.OtherCondition?
  }

  /** The guards of `claimTask` and `processClaimTask`, in the order they are
      checked: the lock, the task, the condition, the record. */
  function ClaimCheck(locked: bool, task: Option<Task>, rec: Option<UserTask>): (e: Option<ClaimError>)
    ensures e.None? <==> !locked && task.Some? && task.value.isEnable
                         && IsManualClaim(task.value.condition)
                         && (rec.None? || rec.value.status == Claimable)
    ensures e == Some(ClaimInProgress) <==> locked
    ensures e == Some(NotClaimable) ==> rec.Some? && rec.value.status != Claimable
  {
    if locked then Some(ClaimInProgress)
    else if task.None? || !task.value.isEnable then Some(TaskNotFound)
    else if !IsManualClaim(task.value.condition) then Some(CannotManualClaim)
    else if rec.Some? && rec.value.status != Claimable then Some(NotClaimable)
    else None
  }

  /** The upsert that completes a claim: type and status are set, and a
      missing record is created. */
  function CompletedRecord(t: Task, rec: Option<UserTask>): (r: UserTask)
    ensures r.status == Completed && r.taskType == t.taskType
    ensures rec.Some? ==> r.progress == rec.value.progress && r.total == rec.value.total
  {
    match rec
    case None => UserTask(t.taskType, Completed, None, None)
    case Some(u) => u.(taskType := t.taskType, status := Completed)
  }

  /** The reward of a task other than the child-mission parent. */
  function FixedReward(t: Task): TaskReward.Prize
  {
    TaskReward.Prize(HOPIUM, t.rewardQuantity)
  }

  // ---------------------------------------------------------------------
  // Streak resets

  /** Every streak record of `users` becomes LOCKED. */
  function LockStreakRecords(ut: map<Key, UserTask>, users: set<int>): (r: map<Key, UserTask>)
    ensures r.Keys == ut.Keys
  {
    map k | k in ut.Keys ::
      if k.userId in users && ut[k].taskType == DailyStreak then ut[k].(status := Locked) else ut[k]
  }

  /** The record of the first streak step of `users` becomes AVAILABLE; with
      `streakOnly` only when it is a streak record. */
  function ReopenFirstStep(ut: map<Key, UserTask>, users: set<int>, streakOnly: bool): (r: map<Key, UserTask>)
    ensures r.Keys == ut.Keys
  {
    map k | k in ut.Keys ::
      if k.userId in users && k.taskId == FirstStreakTaskId
         && (!streakOnly || ut[k].taskType == DailyStreak)
      then ut[k].(status := Available) else ut[k]
  }

  /** Restarting the streak of `users`. */
  function RestartStreaks(ut: map<Key, UserTask>, users: set<int>, streakOnly: bool): map<Key, UserTask>
  {
    ReopenFirstStep(LockStreakRecords(ut, users), users, streakOnly)
  }

  /** A restart creates no record and touches only the restarted users'
      records: their streak steps are LOCKED except the first, which is
      AVAILABLE, and their other tasks keep their status (the first task
      aside when `streakOnly` is off). */
  lemma RestartOutcome(ut: map<Key, UserTask>, users: set<int>, streakOnly: bool, k: Key)
    requires k in ut
    ensures var r := RestartStreaks(ut, users, streakOnly);
            && r.Keys == ut.Keys
            && (k.userId !in users ==> r[k] == ut[k])
            && ((k.userId in users && k.taskId == FirstStreakTaskId
                 && (!streakOnly || ut[k].taskType == DailyStreak)) ==> r[k].status == Available)
            && (k.userId in users && k.taskId != FirstStreakTaskId && ut[k].taskType == DailyStreak
                ==> r[k].status == Locked)
            && (k.userId in users && k.taskId != FirstStreakTaskId && ut[k].taskType != DailyStreak
                ==> r[k] == ut[k])
            && r[k].taskType == ut[k].taskType && r[k].progress == ut[k].progress
  {
  }

  /** The record the daily reset opens for a user credited yesterday: the
      step the next credit lands on, upserted AVAILABLE. */
  function StepKey(streak: map<int, int>, u: int): Key
    requires 0 <= Stored(streak, u) <= StreakLength
  {
    Key(u, ActiveUserStreak(Stored(streak, u)))
  }

  ghost predicate StreakRange(streak: map<int, int>)
  {
    forall u :: u in streak ==> 0 <= streak[u] <= StreakLength
  }

  function Activated(rec: Option<UserTask>): UserTask
  {
    match rec
    case None => UserTask(DailyStreak, Available, None, None)
    case Some(u) => u.(taskType := DailyStreak, status := Available)
  }

  /** Upserting the active step of each of `users` AVAILABLE. */
  function ActivateSteps(ut: map<Key, UserTask>, streak: map<int, int>, users: set<int>): (r: map<Key, UserTask>)
    requires StreakRange(streak)
    ensures forall u :: u in users ==> StepKey(streak, u) in r && r[StepKey(streak, u)].status == Available
    ensures forall k :: k in ut ==> k in r
    ensures forall k :: k in r ==> k in ut || exists u :: u in users && k == StepKey(streak, u)
  {
    var steps := set u | u in users :: StepKey(streak, u);
    map k | k in ut.Keys + steps :: if k in steps then Activated(Lookup(ut, k)) else ut[k]
  }

  // ---------------------------------------------------------------------
  // Volume accumulation

  /** The condition a volume event feeds; other event types feed none. */
  function VolumeCondition(v: VolumeType): Option<Condition>
  {
    match v
    case Trade => Some(ReachTradeVolume)
    case Deposit => Some(ReachDepositVolume)
    case OtherVolume => None
  }

  /** JavaScript `amount >= total`, which is false when total is missing. */
  predicate Reaches(amount: real, total: Option<real>)
  {
    total.Some? && amount >= total.value
  }

  /** `progress || 0`. */
  function ProgressOf(rec: UserTask): real
  {
    if rec.progress.Some? then rec.progress.value else 0.0
  }

  /** The record of a reach-volume task after one event of `volume`. */
  function VolumeStep(t: Task, rec: Option<UserTask>, volume: real): (r: Option<UserTask>)
    ensures r.Some?
    ensures rec.Some? && (rec.value.status == Claimable || rec.value.status == Completed) ==> r == rec
  {
    match rec
    case None =>
      Some(UserTask(t.taskType, if Reaches(volume, t.total) then Claimable else Available,
                    Some(volume), t.total))
    case Some(u) =>
      if u.status == Completed || u.status == Claimable then rec
      else
        var sum := ProgressOf(u) + volume;
        Some(UserTask(t.taskType, if Reaches(sum, t.total) then Claimable else Available,
                      Some(sum), t.total))
  }

  /** The reach-volume task a volume event of type `v` updates, if any. */
  function VolumeTask(tasks: seq<Task>, v: VolumeType): Option<Task>
  {
    match VolumeCondition(v)
    case None => None
    case Some(c) => FirstTask(tasks, (t: Task) => t.taskType == OneTime && t.condition == c && t.isEnable)
  }

  /** `updateClaimableReachVolumeTask` on the record store. */
  function ApplyVolume(tasks: seq<Task>, ut: map<Key, UserTask>, userId: int, volume: real, v: VolumeType)
    : (r: map<Key, UserTask>)
    ensures v == OtherVolume ==> r == ut
  {
    match VolumeTask(tasks, v)
    case None => ut
    case Some(t) =>
      var k := Key(userId, t.id);
      ut[k := VolumeStep(t, Lookup(ut, k), volume).value]
  }

  function Sum(vols: seq<real>): real
  {
    if vols == [] then 0.0 else Sum(vols[..|vols| - 1]) + vols[|vols| - 1]
  }

  /** The record after a run of volume events on a task the user had no
      record for. */
  function Replay(t: Task, vols: seq<real>): Option<UserTask>
  {
    if vols == [] then None else VolumeStep(t, Replay(t, vols[..|vols| - 1]), vols[|vols| - 1])
  }

  /** Over any run of non-negative volume events the task becomes CLAIMABLE
      exactly when the events add up to the threshold, and until then its
      progress is their sum. */
  lemma {:induction false} ReplayReachesIffSum(t: Task, vols: seq<real>)
    requires vols != [] && t.total.Some?
    requires forall i :: 0 <= i < |vols| ==> vols[i] >= 0.0
    ensures Replay(t, vols).Some?
    ensures Replay(t, vols).value.status == Claimable <==> Sum(vols) >= t.total.value
    ensures Replay(t, vols).value.status == Available ==> Replay(t, vols).value.progress == Some(Sum(vols))
    ensures Replay(t, vols).value.status == Available || Replay(t, vols).value.status == Claimable
  {
    var init, last := vols[..|vols| - 1], vols[|vols| - 1];
    if init != [] {
      assert forall i :: 0 <= i < |init| ==> init[i] == vols[i];
      ReplayReachesIffSum(t, init);
    }
  }

  // ---------------------------------------------------------------------
  // The parent mission

  predicate IsChildMission(t: Task)
  {
    (t.condition == ReachDepositVolume || t.condition == ReachTradeVolume) && t.isEnable
  }

  predicate Qualifies(ut: map<Key, UserTask>, userId: int, t: Task)
  {
    var k := Key(userId, t.id);
    k in ut && (ut[k].status == Claimable || ut[k].status == Completed)
  }

  function ParentTask(tasks: seq<Task>): Option<Task>
  {
    FirstTask(tasks, (t: Task) => t.condition == CompleteChildMission && t.isEnable)
  }

  /** The record the reconciler writes for the parent mission. */
  function ParentRecord(tasks: seq<Task>, ut: map<Key, UserTask>, userId: int, parent: Task): UserTask
  {
    var children := Filter(tasks, IsChildMission);
    var done := CountIf(children, (c: Task) => Qualifies(ut, userId, c));
    UserTask(parent.taskType, if done == |children| then Claimable else Available,
             Some(done as real), Some(|children| as real))
  }

  /** `updateClaimableParentMission` on the record store. */
  function ReconcileParent(tasks: seq<Task>, ut: map<Key, UserTask>, userId: int): (r: map<Key, UserTask>)
  {
    match ParentTask(tasks)
    case None => ut
    case Some(parent) =>
      var k := Key(userId, parent.id);
      if k in ut && (ut[k].status == Claimable || ut[k].status == Completed) then ut
      else ut[k := ParentRecord(tasks, ut, userId, parent)]
  }

  /** A parent already CLAIMABLE or COMPLETED is never touched; otherwise it
      becomes CLAIMABLE exactly when every enabled child mission is CLAIMABLE
      or COMPLETED, and AVAILABLE otherwise. */
  lemma ReconcileParentOutcome(tasks: seq<Task>, ut: map<Key, UserTask>, userId: int)
    requires ParentTask(tasks).Some?
    ensures var parent := ParentTask(tasks).value;
            var k := Key(userId, parent.id);
            var r := ReconcileParent(tasks, ut, userId);
            && k in r
            && (forall k' :: k' in ut && k' != k ==> k' in r && r[k'] == ut[k'])
            && (Qualifies(ut, userId, parent) ==> r[k] == ut[k])
            && (!Qualifies(ut, userId, parent) ==>
                  (r[k].status == Claimable <==>
                     forall c :: c in tasks && IsChildMission(c) ==> Qualifies(ut, userId, c)))
  {
    var parent := ParentTask(tasks).value;
    var children := Filter(tasks, IsChildMission);
    var p := (c: Task) => Qualifies(ut, userId, c);
    CountIfAll(children, p);
    FilterMembers(tasks, IsChildMission);
  }

  // ---------------------------------------------------------------------
  // Streak credits over consecutive days

  /** The stored counter after `days` credits from a fresh counter. */
  function StreakAfter(days: nat): (n: int)
    ensures 0 <= n <= StreakLength
  {
    if days == 0 then 0 else NextStreak(StreakAfter(days - 1))
  }

  /** Daily credits run through the steps 1..7 and start over. */
  lemma {:induction false} StreakCycles(days: nat)
    requires days >= 1
    ensures StreakAfter(days) == (days - 1) % StreakLength + 1
  {
    if days > 1 {
      StreakCycles(days - 1);
      WeekStep(days - 2);
    }
  }

  /** One more day moves the position in the week on by one, wrapping after
      the last step. */
  lemma WeekStep(k: nat)
    ensures (k + 1) % StreakLength == if k % StreakLength == StreakLength - 1 then 0 else k % StreakLength + 1
  {
    var q, r := k / StreakLength, k % StreakLength;
    if r == StreakLength - 1 {
      assert k + 1 == StreakLength * (q + 1);
    } else {
      assert k + 1 == StreakLength * q + (r + 1);
    }
  }

  /** Counters of `users` set to 0. */
  function ZeroStreaks(streak: map<int, int>, users: set<int>): (r: map<int, int>)
    ensures r.Keys == streak.Keys + users
    ensures forall u :: u in users ==> r[u] == 0
    ensures forall u :: u in streak && u !in users ==> r[u] == streak[u]
  {
    map u | u in streak.Keys + users :: if u in users then 0 else streak[u]
  }

  /** Counters of the users in `keep` only. */
  function KeepStreaks(streak: map<int, int>, keep: set<int>): (r: map<int, int>)
    ensures r.Keys == streak.Keys * keep
    ensures forall u :: u in r ==> r[u] == streak[u]
  {
    map u | u in streak.Keys * keep :: streak[u]
  }

  lemma ActivateStepsInsert(ut: map<Key, UserTask>, streak: map<int, int>, done: set<int>, u: int)
    requires StreakRange(streak)
    ensures var prev := ActivateSteps(ut, streak, done);
            var k := StepKey(streak, u);
            ActivateSteps(ut, streak, done + {u}) == prev[k := Activated(Lookup(prev, k))]
  {
    var prev := ActivateSteps(ut, streak, done);
    var k := StepKey(streak, u);
    var next := ActivateSteps(ut, streak, done + {u});
    var want := prev[k := Activated(Lookup(prev, k))];
    assert next.Keys == want.Keys;
    forall k' | k' in next.Keys
      ensures next[k'] == want[k']
    {
    }
  }

  /** The daily reset never re-locks a user credited yesterday: each of them
      ends with the step the next credit lands on AVAILABLE, while every
      lapsed user restarts from the first step. */
  lemma DailyResetOutcome(ut: map<Key, UserTask>, streak: map<int, int>,
                          yesterday: set<int>, twoDaysAgo: set<int>)
    requires StreakRange(streak)
    ensures var stale := twoDaysAgo - yesterday;
            var r := RestartStreaks(ActivateSteps(ut, streak, yesterday), stale, false);
            && (forall u :: u in yesterday ==>
                  StepKey(streak, u) in r && r[StepKey(streak, u)].status == Available)
            && (forall u :: u in stale ==> ActiveUserStreak(Stored(ZeroStreaks(streak, stale), u)) == 1)
  {
    var stale := twoDaysAgo - yesterday;
    var a := ActivateSteps(ut, streak, yesterday);
    forall u | u in yesterday
      ensures StepKey(streak, u) in RestartStreaks(a, stale, false)
              && RestartStreaks(a, stale, false)[StepKey(streak, u)].status == Available
    {
      RestartOutcome(a, stale, false, StepKey(streak, u));
    }
  }

  /** The streak task for step `n`: the first DAILY_STREAK task coded DS<n>. */
  function StreakTask(tasks: seq<Task>, n: int): Option<Task>
    requires 0 <= n <= 9
  {
    FirstTask(tasks, (t: Task) => t.taskType == DailyStreak && t.code == StreakCode(n))
  }

  /** The activation loop of the daily reset: for each user credited
      yesterday, upsert the step the next credit lands on as AVAILABLE. */
  method ActivateYesterday(ut: map<Key, UserTask>, streak: map<int, int>, yesterday: set<int>)
    returns (r: map<Key, UserTask>)
    requires StreakRange(streak)
    ensures r == ActivateSteps(ut, streak, yesterday)
  {
    r := ut;
    var pending := yesterday;
    ghost var done: set<int> := {};
    assert r == ActivateSteps(ut, streak, done);
    while pending != {}
      invariant pending + done == yesterday && pending !! done
      invariant r == ActivateSteps(ut, streak, done)
      decreases pending
    {
      HasElement(pending);
      var u :| u in pending;
      var k := StepKey(streak, u);
      ActivateStepsInsert(ut, streak, done, u);
      r := r[k := Activated(Lookup(r, k))];
      pending := pending - {u};
      done := done + {u};
    }
  }

  /** The counter loop of the daily reset: every lapsed user's counter
      becomes 0. */
  method ZeroCounters(streak: map<int, int>, stale: set<int>) returns (r: map<int, int>)
    ensures r == ZeroStreaks(streak, stale)
  {
    r := streak;
    var rest := stale;
    assert r == ZeroStreaks(streak, stale - rest);
    while rest != {}
      invariant rest <= stale
      invariant r == ZeroStreaks(streak, stale - rest)
      decreases rest
    {
      HasElement(rest);
      var u :| u in rest;
      r := r[u := 0];
      rest := rest - {u};
      assert r == ZeroStreaks(streak, stale - rest);
    }
    assert stale - rest == stale;
  }

  /** The counter loop of the hard reset: delete the counter of each user
      outside `recent`, collecting the deleted ids. */
  method DropIdleCounters(streak: map<int, int>, recent: set<int>)
    returns (kept: map<int, int>, resetUserIds: seq<int>)
    ensures kept == KeepStreaks(streak, recent)
    ensures |resetUserIds| == |streak.Keys - recent|
    ensures Elements(resetUserIds) == streak.Keys - recent
  {
    resetUserIds := [];
    kept := streak;
    var pending := streak.Keys;
    ghost var dropped: set<int> := {};
    while pending != {}
      invariant pending <= streak.Keys
      invariant dropped == (streak.Keys - pending) - recent
      invariant kept == streak - dropped
      invariant |resetUserIds| == |dropped|
      invariant Elements(resetUserIds) == dropped
      decreases pending
    {
      HasElement(pending);
      var u :| u in pending;
      DropStep(streak.Keys, pending, dropped, recent, u);
      if u !in recent {
        ElementsAppend(resetUserIds, u);
        RemoveOneMore(streak, dropped, u);
        resetUserIds := resetUserIds + [u];
        kept := kept - {u};
        dropped := dropped + {u};
      }
      pending := pending - {u};
    }
    assert dropped == streak.Keys - recent;
    assert kept.Keys == KeepStreaks(streak, recent).Keys;
  }

  /** The hard reset on the stores: drop the idle counters and, when there
      were any, restart those users' streaks. */
  method HardReset(streak: map<int, int>, ut: map<Key, UserTask>, recent: set<int>)
    returns (kept: map<int, int>, restarted: map<Key, UserTask>, r: Option<nat>)
    ensures kept == KeepStreaks(streak, recent)
    ensures var stale := streak.Keys - recent;
            && (stale == {} ==> r.None? && restarted == ut)
            && (stale != {} ==> r == Some(|stale|) && restarted == RestartStreaks(ut, stale, false))
  {
    var resetUserIds;
    kept, resetUserIds := DropIdleCounters(streak, recent);
    ghost var stale := streak.Keys - recent;
    if |resetUserIds| == 0 {
      assert |stale| == 0;
      return kept, ut, None;
    }
    var resetSet := Elements(resetUserIds);
    restarted := RestartStreaks(ut, resetSet, false);
    r := Some(|resetUserIds|);
  }

  lemma DropStep(keys: set<int>, pending: set<int>, dropped: set<int>, recent: set<int>, u: int)
    requires dropped == (keys - pending) - recent && u in pending && pending <= keys
    ensures u !in recent ==> dropped + {u} == (keys - (pending - {u})) - recent && |dropped + {u}| == |dropped| + 1
    ensures u in recent ==> dropped == (keys - (pending - {u})) - recent
  {
    assert u !in dropped;
  }

  lemma RemoveOneMore(m: map<int, int>, gone: set<int>, u: int)
    ensures (m - gone) - {u} == m - (gone + {u})
  {
  }

  /** A share-on-X claim is keyed by the order and its owner. */
  datatype OrderRef = OrderRef(orderId: int, userId: int)

  /** The error `updateUserTaskClaimable` raises when handed no task (it
      reads the task id before checking for the task). */
  datatype Fault = NullTask

  /** The engine's stores. */
  class TaskEngine {
    /** The task catalogue, in its natural order. */
    const tasks: seq<Task>
    /** Futures orders by (displaying id, owner). */
    const orders: set<OrderRef>
    const spinner: TaskReward.RewardSpinner
    var userTasks: map<Key, UserTask>
    /** The streak hash: user -> last credited step. */
    var streak: map<int, int>
    /** The per-day sets of users credited that day. */
    var claimedOn: map<int, set<int>>
    var locks: set<LockKey>
    var claimLog: seq<ClaimRecord>
    var shareLog: set<OrderRef>
    /** Credits sent to the wallet ledger, oldest first. */
    var ledger: seq<Credit>

    ghost predicate Valid()
      reads this
    {
      StreakRange(streak) && shareLog <= orders
    }

    function ClaimedOn(day: int): set<int>
      reads this
    {
      if day in claimedOn then claimedOn[day] else {}
    }

    constructor (tasks: seq<Task>, orders: set<OrderRef>, spinner: TaskReward.RewardSpinner)
      ensures Valid()
      ensures this.tasks == tasks && this.orders == orders && this.spinner == spinner
      ensures userTasks == map[] && streak == map[] && claimedOn == map[]
      ensures locks == {} && claimLog == [] && shareLog == {} && ledger == []
    {
      this.tasks := tasks;
      this.orders := orders;
      this.spinner := spinner;
      userTasks := map[];
      streak := map[];
      claimedOn := map[];
      locks := {};
      claimLog := [];
      shareLog := {};
      ledger := [];
    }

    /** `updateUserTaskClickable`. */
    method UpdateUserTaskClickable(userId: int, taskId: int) returns (ok: bool)
      modifies this
      ensures ok
      ensures userTasks == Click(tasks, old(userTasks), userId, taskId)
      ensures streak == old(streak) && claimedOn == old(claimedOn) && locks == old(locks)
      ensures claimLog == old(claimLog) && shareLog == old(shareLog) && ledger == old(ledger)
    {
      ok := true;
      var found := FindTask(tasks, taskId);
      if found.None? {
        return;
      }
      var task := found.value;
      if !task.isEnable || !IsClickCondition(task.condition) {
        return;
      }
      var k := Key(userId, taskId);
      if k !in userTasks {
        userTasks := userTasks[k := UserTask(task.taskType, Claimable, None, None)];
        return;
      }
      if userTasks[k].status == Available {
        userTasks := userTasks[k := userTasks[k].(status := Claimable)];
      }
    }

    /** `updateUserTaskClaimable`. */
    method UpdateUserTaskClaimable(userId: int, task: Option<Task>) returns (r: Result<bool, Fault>)
      modifies this
      ensures task.None? ==> r == Err(NullTask) && userTasks == old(userTasks)
      ensures task.Some? ==> r == Ok(true) && userTasks == MarkClaimable(old(userTasks), userId, task.value)
      ensures streak == old(streak) && claimedOn == old(claimedOn) && locks == old(locks)
      ensures claimLog == old(claimLog) && shareLog == old(shareLog) && ledger == old(ledger)
    {
      if task.None? {
        return Err(NullTask);
      }
      var t := task.value;
      if !t.isEnable {
        return Ok(true);
      }
      var k := Key(userId, t.id);
      if k !in userTasks {
        userTasks := userTasks[k := UserTask(t.taskType, Claimable, None, None)];
      } else {
        userTasks := userTasks[k := userTasks[k].(status := Claimable)];
      }
      r := Ok(true);
    }

    /** `claimTask`: refuse while the lock is held, hold it while the claim
        runs and release it on every way out. `creditOk` says whether the
        wallet accepts the credit; `reward` is the prize the claim picked. */
    method ClaimTask(userId: int, taskId: int, draw: real, creditOk: bool)
      returns (r: Result<TaskReward.Prize, ClaimError>, ghost reward: Option<TaskReward.Prize>)
      requires Valid() && spinner.Valid()
      requires 0.0 <= draw < 1.0
      modifies this, spinner
      ensures Valid() && spinner.Valid()
      ensures locks == old(locks)
      ensures var check := ClaimCheck(LockKey(taskId, userId) in old(locks), FindTask(tasks, taskId),
                                      Lookup(old(userTasks), Key(userId, taskId)));
              && (check.Some? ==> r == Err(check.value) && userTasks == old(userTasks)
                                  && ledger == old(ledger) && claimLog == old(claimLog)
                                  && unchanged(spinner))
              && (check.None? ==>
                    var t := FindTask(tasks, taskId).value;
                    && userTasks == old(userTasks)[Key(userId, taskId) :=
                                     CompletedRecord(t, Lookup(old(userTasks), Key(userId, taskId)))]
                    && (t.condition != CompleteChildMission ==> reward == Some(FixedReward(t)) && unchanged(spinner))
                    && (t.condition == CompleteChildMission ==>
                          TaskReward.SpinOutcome(spinner, old(spinner.counts), old(spinner.switched), draw, reward))
                    && (t.condition == CompleteChildMission && old(TaskReward.Total(spinner.counts)) < TaskReward.InitSpins
                        ==> reward.Some?)
                    && (reward.None? ==> r == Err(SpinFailed))
                    && (reward.Some? ==> r == (if creditOk then Ok(reward.value) else Err(CreditFailed))))
      ensures r.Ok? ==> ledger == old(ledger) + [Credit(userId, r.value.rewardAsset, TaskCategory, r.value.rewardQuantity)]
                        && claimLog == old(claimLog) + [ClaimRecord(userId, taskId, r.value)]
      ensures r == Err(CreditFailed) ==> reward.Some? && ledger == old(ledger)
                                         && claimLog == old(claimLog) + [ClaimRecord(userId, taskId, reward.value)]
      ensures r.Err? && r != Err(CreditFailed) ==> ledger == old(ledger) && claimLog == old(claimLog)
      ensures streak == old(streak) && claimedOn == old(claimedOn) && shareLog == old(shareLog)
    {
      var lock := LockKey(taskId, userId);
      if lock in locks {
        return Err(ClaimInProgress), None;
      }
      locks := locks + {lock};
      var found := FindTask(tasks, taskId);
      if found.None? || !found.value.isEnable {
        r, reward := Err(TaskNotFound), None;
      } else if !IsManualClaim(found.value.condition) {
        r, reward := Err(CannotManualClaim), None;
      } else {
        r, reward := ProcessClaimTask(userId, found.value, draw, creditOk);
      }
      locks := locks - {lock};
    }

    /** `processClaimTask`: complete the record, then pick, log and credit the
        reward. The record stays COMPLETED when the spinner fails; when the
        wallet refuses the credit the record and the log entry stay written
        and the claim fails with nothing credited. */
    method ProcessClaimTask(userId: int, t: Task, draw: real, creditOk: bool)
      returns (r: Result<TaskReward.Prize, ClaimError>, ghost reward: Option<TaskReward.Prize>)
      requires Valid() && spinner.Valid()
      requires 0.0 <= draw < 1.0
      modifies this, spinner
      ensures Valid() && spinner.Valid()
      ensures var rec := Lookup(old(userTasks), Key(userId, t.id));
              && (rec.Some? && rec.value.status != Claimable ==>
                    r == Err(NotClaimable) && userTasks == old(userTasks) && unchanged(spinner))
              && (rec.None? || rec.value.status == Claimable ==>
                    && userTasks == old(userTasks)[Key(userId, t.id) := CompletedRecord(t, rec)]
                    && (t.condition != CompleteChildMission ==> reward == Some(FixedReward(t)) && unchanged(spinner))
                    && (t.condition == CompleteChildMission ==>
                          TaskReward.SpinOutcome(spinner, old(spinner.counts), old(spinner.switched), draw, reward))
                    && (t.condition == CompleteChildMission && old(TaskReward.Total(spinner.counts)) < TaskReward.InitSpins
                        ==> reward.Some?)
                    && (reward.None? ==> r == Err(SpinFailed))
                    && (reward.Some? ==> r == (if creditOk then Ok(reward.value) else Err(CreditFailed))))
      ensures r.Ok? ==> ledger == old(ledger) + [Credit(userId, r.value.rewardAsset, TaskCategory, r.value.rewardQuantity)]
                        && claimLog == old(claimLog) + [ClaimRecord(userId, t.id, r.value)]
      ensures r == Err(CreditFailed) ==> reward.Some? && ledger == old(ledger)
                                         && claimLog == old(claimLog) + [ClaimRecord(userId, t.id, reward.value)]
      ensures r.Err? && r != Err(CreditFailed) ==> ledger == old(ledger) && claimLog == old(claimLog)
      ensures streak == old(streak) && claimedOn == old(claimedOn) && locks == old(locks)
      ensures shareLog == old(shareLog)
    {
      var k := Key(userId, t.id);
      var rec := Lookup(userTasks, k);
      if rec.Some? && rec.value.status != Claimable {
        return Err(NotClaimable), None;
      }
      userTasks := userTasks[k := CompletedRecord(t, rec)];
      var picked := PickReward(t, draw);
      reward := picked;
      if picked.None? {
        return Err(SpinFailed), reward;
      }
      var prize := picked.value;
      claimLog := claimLog + [ClaimRecord(userId, t.id, prize)];
      if !creditOk {
        return Err(CreditFailed), reward;
      }
      ledger := ledger + [Credit(userId, prize.rewardAsset, TaskCategory, prize.rewardQuantity)];
      r := Ok(prize);
    }

    /** The reward of a claim: the task's fixed HOPIUM amount, or a spin for
        the parent mission (nothing when the spinner has no tier left). */
    method PickReward(t: Task, draw: real) returns (prize: Option<TaskReward.Prize>)
      requires spinner.Valid()
      requires 0.0 <= draw < 1.0
      modifies spinner
      ensures spinner.Valid()
      ensures t.condition != CompleteChildMission ==> prize == Some(FixedReward(t)) && unchanged(spinner)
      ensures t.condition == CompleteChildMission ==>
                TaskReward.SpinOutcome(spinner, old(spinner.counts), old(spinner.switched), draw, prize)
      ensures t.condition == CompleteChildMission && old(TaskReward.Total(spinner.counts)) < TaskReward.InitSpins
              ==> prize.Some?
    {
      if t.condition != CompleteChildMission {
        return Some(FixedReward(t));
      }
      var spun, awarded := spinner.Spin(draw);
      if spun.Err? {
        return None;
      }
      prize := Some(spun.value);
    }

    /** `updateDailyStreakTaskStatus`: at most one credit per user and day.
        A missing streak task aborts the credit after the wrap-around updates,
        leaving the counter and the day set alone. */
    method UpdateDailyStreakTaskStatus(userId: int, today: int)
      requires Valid()
      modifies this
      ensures Valid()
      ensures userId in old(ClaimedOn(today)) ==>
                userTasks == old(userTasks) && streak == old(streak) && claimedOn == old(claimedOn)
      ensures userId !in old(ClaimedOn(today)) ==>
                var stored := Stored(old(streak), userId);
                var next := NextStreak(stored);
                var wrapped := if stored == StreakLength then RestartStreaks(old(userTasks), {userId}, true)
                               else old(userTasks);
                match StreakTask(tasks, next)
                case None => userTasks == wrapped && streak == old(streak) && claimedOn == old(claimedOn)
                case Some(t) =>
                  && userTasks == MarkClaimable(wrapped, userId, t)
                  && streak == old(streak)[userId := next]
                  && claimedOn == old(claimedOn)[today := old(ClaimedOn(today)) + {userId}]
      ensures locks == old(locks) && claimLog == old(claimLog) && shareLog == old(shareLog) && ledger == old(ledger)
    {
      if userId in ClaimedOn(today) {
        return;
      }
      var next := Stored(streak, userId) + 1;
      if next > StreakLength {
        next := 1;
        userTasks := RestartStreaks(userTasks, {userId}, true);
      }
      var streakTask := StreakTask(tasks, next);
      var marked := UpdateUserTaskClaimable(userId, streakTask);
      if marked.Err? {
        return;
      }
      claimedOn := claimedOn[today := ClaimedOn(today) + {userId}];
      streak := streak[userId := next];
    }

    /** `resetDailyReward`, run on day `today`. */
    method ResetDailyReward(today: int)
      requires Valid()
      modifies this
      ensures Valid()
      ensures var yesterday := old(ClaimedOn(today - 1));
              var stale := old(ClaimedOn(today - 2)) - yesterday;
              var activated := ActivateSteps(old(userTasks), old(streak), yesterday);
              && (stale == {} ==> userTasks == activated && streak == old(streak))
              && (stale != {} ==> userTasks == RestartStreaks(activated, stale, false)
                                  && streak == ZeroStreaks(old(streak), stale))
      ensures claimedOn == old(claimedOn) && locks == old(locks)
      ensures claimLog == old(claimLog) && shareLog == old(shareLog) && ledger == old(ledger)
    {
      var yesterday := ClaimedOn(today - 1);
      var stale := ClaimedOn(today - 2) - yesterday;
      userTasks := ActivateYesterday(userTasks, streak, yesterday);
      if stale == {} {
        return;
      }
      streak := ZeroCounters(streak, stale);
      userTasks := RestartStreaks(userTasks, stale, false);
    }

    /** `hardResetDailyReward`: drop the counter of every user credited on
        none of the last three days, restart their streaks and report how
        many were dropped (nothing when none was). */
    method HardResetDailyReward(today: int) returns (r: Option<nat>)
      requires Valid()
      modifies this
      ensures Valid()
      ensures var recent := old(ClaimedOn(today) + ClaimedOn(today - 1) + ClaimedOn(today - 2));
              var stale := old(streak).Keys - recent;
              && streak == KeepStreaks(old(streak), recent)
              && (stale == {} ==> r.None? && userTasks == old(userTasks))
              && (stale != {} ==> r == Some(|stale|) && userTasks == RestartStreaks(old(userTasks), stale, false))
      ensures claimedOn == old(claimedOn) && locks == old(locks)
      ensures claimLog == old(claimLog) && shareLog == old(shareLog) && ledger == old(ledger)
    {
      var recent := ClaimedOn(today) + ClaimedOn(today - 1) + ClaimedOn(today - 2);
      streak, userTasks, r := HardReset(streak, userTasks, recent);
    }

    /** `updateClaimableReachVolumeTask`. */
    method UpdateClaimableReachVolumeTask(userId: int, volume: real, v: VolumeType)
      modifies this
      ensures userTasks == ApplyVolume(tasks, old(userTasks), userId, volume, v)
      ensures streak == old(streak) && claimedOn == old(claimedOn) && locks == old(locks)
      ensures claimLog == old(claimLog) && shareLog == old(shareLog) && ledger == old(ledger)
    {
      var found := VolumeTask(tasks, v);
      if found.None? {
        return;
      }
      var t := found.value;
      var k := Key(userId, t.id);
      if k !in userTasks {
        var status := if Reaches(volume, t.total) then Claimable else Available;
        userTasks := userTasks[k := UserTask(t.taskType, status, Some(volume), t.total)];
        return;
      }
      var rec := userTasks[k];
      if rec.status == Completed || rec.status == Claimable {
        return;
      }
      var progress := ProgressOf(rec) + volume;
      var status := if Reaches(progress, t.total) then Claimable else Available;
      userTasks := userTasks[k := UserTask(t.taskType, status, Some(progress), t.total)];
    }

    /** `updateClaimableParentMission`. */
    method UpdateClaimableParentMission(userId: int)
      modifies this
      ensures userTasks == ReconcileParent(tasks, old(userTasks), userId)
      ensures streak == old(streak) && claimedOn == old(claimedOn) && locks == old(locks)
      ensures claimLog == old(claimLog) && shareLog == old(shareLog) && ledger == old(ledger)
    {
      var found := ParentTask(tasks);
      if found.None? {
        return;
      }
      var parent := found.value;
      var k := Key(userId, parent.id);
      if k in userTasks && (userTasks[k].status == Claimable || userTasks[k].status == Completed) {
        return;
      }
      userTasks := userTasks[k := ParentRecord(tasks, userTasks, userId, parent)];
    }

    /** `claimShareXTask`: 300 HOPIUM once per owned order. `creditOk` says
        whether the wallet accepts the credit; a refused credit writes nothing
        and is reported as no answer (`None`). `userKnown` says whether the
        user record exists; without it the credit and the log entry are
        written and then the notification step fails, which the method also
        reports as `None`. */
    method ClaimShareXTask(userId: int, orderId: int, userKnown: bool, creditOk: bool) returns (r: Option<bool>)
      requires Valid()
      modifies this
      ensures Valid()
      ensures var ref := OrderRef(orderId, userId);
              && (ref in old(shareLog) || ref !in orders ==>
                    r == Some(false) && ledger == old(ledger) && shareLog == old(shareLog))
              && (ref !in old(shareLog) && ref in orders && !creditOk ==>
                    r == None && ledger == old(ledger) && shareLog == old(shareLog))
              && (ref !in old(shareLog) && ref in orders && creditOk ==>
                    && ledger == old(ledger) + [Credit(userId, HOPIUM, TaskCategory, ShareReward)]
                    && shareLog == old(shareLog) + {ref}
                    && r == (if userKnown then Some(true) else None))
      ensures OrderRef(orderId, userId) in orders && creditOk ==> OrderRef(orderId, userId) in shareLog
      ensures userTasks == old(userTasks) && streak == old(streak) && claimedOn == old(claimedOn)
      ensures locks == old(locks) && claimLog == old(claimLog)
    {
      var ref := OrderRef(orderId, userId);
      if ref in shareLog {
        return Some(false);
      }
      if ref !in orders {
        return Some(false);
      }
      if !creditOk {
        return None;
      }
      ledger := ledger + [Credit(userId, HOPIUM, TaskCategory, ShareReward)];
      shareLog := shareLog + {ref};
      if !userKnown {
        return None;
      }
      r := Some(true);
    }
  }
}

/**
  The scan queue, its worker thread and the queue manager's interceptions as one state machine.

  A step makes one access to what the threads share, so inserts and the accesses of an interception may land
  between any two accesses of the worker. Joined are only reads that no other thread can make stale (the worker
  alone removes items, so a head it has seen stays) and the read of a status with the message that carries it.
  The manager's lock only rules some of these interleavings out and is not modelled. Items are named by the order
  of their insertion.
 */
module ServerRuns {
  import opened Instructions

  datatype ItemStatus = Stopped | Pending | Idle | Paused | DeferredPause | Running | Completed

  /** `stopped` is set when the cleanup of an aborted item starts, `halted` when a halt forbids the return to start. */
  datatype Item = Item(status: ItemStatus, stopped: bool, halted: bool)

  datatype Command = StageCommand | UnstageCommand | OtherCommand

  /**
    What the worker does next: in `ScanQueue.__next__` (without an item), in the try block of
    `_process_instructions`, in its except clause, or in the except clause of `run`.
   */
  datatype Pc =
    | Top | Poll | Ready | Clearing | PausedPoll | PausedLen | Unpausing | ReadHead | Missed
    | Fetch(id: nat)
    | Starting(id: nat, command: Command) | Started(id: nat, command: Command)
    | Check(id: nat, command: Command) | Checked(id: nat, command: Command) | Sending(id: nat, command: Command)
    | Waiting(id: nat)
    | Ending(id: nat)
    | Raised(id: nat, mayReturn: bool)
    | Marking(id: nat)
    | Resetting(id: nat)
    | Cleaning(id: nat, moved: bool) | CleanCheck(id: nat, moved: bool) | Moving(id: nat)
    | Final(id: nat)
    | Recording(id: nat, terminal: ItemStatus, mark: Option<ItemStatus>, told: bool)
    | Unstaging(id: nat)
  {
    predicate Searching() {
      || Top? || Poll? || Ready? || Clearing? || PausedPoll? || PausedLen? || Unpausing? || ReadHead? || Missed?
    }

    function Working(): Option<nat> {
      if Searching() then None else Some(id)
    }

    /** The try block of `_process_instructions`. */
    predicate InTry() {
      Fetch? || Starting? || Started? || Check? || Checked? || Sending? || Waiting? || Ending?
    }

    /** Its except clause, up to the start of the cleanup. */
    predicate BeforeCleanup(x: nat) {
      (InTry() || Raised? || Marking?) && id == x
    }

    /** The cleanup, from the reset of the worker's status on. */
    predicate CleaningUp(x: nat) {
      (Resetting? || Cleaning? || CleanCheck? || Moving?) && id == x
    }

    /** The return to the start has been decided on and its motion not been sent. */
    predicate ReturnPending(x: nat) {
      (Marking? || Resetting? || Moving? || (Cleaning? && !moved) || (CleanCheck? && !moved)) && id == x
    }
  }

  /** What an interception does next; `status` is what it writes to the head of the queue and then to the worker. */
  datatype Hand =
    | Resting
    | HaltAt(id: nat)
    | AbortTest
    | PauseQueue
    | LookLen(status: ItemStatus)
    | LookHead(status: ItemStatus)
    | Mark(id: nat, status: ItemStatus)
    | Tell(status: ItemStatus)

  /** Messages the worker sends: to the devices, and to the queue history. `ReturnMove` starts the return motion. */
  datatype Message =
    | Staged(devices: set<Device>)
    | Unstaged(devices: set<Device>)
    | ReturnMove(id: nat)
    | Recorded(id: nat, status: ItemStatus, terminal: ItemStatus)

  /** `handed`, `lost` and `misses` are histories: items taken, items dropped, inserts into the unsafe window. */
  datatype Server = Server(
    items: seq<Item>,
    queue: seq<nat>,
    running: bool,
    active: Option<nat>,
    history: seq<nat>,
    workerStatus: ItemStatus,
    staged: set<Device>,
    log: seq<Message>,
    pc: Pc,
    hand: Hand,
    handed: seq<nat>,
    lost: seq<nat>,
    misses: nat)

  const MAX_HISTORY := 100

  const FRESH := Server([], [], true, None, [], Idle, {}, [], Top, Resting, [], [], 0)

  /** What the worker finds outside the queue: the active request's return flag and the enabled devices. */
  datatype Surroundings = Surroundings(mayReturn: bool, enabled: set<Device>)

  datatype Choice = Give(command: Command) | Nothing | End | Done | Fail | Go

  /** `Pause` to `Halt` make the first access of an interception, `Intervene` the next one, `Work` one of the worker. */
  datatype Event =
    | Insert
    | Pause
    | DeferPause
    | Continue
    | Abort
    | Halt
    | Intervene
    | Work(choice: Choice, around: Surroundings)

  // ----- Requests and interceptions -----

  /** An insert is unsafe between the empty read of the paused branch and the next pass of the loop. */
  predicate InWindow(s: Server) {
    s.queue == [] && s.active.Some? && (s.pc.Missed? || s.pc.Top?)
  }

  function InsertItem(s: Server): Server {
    s.(items := s.items + [Item(Pending, false, false)],
       queue := s.queue + [|s.items|],
       misses := if InWindow(s) then s.misses + 1 else s.misses)
  }

  function WriteStatus(s: Server, id: nat, status: ItemStatus): Server
    requires id < |s.items|
  {
    s.(items := s.items[id := s.items[id].(status := status)])
  }

  /** An interception writes an item's status; `mark` remembers it while the item's history entry is due. */
  function MarkItem(s: Server, id: nat, status: ItemStatus): Server {
    if id >= |s.items| then s
    else
      var t := WriteStatus(s, id, status);
      if s.pc.Recording? && s.pc.id == id then t.(pc := s.pc.(mark := Some(status))) else t
  }

  function HaltItem(s: Server, id: nat): Server {
    if id >= |s.items| then s else s.(items := s.items[id := s.items[id].(halted := true)])
  }

  /** The next access of the interception under way. */
  function Interception(s: Server): Server {
    match s.hand
    case Resting => s
    case HaltAt(id) => HaltItem(s, id).(hand := AbortTest)
    case AbortTest => s.(hand := if s.queue == [] then LookLen(Stopped) else PauseQueue)
    case PauseQueue => s.(running := false, hand := LookLen(Stopped))
    case LookLen(status) => s.(hand := if s.queue == [] then Resting else LookHead(status))
    case LookHead(status) => s.(hand := if s.queue == [] then Resting else Mark(s.queue[0], status))
    case Mark(id, status) => MarkItem(s, id, status).(hand := Tell(status))
    case Tell(status) => s.(workerStatus := status, hand := Resting)
  }

  /** One interception runs at a time. */
  function Begin(s: Server, e: Event): Server {
    if !s.hand.Resting? then s
    else match e
      case Pause => s.(running := false, hand := LookLen(Paused))
      case DeferPause => s.(running := false, hand := LookLen(DeferredPause))
      case Continue => s.(running := true, hand := LookLen(Running))
      case Abort => Interception(s.(hand := AbortTest))
      case Halt => s.(hand := if s.active.Some? then HaltAt(s.active.value) else AbortTest)
      case _ => s
  }

  // ----- Taking items from the queue -----

  function Latest(s: seq<nat>): seq<nat> {
    if |s| <= MAX_HISTORY then s else s[|s| - MAX_HISTORY..]
  }

  function PopFinished(s: Server): Server {
    if s.active.Some? && s.queue != [] then
      s.(queue := s.queue[1..],
         lost := if s.queue[0] == s.active.value then s.lost else s.lost + [s.queue[0]],
         pc := Poll)
    else s.(pc := Poll)
  }

  function TakeHead(s: Server): Server
    requires s.queue != []
  {
    s.(active := Some(s.queue[0]),
       history := Latest(s.history + [s.queue[0]]),
       handed := s.handed + [s.queue[0]],
       pc := Fetch(s.queue[0]))
  }

  function NextItem(s: Server): Server {
    match s.pc
    case Top => PopFinished(s)
    case Poll => s.(pc := if s.running then Ready else PausedPoll)
    case Ready => if s.queue == [] then s.(pc := Clearing) else TakeHead(s)
    case Clearing => s.(active := None, pc := Top)
    case PausedPoll => s.(pc := if s.running then ReadHead else PausedLen)
    case PausedLen => s.(pc := if s.queue == [] then Unpausing else PausedPoll)
    case Unpausing => s.(running := true, pc := PausedPoll)
    case ReadHead => if s.queue == [] then s.(pc := Missed) else TakeHead(s)
    case Missed => s.(pc := Top)
    case _ => s
  }

  // ----- Processing an item -----

  function Say(s: Server, m: Message): Server {
    s.(log := s.log + [m])
  }

  function FetchStep(s: Server, id: nat, c: Choice, around: Surroundings): Server
    requires id < |s.items|
  {
    match c
    case Give(command) => s.(pc := if s.items[id].status == Pending then Starting(id, command) else Check(id, command))
    case End => s.(pc := if s.items[id].status == Paused then Fetch(id) else Ending(id))
    case Fail => s.(pc := Raised(id, around.mayReturn))
    case _ => s.(pc := Fetch(id))
  }

  function Send(s: Server, id: nat, command: Command, around: Surroundings): Server {
    match command
    case StageCommand => Say(s, Staged(around.enabled)).(staged := s.staged + around.enabled, pc := Waiting(id))
    case UnstageCommand => Say(s, Unstaged(around.enabled)).(staged := s.staged - around.enabled, pc := Waiting(id))
    case OtherCommand => s.(pc := Waiting(id))
  }

  function WaitStep(s: Server, id: nat, c: Choice, around: Surroundings): Server {
    if c.Done? then s.(pc := Fetch(id))
    else if c.Fail? || (c.Go? && s.workerStatus == Stopped) then s.(pc := Raised(id, around.mayReturn))
    else s
  }

  /** The try block: fetch an instruction, check for an interruption (two checks in a row are one), send it and wait. */
  function TryStep(s: Server, id: nat, c: Choice, around: Surroundings): Server
    requires id < |s.items|
  {
    match s.pc
    case Fetch(_) => FetchStep(s, id, c, around)
    case Starting(_, command) => WriteStatus(s, id, Running).(pc := Started(id, command))
    case Started(_, command) => s.(workerStatus := Running, pc := Check(id, command))
    case Check(_, command) => if s.workerStatus == Paused then s else s.(pc := Checked(id, command))
    case Checked(_, command) =>
      s.(pc := if s.workerStatus == Stopped then Raised(id, around.mayReturn) else Sending(id, command))
    case Sending(_, command) => Send(s, id, command, around)
    case Waiting(_) => WaitStep(s, id, c, around)
    case Ending(_) => WriteStatus(s, id, Completed).(pc := Recording(id, Completed, None, false))
    case _ => s
  }

  /** The except clause: whether to return is read first; then the item is marked and the worker's status reset. */
  function ExceptStep(s: Server, id: nat, c: Choice): Server
    requires id < |s.items|
  {
    match s.pc
    case Raised(_, mayReturn) =>
      s.(pc := if s.items[id].stopped || s.items[id].halted || !mayReturn then Final(id) else Marking(id))
    case Marking(_) => s.(items := s.items[id := s.items[id].(stopped := true)], pc := Resetting(id))
    case Resetting(_) => s.(workerStatus := Running, pc := Cleaning(id, false))
    case Cleaning(_, moved) =>
      if c.Done? then s.(pc := Final(id))
      else if !c.Go? || s.workerStatus == Paused then s
      else s.(pc := CleanCheck(id, moved))
    case CleanCheck(_, moved) =>
      s.(pc := if s.workerStatus == Stopped then Final(id) else if moved then Cleaning(id, true) else Moving(id))
    case Moving(_) => Say(s, ReturnMove(id)).(pc := Cleaning(id, true))
    case _ => s
  }

  function RecordStep(s: Server, id: nat, terminal: ItemStatus): Server
    requires id < |s.items|
  {
    Say(s, Recorded(id, s.items[id].status, terminal)).(pc := if terminal == Stopped then Unstaging(id) else Top)
  }

  /** `cleanup`: without staged devices it unstages all enabled ones. */
  function UnstageStep(s: Server, around: Surroundings): Server {
    Say(s, Unstaged(if s.staged == {} then around.enabled else s.staged)).(staged := {}, pc := Top)
  }

  /** The item's last status is written to the item and to the worker, then the item goes to the history. */
  function EndStep(s: Server, id: nat, around: Surroundings): Server
    requires id < |s.items|
  {
    match s.pc
    case Final(_) => WriteStatus(s, id, Stopped).(pc := Recording(id, Stopped, None, false))
    case Recording(_, terminal, _, told) =>
      if told then RecordStep(s, id, terminal) else s.(workerStatus := terminal, pc := s.pc.(told := true))
    case Unstaging(_) => UnstageStep(s, around)
    case _ => s
  }

  function ItemStep(s: Server, id: nat, c: Choice, around: Surroundings): Server
    requires id < |s.items|
  {
    if s.pc.InTry() then TryStep(s, id, c, around)
    else if s.pc.Final? || s.pc.Recording? || s.pc.Unstaging? then EndStep(s, id, around)
    else ExceptStep(s, id, c)
  }

  function Apply(s: Server, e: Event): Server {
    match e
    case Insert => InsertItem(s)
    case Intervene => Interception(s)
    case Work(c, around) =>
      if s.pc.Searching() then NextItem(s)
      else if s.pc.id < |s.items| then ItemStep(s, s.pc.id, c, around)
      else s
    case _ => Begin(s, e)
  }

  function After(es: seq<Event>): Server {
    if es == [] then FRESH else Apply(After(es[..|es| - 1]), es[|es| - 1])
  }

  // ----- Items leave the queue in order -----

  ghost predicate Increasing(s: seq<nat>) {
    forall i, j :: 0 <= i < j < |s| ==> s[i] < s[j]
  }

  /** The oldest item still in the queue. */
  function Front(s: Server): int {
    |s.items| - |s.queue|
  }

  /** The head of the queue has already been handed to the worker. */
  predicate HeadTaken(s: Server) {
    s.active.Some? && s.queue != [] && s.queue[0] == s.active.value
  }

  /** The head of the queue is about to be dropped without having been handed out. */
  predicate Doomed(s: Server) {
    s.active.Some? && s.queue != [] && s.queue[0] != s.active.value && (s.pc.Missed? || s.pc.Top?)
  }

  ghost predicate QueueInv(s: Server) {
    && |s.queue| <= |s.items|
    && (forall k :: 0 <= k < |s.queue| ==> s.queue[k] == Front(s) + k)
    && (s.active.Some? ==> s.handed != [] && s.handed[|s.handed| - 1] == s.active.value)
    && (s.active.Some? && !HeadTaken(s) ==> s.active.value < Front(s))
    && (s.pc.Working().Some? ==> HeadTaken(s) && s.pc.id == s.active.value)
    && (s.pc.Working().None? && !s.pc.Top? ==> !HeadTaken(s))
    && (s.hand.HaltAt? || s.hand.Mark? ==> s.hand.id < |s.items|)
  }

  /** Taken and lost items are in insertion order, and every item that left the queue is exactly one of the two. */
  ghost predicate OrderInv(s: Server) {
    && Increasing(s.handed) && Increasing(s.lost)
    && (forall id: nat :: id in s.handed <==> (id < Front(s) && id !in s.lost) || (HeadTaken(s) && id == s.queue[0]))
    && (forall id: nat :: id in s.lost ==> id < Front(s))
    && s.history == Latest(s.handed)
    && |s.lost| + (if Doomed(s) then 1 else 0) == s.misses
  }

  /** What the items' own steps leave alone. */
  ghost predicate SameQueue(s: Server, t: Server) {
    && |t.items| == |s.items| && t.queue == s.queue && t.active == s.active && t.history == s.history
    && t.handed == s.handed && t.lost == s.lost && t.misses == s.misses
  }

  ghost predicate Framed(s: Server, t: Server, id: nat) {
    SameQueue(s, t) && t.hand == s.hand && (t.pc.Top? || t.pc.Working() == Some(id))
  }

  lemma CommandFrame(s: Server, id: nat, c: Choice, around: Surroundings)
    requires s.pc.Working() == Some(id) && id < |s.items|
    ensures Framed(s, FetchStep(s, id, c, around), id)
    ensures Framed(s, WaitStep(s, id, c, around), id)
    ensures s.pc.Sending? ==> Framed(s, Send(s, id, s.pc.command, around), id)
  {
  }

  lemma TryFrame(s: Server, id: nat, c: Choice, around: Surroundings)
    requires s.pc.Working() == Some(id) && id < |s.items|
    ensures Framed(s, TryStep(s, id, c, around), id)
  {
    hide FetchStep, WaitStep, Send;
    CommandFrame(s, id, c, around);
  }

  lemma ExceptFrame(s: Server, id: nat, c: Choice, around: Surroundings)
    requires s.pc.Working() == Some(id) && id < |s.items|
    ensures Framed(s, ExceptStep(s, id, c), id)
    ensures Framed(s, EndStep(s, id, around), id)
  {
  }

  lemma ItemStepFrame(s: Server, id: nat, c: Choice, around: Surroundings)
    requires s.pc.Working() == Some(id) && id < |s.items|
    ensures Framed(s, ItemStep(s, id, c, around), id)
  {
    hide TryStep, ExceptStep, EndStep;
    TryFrame(s, id, c, around);
    ExceptFrame(s, id, c, around);
  }

  ghost predicate SamePlace(s: Server, t: Server) {
    t.pc == s.pc || (s.pc.Recording? && t.pc.Recording? && t.pc == s.pc.(mark := t.pc.mark))
  }

  lemma MarkItemFrame(s: Server, id: nat, status: ItemStatus)
    ensures SameQueue(s, MarkItem(s, id, status)) && SamePlace(s, MarkItem(s, id, status))
    ensures SameQueue(s, HaltItem(s, id)) && SamePlace(s, HaltItem(s, id))
  {
  }

  lemma InterceptFrame(s: Server, e: Event)
    requires QueueInv(s) && !e.Work? && !e.Insert?
    ensures var t := Apply(s, e);
      SameQueue(s, t) && SamePlace(s, t) && (t.hand.HaltAt? || t.hand.Mark? ==> t.hand.id < |t.items|)
  {
    hide MarkItem, HaltItem;
    if e.Intervene? && (s.hand.Mark? || s.hand.HaltAt?) {
      MarkItemFrame(s, s.hand.id, if s.hand.Mark? then s.hand.status else Stopped);
    }
  }

  lemma FrameKeepsOrder(s: Server, t: Server)
    requires QueueInv(s) && OrderInv(s) && SameQueue(s, t)
    requires SamePlace(s, t) || (s.pc.Working().Some? && (t.pc.Top? || t.pc.Working() == s.pc.Working()))
    requires t.hand == s.hand || (t.hand.HaltAt? || t.hand.Mark? ==> t.hand.id < |t.items|)
    ensures QueueInv(t) && OrderInv(t)
  {
  }

  lemma InsertKeepsOrder(s: Server)
    requires QueueInv(s) && OrderInv(s)
    ensures QueueInv(InsertItem(s)) && OrderInv(InsertItem(s))
  {
  }

  lemma IncreasingAppend(s: seq<nat>, x: nat)
    requires Increasing(s) && forall y :: y in s ==> y < x
    ensures Increasing(s + [x])
  {
    assert forall i :: 0 <= i < |s| ==> s[i] in s;
  }

  lemma TakingKeepsOrder(s: Server)
    requires QueueInv(s) && OrderInv(s) && (s.pc.Ready? || s.pc.ReadHead?) && s.queue != []
    ensures QueueInv(TakeHead(s)) && OrderInv(TakeHead(s))
  {
    var t := TakeHead(s);
    var head := s.queue[0];
    assert forall id: nat :: id in t.handed <==> id in s.handed || id == head;
    LatestAppend(s.handed, head);
    IncreasingAppend(s.handed, head);
  }

  lemma LatestAppend(s: seq<nat>, x: nat)
    ensures Latest(Latest(s) + [x]) == Latest(s + [x])
  {
  }

  lemma PoppingKeepsOrder(s: Server)
    requires QueueInv(s) && OrderInv(s) && s.pc.Top?
    ensures QueueInv(PopFinished(s)) && OrderInv(PopFinished(s))
  {
    var t := PopFinished(s);
    if s.active.Some? && s.queue != [] && s.queue[0] != s.active.value {
      assert forall id: nat :: id in t.lost <==> id in s.lost || id == s.queue[0];
      IncreasingAppend(s.lost, s.queue[0]);
    }
  }

  lemma SearchKeepsOrder(s: Server, t: Server)
    requires QueueInv(s) && OrderInv(s) && SameQueue(s, t) && t.hand == s.hand
    requires s.pc.Working().None? && t.pc.Working().None?
    requires !s.pc.Top? && (t.pc.Missed? ==> s.queue == []) && (t.pc.Top? ==> s.pc.Missed?)
    requires s.pc.Missed? ==> t.pc.Top?
    ensures QueueInv(t) && OrderInv(t)
  {
  }

  lemma ClearingKeepsOrder(s: Server)
    requires QueueInv(s) && OrderInv(s) && s.pc.Clearing?
    ensures QueueInv(NextItem(s)) && OrderInv(NextItem(s))
  {
  }

  lemma WaitingKeepsOrder(s: Server)
    requires QueueInv(s) && OrderInv(s) && s.pc.Working().None? && !s.pc.Top?
    requires s.queue == [] || (!s.pc.Ready? && !s.pc.ReadHead?)
    ensures QueueInv(NextItem(s)) && OrderInv(NextItem(s))
  {
    hide QueueInv, OrderInv;
    if s.pc.Clearing? {
      ClearingKeepsOrder(s);
    } else {
      SearchKeepsOrder(s, NextItem(s));
    }
  }

  lemma StepKeepsOrder(s: Server, e: Event)
    requires QueueInv(s) && OrderInv(s)
    ensures QueueInv(Apply(s, e)) && OrderInv(Apply(s, e))
  {
    hide QueueInv, OrderInv, ItemStep, PopFinished, TakeHead, InsertItem, Interception, Begin;
    match e
    case Work(c, around) =>
      if s.pc.Searching() {
        if s.pc.Top? {
          PoppingKeepsOrder(s);
        } else if (s.pc.Ready? || s.pc.ReadHead?) && s.queue != [] {
          TakingKeepsOrder(s);
        } else {
          WaitingKeepsOrder(s);
        }
      } else if s.pc.id < |s.items| {
        ItemStepFrame(s, s.pc.id, c, around);
        FrameKeepsOrder(s, Apply(s, e));
      }
    case Insert =>
      InsertKeepsOrder(s);
    case _ =>
      InterceptFrame(s, e);
      FrameKeepsOrder(s, Apply(s, e));
  }

  // ----- Each item is taken once, ends once and returns at most once -----

  function Records(log: seq<Message>, id: nat): nat {
    if log == [] then 0 else
      var m := log[|log| - 1];
      Records(log[..|log| - 1], id) + (if m.Recorded? && m.id == id then 1 else 0)
  }

  function Returns(log: seq<Message>, id: nat): nat {
    if log == [] then 0 else
      Returns(log[..|log| - 1], id) + (if log[|log| - 1] == ReturnMove(id) then 1 else 0)
  }

  lemma CountsAfter(log: seq<Message>, m: Message, id: nat)
    ensures Records(log + [m], id) == Records(log, id) + (if m.Recorded? && m.id == id then 1 else 0)
    ensures Returns(log + [m], id) == Returns(log, id) + (if m == ReturnMove(id) then 1 else 0)
  {
    assert (log + [m])[..|log|] == log;
  }

  /** The worker has `id` in hand and its history entry is still to come. */
  predicate InProgress(s: Server, id: nat) {
    s.pc.Working() == Some(id) && !s.pc.Unstaging?
  }

  ghost predicate CountInv(s: Server, id: nat) {
    && Records(s.log, id) == (if id in s.handed && !InProgress(s, id) then 1 else 0)
    && Returns(s.log, id) <= 1
    && (s.pc.ReturnPending(id) ==> Returns(s.log, id) == 0)
    && (id !in s.handed ==> Returns(s.log, id) == 0)
    && (id < |s.items| ==>
         && (!s.items[id].stopped ==> Returns(s.log, id) == 0)
         && (s.items[id].stopped ==> id in s.handed && !s.pc.BeforeCleanup(id))
         && (s.pc.CleaningUp(id) ==> s.items[id].stopped))
  }

  function OrElse(mark: Option<ItemStatus>, terminal: ItemStatus): ItemStatus {
    if mark.Some? then mark.value else terminal
  }

  ghost predicate RecordInv(s: Server) {
    && (s.pc.Recording? ==>
         && (s.pc.terminal == Completed || s.pc.terminal == Stopped) && s.pc.id < |s.items|
         && s.items[s.pc.id].status == OrElse(s.pc.mark, s.pc.terminal))
    && (forall k :: 0 <= k < |s.log| && s.log[k].Recorded? ==>
         s.log[k].terminal == Completed || s.log[k].terminal == Stopped)
  }

  predicate Holding(s: Server, id: nat) {
    s.pc.Working() == Some(id) && id < |s.items| && id in s.handed
  }

  /** Steps that send no message and leave the cleanup marks alone. */
  lemma SilentCounts(s: Server, t: Server, id: nat, x: nat)
    requires CountInv(s, x) && Holding(s, id) && t.handed == s.handed && t.log == s.log
    requires |t.items| == |s.items| && Holding(t, id) && !s.pc.Unstaging? && !t.pc.Unstaging?
    requires t.pc.BeforeCleanup(id) ==> s.pc.BeforeCleanup(id)
    requires t.pc.CleaningUp(id) ==> s.pc.CleaningUp(id)
    requires t.pc.ReturnPending(id) ==> s.pc.ReturnPending(id) || s.pc.BeforeCleanup(id)
    requires forall k :: 0 <= k < |s.items| ==> t.items[k] == s.items[k].(status := t.items[k].status)
    ensures CountInv(t, x)
  {
    hide Records, Returns;
  }

  lemma TryCounts(s: Server, id: nat, c: Choice, around: Surroundings, x: nat)
    requires CountInv(s, x) && Holding(s, id) && s.pc.InTry() && !s.pc.Sending?
    ensures CountInv(TryStep(s, id, c, around), x)
  {
    hide CountInv;
    SilentCounts(s, TryStep(s, id, c, around), id, x);
  }

  lemma SendCounts(s: Server, id: nat, command: Command, around: Surroundings, x: nat)
    requires CountInv(s, x) && Holding(s, id) && s.pc == Sending(id, command)
    ensures CountInv(Send(s, id, command, around), x)
  {
    hide Records, Returns;
    CountsAfter(s.log, Staged(around.enabled), x);
    CountsAfter(s.log, Unstaged(around.enabled), x);
  }

  lemma ExceptCounts(s: Server, id: nat, c: Choice, x: nat)
    requires CountInv(s, x) && Holding(s, id) && !s.pc.InTry() && !s.pc.Final? && !s.pc.Recording? && !s.pc.Unstaging?
    requires !s.pc.Moving? && !s.pc.Marking?
    ensures CountInv(ExceptStep(s, id, c), x)
  {
    hide CountInv;
    SilentCounts(s, ExceptStep(s, id, c), id, x);
  }

  lemma ReturnCounts(s: Server, id: nat, c: Choice, x: nat)
    requires CountInv(s, x) && Holding(s, id) && (s.pc.Moving? || s.pc.Marking?)
    ensures CountInv(ExceptStep(s, id, c), x)
  {
    hide Records, Returns;
    CountsAfter(s.log, ReturnMove(id), x);
  }

  lemma EndCounts(s: Server, id: nat, around: Surroundings, x: nat)
    requires CountInv(s, x) && Holding(s, id) && (s.pc.Final? || (s.pc.Recording? && !s.pc.told))
    ensures CountInv(EndStep(s, id, around), x)
  {
    hide CountInv;
    SilentCounts(s, EndStep(s, id, around), id, x);
  }

  lemma RecordCounts(s: Server, id: nat, x: nat)
    requires CountInv(s, x) && Holding(s, id) && s.pc.Recording?
    ensures CountInv(RecordStep(s, id, s.pc.terminal), x)
  {
    hide Records, Returns;
    CountsAfter(s.log, Recorded(id, s.items[id].status, s.pc.terminal), x);
  }

  lemma UnstageCounts(s: Server, id: nat, around: Surroundings, x: nat)
    requires CountInv(s, x) && Holding(s, id) && s.pc.Unstaging?
    ensures CountInv(UnstageStep(s, around), x)
  {
    hide Records, Returns;
    CountsAfter(s.log, Unstaged(if s.staged == {} then around.enabled else s.staged), x);
  }

  lemma ItemStepCounts(s: Server, id: nat, c: Choice, around: Surroundings, x: nat)
    requires CountInv(s, x) && Holding(s, id)
    ensures CountInv(ItemStep(s, id, c, around), x)
  {
    hide CountInv, Send, WriteStatus, RecordStep, UnstageStep, FetchStep, WaitStep;
    if s.pc.InTry() {
      if s.pc.Sending? { SendCounts(s, id, s.pc.command, around, x); } else { TryCounts(s, id, c, around, x); }
    } else if s.pc.Final? || (s.pc.Recording? && !s.pc.told) {
      EndCounts(s, id, around, x);
    } else if s.pc.Recording? {
      RecordCounts(s, id, x);
    } else if s.pc.Unstaging? {
      UnstageCounts(s, id, around, x);
    } else if s.pc.Moving? || s.pc.Marking? {
      ReturnCounts(s, id, c, x);
    } else {
      ExceptCounts(s, id, c, x);
    }
  }

  lemma TakeCounts(s: Server, x: nat)
    requires QueueInv(s) && OrderInv(s) && CountInv(s, x) && (s.pc.Ready? || s.pc.ReadHead?) && s.queue != []
    ensures CountInv(TakeHead(s), x)
  {
    hide Records, Returns;
    assert s.queue[0] !in s.handed;
    assert forall id: nat :: id in TakeHead(s).handed <==> id in s.handed || id == s.queue[0];
  }

  lemma NextItemCounts(s: Server, x: nat)
    requires CountInv(s, x) && s.pc.Working().None? && (s.queue == [] || (!s.pc.Ready? && !s.pc.ReadHead?))
    ensures CountInv(NextItem(s), x)
  {
    hide Records, Returns;
  }

  lemma InsertCounts(s: Server, x: nat)
    requires QueueInv(s) && OrderInv(s) && CountInv(s, x)
    ensures CountInv(InsertItem(s), x)
  {
    hide Records, Returns;
  }

  /** Interceptions change nothing of an item but its status and its halt mark. */
  ghost predicate SameMarks(s: Server, t: Server, x: nat) {
    && t.log == s.log && t.handed == s.handed && SamePlace(s, t) && |t.items| == |s.items|
    && (x < |s.items| ==>
         && t.items[x] == s.items[x].(status := t.items[x].status, halted := t.items[x].halted)
         && (s.items[x].halted ==> t.items[x].halted))
  }

  lemma MarkItemMarks(s: Server, id: nat, status: ItemStatus, x: nat)
    ensures SameMarks(s, MarkItem(s, id, status), x) && MarkItem(s, id, status).hand == s.hand
    ensures SameMarks(s, HaltItem(s, id), x) && HaltItem(s, id).hand == s.hand
  {
  }

  lemma InterceptMarks(s: Server, e: Event, x: nat)
    requires !e.Work? && !e.Insert?
    ensures SameMarks(s, Apply(s, e), x)
  {
    hide MarkItem, HaltItem;
    if e.Intervene? && (s.hand.Mark? || s.hand.HaltAt?) {
      MarkItemMarks(s, s.hand.id, if s.hand.Mark? then s.hand.status else Stopped, x);
    }
  }

  lemma InterceptCounts(s: Server, e: Event, x: nat)
    requires CountInv(s, x) && !e.Work? && !e.Insert?
    ensures CountInv(Apply(s, e), x)
  {
    hide Records, Returns, Apply;
    InterceptMarks(s, e, x);
  }

  lemma StepCounts(s: Server, e: Event, x: nat)
    requires QueueInv(s) && OrderInv(s) && CountInv(s, x)
    ensures CountInv(Apply(s, e), x)
  {
    if e.Insert? {
      InsertCounts(s, x);
    } else if !e.Work? {
      InterceptCounts(s, e, x);
    } else if s.pc.Working().Some? {
      assert Holding(s, s.pc.id);
      ItemStepCounts(s, s.pc.id, e.choice, e.around, x);
    } else {
      hide OrderInv, QueueInv, CountInv, TakeHead;
      if s.queue == [] || (!s.pc.Ready? && !s.pc.ReadHead?) {
        NextItemCounts(s, x);
      } else {
        TakeCounts(s, x);
      }
    }
  }

  lemma TryRecords(s: Server, id: nat, c: Choice, around: Surroundings)
    requires RecordInv(s) && id < |s.items| && s.pc.Working() == Some(id) && s.pc.InTry()
    ensures RecordInv(TryStep(s, id, c, around))
  {
  }

  lemma ItemStepRecords(s: Server, id: nat, c: Choice, around: Surroundings)
    requires RecordInv(s) && id < |s.items| && s.pc.Working() == Some(id)
    ensures RecordInv(ItemStep(s, id, c, around))
  {
    hide TryStep;
    if s.pc.InTry() { TryRecords(s, id, c, around); }
  }

  lemma InterceptRecords(s: Server, e: Event)
    requires QueueInv(s) && RecordInv(s) && !e.Work?
    ensures RecordInv(Apply(s, e))
  {
  }

  lemma StepRecords(s: Server, e: Event)
    requires QueueInv(s) && RecordInv(s)
    ensures RecordInv(Apply(s, e))
  {
    hide RecordInv, ItemStep;
    if !e.Work? {
      InterceptRecords(s, e);
    } else if s.pc.Working().Some? {
      if s.pc.id < |s.items| { ItemStepRecords(s, s.pc.id, e.choice, e.around); }
    } else {
      SearchRecords(s);
    }
  }

  lemma SearchRecords(s: Server)
    requires RecordInv(s) && s.pc.Working().None?
    ensures RecordInv(NextItem(s))
  {
  }

  // ----- Nothing stays staged -----

  /** The devices whose last stage message has not been followed by an unstage. */
  function Outstanding(log: seq<Message>): set<Device> {
    if log == [] then {} else Staging(Outstanding(log[..|log| - 1]), log[|log| - 1])
  }

  function Staging(before: set<Device>, m: Message): set<Device> {
    match m
    case Staged(devices) => before + devices
    case Unstaged(devices) => before - devices
    case _ => before
  }

  ghost predicate StagesAt(log: seq<Message>, k: nat, d: Device) {
    k < |log| && log[k].Staged? && d in log[k].devices
  }

  ghost predicate UnstagesAt(log: seq<Message>, k: nat, d: Device) {
    k < |log| && log[k].Unstaged? && d in log[k].devices
  }

  lemma {:induction false} OutstandingMeans(log: seq<Message>, d: Device, k: nat)
    requires d !in Outstanding(log) && StagesAt(log, k, d)
    ensures exists n: nat :: n > k && UnstagesAt(log, n, d)
  {
    var last := |log| - 1;
    if UnstagesAt(log, last, d) {
      assert last > k;
    } else {
      assert k < last;
      OutstandingMeans(log[..last], d, k);
      var n: nat :| n > k && UnstagesAt(log[..last], n, d);
      assert UnstagesAt(log, n, d);
    }
  }

  lemma SayStaging(log: seq<Message>, m: Message)
    ensures Outstanding(log + [m]) == Staging(Outstanding(log), m)
  {
    assert (log + [m])[..|log|] == log;
  }

  lemma EndStaging(s: Server, id: nat, around: Surroundings)
    requires s.staged == Outstanding(s.log) && id < |s.items| && s.pc.Working() == Some(id)
    ensures EndStep(s, id, around).staged == Outstanding(EndStep(s, id, around).log)
  {
    hide Outstanding;
    if s.pc.Recording? { SayStaging(s.log, Recorded(id, s.items[id].status, s.pc.terminal)); }
    SayStaging(s.log, Unstaged(if s.staged == {} then around.enabled else s.staged));
  }

  lemma ItemStepStaging(s: Server, id: nat, c: Choice, around: Surroundings)
    requires s.staged == Outstanding(s.log) && id < |s.items| && s.pc.Working() == Some(id)
    ensures ItemStep(s, id, c, around).staged == Outstanding(ItemStep(s, id, c, around).log)
  {
    hide Outstanding, EndStep;
    EndStaging(s, id, around);
    SayStaging(s.log, Staged(around.enabled));
    SayStaging(s.log, Unstaged(around.enabled));
    SayStaging(s.log, ReturnMove(id));
  }

  lemma StepStaging(s: Server, e: Event)
    requires s.staged == Outstanding(s.log)
    ensures Apply(s, e).staged == Outstanding(Apply(s, e).log)
  {
    hide ItemStep, Outstanding;
    if e.Work? && s.pc.Working().Some? && s.pc.id < |s.items| {
      ItemStepStaging(s, s.pc.id, e.choice, e.around);
    }
  }

  // ----- Every reachable state -----

  ghost predicate ServerInv(s: Server) {
    QueueInv(s) && OrderInv(s) && RecordInv(s) && s.staged == Outstanding(s.log) && forall x: nat :: CountInv(s, x)
  }

  lemma {:induction false} Reachable(es: seq<Event>)
    ensures ServerInv(After(es))
  {
    if es == [] {
    } else {
      hide Apply, QueueInv, OrderInv, RecordInv, CountInv, Outstanding;
      var before := es[..|es| - 1];
      var s, e := After(before), es[|es| - 1];
      Reachable(before);
      StepKeepsOrder(s, e);
      StepRecords(s, e);
      StepStaging(s, e);
      forall x: nat ensures CountInv(Apply(s, e), x) {
        StepCounts(s, e, x);
      }
    }
  }

  // ----- Main results: the queue -----

  /** How many inserts of a run land in the unsafe window. */
  function UnsafeInserts(es: seq<Event>): nat {
    if es == [] then 0 else
      var before := es[..|es| - 1];
      UnsafeInserts(before) + (if es[|es| - 1].Insert? && InWindow(After(before)) then 1 else 0)
  }

  lemma {:induction false} MissesAreUnsafeInserts(es: seq<Event>)
    ensures After(es).misses == UnsafeInserts(es)
  {
    if es != [] {
      var before := es[..|es| - 1];
      MissesAreUnsafeInserts(before);
      hide Apply, InWindow;
      MissesChange(After(before), es[|es| - 1]);
    }
  }

  lemma MissesChange(s: Server, e: Event)
    ensures Apply(s, e).misses == s.misses + (if e.Insert? && InWindow(s) then 1 else 0)
  {
    hide ItemStep;
    if e.Work? && s.pc.Working().Some? && s.pc.id < |s.items| {
      ItemStepFrame(s, s.pc.id, e.choice, e.around);
    }
  }

  /** The items the worker has not been given yet. */
  function NotTaken(s: Server): seq<nat> {
    if HeadTaken(s) then s.queue[1..] else s.queue
  }

  function All(n: nat): seq<nat> {
    seq(n, k => k)
  }

  /**
    In every run each inserted item is exactly one of taken, lost or waiting, both in insertion order, and as many
    items are lost (or about to be) as inserts landed in the unsafe window.
   */
  lemma NoItemTwice(es: seq<Event>, id: nat)
    ensures var s := After(es);
      && Increasing(s.handed) && Increasing(s.lost)
      && (id < |s.items| <==> id in s.handed || id in s.lost || id in NotTaken(s))
      && !(id in s.handed && id in s.lost)
      && !(id in s.handed && id in NotTaken(s)) && !(id in s.lost && id in NotTaken(s))
      && |s.lost| + (if Doomed(s) then 1 else 0) == UnsafeInserts(es)
      && s.history == Latest(s.handed)
  {
    Reachable(es);
    MissesAreUnsafeInserts(es);
    var s := After(es);
    hide After, UnsafeInserts, CountInv, RecordInv, Outstanding;
    if Front(s) <= id < |s.items| {
      assert s.queue[id - Front(s)] == id;
    }
  }

  lemma {:induction false} IncreasingRange(s: seq<nat>, m: nat)
    requires Increasing(s) && forall x: nat :: x in s <==> x < m
    ensures s == All(m)
  {
    FirstIn(s);
    if m > 0 {
      assert (m - 1) as nat in s;
      var last := |s| - 1;
      var t := s[..last];
      assert s == t + [s[last]];
      assert s[last] == m - 1 by {
        var k :| 0 <= k < |s| && s[k] == m - 1;
        assert s[last] in s;
      }
      assert forall i :: 0 <= i < last ==> t[i] < s[last];
      assert forall x: nat :: x in s <==> x in t || x == m - 1;
      IncreasingRange(t, m - 1);
    }
  }

  lemma FirstIn(s: seq<nat>)
    ensures s != [] ==> s[0] in s
  {
  }

  lemma NothingLost(s: Server)
    requires QueueInv(s) && OrderInv(s) && s.lost == []
    ensures s.handed + NotTaken(s) == All(|s.items|)
  {
    var m := if HeadTaken(s) then Front(s) + 1 else Front(s);
    IncreasingRange(s.handed, m);
    assert |NotTaken(s)| == |s.items| - m;
  }

  lemma SomethingLost(s: Server)
    requires QueueInv(s) && OrderInv(s) && s.lost != []
    ensures s.handed + NotTaken(s) != All(|s.items|)
  {
    var x := s.lost[0];
    assert x in s.lost && x < Front(s);
    assert x !in s.handed && x !in NotTaken(s);
    assert All(|s.items|)[x] == x;
    assert forall y :: y in s.handed + NotTaken(s) <==> y in s.handed || y in NotTaken(s);
  }

  /** The queue hands out every item once and in insertion order exactly when no insert lands in the unsafe window. */
  lemma FifoIff(es: seq<Event>)
    ensures var s := After(es);
      && (UnsafeInserts(es) == 0 <==> s.lost == [] && !Doomed(s))
      && (UnsafeInserts(es) == 0 ==> s.handed + NotTaken(s) == All(|s.items|))
      && (s.lost != [] ==> s.handed + NotTaken(s) != All(|s.items|))
  {
    Reachable(es);
    NoItemTwice(es, 0);
    hide After, UnsafeInserts, CountInv, RecordInv, Outstanding, QueueInv, OrderInv, NotTaken, All, Doomed;
    var s := After(es);
    if s.lost == [] { NothingLost(s); } else { SomethingLost(s); }
  }

  /** The item inserted into the unsafe window is dropped when the loop comes round, without having been taken. */
  lemma UnsafeInsertIsLost(s: Server, around: Surroundings)
    requires QueueInv(s) && OrderInv(s) && InWindow(s) && s.pc.Missed?
    ensures var t := Apply(Apply(Apply(s, Insert), Work(Go, around)), Work(Go, around));
      t.lost == s.lost + [|s.items|] && t.queue == [] && |s.items| !in t.handed
  {
    hide ItemStep;
    assert |s.items| !in s.handed;
  }

  lemma AfterStep(es: seq<Event>, e: Event)
    ensures After(es + [e]) == Apply(After(es), e)
  {
    assert (es + [e])[..|es|] == es;
  }

  const GO := Work(Go, Surroundings(false, {}))
  const END := Work(End, Surroundings(false, {}))

  lemma AfterSteps(es: seq<Event>, e: Event, f: Event, g: Event)
    ensures After(es + [e, f, g]) == Apply(Apply(Apply(After(es), e), f), g)
  {
    hide Apply, After;
    AfterStep(es, e);
    AfterStep(es + [e], f);
    AfterStep(es + [e, f], g);
    assert es + [e] + [f] == es + [e, f] && es + [e, f] + [g] == es + [e, f, g];
  }

  /** An item has been taken by a worker that has nothing else to do. */
  lemma ItemTaken() returns (es: seq<Event>)
    ensures var s := After(es);
      && s.queue == [0] && s.active == Some(0) && s.pc == Fetch(0) && s.running
      && |s.items| == 1 && s.items[0] == Item(Pending, false, false) && s.hand.Resting? && s.log == []
  {
    hide After;
    AfterSteps([], Insert, GO, GO);
    FreshAfter();
    es := [] + [Insert, GO, GO];
    AfterStep(es, GO);
    es := es + [GO];
  }

  /** The four accesses by which `worker_status` is set when the queue is not empty. */
  const LANDING := [Intervene, Intervene, Intervene, Intervene]

  lemma MarkItemHand(s: Server, h: Hand, id: nat, status: ItemStatus)
    ensures MarkItem(s.(hand := h), id, status) == MarkItem(s, id, status).(hand := h)
  {
  }

  lemma StatusLands(es: seq<Event>)
    requires var s := After(es); s.hand.LookLen? && s.queue != [] && s.queue[0] < |s.items|
    ensures var s := After(es);
      After(es + LANDING) == MarkItem(s, s.queue[0], s.hand.status).(workerStatus := s.hand.status, hand := Resting)
  {
    hide After, MarkItem;
    var s := After(es);
    MarkItemHand(s, Mark(s.queue[0], s.hand.status), s.queue[0], s.hand.status);
    AfterStep(es, Intervene);
    AfterStep(es + [Intervene], Intervene);
    AfterStep(es + [Intervene] + [Intervene], Intervene);
    AfterStep(es + [Intervene] + [Intervene] + [Intervene], Intervene);
    assert es + [Intervene] + [Intervene] + [Intervene] + [Intervene] == es + LANDING;
  }

  /** Its final status has been written, and told to the worker. */
  lemma ItemEnded() returns (es: seq<Event>)
    ensures var s := After(es);
      && s.queue == [0] && s.active == Some(0) && s.pc == Recording(0, Completed, None, true)
      && |s.items| == 1 && s.hand.Resting? && s.log == []
  {
    es := ItemTaken();
    hide After;
    AfterSteps(es, END, GO, GO);
    es := es + [END, GO, GO];
  }

  /** A pause lands, and the loop finds the queue empty. */
  lemma QueueEmptied() returns (es: seq<Event>)
    ensures var s := After(es);
      s.queue == [] && s.active == Some(0) && s.pc == PausedPoll && !s.running && s.hand.Resting?
  {
    es := ItemEnded();
    hide After;
    AfterStep(es, GO);
    AfterStep(es + [GO], Pause);
    es := es + [GO] + [Pause];
    StatusLands(es);
    es := es + LANDING;
    AfterStep(es, GO);
    AfterStep(es + [GO], GO);
    es := es + [GO] + [GO];
  }

  lemma WindowIsReached() returns (es: seq<Event>)
    ensures InWindow(After(es)) && After(es).pc.Missed?
  {
    es := QueueEmptied();
    hide After;
    AfterSteps(es, GO, GO, GO);
    es := es + [GO, GO, GO];
    AfterStep(es, GO);
    AfterStep(es + [GO], GO);
    es := es + [GO] + [GO];
  }

  lemma FreshAfter()
    ensures After([]) == FRESH
  {
  }

  /** Losses do occur. */
  lemma ItemsCanBeLost() returns (es: seq<Event>)
    ensures After(es).lost != [] && UnsafeInserts(es) > 0
  {
    var before := WindowIsReached();
    Reachable(before);
    UnsafeInsertIsLost(After(before), Surroundings(false, {}));
    hide After, Apply;
    AfterSteps(before, Insert, GO, GO);
    es := before + [Insert, GO, GO];
    NoItemTwice(es, 0);
  }

  // ----- Main results: the items -----

  /**
    In every run, an item the worker has taken and let go has exactly one history entry, made after its worker wrote
    COMPLETED or STOPPED; it has returned to its start at most once.
   */
  lemma EachItemEndsOnce(es: seq<Event>, id: nat)
    ensures var s := After(es);
      && Records(s.log, id) == (if id in s.handed && !InProgress(s, id) then 1 else 0)
      && Returns(s.log, id) <= 1
      && forall k :: 0 <= k < |s.log| && s.log[k].Recorded? ==>
           s.log[k].terminal == Completed || s.log[k].terminal == Stopped
  {
    Reachable(es);
    assert CountInv(After(es), id);
  }

  // ----- Halts -----

  /** No continuation of the run sends the item back to its start. */
  ghost predicate NeverReturns(es: seq<Event>, id: nat) {
    forall more :: Returns(After(es + more).log, id) == Returns(After(es).log, id)
  }

  ghost predicate Frozen(s: Server, id: nat, n: nat) {
    id < |s.items| && s.items[id].halted && Returns(s.log, id) == n && !s.pc.ReturnPending(id)
  }

  lemma ItemStepReturns(s: Server, x: nat, c: Choice, around: Surroundings, id: nat)
    requires s.pc.Working() == Some(x) && x < |s.items|
    ensures Returns(ItemStep(s, x, c, around).log, id) == Returns(s.log, id) + (if s.pc == Moving(id) then 1 else 0)
  {
    hide Returns, Records;
    CountsAfter(s.log, Staged(around.enabled), id);
    CountsAfter(s.log, Unstaged(around.enabled), id);
    CountsAfter(s.log, Unstaged(s.staged), id);
    CountsAfter(s.log, ReturnMove(x), id);
    if s.pc.Recording? { CountsAfter(s.log, Recorded(x, s.items[x].status, s.pc.terminal), id); }
  }

  /** How a step of the worker on `x` bears on the return of `id`. */
  ghost predicate Bears(s: Server, t: Server, x: nat, id: nat) {
    && |t.items| == |s.items| && t.hand == s.hand && (id < |s.items| ==> t.items[id].halted == s.items[id].halted)
    && (t.pc.CleaningUp(id) ==>
         || s.pc == Marking(id)
         || (s.pc.CleaningUp(id) && (t.workerStatus == s.workerStatus || s.pc == Resetting(id))))
    && (t.pc == Marking(id) ==> s.pc.Raised? && x == id && id < |s.items| && !s.items[id].halted)
    && (t.pc == Moving(id) ==> s.pc == CleanCheck(id, false) && s.workerStatus != Stopped)
    && (t.pc == Resetting(id) ==> s.pc == Marking(id))
    && (t.pc.ReturnPending(id) ==> s.pc.ReturnPending(id) || t.pc == Marking(id))
  }

  lemma CommandBears(s: Server, x: nat, c: Choice, around: Surroundings, id: nat)
    requires s.pc.Working() == Some(x) && x < |s.items|
    ensures s.pc.Fetch? ==> Bears(s, FetchStep(s, x, c, around), x, id)
    ensures s.pc.Waiting? ==> Bears(s, WaitStep(s, x, c, around), x, id)
    ensures s.pc.Sending? ==> Bears(s, Send(s, x, s.pc.command, around), x, id)
  {
  }

  lemma TryBears(s: Server, x: nat, c: Choice, around: Surroundings, id: nat)
    requires s.pc.Working() == Some(x) && x < |s.items| && s.pc.InTry()
    ensures Bears(s, TryStep(s, x, c, around), x, id)
  {
    hide FetchStep, WaitStep, Send;
    CommandBears(s, x, c, around, id);
  }

  lemma ExceptBears(s: Server, x: nat, c: Choice, id: nat)
    requires s.pc.Working() == Some(x) && x < |s.items|
    ensures Bears(s, ExceptStep(s, x, c), x, id)
  {
  }

  lemma EndBears(s: Server, x: nat, around: Surroundings, id: nat)
    requires s.pc.Working() == Some(x) && x < |s.items| && (s.pc.Final? || s.pc.Recording? || s.pc.Unstaging?)
    ensures Bears(s, EndStep(s, x, around), x, id)
  {
  }

  lemma ItemStepBears(s: Server, x: nat, c: Choice, around: Surroundings, id: nat)
    requires s.pc.Working() == Some(x) && x < |s.items|
    ensures Bears(s, ItemStep(s, x, c, around), x, id)
  {
    hide TryStep, ExceptStep, EndStep, Bears;
    if s.pc.InTry() {
      TryBears(s, x, c, around, id);
    } else if s.pc.Final? || s.pc.Recording? || s.pc.Unstaging? {
      EndBears(s, x, around, id);
    } else {
      ExceptBears(s, x, c, id);
    }
  }

  lemma StepFrozen(s: Server, e: Event, id: nat, n: nat)
    requires Frozen(s, id, n)
    ensures Frozen(Apply(s, e), id, n)
  {
    if !e.Work? && !e.Insert? {
      hide Apply, Returns;
      InterceptMarks(s, e, id);
    } else if e.Work? && s.pc.Working().Some? && s.pc.id < |s.items| {
      hide ItemStep, Returns;
      ItemStepReturns(s, s.pc.id, e.choice, e.around, id);
      ItemStepBears(s, s.pc.id, e.choice, e.around, id);
    }
  }

  lemma {:induction false} RunFrozen(es: seq<Event>, more: seq<Event>, id: nat, n: nat)
    requires Frozen(After(es), id, n)
    ensures Frozen(After(es + more), id, n)
  {
    hide Apply, Frozen;
    if more == [] {
      assert es + more == es;
    } else {
      var before, e := more[..|more| - 1], more[|more| - 1];
      RunFrozen(es, before, id, n);
      assert es + more == es + before + [e];
      AfterStep(es + before, e);
      StepFrozen(After(es + before), e, id, n);
    }
  }

  function Rank(pc: Pc): nat {
    if pc.Marking? then 4 else if pc.Resetting? then 3 else if pc.Cleaning? then 2 else if pc.CleanCheck? then 1 else 0
  }

  ghost predicate OnlyWork(more: seq<Event>) {
    forall e :: e in more ==> e == GO
  }

  predicate OnItsWay(s: Server, id: nat) {
    id < |s.items| && s.pc.ReturnPending(id) && (s.pc.Cleaning? || s.pc.CleanCheck? ==> s.workerStatus == Running)
  }

  lemma StaysOnItsWay(s: Server, id: nat)
    requires OnItsWay(s, id) && !s.pc.Moving?
    ensures var t := Apply(s, GO); OnItsWay(t, id) && t.log == s.log && Rank(t.pc) < Rank(s.pc)
  {
  }

  lemma Moves(s: Server, id: nat)
    requires OnItsWay(s, id) && s.pc.Moving?
    ensures Returns(Apply(s, GO).log, id) == Returns(s.log, id) + 1
  {
    CountsAfter(s.log, ReturnMove(id), id);
  }

  /** Left alone, a worker that has decided on the return and is not stopped returns. */
  lemma {:induction false} WorkReturns(es: seq<Event>, id: nat) returns (more: seq<Event>)
    requires OnItsWay(After(es), id)
    ensures OnlyWork(more) && Returns(After(es + more).log, id) == Returns(After(es).log, id) + 1
    decreases Rank(After(es).pc)
  {
    AfterStep(es, GO);
    hide After, Apply, Returns;
    if After(es).pc.Moving? {
      more := [GO];
      Moves(After(es), id);
    } else {
      StaysOnItsWay(After(es), id);
      var rest := WorkReturns(es + [GO], id);
      more := [GO] + rest;
      assert es + [GO] + rest == es + more;
    }
  }

  /** After a halt's stop has landed, the scan can be continued. */
  lemma Resumes(es: seq<Event>) returns (more: seq<Event>)
    requires var s := After(es); s.hand == AbortTest && s.queue != [] && s.queue[0] < |s.items| && !s.pc.Recording?
    ensures var s, t := After(es), After(es + more);
      && t.pc == s.pc && t.log == s.log && |t.items| == |s.items| && t.workerStatus == Running
  {
    hide After;
    AfterStep(es, Intervene);
    AfterStep(es + [Intervene], Intervene);
    var a := es + [Intervene] + [Intervene];
    StatusLands(a);
    var b := a + LANDING;
    AfterStep(b, Continue);
    StatusLands(b + [Continue]);
    more := [Intervene] + [Intervene] + LANDING + [Continue] + LANDING;
    assert es + more == b + [Continue] + LANDING;
  }

  lemma PendingReturns(es: seq<Event>, id: nat) returns (more: seq<Event>)
    requires After(es).hand == HaltAt(id) && After(es).pc.ReturnPending(id)
    ensures Returns(After(es + [Intervene] + more).log, id) == Returns(After(es).log, id) + 1
  {
    Reachable(es);
    AfterStep(es, Intervene);
    hide After, OrderInv, CountInv, RecordInv, Outstanding, Returns;
    var halted := es + [Intervene];
    if After(es).pc.Cleaning? || After(es).pc.CleanCheck? {
      more := Resumes(halted);
      var rest := WorkReturns(halted + more, id);
      assert halted + more + rest == halted + (more + rest);
      more := more + rest;
    } else {
      more := WorkReturns(halted, id);
    }
  }

  /**
    A halt first forbids the return and then stops the worker. Whatever happens afterwards, forbidding it keeps the
    item from returning to its start if and only if the worker has not decided on the return before.
   */
  lemma HaltForbidsReturn(es: seq<Event>, id: nat)
    requires After(es).hand == HaltAt(id)
    ensures NeverReturns(es + [Intervene], id) <==> !After(es).pc.ReturnPending(id)
  {
    Reachable(es);
    AfterStep(es, Intervene);
    hide After, OrderInv, CountInv, RecordInv, Outstanding;
    var halted := es + [Intervene];
    if After(es).pc.ReturnPending(id) {
      var more := PendingReturns(es, id);
      assert Returns(After(halted + more).log, id) != Returns(After(halted).log, id);
    } else {
      hide Interception, QueueInv;
      forall more ensures Returns(After(halted + more).log, id) == Returns(After(halted).log, id) {
        RunFrozen(halted, more, id, Returns(After(halted).log, id));
      }
    }
  }

  /** Nobody pauses or continues the queue. */
  ghost predicate Quiet(more: seq<Event>) {
    forall e :: e in more ==> !e.Pause? && !e.DeferPause? && !e.Continue?
  }

  ghost predicate StaysAway(es: seq<Event>, id: nat) {
    forall more | Quiet(more) :: Returns(After(es + more).log, id) == Returns(After(es).log, id)
  }

  /** The interception under way, if any, stops the worker. */
  predicate Stopping(h: Hand) {
    h.LookLen? || h.LookHead? || h.Mark? || h.Tell? ==> h.status == Stopped
  }

  /** The worker has decided on the return and will not see that it was stopped before it sends the motion. */
  predicate Blind(pc: Pc, x: nat) {
    (pc.Marking? || pc.Resetting? || pc.Moving?) && pc.id == x
  }

  ghost predicate Held(s: Server, id: nat, n: nat) {
    && id < |s.items| && s.items[id].halted && Returns(s.log, id) == n && Stopping(s.hand)
    && !Blind(s.pc, id) && (s.pc.CleaningUp(id) ==> s.workerStatus == Stopped)
  }

  lemma InterceptStops(s: Server, e: Event)
    requires Stopping(s.hand) && !e.Work? && !e.Insert? && !e.Pause? && !e.DeferPause? && !e.Continue?
    ensures Stopping(Apply(s, e).hand)
    ensures Apply(s, e).workerStatus == s.workerStatus || Apply(s, e).workerStatus == Stopped
  {
  }

  lemma StepHeld(s: Server, e: Event, id: nat, n: nat)
    requires Held(s, id, n) && !e.Pause? && !e.DeferPause? && !e.Continue?
    ensures Held(Apply(s, e), id, n)
  {
    if !e.Work? && !e.Insert? {
      hide Apply, Returns, Stopping;
      InterceptMarks(s, e, id);
      InterceptStops(s, e);
    } else if e.Work? && s.pc.Working().Some? && s.pc.id < |s.items| {
      hide ItemStep, Returns;
      ItemStepReturns(s, s.pc.id, e.choice, e.around, id);
      ItemStepBears(s, s.pc.id, e.choice, e.around, id);
    }
  }

  lemma {:induction false} RunHeld(es: seq<Event>, more: seq<Event>, id: nat, n: nat)
    requires Held(After(es), id, n) && Quiet(more)
    ensures Held(After(es + more), id, n)
  {
    hide Apply, Held;
    if more == [] {
      assert es + more == es;
    } else {
      var before, e := more[..|more| - 1], more[|more| - 1];
      RunHeld(es, before, id, n);
      assert es + more == es + before + [e];
      AfterStep(es + before, e);
      StepHeld(After(es + before), e, id, n);
    }
  }

  /**
    A halt is through when its stop reaches the worker. Unless someone pauses or continues the queue, the item then
    stays away from its start if and only if the worker is not between its decision to return and the reset of its
    status, which overwrites the stop, nor about to send the motion.
   */
  lemma HaltHoldsIff(es: seq<Event>, id: nat)
    requires After(es).hand == Tell(Stopped) && id < |After(es).items| && After(es).items[id].halted
    ensures StaysAway(es + [Intervene], id) <==> !Blind(After(es).pc, id)
  {
    AfterStep(es, Intervene);
    hide After;
    var through := es + [Intervene];
    if Blind(After(es).pc, id) {
      var more := WorkReturns(through, id);
      assert Quiet(more) && Returns(After(through + more).log, id) != Returns(After(through).log, id);
    } else {
      forall more | Quiet(more) ensures Returns(After(through + more).log, id) == Returns(After(through).log, id) {
        RunHeld(through, more, id, Returns(After(through).log, id));
      }
    }
  }

  const FAIL := Work(Fail, Surroundings(true, {}))

  /** A scan has failed; the worker has decided to return to the start and not acted on it. */
  lemma ReturnDecided() returns (es: seq<Event>)
    ensures var s := After(es);
      && s.queue == [0] && s.active == Some(0) && s.pc == Marking(0) && |s.items| == 1 && s.hand.Resting?
      && s.log == [] && s.running
  {
    es := ItemTaken();
    hide After;
    AfterStep(es, FAIL);
    AfterStep(es + [FAIL], GO);
    es := es + [FAIL] + [GO];
  }

  /** A halt can be lost: it is through before anything moves, nobody continues, and the item returns to its start. */
  lemma HaltCanBeLost() returns (es: seq<Event>, more: seq<Event>)
    ensures var s := After(es);
      s.items != [] && s.items[0].halted && s.items[0].status == Stopped && s.workerStatus == Stopped && s.log == []
    ensures OnlyWork(more) && Returns(After(es + more).log, 0) == 1
  {
    es := ReturnDecided();
    hide After;
    AfterSteps(es, Halt, Intervene, Intervene);
    es := es + [Halt, Intervene, Intervene];
    AfterStep(es, Intervene);
    es := es + [Intervene];
    StatusLands(es);
    es := es + LANDING;
    more := WorkReturns(es, 0);
  }

  /** After an aborted item nothing is staged: every stage message is followed by an unstage of the same device. */
  lemma AbortUnstagesAll(es: seq<Event>, c: Choice, around: Surroundings, k: nat, d: Device)
    requires After(es).pc.Unstaging?
    ensures var t := Apply(After(es), Work(c, around));
      t.staged == {} && (StagesAt(t.log, k, d) ==> exists n: nat :: n > k && UnstagesAt(t.log, n, d))
  {
    Reachable(es);
    assert QueueInv(After(es)) && After(es).pc.id < |After(es).items|;
    hide After, TryStep, ExceptStep, RecordStep, NextItem, QueueInv, OrderInv, CountInv;
    var t := Apply(After(es), Work(c, around));
    StepStaging(After(es), Work(c, around));
    if StagesAt(t.log, k, d) { OutstandingMeans(t.log, d, k); }
  }

  // ----- What the history records -----

  /** The status an access of an interception writes to the item. */
  function MarkOf(s: Server, e: Event, id: nat): Option<ItemStatus> {
    if e.Intervene? && s.hand.Mark? && s.hand.id == id then Some(s.hand.status) else None
  }

  /** The status interceptions last wrote to an item since the worker wrote its final one. */
  function Overwritten(es: seq<Event>): Option<ItemStatus> {
    if es == [] then None else
      var before := es[..|es| - 1];
      var s := After(before);
      if !s.pc.Recording? then None
      else
        var m := MarkOf(s, es[|es| - 1], s.pc.id);
        if m.Some? then m else Overwritten(before)
  }

  lemma TryMarks(s: Server, id: nat, c: Choice, around: Surroundings)
    requires id < |s.items| && s.pc.InTry() && TryStep(s, id, c, around).pc.Recording?
    ensures TryStep(s, id, c, around).pc.mark == None
  {
  }

  lemma WorkMarks(s: Server, c: Choice, around: Surroundings)
    requires Apply(s, Work(c, around)).pc.Recording?
    ensures Apply(s, Work(c, around)).pc.mark == if s.pc.Recording? then s.pc.mark else None
  {
    hide TryStep;
    if s.pc.InTry() && s.pc.id < |s.items| { TryMarks(s, s.pc.id, c, around); }
  }

  lemma MarkStep(s: Server, e: Event)
    requires QueueInv(s) && RecordInv(s) && Apply(s, e).pc.Recording?
    ensures Apply(s, e).pc.mark ==
      if !s.pc.Recording? then None else if MarkOf(s, e, s.pc.id).Some? then MarkOf(s, e, s.pc.id) else s.pc.mark
  {
    if e.Work? {
      hide Apply;
      WorkMarks(s, e.choice, e.around);
    }
  }

  lemma {:induction false} MarksCollect(es: seq<Event>)
    requires After(es).pc.Recording?
    ensures After(es).pc.mark == Overwritten(es)
  {
    if es != [] {
      var before := es[..|es| - 1];
      Reachable(before);
      hide OrderInv, RecordInv, CountInv, QueueInv, Outstanding, Apply, MarkOf;
      MarkStep(After(before), es[|es| - 1]);
      if After(before).pc.Recording? { MarksCollect(before); }
    }
  }

  /**
    The history entry of an item records what the last interception wrote to it after the worker wrote its final
    status, if there was one; so it records the true end exactly when there was none or it wrote that very status.
   */
  lemma HistoryRecords(es: seq<Event>, c: Choice, around: Surroundings)
    requires After(es).pc.Recording? && After(es).pc.told
    ensures var s, t := After(es), Apply(After(es), Work(c, around));
      && t.log == s.log + [Recorded(s.pc.id, OrElse(Overwritten(es), s.pc.terminal), s.pc.terminal)]
      && (t.log[|s.log|].status == s.pc.terminal <==>
           Overwritten(es) == None || Overwritten(es) == Some(s.pc.terminal))
  {
    MarksCollect(es);
    Reachable(es);
  }

  /** A pause that lands just behind the end of a scan has it recorded as paused. */
  lemma CompletedRecordedAsPaused() returns (es: seq<Event>)
    ensures After(es).log == [Recorded(0, Paused, Completed)]
  {
    es := ItemEnded();
    hide After;
    AfterStep(es, Pause);
    es := es + [Pause];
    StatusLands(es);
    es := es + LANDING;
    AfterStep(es, GO);
    es := es + [GO];
  }
}

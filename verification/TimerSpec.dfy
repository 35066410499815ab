/** The software-timer daemon of `timers.c` as functions on its state.

    Everything the code decides it decides on 32-bit ticks.  Beside them the
    state carries absolute times, which no decision reads: `due` of an armed timer
    (the start command's time plus the period, then one period more per reload),
    `issued` of a start command, and `clock`, the absolute time behind
    `xLastTime`. */
module TimerSpec {
  import opened Ticks
  import opened ListSpec

  type TimerId = nat

  /** The parts of `Timer_t` the daemon reads; `active` is `tmrSTATUS_IS_ACTIVE`. */
  datatype Timer = Timer(period: Tick, autoReload: bool, active: bool)

  /** The owner of a timer list item. */
  datatype Armed = Armed(timer: TimerId, due: int)

  type TimerList = seq<Item<Armed>>

  /** `DaemonTaskMessage_t`.  `Start` stands for START, RESET, their FROM_ISR forms
      and START_DONT_TRACE, which the daemon treats alike. */
  datatype Command =
    | Start(timer: TimerId, value: Tick, issued: int)
    | Stop(timer: TimerId)
    | ChangePeriod(timer: TimerId, value: Tick)
    | Delete(timer: TimerId)

  /** One run of a timer's callback. */
  datatype Call = Call(timer: TimerId, due: int)

  /** `trapped`: a `configASSERT` failed, so the daemon stands still for good. */
  datatype State = State(
    timers: map<TimerId, Timer>,
    current: TimerList,
    overflow: TimerList,
    queue: seq<Command>,
    lastTime: Tick,
    clock: int,
    log: seq<Call>,
    trapped: bool)

  /** `configTIMER_QUEUE_LENGTH` */
  const QUEUE_LENGTH: nat := 7

  /** The commands that user code posts from within the n-th callback. */
  type Posts = nat -> seq<Command>

  function Lookup(timers: map<TimerId, Timer>, t: TimerId): Timer {
    if t in timers then timers[t] else Timer(1, false, false)
  }

  function TimerOf(s: State, t: TimerId): Timer {
    Lookup(s.timers, t)
  }

  function SetActive(s: State, t: TimerId, active: bool): State {
    s.(timers := s.timers[t := TimerOf(s, t).(active := active)])
  }

  // ---------------------------------------------------------------- the queue

  /** Sends with a block time of zero: a full queue drops the command. */
  function Accept(s: State, cs: seq<Command>): (r: State)
    ensures r == s.(queue := r.queue)
    decreases |cs|
  {
    if cs == [] then s
    else Accept(if |s.queue| < QUEUE_LENGTH then s.(queue := s.queue + [cs[0]]) else s, cs[1..])
  }

  function RunCallback(s: State, t: TimerId, due: int, user: Posts): (r: State)
    ensures r == s.(queue := r.queue, log := s.log + [Call(t, due)])
  {
    Accept(s.(log := s.log + [Call(t, due)]), user(|s.log|))
  }

  /** The daemon's own `xTimerGenericCommand( START_DONT_TRACE )`, whose success is
      asserted. */
  function PostStart(s: State, t: TimerId, value: Tick, issued: int): (r: State)
    ensures r == s.(queue := r.queue, trapped := r.trapped)
  {
    if |s.queue| < QUEUE_LENGTH then s.(queue := s.queue + [Start(t, value, issued)]) else s.(trapped := true)
  }

  // ------------------------------------------------ prvInsertTimerInActiveList

  datatype Placement = ProcessNow | IntoOverflow | IntoCurrent

  function Place(expiry: Tick, now: Tick, command: Tick, period: Tick): Placement {
    if expiry <= now then
      if Sub(now, command) >= period then ProcessNow else IntoOverflow
    else
      if now < command && expiry >= command then ProcessNow else IntoCurrent
  }

  function Put(s: State, p: Placement, t: TimerId, expiry: Tick, due: int): State {
    match p
    case ProcessNow => s
    case IntoOverflow => s.(overflow := Insert(s.overflow, Item(expiry, Armed(t, due))))
    case IntoCurrent => s.(current := Insert(s.current, Item(expiry, Armed(t, due))))
  }

  // -------------------------------------------------------- prvSwitchTimerLists

  /** How many ticks of the epoch the list's timers have left, in all. */
  function Remaining(l: TimerList): nat {
    if l == [] then 0 else WRAP - l[0].value + Remaining(l[1..])
  }

  lemma {:induction false} RemainingInsert(l: TimerList, x: Item<Armed>)
    ensures Remaining(Insert(l, x)) == Remaining(l) + WRAP - x.value
  {
    if l != [] && l[0].value <= x.value {
      RemainingInsert(l[1..], x);
      assert Insert(l, x)[1..] == Insert(l[1..], x);
    } else {
      assert Insert(l, x)[1..] == l;
    }
  }

  /** One turn of the drain loop. */
  function DrainHead(s: State, user: Posts): (r: State)
    requires s.current != []
    ensures r == s.(current := r.current, queue := r.queue, trapped := r.trapped,
                    log := s.log + [Call(s.current[0].owner.timer, s.current[0].owner.due)])
  {
    var e := s.current[0];
    var t := e.owner.timer;
    var s1 := RunCallback(s.(current := s.current[1..]), t, e.owner.due, user);
    if !TimerOf(s, t).autoReload then s1
    else
      var reload := Add(e.value, TimerOf(s, t).period);
      if reload > e.value then
        s1.(current := Insert(s1.current, Item(reload, Armed(t, e.owner.due + TimerOf(s, t).period))))
      else PostStart(s1, t, e.value, e.owner.due)
  }

  /** The drain loop ends although it puts timers back: each turn uses up ticks. */
  lemma DrainProgress(s: State, user: Posts)
    requires s.current != []
    ensures Remaining(DrainHead(s, user).current) < Remaining(s.current)
  {
    var e := s.current[0];
    var t := TimerOf(s, e.owner.timer);
    RemainingInsert(s.current[1..],
                    Item(Add(e.value, t.period), Armed(e.owner.timer, e.owner.due + t.period)));
  }

  function Drain(s: State, user: Posts): (r: State)
    ensures r == s.(current := r.current, queue := r.queue, log := r.log, trapped := r.trapped)
    ensures r.trapped || r.current == []
    decreases Remaining(s.current)
  {
    if s.trapped || s.current == [] then s
    else
      DrainProgress(s, user);
      Drain(DrainHead(s, user), user)
  }

  function SwitchLists(s: State, user: Posts): State {
    var d := Drain(s, user);
    if d.trapped then d else d.(current := d.overflow, overflow := d.current)
  }

  // ------------------------------------------------------------ prvSampleTimeNow

  function Sample(s: State, now: int, user: Posts): (r: State)
    ensures r.timers == s.timers
  {
    var s1 := if Wrapped(now) < s.lastTime then SwitchLists(s, user) else s;
    if s1.trapped then s1 else s1.(lastTime := Wrapped(now), clock := now)
  }

  // ------------------------------------------------------ prvProcessExpiredTimer

  /** Takes the head off the list and puts it back for its next period, asks for that
      by command if the next expiry is past as well, or retires a one-shot timer. */
  function Reload(s: State, next: Tick, now: Tick): State
    requires s.current != []
  {
    var Armed(t, due) := s.current[0].owner;
    var s1 := s.(current := s.current[1..]);
    if !TimerOf(s, t).autoReload then SetActive(s1, t, false)
    else
      var expiry := Add(next, TimerOf(s, t).period);
      var p := Place(expiry, now, next, TimerOf(s, t).period);
      if p == ProcessNow then PostStart(s1, t, next, due)
      else Put(s1, p, t, expiry, due + TimerOf(s, t).period)
  }

  function ExpireHead(s: State, next: Tick, now: Tick, user: Posts): State
    requires s.current != []
  {
    var Armed(t, due) := s.current[0].owner;
    var s1 := Reload(s, next, now);
    if s1.trapped then s1 else RunCallback(s1, t, due, user)
  }

  // -------------------------------------------------- prvProcessReceivedCommands

  /** `uxListRemove` of a timer's own list item. */
  function Without(l: TimerList, t: TimerId): (r: TimerList)
    ensures forall x :: x in r ==> x in l
  {
    if l == [] then [] else if l[0].owner.timer == t then Without(l[1..], t) else [l[0]] + Without(l[1..], t)
  }

  function Remove(s: State, t: TimerId): State {
    s.(current := Without(s.current, t), overflow := Without(s.overflow, t))
  }

  function HandleStart(s: State, t: TimerId, value: Tick, issued: int, user: Posts): State {
    var s1 := SetActive(s, t, true);
    var period := TimerOf(s, t).period;
    var expiry := Add(value, period);
    var p := Place(expiry, s.lastTime, value, period);
    if p == ProcessNow then
      var s2 := RunCallback(s1, t, issued + period, user);
      if TimerOf(s, t).autoReload then PostStart(s2, t, expiry, issued + period) else s2
    else Put(s1, p, t, expiry, issued + period)
  }

  function HandleChangePeriod(s: State, t: TimerId, period: Tick): State {
    var s1 := s.(timers := s.timers[t := TimerOf(s, t).(active := true, period := period)]);
    if period == 0 then s1.(trapped := true)
    else
      var expiry := Add(s.lastTime, period);
      Put(s1, Place(expiry, s.lastTime, s.lastTime, period), t, expiry, s.clock + period)
  }

  /** Receives one command at absolute time `now` and carries it out. */
  function HandleCommand(s: State, now: int, user: Posts): State
    requires s.queue != []
  {
    var c := s.queue[0];
    var s1 := Sample(Remove(s.(queue := s.queue[1..]), c.timer), now, user);
    if s1.trapped then s1
    else match c
      case Start(t, value, issued) => HandleStart(s1, t, value, issued, user)
      case Stop(t) => SetActive(s1, t, false)
      case ChangePeriod(t, period) => HandleChangePeriod(s1, t, period)
      case Delete(t) => SetActive(s1, t, false)
  }

  // -------------------------- prvGetNextExpireTime, prvProcessTimerOrBlockTask

  function NextExpireTime(s: State): Tick {
    if s.current == [] then 0 else s.current[0].value
  }

  /** What one turn of the daemon's loop does before it looks at its queue. */
  datatype Turn = Expired | Switched | Blocks(ticks: Tick, indefinitely: bool)

  function TurnOf(s: State, now: int, user: Posts): Turn {
    if Wrapped(now) < s.lastTime then Switched
    else if s.current != [] && NextExpireTime(s) <= Wrapped(now) then Expired
    else Blocks(Sub(NextExpireTime(s), Wrapped(now)), s.current == [] && s.overflow == [])
  }

  function TakeTurn(s: State, now: int, user: Posts): State {
    var s1 := Sample(s, now, user);
    if TurnOf(s, now, user) == Expired then
      ExpireHead(s1, NextExpireTime(s), Wrapped(now), user)
    else s1
  }

  // ------------------------------------------------------------------------ runs

  /** What can happen next: other tasks and interrupts post commands, the
      application flips a timer's reload mode (`vTimerSetReloadMode`), or the daemon
      takes a step at absolute time `now`. */
  datatype Action =
    | Post(commands: seq<Command>)
    | SetReloadMode(timer: TimerId, autoReload: bool)
    | TurnAt(now: int)
    | ReceiveAt(now: int)

  function Step(s: State, a: Action, user: Posts): State {
    if s.trapped then s
    else match a
      case Post(commands) => Accept(s, commands)
      case SetReloadMode(t, autoReload) => s.(timers := s.timers[t := TimerOf(s, t).(autoReload := autoReload)])
      case TurnAt(now) => TakeTurn(s, now, user)
      case ReceiveAt(now) => if s.queue == [] then s else HandleCommand(s, now, user)
  }

  function Run(s: State, actions: seq<Action>, user: Posts): State
    decreases |actions|
  {
    if actions == [] then s else Run(Step(s, actions[0], user), actions[1..], user)
  }
}

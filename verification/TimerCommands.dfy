/** What each command does that the daemon receives, and that a stopped timer stays silent. */
module TimerCommands {
  import opened Ticks
  import opened ListSpec
  import opened Sequences
  import opened TimerSpec
  import opened TimerInvariant
  import opened TimerSchedule
  import opened TimerLimits
  import opened TimerDormancy
  import opened TimerEffects

  // -------------------------------------------------------- before the command is carried out

  /** The state in which the head command is carried out: it is off the queue, its timer off
      its list, and the time has been sampled. */
  function Beforehand(s: State, now: int, user: Posts): State
    requires s.queue != []
  {
    Sample(Received(s), now, user)
  }

  /** Without an overflow nobody else has been touched; with one the drain has run, which
      does not call the command's timer, and the overflow list is the current one. */
  lemma BeforehandAnswers(s: State, now: int, user: Posts)
    requires Inv(s) && !s.trapped && OkPosts(user) && s.queue != [] && TimelyReceive(s, now)
    requires !Beforehand(s, now, user).trapped
    ensures var b, t := Beforehand(s, now, user), s.queue[0].timer;
            && Inv(b) && b.clock == now && b.timers == s.timers
            && Armings(b, t) == multiset{} && CallsOf(b.log, t) == CallsOf(s.log, t)
            && (Wrapped(now) >= s.lastTime ==>
                  && b.log == s.log && b.queue == s.queue[1..]
                  && forall u :: u != t ==> Armings(b, u) == Armings(s, u))
            && (Wrapped(now) < s.lastTime ==>
                  && b.overflow == []
                  && forall u :: u != t ==> Dues(b.current, u) == Dues(s.overflow, u))
  {
    var t, s0 := s.queue[0].timer, Received(s);
    ReceivedInv(s);
    ReceivedArmings(s);
    SampleInv(s0, now, user);
    SampleCallsTheArmed(s0, now, user, t);
    if Wrapped(now) < s.lastTime {
      SwitchAnswers(s0, now, user);
    } else {
      SampleStands(s0, now, user);
    }
    hide Inv; hide Sample; hide CallsOf; hide Received; hide Dues;
  }

  lemma ReceivedArmings(s: State)
    requires Inv(s) && s.queue != []
    ensures var r, t := Received(s), s.queue[0].timer;
            && r.queue == s.queue[1..] && r.log == s.log && r.timers == s.timers
            && r.lastTime == s.lastTime && r.clock == s.clock && r.trapped == s.trapped
            && Armings(r, t) == multiset{}
            && (forall u :: u != t ==> Armings(r, u) == Armings(s, u) && Dues(r.overflow, u) == Dues(s.overflow, u))
  {
    var t := s.queue[0].timer;
    forall u ensures Dues(Without(s.current, t), u) == (if u == t then multiset{} else Dues(s.current, u))
                  && Dues(Without(s.overflow, t), u) == (if u == t then multiset{} else Dues(s.overflow, u)) {
      DuesWithout(s.current, t, u);
      DuesWithout(s.overflow, t, u);
    }
    hide Inv; hide Without; hide Dues;
  }

  /** At an overflow the lists change places, the drained one empty. */
  lemma SwitchAnswers(s: State, now: int, user: Posts)
    requires Wrapped(now) < s.lastTime && !Sample(s, now, user).trapped
    ensures var r := Sample(s, now, user);
            r.current == s.overflow && r.overflow == [] && r.timers == s.timers
  {
    hide Drain;
  }

  // ----------------------------------------------------------------- the commands

  /** What is left of the timer, and of what was there beforehand, by a command. */
  ghost predicate CommandAnswer(b: State, r: State, c: Command, now: int, user: Posts) {
    && r.clock == now
    && OthersSame(b, r, c.timer)
    && match c
       case Start(t, _, issued) => StartAnswer(b, r, t, issued + TimerOf(b, t).period, now, user)
       case Stop(t) => StopAnswer(b, r, t)
       case Delete(t) => StopAnswer(b, r, t)
       case ChangePeriod(t, period) =>
         && Armings(r, t) == multiset{now + period}
         && TimerOf(r, t) == TimerOf(b, t).(active := true, period := period)
         && r.log == b.log && r.queue == b.queue
  }

  /** In time: armed for its expiry.  Late: called for it, once, and the next start asked for
      behind the callback's own commands if it reloads. */
  ghost predicate StartAnswer(b: State, r: State, t: TimerId, due: int, now: int, user: Posts) {
    var timer := TimerOf(b, t);
    && TimerOf(r, t) == timer.(active := true)
    && if due > now then
         Armings(r, t) == multiset{due} && r.log == b.log && r.queue == b.queue
       else
         && Armings(r, t) == multiset{} && r.log == b.log + [Call(t, due)]
         && r.queue == Taken(b.queue, user(|b.log|))
                       + (if timer.autoReload then [Start(t, Wrapped(due), due)] else [])
  }

  /** On no list, not active, not called. */
  ghost predicate StopAnswer(b: State, r: State, t: TimerId) {
    && Armings(r, t) == multiset{} && TimerOf(r, t) == TimerOf(b, t).(active := false)
    && r.log == b.log && r.queue == b.queue
  }

  lemma StopAnswers(b: State, c: Command, user: Posts)
    requires Armings(b, c.timer) == multiset{} && (c.Stop? || c.Delete?)
    ensures CommandAnswer(b, SetActive(b, c.timer, false), c, b.clock, user)
  {
    SetActiveEffect(b, c.timer, false);
    hide SetActive; hide Armings; hide TimerOf; hide OthersSame;
  }

  /** The placement of a start command. */
  function PlaceOfStart(b: State, t: TimerId, issued: int): Placement {
    var period := TimerOf(b, t).period;
    Place(Add(Wrapped(issued), period), b.lastTime, Wrapped(issued), period)
  }

  lemma StartIsPut(b: State, t: TimerId, issued: int, user: Posts)
    requires PlaceOfStart(b, t, issued) != ProcessNow
    ensures HandleStart(b, t, Wrapped(issued), issued, user)
         == Put(SetActive(b, t, true), PlaceOfStart(b, t, issued), t, Add(Wrapped(issued), TimerOf(b, t).period),
                issued + TimerOf(b, t).period)
  {
    hide Place; hide SetActive; hide Put; hide TimerOf;
  }

  lemma StartIsLate(b: State, t: TimerId, issued: int, user: Posts)
    requires PlaceOfStart(b, t, issued) == ProcessNow
    ensures var due := issued + TimerOf(b, t).period;
            var s2 := RunCallback(SetActive(b, t, true), t, due, user);
            HandleStart(b, t, Wrapped(issued), issued, user)
            == if TimerOf(b, t).autoReload then PostStart(s2, t, Add(Wrapped(issued), TimerOf(b, t).period), due)
               else s2
  {
    hide Place; hide SetActive; hide TimerOf; hide RunCallback; hide PostStart;
  }

  lemma StartIsPlaced(b: State, t: TimerId, issued: int)
    requires Inv(b) && !b.trapped && Armings(b, t) == multiset{} && issued <= b.clock < issued + WRAP
    ensures PlaceOfStart(b, t, issued) == ProcessNow <==> issued + TimerOf(b, t).period <= b.clock
    ensures Add(Wrapped(issued), TimerOf(b, t).period) == Wrapped(issued + TimerOf(b, t).period)
  {
    SetActiveInv(b, t, true);
    SetActiveEffect(b, t, true);
    var s1 := SetActive(b, t, true);
    assert Armings(s1, t) == multiset{} && s1.lastTime == b.lastTime && s1.clock == b.clock && !s1.trapped;
    hide SetActive; hide Inv; hide Place; hide Armings; hide TimerOf; hide OthersSame;
    RearmInv(s1, t, issued);
  }

  /** Arming a timer that a command has changed leaves the log, the queue and the others. */
  lemma ArmChanged(b: State, s1: State, p: Placement, t: TimerId, expiry: Tick, due: int)
    requires p != ProcessNow && s1 == b.(timers := s1.timers) && Armings(s1, t) == multiset{} && OthersSame(b, s1, t)
    ensures var r := Put(s1, p, t, expiry, due);
            && r.log == b.log && r.queue == b.queue && r.clock == b.clock
            && Armings(r, t) == multiset{due} && TimerOf(r, t) == TimerOf(s1, t) && OthersSame(b, r, t)
  {
    PutEffect(s1, p, t, expiry, due);
    hide Armings; hide TimerOf; hide OthersSame; hide Put;
    OthersStaySame(b, s1, Put(s1, p, t, expiry, due), t);
  }

  lemma ArmedAnswers(b: State, s1: State, p: Placement, t: TimerId, expiry: Tick, issued: int, user: Posts)
    requires p != ProcessNow && s1 == b.(timers := s1.timers) && Armings(s1, t) == multiset{} && OthersSame(b, s1, t)
    requires TimerOf(s1, t) == TimerOf(b, t).(active := true) && issued + TimerOf(b, t).period > b.clock
    ensures CommandAnswer(b, Put(s1, p, t, expiry, issued + TimerOf(b, t).period), Start(t, Wrapped(issued), issued),
                          b.clock, user)
  {
    hide Armings; hide TimerOf; hide OthersSame; hide Put; hide Taken;
    ArmChanged(b, s1, p, t, expiry, issued + TimerOf(b, t).period);
  }

  lemma StartInTimeAnswers(b: State, t: TimerId, issued: int, user: Posts)
    requires Inv(b) && !b.trapped && OkPosts(user) && Armings(b, t) == multiset{}
    requires issued <= b.clock < issued + WRAP && issued + TimerOf(b, t).period > b.clock
    ensures CommandAnswer(b, HandleStart(b, t, Wrapped(issued), issued, user), Start(t, Wrapped(issued), issued),
                          b.clock, user)
  {
    hide *;
    StartIsPlaced(b, t, issued);
    SetActiveEffect(b, t, true);
    StartIsPut(b, t, issued, user);
    ArmedAnswers(b, SetActive(b, t, true), PlaceOfStart(b, t, issued), t,
                 Add(Wrapped(issued), TimerOf(b, t).period), issued, user);
  }

  /** The state behind a late start's callback. */
  ghost predicate CalledLate(b: State, s2: State, t: TimerId, due: int, user: Posts) {
    && s2 == b.(timers := s2.timers, log := b.log + [Call(t, due)], queue := Taken(b.queue, user(|b.log|)))
    && Armings(s2, t) == multiset{} && OthersSame(b, s2, t) && TimerOf(s2, t) == TimerOf(b, t).(active := true)
  }

  lemma CallsLate(b: State, t: TimerId, due: int, user: Posts)
    requires |b.queue| <= QUEUE_LENGTH && Armings(b, t) == multiset{}
    ensures CalledLate(b, RunCallback(SetActive(b, t, true), t, due, user), t, due, user)
  {
    var s1 := SetActive(b, t, true);
    SetActiveEffect(b, t, true);
    hide SetActive; hide Armings; hide TimerOf; hide OthersSame; hide Taken;
    CallbackEffect(s1, t, due, user);
    hide RunCallback;
    OthersStaySame(b, s1, RunCallback(s1, t, due, user), t);
  }

  lemma LateAnswers(b: State, s2: State, t: TimerId, issued: int, user: Posts)
    requires var due := issued + TimerOf(b, t).period; CalledLate(b, s2, t, due, user) && due <= b.clock
    ensures !TimerOf(b, t).autoReload ==>
              CommandAnswer(b, s2, Start(t, Wrapped(issued), issued), b.clock, user)
    ensures var r := PostStart(s2, t, Wrapped(issued + TimerOf(b, t).period), issued + TimerOf(b, t).period);
            TimerOf(b, t).autoReload && !r.trapped ==>
              CommandAnswer(b, r, Start(t, Wrapped(issued), issued), b.clock, user)
  {
    var due := issued + TimerOf(b, t).period;
    AskEffect(s2, t, due);
    Nothing(s2.queue);
    hide PostStart; hide Armings; hide TimerOf; hide OthersSame; hide Taken;
    OthersStaySame(b, s2, PostStart(s2, t, Wrapped(due), due), t);
  }

  lemma LateStartAnswers(b: State, t: TimerId, issued: int, user: Posts)
    requires Inv(b) && !b.trapped && OkPosts(user) && Armings(b, t) == multiset{}
    requires issued <= b.clock < issued + WRAP && issued + TimerOf(b, t).period <= b.clock
    requires !HandleStart(b, t, Wrapped(issued), issued, user).trapped
    ensures CommandAnswer(b, HandleStart(b, t, Wrapped(issued), issued, user), Start(t, Wrapped(issued), issued),
                          b.clock, user)
  {
    hide *;
    var due := issued + TimerOf(b, t).period;
    QueueFits(b);
    StartIsPlaced(b, t, issued);
    StartIsLate(b, t, issued, user);
    CallsLate(b, t, due, user);
    LateAnswers(b, RunCallback(SetActive(b, t, true), t, due, user), t, issued, user);
  }

  function WithPeriod(b: State, t: TimerId, period: Tick): State {
    b.(timers := b.timers[t := TimerOf(b, t).(active := true, period := period)])
  }

  lemma WithPeriodEffect(b: State, t: TimerId, period: Tick)
    ensures var s1 := WithPeriod(b, t, period);
            && s1 == b.(timers := s1.timers) && Armings(s1, t) == Armings(b, t)
            && TimerOf(s1, t) == TimerOf(b, t).(active := true, period := period)
            && OthersSame(b, s1, t)
  {
    hide Dues;
  }

  lemma ChangeIsPut(b: State, t: TimerId, period: Tick)
    requires Inv(b) && period > 0
    ensures var p := Place(Add(b.lastTime, period), b.lastTime, b.lastTime, period);
            && p != ProcessNow
            && HandleChangePeriod(b, t, period)
            == Put(WithPeriod(b, t, period), p, t, Add(b.lastTime, period), b.clock + period)
  {
    TimeOfClock(b);
    PlaceIsExact(b.clock, period, b.clock);
    hide Inv; hide Place; hide Put; hide TimerOf;
  }

  lemma ChangedAnswers(b: State, s1: State, p: Placement, t: TimerId, expiry: Tick, period: Tick, user: Posts)
    requires p != ProcessNow && s1 == b.(timers := s1.timers) && Armings(s1, t) == multiset{} && OthersSame(b, s1, t)
    requires TimerOf(s1, t) == TimerOf(b, t).(active := true, period := period)
    ensures CommandAnswer(b, Put(s1, p, t, expiry, b.clock + period), ChangePeriod(t, period), b.clock, user)
  {
    hide Armings; hide TimerOf; hide OthersSame; hide Put; hide Taken;
    ArmChanged(b, s1, p, t, expiry, b.clock + period);
  }

  lemma ChangePeriodAnswers(b: State, t: TimerId, period: Tick, user: Posts)
    requires Inv(b) && !b.trapped && Armings(b, t) == multiset{} && period > 0
    ensures CommandAnswer(b, HandleChangePeriod(b, t, period), ChangePeriod(t, period), b.clock, user)
  {
    hide *;
    WithPeriodEffect(b, t, period);
    ChangeIsPut(b, t, period);
    ChangedAnswers(b, WithPeriod(b, t, period), Place(Add(b.lastTime, period), b.lastTime, b.lastTime, period), t,
                   Add(b.lastTime, period), period, user);
  }

  /** Every command, over the step in which the daemon receives it. */
  lemma ReceivedCommandAnswers(s: State, now: int, user: Posts)
    requires Inv(s) && !s.trapped && OkPosts(user) && s.queue != [] && TimelyReceive(s, now)
    requires !Step(s, ReceiveAt(now), user).trapped
    ensures !Beforehand(s, now, user).trapped
    ensures CommandAnswer(Beforehand(s, now, user), Step(s, ReceiveAt(now), user), s.queue[0], now, user)
  {
    var c, b := s.queue[0], Beforehand(s, now, user);
    assert c in s.queue;
    CarriedOut(s, now, user);
    assert OkCommand(c);
    BeforehandAnswers(s, now, user);
    hide Inv; hide Beforehand; hide Step; hide HandleStart; hide HandleChangePeriod; hide SetActive;
    hide CommandAnswer; hide CallsOf; hide Armings; hide TimerOf;
    match c
    case Start(t, value, issued) =>
      if issued + TimerOf(b, t).period > now {
        StartInTimeAnswers(b, t, issued, user);
      } else {
        LateStartAnswers(b, t, issued, user);
      }
    case Stop(t) => StopAnswers(b, c, user);
    case Delete(t) => StopAnswers(b, c, user);
    case ChangePeriod(t, period) =>
      if period == 0 {
        ZeroPeriodStops(b, t);
      } else {
        ChangePeriodAnswers(b, t, period, user);
      }
  }

  lemma ZeroPeriodStops(b: State, t: TimerId)
    ensures HandleChangePeriod(b, t, 0).trapped
  {
  }

  lemma CarriedOut(s: State, now: int, user: Posts)
    requires !s.trapped && s.queue != [] && !Step(s, ReceiveAt(now), user).trapped
    ensures var b, c, r := Beforehand(s, now, user), s.queue[0], Step(s, ReceiveAt(now), user);
            && !b.trapped
            && (c.Start? ==> r == HandleStart(b, c.timer, c.value, c.issued, user))
            && (c.Stop? || c.Delete? ==> r == SetActive(b, c.timer, false))
            && (c.ChangePeriod? ==> r == HandleChangePeriod(b, c.timer, c.value))
  {
    hide Sample; hide HandleStart; hide HandleChangePeriod; hide SetActive; hide Remove;
  }

  // ------------------------------------------------------------------ a stopped timer

  /** A timer that has been stopped, with nothing about it in the queue, is silent. */
  lemma StoppedIsSilent(s: State, now: int, user: Posts)
    requires Inv(s) && !s.trapped && OkPosts(user) && s.queue != [] && TimelyReceive(s, now)
    requires s.queue[0].Stop? || s.queue[0].Delete?
    requires !Step(s, ReceiveAt(now), user).trapped
    requires NotAbout(s.queue[1..], s.queue[0].timer) && PostsNotAbout(user, s.queue[0].timer)
    ensures var t, r := s.queue[0].timer, Step(s, ReceiveAt(now), user);
            && OnSchedule(r, t, Silent(CallsOf(s.log, t)), TimerOf(s, t).period) && !TimerOf(r, t).active
  {
    var t, b := s.queue[0].timer, Beforehand(s, now, user);
    CarriedOut(s, now, user);
    BeforehandOnSchedule(s, now, user);
    SetActiveBooks(b, t, false, t, Silent(CallsOf(s.log, t)), TimerOf(s, t).period);
    SetActiveEffect(b, t, false);
    hide Step; hide Beforehand; hide Inv; hide CallsOf; hide Ahead; hide TimerOf; hide SetActive; hide OthersSame;
    hide Suits;
  }

  lemma BeforehandOnSchedule(s: State, now: int, user: Posts)
    requires Inv(s) && s.queue != [] && !Beforehand(s, now, user).trapped
    requires NotAbout(s.queue[1..], s.queue[0].timer) && PostsNotAbout(user, s.queue[0].timer)
    ensures var t := s.queue[0].timer;
            OnSchedule(Beforehand(s, now, user), t, Silent(CallsOf(s.log, t)), TimerOf(s, t).period)
  {
    var t := s.queue[0].timer;
    ReceivedArmings(s);
    NothingPending(s.queue[1..], t, TimerOf(s, t).period);
    hide Received; hide Inv; hide Armings; hide CallsOf; hide Sample;
    assert OnSchedule(Received(s), t, Silent(CallsOf(s.log, t)), TimerOf(s, t).period);
    SampleOnSchedule(Received(s), now, user, t, Silent(CallsOf(s.log, t)), TimerOf(s, t).period);
  }

  lemma {:induction false} NothingPending(queue: seq<Command>, t: TimerId, period: int)
    requires NotAbout(queue, t)
    ensures Pending(queue, t, period) == multiset{}
  {
    if queue != [] {
      NothingPending(queue[1..], t, period);
      assert queue[0] in queue;
    }
  }

  /** And stays so: over every run in which nobody starts it again its callback does not run,
      and it is neither armed nor active. */
  lemma StoppedStaysSilent(s: State, now: int, actions: seq<Action>, user: Posts)
    requires Inv(s) && !s.trapped && OkPosts(user) && s.queue != [] && TimelyReceive(s, now)
    requires s.queue[0].Stop? || s.queue[0].Delete?
    requires NotAbout(s.queue[1..], s.queue[0].timer) && PostsNotAbout(user, s.queue[0].timer)
    requires forall a :: a in actions ==> LeavesAlone(a, s.queue[0].timer)
    requires !Step(s, ReceiveAt(now), user).trapped && !Run(Step(s, ReceiveAt(now), user), actions, user).trapped
    ensures var t, r := s.queue[0].timer, Run(Step(s, ReceiveAt(now), user), actions, user);
            && CallsOf(r.log, t) == CallsOf(s.log, t)
            && Armings(r, t) == multiset{} && !TimerOf(r, t).active
  {
    var t, r := s.queue[0].timer, Step(s, ReceiveAt(now), user);
    StoppedIsSilent(s, now, user);
    hide Inv; hide Step; hide OnSchedule; hide TimelyReceive; hide OkPosts; hide LeavesAlone;
    SilentKeepsBitForGood(r, actions, user, t, CallsOf(s.log, t), TimerOf(s, t).period);
    RunOnSchedule(r, actions, user, t, Silent(CallsOf(s.log, t)), TimerOf(s, t).period);
    SilentIsUnarmed(Run(r, actions, user), t, CallsOf(s.log, t), TimerOf(s, t).period);
    hide Run;
  }

  lemma SilentIsUnarmed(s: State, t: TimerId, calls: seq<int>, period: Tick)
    requires OnSchedule(s, t, Silent(calls), period)
    ensures Armings(s, t) == multiset{}
  {
    hide CallsOf;
    assert Armings(s, t) <= Ahead(s, t, period);
  }
}

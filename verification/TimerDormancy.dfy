/** The documentation calls an expired one-shot timer dormant.  The code clears its active
    bit only where the expiry is processed normally; this is exactly when a timer that has
    fired is dormant. */
module TimerDormancy {
  import opened Ticks
  import opened ListSpec
  import opened TimerSpec
  import opened TimerInvariant
  import opened TimerSchedule

  /** The condition: the daemon is taking a turn, and the tick count has not overflowed since
      it last looked. */
  predicate NormalExpiry(s: State, a: Action) {
    a.TurnAt? && Wrapped(a.now) >= s.lastTime
  }

  lemma {:induction false} NoneOf(l: TimerList, t: TimerId)
    requires forall x :: x in l ==> x.owner.timer != t
    ensures Dues(l, t) == multiset{}
  {
    if l != [] {
      NoneOf(l[1..], t);
    }
  }

  lemma ArmedIsActive(s: State, t: TimerId)
    requires Inv(s)
    ensures TimerOf(s, t).active || Armings(s, t) == multiset{}
  {
    if !TimerOf(s, t).active {
      NoneOf(s.current, t);
      NoneOf(s.overflow, t);
    }
  }

  lemma {:induction false} DrainCallsTheArmed(s: State, user: Posts, t: TimerId)
    requires Armings(s, t) == multiset{}
    ensures CallsOf(Drain(s, user).log, t) == CallsOf(s.log, t)
    decreases Remaining(s.current)
  {
    if !s.trapped && s.current != [] {
      var c := Call(s.current[0].owner.timer, s.current[0].owner.due);
      assert c.due in Armings(s, c.timer);
      assert (s.log + [c])[..|s.log|] == s.log;
      DrainHeadArmings(s, user);
      DrainProgress(s, user);
      DrainCallsTheArmed(DrainHead(s, user), user, t);
      hide DrainHead; hide Armings;
    }
  }

  lemma SampleCallsTheArmed(s: State, now: int, user: Posts, t: TimerId)
    requires Armings(s, t) == multiset{}
    ensures CallsOf(Sample(s, now, user).log, t) == CallsOf(s.log, t)
  {
    DrainCallsTheArmed(s, user, t);
    hide Drain; hide CallsOf; hide Armings;
  }

  lemma ReloadTouches(s: State, next: Tick, now: Tick, t: TimerId)
    requires s.current != []
    ensures var r, u := Reload(s, next, now), s.current[0].owner.timer;
            && r.log == s.log
            && (u != t ==> TimerOf(r, t) == TimerOf(s, t))
            && (u == t && !TimerOf(s, t).autoReload ==> !TimerOf(r, t).active)
  {
    hide Insert; hide Place;
  }

  lemma CallbackTouches(s: State, u: TimerId, due: int, user: Posts, t: TimerId)
    ensures var r := RunCallback(s, u, due, user);
            TimerOf(r, t) == TimerOf(s, t) && (u != t ==> CallsOf(r.log, t) == CallsOf(s.log, t))
  {
    assert (s.log + [Call(u, due)])[..|s.log|] == s.log;
    hide RunCallback;
  }

  /** Processing the head: it alone is called, and only its bit can change. */
  lemma ExpireHeadTouches(s: State, next: Tick, now: Tick, user: Posts, t: TimerId)
    requires s.current != []
    ensures var r, u := ExpireHead(s, next, now, user), s.current[0].owner.timer;
            && (u != t ==> TimerOf(r, t) == TimerOf(s, t) && CallsOf(r.log, t) == CallsOf(s.log, t))
            && (u == t && !TimerOf(s, t).autoReload ==> !TimerOf(r, t).active)
  {
    ReloadTouches(s, next, now, t);
    CallbackTouches(Reload(s, next, now), s.current[0].owner.timer, s.current[0].owner.due, user, t);
    hide Reload; hide RunCallback; hide CallsOf; hide TimerOf;
  }

  /** A command that comes off the queue calls and changes no timer but its own; a start
      leaves its timer active. */
  lemma HandlingTouches(s: State, c: Command, user: Posts, t: TimerId)
    ensures c.Start? ==>
              var r := HandleStart(s, c.timer, c.value, c.issued, user);
              && (c.timer != t ==> TimerOf(r, t) == TimerOf(s, t) && CallsOf(r.log, t) == CallsOf(s.log, t))
              && (c.timer == t ==> TimerOf(r, t).active)
    ensures c.ChangePeriod? && c.timer != t ==>
              var r := HandleChangePeriod(s, c.timer, c.value);
              TimerOf(r, t) == TimerOf(s, t) && r.log == s.log
    ensures c.timer != t ==> TimerOf(SetActive(s, c.timer, false), t) == TimerOf(s, t)
  {
    hide Accept; hide Insert; hide Place;
    if c.Start? {
      assert (s.log + [Call(c.timer, c.issued + TimerOf(s, c.timer).period)])[..|s.log|] == s.log;
    }
  }

  lemma CommandTouches(s: State, now: int, user: Posts, t: TimerId)
    requires s.queue != [] && s.queue[0].timer != t && !HandleCommand(s, now, user).trapped
    ensures var r := HandleCommand(s, now, user);
            && TimerOf(r, t) == TimerOf(s, t)
            && (Armings(s, t) == multiset{} ==> CallsOf(r.log, t) == CallsOf(s.log, t))
  {
    var c := s.queue[0];
    var s0 := Remove(s.(queue := s.queue[1..]), c.timer);
    var s1 := Sample(s0, now, user);
    DuesWithout(s.current, c.timer, t);
    DuesWithout(s.overflow, c.timer, t);
    if Armings(s, t) == multiset{} {
      SampleCallsTheArmed(s0, now, user, t);
    }
    HandlingTouches(s1, c, user, t);
    hide Sample; hide HandleStart; hide HandleChangePeriod; hide CallsOf; hide Armings; hide Without;
  }

  /** The step in which a one-shot timer fires leaves it dormant exactly if that is a normal
      expiry. */
  lemma FiringStep(s: State, a: Action, user: Posts, t: TimerId, before: seq<int>, start: int, period: Tick)
    requires Inv(s) && !s.trapped && LeavesAlone(a, t)
    requires OnSchedule(s, t, Once(before, start), period) && CallsOf(s.log, t) == before
    requires var r := Step(s, a, user); !r.trapped && CallsOf(r.log, t) != before
    ensures !TimerOf(Step(s, a, user), t).active <==> NormalExpiry(s, a)
  {
    hide CallsOf; hide Armings; hide ExpireHead; hide HandleCommand; hide Drain; hide Inv;
    ArmedIsActive(s, t);
    match a
    case Post(commands) =>
    case SetReloadMode(u, autoReload) =>
    case TurnAt(now) =>
      if Wrapped(now) < s.lastTime {
        if Armings(s, t) == multiset{} {
          SampleCallsTheArmed(s, now, user, t);
        }
      } else if TurnOf(s, now, user) == Expired {
        ExpireHeadTouches(Sample(s, now, user), NextExpireTime(s), Wrapped(now), user, t);
      }
    case ReceiveAt(now) =>
      if s.queue != [] {
        if s.queue[0].timer == t {
          OwnStartActivates(s, now, user, t);
        } else {
          CommandTouches(s, now, user, t);
        }
      }
  }

  lemma OwnStartActivates(s: State, now: int, user: Posts, t: TimerId)
    requires s.queue != [] && s.queue[0].timer == t && StartsOnly(s.queue, t)
    requires !HandleCommand(s, now, user).trapped
    ensures TimerOf(HandleCommand(s, now, user), t).active
  {
    var c := s.queue[0];
    assert c in s.queue;
    var s1 := Sample(Remove(s.(queue := s.queue[1..]), t), now, user);
    HandlingTouches(s1, c, user, t);
    hide Sample; hide HandleStart; hide Without;
  }

  lemma HeadIsAnother(queue: seq<Command>, t: TimerId, period: int)
    requires queue != [] && StartsOnly(queue, t) && Pending(queue, t, period) == multiset{}
    ensures queue[0].timer != t
  {
    assert queue[0] in queue;
    assert |WithPromise(Pending(queue[1..], t, period), queue[0], t, period)| == 0;
  }

  /** A timer with nothing ahead keeps its bit, whatever the daemon does. */
  lemma SilentKeepsBit(s: State, a: Action, user: Posts, t: TimerId, calls: seq<int>, period: Tick)
    requires !s.trapped && LeavesAlone(a, t) && !Step(s, a, user).trapped
    requires OnSchedule(s, t, Silent(calls), period)
    ensures TimerOf(Step(s, a, user), t).active == TimerOf(s, t).active
  {
    hide CallsOf; hide ExpireHead; hide HandleCommand; hide Drain;
    assert Armings(s, t) == multiset{} && Pending(s.queue, t, period) == multiset{};
    match a
    case Post(commands) =>
    case SetReloadMode(u, autoReload) =>
    case TurnAt(now) =>
      if TurnOf(s, now, user) == Expired {
        assert s.current[0].owner.due in Armings(s, s.current[0].owner.timer);
        ExpireHeadTouches(Sample(s, now, user), NextExpireTime(s), Wrapped(now), user, t);
      }
      hide Armings;
    case ReceiveAt(now) =>
      if s.queue != [] {
        HeadIsAnother(s.queue, t, period);
        CommandTouches(s, now, user, t);
      }
  }

  lemma {:induction false} SilentKeepsBitForGood(s: State, actions: seq<Action>, user: Posts, t: TimerId,
                                                 calls: seq<int>, period: Tick)
    requires !s.trapped && PostsNotAbout(user, t) && (forall a :: a in actions ==> LeavesAlone(a, t))
    requires OnSchedule(s, t, Silent(calls), period) && !Run(s, actions, user).trapped
    ensures var r := Run(s, actions, user);
            TimerOf(r, t).active == TimerOf(s, t).active && CallsOf(r.log, t) == calls
    decreases |actions|
  {
    if actions != [] {
      var s1 := Step(s, actions[0], user);
      if s1.trapped {
        TrappedStays(s1, actions[1..], user);
        assert false;
      }
      SilentKeepsBit(s, actions[0], user, t, calls, period);
      StepOnSchedule(s, actions[0], user, t, Silent(calls), period);
      hide OnSchedule; hide Step; hide LeavesAlone;
      SilentKeepsBitForGood(s1, actions[1..], user, t, calls, period);
    }
  }

  /** The first step in which the timer's callback runs is a normal expiry. */
  ghost predicate FiresNormally(s: State, actions: seq<Action>, user: Posts, t: TimerId)
    decreases |actions|
  {
    actions != [] &&
      var s1 := Step(s, actions[0], user);
      if CallsOf(s1.log, t) != CallsOf(s.log, t) then NormalExpiry(s, actions[0])
      else FiresNormally(s1, actions[1..], user, t)
  }

  lemma FiredIsSilent(s: State, t: TimerId, before: seq<int>, start: int, period: Tick)
    requires OnSchedule(s, t, Once(before, start), period) && CallsOf(s.log, t) != before
    ensures OnSchedule(s, t, Silent(CallsOf(s.log, t)), period)
  {
  }

  /** Over every run in which nobody else touches it, a one-shot timer that has fired is
      dormant if and only if the daemon met its expiry in a turn without an overflow of the
      tick count: not in the drain at an overflow, nor in handling a late start command. */
  lemma {:induction false} OneShotDormantOnlyAfterNormalExpiry(s: State, actions: seq<Action>, user: Posts,
                                                              t: TimerId, before: seq<int>, start: int, period: Tick)
    requires Inv(s) && NoneEarly(s, s.clock) && !s.trapped && OkPosts(user) && TimelyRun(s, actions, user)
    requires PostsNotAbout(user, t) && forall a :: a in actions ==> LeavesAlone(a, t)
    requires OnSchedule(s, t, Once(before, start), period) && CallsOf(s.log, t) == before
    requires var r := Run(s, actions, user); !r.trapped && CallsOf(r.log, t) != before
    ensures !TimerOf(Run(s, actions, user), t).active <==> FiresNormally(s, actions, user, t)
    decreases |actions|
  {
    hide ListsOk; hide TimersOk; hide QueueOk; hide NoneEarly; hide CallsOf; hide LeavesAlone; hide Step; hide Timely;
    var a, rest := actions[0], actions[1..];
    var s1 := Step(s, a, user);
    if s1.trapped {
      TrappedStays(s1, rest, user);
      assert false;
    }
    StepInv(s, a, user);
    StepOnSchedule(s, a, user, t, Once(before, start), period);
    hide Inv;
    if CallsOf(s1.log, t) == before {
      hide OnSchedule;
      OneShotDormantOnlyAfterNormalExpiry(s1, rest, user, t, before, start, period);
    } else {
      FiringStep(s, a, user, t, before, start, period);
      FiredIsSilent(s1, t, before, start, period);
      hide OnSchedule;
      SilentKeepsBitForGood(s1, rest, user, t, CallsOf(s1.log, t), period);
    }
  }

  /** A one-shot timer started at 0 with period 5, whose command is handled at 10,
      has then fired, has nothing ahead, and still reports active. */
  lemma FiredButActive(user: Posts)
    requires user(0) == []
    ensures var s := State(map[0 := Timer(5, false, false)], [], [], [Start(0, 0, 0)], 0, 0, [], false);
            var r := Step(s, ReceiveAt(10), user);
            && Inv(s) && Timely(s, ReceiveAt(10))
            && r.log == [Call(0, 5)] && Ahead(r, 0, 5) == multiset{}
            && TimerOf(r, 0).active
  {
    assert forall t :: |Dues([], t)| == 0;
  }

  /** The same timer, armed in time. */
  function ArmedForFive(): State {
    State(map[0 := Timer(5, false, true)], [Item(5, Armed(0, 5))], [], [], 0, 0, [], false)
  }

  lemma ArmedForFiveOk()
    ensures Inv(ArmedForFive()) && OnSchedule(ArmedForFive(), 0, Once([], 0), 5)
  {
    var s := ArmedForFive();
    assert forall t :: Dues(s.current[1..], t) == multiset{};
    assert forall t :: Dues(s.current, t) == With(multiset{}, 0 == t, 5);
    assert Armings(s, 0) == multiset{5};
    assert forall t :: Dues(s.overflow, t) == multiset{};
    hide Dues;
    assert forall t :: |Dues(s.current, t)| + |Dues(s.overflow, t)| <= 1;
  }

  lemma TurnAtSeven(user: Posts)
    requires user(0) == []
    ensures var r := Step(ArmedForFive(), TurnAt(7), user); r.log == [Call(0, 5)] && !TimerOf(r, 0).active
  {
  }

  /** Met by a turn of the daemon, it has fired and is dormant. */
  lemma FiredAndDormant(user: Posts)
    requires user(0) == []
    ensures var s := ArmedForFive();
            var r := Step(s, TurnAt(7), user);
            && Inv(s) && Timely(s, TurnAt(7)) && OnSchedule(s, 0, Once([], 0), 5)
            && r.log == [Call(0, 5)] && !TimerOf(r, 0).active
  {
    ArmedForFiveOk();
    TurnAtSeven(user);
    hide Inv; hide OnSchedule; hide Step;
  }
}

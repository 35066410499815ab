/** An auto-reload timer neither drifts nor loses nor repeats an expiry, whichever of
    the three ways each one is handled: by normal expiry, as a late start command, or in
    the drain at an overflow of the tick count.  A one-shot timer fires once; a timer
    with nothing ahead of it stays silent. */
module TimerSchedule {
  import opened Ticks
  import opened ListSpec
  import opened Sequences
  import opened TimerSpec
  import opened TimerInvariant

  /** The k-th expiry of a timer started at `start` with period `period`. */
  function Nth(start: int, period: int, k: nat): int {
    if k == 0 then start else Nth(start, period, k - 1) + period
  }

  lemma {:induction false} NthIsLinear(start: int, period: int, k: nat)
    ensures Nth(start, period, k) == start + k * period
  {
    if k > 0 {
      NthIsLinear(start, period, k - 1);
    }
  }

  /** The first n expiries. */
  ghost function Schedule(start: int, period: int, n: nat): (r: seq<int>)
    ensures |r| == n
  {
    if n == 0 then [] else Schedule(start, period, n - 1) + [Nth(start, period, n)]
  }

  /** The expiries for which timer `t`'s callback has run, in the order of the runs. */
  ghost function CallsOf(log: seq<Call>, t: TimerId): seq<int> {
    if log == [] then []
    else
      var c := log[|log| - 1];
      if c.timer == t then CallsOf(log[..|log| - 1], t) + [c.due] else CallsOf(log[..|log| - 1], t)
  }

  /** The expiries that queued start commands of timer `t` stand for. */
  ghost function Pending(queue: seq<Command>, t: TimerId, period: int): multiset<int> {
    if queue == [] then multiset{} else WithPromise(Pending(queue[1..], t, period), queue[0], t, period)
  }

  ghost function WithPromise(m: multiset<int>, c: Command, t: TimerId, period: int): multiset<int> {
    if c.Start? then With(m, c.timer == t, c.issued + period) else m
  }

  /** The expiries still ahead of timer `t`, armed or on the way. */
  ghost function Ahead(s: State, t: TimerId, period: int): multiset<int> {
    Armings(s, t) + Pending(s.queue, t, period)
  }

  ghost predicate StartsOnly(queue: seq<Command>, t: TimerId) {
    forall c :: c in queue && c.timer == t ==> c.Start?
  }

  /** What a timer does from now on, if nobody touches it; `before` is what it did so far. */
  datatype Plan =
    | Repeats(before: seq<int>, start: int)
    | Once(before: seq<int>, start: int)
    | Silent(before: seq<int>)

  /** The calls run so far and the expiries still ahead fit the plan.  A repeating timer
      has run for the first n expiries and exactly one is ahead, the next. */
  ghost predicate InStep(plan: Plan, calls: seq<int>, ahead: multiset<int>, period: int) {
    match plan
    case Repeats(before, start) =>
      var n := |calls| - |before|;
      && n >= 0 && calls == before + Schedule(start, period, n)
      && ahead == multiset{Nth(start, period, n + 1)}
    case Once(before, start) =>
      || (calls == before && ahead == multiset{start + period})
      || (calls == before + [start + period] && ahead == multiset{})
    case Silent(before) =>
      calls == before && ahead == multiset{}
  }

  ghost predicate Suits(timers: map<TimerId, Timer>, t: TimerId, plan: Plan, period: Tick) {
    && Lookup(timers, t).period == period
    && (plan.Repeats? ==> Lookup(timers, t).autoReload)
    && (plan.Once? ==> !Lookup(timers, t).autoReload)
  }

  /** Running the callback for the one expiry ahead; reloading puts the next in its place. */
  lemma StepOn(plan: Plan, calls: seq<int>, ahead: multiset<int>, others: multiset<int>,
               reload: bool, period: int, due: int)
    requires InStep(plan, calls, ahead, period) && ahead == others + multiset{due}
    requires (plan.Repeats? ==> reload) && (plan.Once? ==> !reload)
    ensures others == multiset{}
    ensures InStep(plan, calls + [due], With(others, reload, due + period), period)
  {
    assert |ahead| == 1 + |others|;
    assert due in ahead;
    if plan.Repeats? {
      var n := |calls| - |plan.before|;
      assert plan.before + Schedule(plan.start, period, n) + [due]
          == plan.before + (Schedule(plan.start, period, n) + [due]);
    }
  }

  /** Follows its plan, and no command but its own starts is on the way. */
  ghost predicate OnSchedule(s: State, t: TimerId, plan: Plan, period: Tick) {
    && Suits(s.timers, t, plan, period) && StartsOnly(s.queue, t)
    && InStep(plan, CallsOf(s.log, t), Ahead(s, t, period), period)
  }

  ghost predicate NotAbout(cs: seq<Command>, t: TimerId) {
    forall c :: c in cs ==> c.timer != t
  }

  ghost predicate PostsNotAbout(user: Posts, t: TimerId) {
    forall n :: NotAbout(user(n), t)
  }

  /** Before the first command no timer has anything ahead. */
  lemma InitiallySilent(s: State, t: TimerId)
    requires Initial(s)
    ensures OnSchedule(s, t, Silent([]), TimerOf(s, t).period)
  {
  }

  // ------------------------------------------- what each operation does to the books

  lemma {:induction false} PendingAppend(queue: seq<Command>, c: Command, t: TimerId, period: int)
    ensures Pending(queue + [c], t, period) == WithPromise(Pending(queue, t, period), c, t, period)
  {
    if queue == [] {
      assert queue + [c] == [c];
    } else {
      PendingAppend(queue[1..], c, t, period);
      assert (queue + [c])[1..] == queue[1..] + [c];
      PromisesCommute(Pending(queue[1..], t, period), queue[0], c, t, period);
      hide WithPromise;
    }
  }

  lemma PromisesCommute(m: multiset<int>, c: Command, d: Command, t: TimerId, period: int)
    ensures WithPromise(WithPromise(m, c, t, period), d, t, period)
         == WithPromise(WithPromise(m, d, t, period), c, t, period)
  {
  }

  lemma {:induction false} AcceptBooks(s: State, cs: seq<Command>, t: TimerId, period: int)
    requires NotAbout(cs, t)
    ensures Pending(Accept(s, cs).queue, t, period) == Pending(s.queue, t, period)
    ensures StartsOnly(s.queue, t) ==> StartsOnly(Accept(s, cs).queue, t)
    decreases |cs|
  {
    if cs != [] {
      PendingAppend(s.queue, cs[0], t, period);
      AcceptBooks(if |s.queue| < QUEUE_LENGTH then s.(queue := s.queue + [cs[0]]) else s, cs[1..], t, period);
    }
  }

  lemma CallbackBooks(s: State, u: TimerId, due: int, user: Posts, t: TimerId, period: int)
    requires PostsNotAbout(user, t)
    ensures var r := RunCallback(s, u, due, user);
            && CallsOf(r.log, t) == (if u == t then CallsOf(s.log, t) + [due] else CallsOf(s.log, t))
            && Ahead(r, t, period) == Ahead(s, t, period)
            && (StartsOnly(s.queue, t) ==> StartsOnly(r.queue, t))
  {
    AcceptBooks(s.(log := s.log + [Call(u, due)]), user(|s.log|), t, period);
  }

  lemma PostStartBooks(s: State, u: TimerId, value: Tick, issued: int, t: TimerId, period: int)
    ensures var r := PostStart(s, u, value, issued);
            && (!r.trapped ==> Ahead(r, t, period) == With(Ahead(s, t, period), u == t, issued + period))
            && (StartsOnly(s.queue, t) ==> StartsOnly(r.queue, t))
  {
    var c := Start(u, value, issued);
    PendingAppend(s.queue, c, t, period);
    assert forall d :: d in s.queue + [c] <==> d in s.queue || d == c;
    PromiseAhead(Armings(s, t), Pending(s.queue, t, period), u == t, issued + period);
    hide Pending; hide Armings; hide With;
  }

  lemma PromiseAhead(armed: multiset<int>, pending: multiset<int>, mine: bool, due: int)
    ensures armed + With(pending, mine, due) == With(armed + pending, mine, due)
  {
  }

  lemma PutBooks(s: State, p: Placement, u: TimerId, expiry: Tick, due: int, t: TimerId, period: int)
    requires p != ProcessNow
    ensures Ahead(Put(s, p, u, expiry, due), t, period) == With(Ahead(s, t, period), u == t, due)
  {
    hide Insert;
    DuesInsert(s.current, Item(expiry, Armed(u, due)), t);
    DuesInsert(s.overflow, Item(expiry, Armed(u, due)), t);
  }

  ghost function Popped(s: State): State
    requires s.current != []
  {
    s.(current := s.current[1..])
  }

  lemma PopBooks(s: State, t: TimerId, period: int)
    requires s.current != []
    ensures var Armed(u, due) := s.current[0].owner;
            Ahead(s, t, period) == With(Ahead(Popped(s), t, period), u == t, due)
  {
  }

  lemma AcceptOne(s: State, c: Command)
    requires |s.queue| < QUEUE_LENGTH
    ensures Accept(s, [c]) == s.(queue := s.queue + [c])
  {
    assert [c][1..] == [];
  }

  lemma PlanBegins(before: seq<int>, issued: int, period: int)
    ensures InStep(Repeats(before, issued), before, multiset{issued + period}, period)
    ensures InStep(Once(before, issued), before, multiset{issued + period}, period)
  {
    assert Schedule(issued, period, 0) == [] && Nth(issued, period, 1) == Nth(issued, period, 0) + period;
  }

  /** A start command with time `issued`, once it is in the queue, sets a silent timer's
      plan. */
  lemma StartSetsPlan(s: State, t: TimerId, before: seq<int>, period: Tick, issued: int)
    requires OnSchedule(s, t, Silent(before), period) && |s.queue| < QUEUE_LENGTH && !s.trapped
    ensures OnSchedule(Accept(s, [Start(t, Wrapped(issued), issued)]), t,
                       if TimerOf(s, t).autoReload then Repeats(before, issued) else Once(before, issued), period)
  {
    AcceptOne(s, Start(t, Wrapped(issued), issued));
    PostStartBooks(s, t, Wrapped(issued), issued, t, period);
    PlanBegins(before, issued, period);
    assert Ahead(s, t, period) == multiset{};
    hide Ahead; hide CallsOf; hide Accept; hide StartsOnly;
    var r := PostStart(s, t, Wrapped(issued), issued);
    assert Ahead(r, t, period) == multiset{issued + period};
    hide InStep;
  }

  // --------------------------------------------------------------- a turn of the drain

  lemma DrainHeadBooks(s: State, user: Posts, t: TimerId, period: Tick)
    requires s.current != [] && PostsNotAbout(user, t) && !s.trapped && !DrainHead(s, user).trapped
    requires Lookup(s.timers, t).period == period
    ensures var r, Armed(u, due) := DrainHead(s, user), s.current[0].owner;
            && (StartsOnly(s.queue, t) ==> StartsOnly(r.queue, t))
            && CallsOf(r.log, t) == (if u == t then CallsOf(s.log, t) + [due] else CallsOf(s.log, t))
            && Ahead(r, t, period)
            == With(Ahead(Popped(s), t, period), u == t && Lookup(s.timers, t).autoReload, due + period)
  {
    hide CallsOf; hide Ahead; hide Insert; hide RunCallback; hide PostStart;
    var Armed(u, due) := s.current[0].owner;
    var value, next := s.current[0].value, TimerOf(s, u).period;
    var s1 := RunCallback(Popped(s), u, due, user);
    CallbackBooks(Popped(s), u, due, user, t, period);
    if TimerOf(s, u).autoReload {
      if Add(value, next) > value {
        PutBooks(s1, IntoCurrent, u, Add(value, next), due + next, t, period);
      } else {
        PostStartBooks(s1, u, value, due, t, period);
      }
    }
  }

  lemma DrainHeadOnSchedule(s: State, user: Posts, t: TimerId, plan: Plan, period: Tick)
    requires s.current != [] && PostsNotAbout(user, t) && !s.trapped && !DrainHead(s, user).trapped
    requires OnSchedule(s, t, plan, period)
    ensures OnSchedule(DrainHead(s, user), t, plan, period)
  {
    hide DrainHead; hide CallsOf; hide Ahead; hide InStep;
    DrainHeadBooks(s, user, t, period);
    PopBooks(s, t, period);
    if s.current[0].owner.timer == t {
      StepOn(plan, CallsOf(s.log, t), Ahead(s, t, period), Ahead(Popped(s), t, period),
             Lookup(s.timers, t).autoReload, period, s.current[0].owner.due);
    }
  }

  lemma {:induction false} DrainOnSchedule(s: State, user: Posts, t: TimerId, plan: Plan, period: Tick)
    requires PostsNotAbout(user, t) && OnSchedule(s, t, plan, period)
    ensures var r := Drain(s, user); !r.trapped ==> OnSchedule(r, t, plan, period)
    decreases Remaining(s.current)
  {
    hide OnSchedule;
    if !s.trapped && s.current != [] {
      DrainProgress(s, user);
      if !DrainHead(s, user).trapped {
        DrainHeadOnSchedule(s, user, t, plan, period);
        hide DrainHead;
        DrainOnSchedule(DrainHead(s, user), user, t, plan, period);
      }
    }
  }

  // ----------------------------------------------------------------- the other steps

  lemma SampleOnSchedule(s: State, now: int, user: Posts, t: TimerId, plan: Plan, period: Tick)
    requires PostsNotAbout(user, t) && OnSchedule(s, t, plan, period)
    ensures var r := Sample(s, now, user); !r.trapped ==> OnSchedule(r, t, plan, period)
  {
    hide CallsOf; hide InStep;
    DrainOnSchedule(s, user, t, plan, period);
    var d := Drain(s, user);
    assert Ahead(d.(current := d.overflow, overflow := d.current), t, period) == Ahead(d, t, period);
  }

  lemma ReloadBooks(s: State, next: Tick, now: Tick, t: TimerId, plan: Plan, period: Tick)
    requires s.current != [] && !Reload(s, next, now).trapped && Lookup(s.timers, t).period == period
    ensures var r, Armed(u, due) := Reload(s, next, now), s.current[0].owner;
            && (StartsOnly(s.queue, t) ==> StartsOnly(r.queue, t))
            && r.log == s.log && (Suits(s.timers, t, plan, period) ==> Suits(r.timers, t, plan, period))
            && Ahead(r, t, period)
            == With(Ahead(Popped(s), t, period), u == t && Lookup(s.timers, t).autoReload, due + period)
  {
    hide Insert; hide PostStart; hide Place; hide Ahead;
    var Armed(u, due) := s.current[0].owner;
    var span := TimerOf(s, u).period;
    var p := Place(Add(next, span), now, next, span);
    if !TimerOf(s, u).autoReload {
      SetActiveBooks(Popped(s), u, false, t, plan, period);
    } else if p == ProcessNow {
      PostStartBooks(Popped(s), u, next, due, t, period);
    } else {
      PutBooks(Popped(s), p, u, Add(next, span), due + span, t, period);
    }
  }

  lemma ExpireHeadOnSchedule(s: State, next: Tick, now: Tick, user: Posts, t: TimerId, plan: Plan, period: Tick)
    requires s.current != [] && PostsNotAbout(user, t) && OnSchedule(s, t, plan, period)
    ensures var r := ExpireHead(s, next, now, user); !r.trapped ==> OnSchedule(r, t, plan, period)
  {
    hide Reload; hide CallsOf; hide Ahead; hide RunCallback; hide InStep;
    var s1 := Reload(s, next, now);
    var Armed(u, due) := s.current[0].owner;
    if !s1.trapped {
      ReloadBooks(s, next, now, t, plan, period);
      PopBooks(s, t, period);
      CallbackBooks(s1, u, due, user, t, period);
      if u == t {
        StepOn(plan, CallsOf(s.log, t), Ahead(s, t, period), Ahead(Popped(s), t, period),
               Lookup(s.timers, t).autoReload, period, due);
      }
    }
  }

  /** The daemon takes this timer's own start command off its queue: nothing else was
      ahead. */
  lemma OwnStart(s: State, c: Command, t: TimerId, plan: Plan, period: Tick)
    requires OnSchedule(s, t, plan, period) && s.queue != [] && c == s.queue[0] && c.timer == t
    ensures var s1 := Remove(s.(queue := s.queue[1..]), t);
            && c.Start? && StartsOnly(s1.queue, t) && Ahead(s1, t, period) == multiset{}
            && Ahead(s, t, period) == multiset{c.issued + period}
  {
    DuesWithout(s.current, t, t);
    DuesWithout(s.overflow, t, t);
    assert c in s.queue;
    var rest := Pending(s.queue[1..], t, period);
    assert Ahead(s, t, period) == Armings(s, t) + rest + multiset{c.issued + period};
    assert |Ahead(s, t, period)| == 1;
  }

  lemma HandleStartOnSchedule(s: State, t: TimerId, issued: int, value: Tick, user: Posts, plan: Plan, period: Tick)
    requires PostsNotAbout(user, t) && StartsOnly(s.queue, t) && Suits(s.timers, t, plan, period)
    requires Ahead(s, t, period) == multiset{}
    requires InStep(plan, CallsOf(s.log, t), multiset{issued + period}, period)
    ensures var r := HandleStart(s, t, value, issued, user);
            !r.trapped ==> OnSchedule(r, t, plan, period)
  {
    hide CallsOf; hide Ahead; hide RunCallback; hide PostStart; hide Insert; hide Place; hide InStep;
    var s1 := SetActive(s, t, true);
    var due := issued + period;
    var p := Place(Add(value, period), s.lastTime, value, period);
    SetActiveBooks(s, t, true, t, plan, period);
    if p == ProcessNow {
      var s2 := RunCallback(s1, t, due, user);
      CallbackBooks(s1, t, due, user, t, period);
      PostStartBooks(s2, t, Add(value, period), due, t, period);
      StepOn(plan, CallsOf(s.log, t), multiset{due}, multiset{}, TimerOf(s, t).autoReload, period, due);
    } else {
      PutBooks(s1, p, t, Add(value, period), due, t, period);
      assert With(multiset{}, true, due) == multiset{due};
    }
  }

  lemma SetActiveBooks(s: State, u: TimerId, active: bool, t: TimerId, plan: Plan, period: Tick)
    ensures var r := SetActive(s, u, active);
            && Ahead(r, t, period) == Ahead(s, t, period)
            && (Suits(s.timers, t, plan, period) ==> Suits(r.timers, t, plan, period))
  {
  }

  /** Commands about other timers change nothing for this one. */
  lemma OtherCommand(s: State, c: Command, user: Posts, t: TimerId, plan: Plan, period: Tick)
    requires OnSchedule(s, t, plan, period) && PostsNotAbout(user, t) && c.timer != t
    ensures c.Start? ==> var r := HandleStart(s, c.timer, c.value, c.issued, user);
                         !r.trapped ==> OnSchedule(r, t, plan, period)
    ensures c.ChangePeriod? ==> var r := HandleChangePeriod(s, c.timer, c.value);
                                !r.trapped ==> OnSchedule(r, t, plan, period)
    ensures c.Stop? || c.Delete? ==> OnSchedule(SetActive(s, c.timer, false), t, plan, period)
  {
    hide CallsOf; hide Ahead; hide RunCallback; hide PostStart; hide Insert; hide Place; hide InStep;
    SetActiveBooks(s, c.timer, true, t, plan, period);
    SetActiveBooks(s, c.timer, false, t, plan, period);
    match c
    case Start(u, value, issued) =>
      var s1, span := SetActive(s, u, true), TimerOf(s, u).period;
      var p := Place(Add(value, span), s.lastTime, value, span);
      CallbackBooks(s1, u, issued + span, user, t, period);
      PostStartBooks(RunCallback(s1, u, issued + span, user), u, Add(value, span), issued + span, t, period);
      if p != ProcessNow {
        PutBooks(s1, p, u, Add(value, span), issued + span, t, period);
      }
    case ChangePeriod(u, span) =>
      var s1 := s.(timers := s.timers[u := TimerOf(s, u).(active := true, period := span)]);
      var p := Place(Add(s.lastTime, span), s.lastTime, s.lastTime, span);
      SameListsSameBooks(s, s1, t, period);
      if p != ProcessNow {
        PutBooks(s1, p, u, Add(s.lastTime, span), s.clock + span, t, period);
      }
    case Stop(u) =>
    case Delete(u) =>
  }

  lemma SameListsSameBooks(s: State, s1: State, t: TimerId, period: int)
    requires s.current == s1.current && s.overflow == s1.overflow && s.queue == s1.queue
    ensures Ahead(s, t, period) == Ahead(s1, t, period)
  {
  }

  lemma OwnCommandOnSchedule(s: State, now: int, user: Posts, t: TimerId, plan: Plan, period: Tick)
    requires s.queue != [] && PostsNotAbout(user, t) && OnSchedule(s, t, plan, period)
    requires s.queue[0].timer == t
    ensures var r := HandleCommand(s, now, user); !r.trapped ==> OnSchedule(r, t, plan, period)
  {
    hide CallsOf; hide Sample; hide HandleStart; hide Ahead;
    var c := s.queue[0];
    var s0 := Remove(s.(queue := s.queue[1..]), t);
    var s1 := Sample(s0, now, user);
    OwnStart(s, c, t, plan, period);
    SampleOnSchedule(s0, now, user, t, Silent(CallsOf(s.log, t)), period);
    if !s1.trapped {
      HandleStartOnSchedule(s1, t, c.issued, c.value, user, plan, period);
    }
  }

  lemma HandleCommandOnSchedule(s: State, now: int, user: Posts, t: TimerId, plan: Plan, period: Tick)
    requires s.queue != [] && PostsNotAbout(user, t) && OnSchedule(s, t, plan, period)
    ensures var r := HandleCommand(s, now, user); !r.trapped ==> OnSchedule(r, t, plan, period)
  {
    hide CallsOf; hide InStep; hide Sample; hide HandleStart; hide HandleChangePeriod;
    var c := s.queue[0];
    var s0 := Remove(s.(queue := s.queue[1..]), c.timer);
    var s1 := Sample(s0, now, user);
    if c.timer == t {
      OwnCommandOnSchedule(s, now, user, t, plan, period);
    } else {
      DuesWithout(s.current, c.timer, t);
      DuesWithout(s.overflow, c.timer, t);
      assert Ahead(s0, t, period) == Ahead(s, t, period);
      SampleOnSchedule(s0, now, user, t, plan, period);
      if !s1.trapped {
        OtherCommand(s1, c, user, t, plan, period);
      }
    }
  }

  lemma TakeTurnOnSchedule(s: State, now: int, user: Posts, t: TimerId, plan: Plan, period: Tick)
    requires !s.trapped && PostsNotAbout(user, t) && OnSchedule(s, t, plan, period)
    ensures var r := TakeTurn(s, now, user); !r.trapped ==> OnSchedule(r, t, plan, period)
  {
    hide OnSchedule; hide ExpireHead; hide SwitchLists;
    SampleOnSchedule(s, now, user, t, plan, period);
    if TurnOf(s, now, user) == Expired {
      ExpireHeadOnSchedule(Sample(s, now, user), NextExpireTime(s), Wrapped(now), user, t, plan, period);
    }
  }

  // ------------------------------------------------------------------------ whole runs

  /** Nobody else touches timer `t`: no command about it, no change of its reload mode. */
  ghost predicate LeavesAlone(a: Action, t: TimerId) {
    match a
    case Post(commands) => NotAbout(commands, t)
    case SetReloadMode(u, autoReload) => u != t
    case TurnAt(now) => true
    case ReceiveAt(now) => true
  }

  lemma StepOnSchedule(s: State, a: Action, user: Posts, t: TimerId, plan: Plan, period: Tick)
    requires OnSchedule(s, t, plan, period) && LeavesAlone(a, t) && PostsNotAbout(user, t)
    ensures var r := Step(s, a, user); !r.trapped ==> OnSchedule(r, t, plan, period)
  {
    hide CallsOf; hide InStep; hide TakeTurn; hide HandleCommand; hide Accept;
    match a
    case Post(commands) => AcceptBooks(s, commands, t, period);
    case SetReloadMode(u, autoReload) => SameListsSameBooks(s, Step(s, a, user), t, period);
    case TurnAt(now) =>
      if !s.trapped {
        TakeTurnOnSchedule(s, now, user, t, plan, period);
      }
    case ReceiveAt(now) =>
      if s.queue != [] {
        HandleCommandOnSchedule(s, now, user, t, plan, period);
      }
  }

  /** Through every run in which nobody touches the timer it follows its plan: a repeating
      timer's callback runs exactly for start + period, start + 2 * period, ..., once
      each and in this order; a one-shot timer's runs once, for start + period; a timer
      with nothing ahead never runs. */
  lemma {:induction false} RunOnSchedule(s: State, actions: seq<Action>, user: Posts,
                                         t: TimerId, plan: Plan, period: Tick)
    requires OnSchedule(s, t, plan, period) && PostsNotAbout(user, t) && !s.trapped
    requires forall a :: a in actions ==> LeavesAlone(a, t)
    ensures var r := Run(s, actions, user); !r.trapped ==> OnSchedule(r, t, plan, period)
    decreases |actions|
  {
    if actions != [] {
      hide OnSchedule; hide Step;
      StepOnSchedule(s, actions[0], user, t, plan, period);
      var s1 := Step(s, actions[0], user);
      if s1.trapped {
        TrappedStays(s1, actions[1..], user);
      } else {
        RunOnSchedule(s1, actions[1..], user, t, plan, period);
      }
    }
  }

  /** Whenever the daemon, having emptied its queue, is about to sleep at `now`, the
      expiries handled since the start are exactly those up to `now`: none lost, none
      early. */
  lemma CaughtUpBeforeSleep(s: State, now: int, user: Posts, t: TimerId, before: seq<int>, start: int, period: Tick)
    requires Inv(s) && NoneEarly(s, s.clock) && !s.trapped && OkPosts(user) && TimelySample(s, now)
    requires OnSchedule(s, t, Repeats(before, start), period) && s.queue == [] && TurnOf(s, now, user).Blocks?
    ensures var n := |CallsOf(s.log, t)| - |before|;
            && n >= 0 && CallsOf(s.log, t) == before + Schedule(start, period, n)
            && (forall k :: 1 <= k <= n ==> start + k * period <= now)
            && now < start + (n + 1) * period
  {
    NeverOversleeps(s, now, user);
    var n := |CallsOf(s.log, t)| - |before|;
    NthIsLinear(start, period, n + 1);
    NextIsArmed(s, t, before, start, period);
    HandledBy(s.log, t, before, start, period, n, now);
    hide Schedule; hide Nth; hide CallsOf; hide Inv; hide TurnOf;
  }

  lemma {:induction false} RunSplits(s: State, first: seq<Action>, rest: seq<Action>, user: Posts)
    ensures Run(s, first + rest, user) == Run(Run(s, first, user), rest, user)
    decreases |first|
  {
    hide Step;
    if first == [] {
      assert first + rest == rest;
    } else {
      RunSplits(Step(s, first[0], user), first[1..], rest, user);
      assert (first + rest)[1..] == first[1..] + rest;
    }
  }

  lemma StartStep(s: State, t: TimerId, issued: int, user: Posts, period: Tick)
    requires OnSchedule(s, t, Silent([]), period) && |s.queue| < QUEUE_LENGTH && !s.trapped && TimerOf(s, t).autoReload
    ensures var r := Step(s, Post([Start(t, Wrapped(issued), issued)]), user);
            !r.trapped && OnSchedule(r, t, Repeats([], issued), period)
  {
    StartSetsPlan(s, t, [], period, issued);
    hide OnSchedule; hide Accept;
  }

  /** The start sets the plan, and nobody gets in its way. */
  lemma StartedTimerOnSchedule(s: State, pre: seq<Action>, issued: int, post: seq<Action>, user: Posts, t: TimerId)
    requires Initial(s) && PostsNotAbout(user, t)
    requires forall a :: a in pre ==> LeavesAlone(a, t)
    requires forall a :: a in post ==> LeavesAlone(a, t)
    requires var idle := Run(s, pre, user); |idle.queue| < QUEUE_LENGTH && TimerOf(idle, t).autoReload
    requires !Run(s, pre + ([Post([Start(t, Wrapped(issued), issued)])] + post), user).trapped
    ensures var r := Run(s, pre + ([Post([Start(t, Wrapped(issued), issued)])] + post), user);
            OnSchedule(r, t, Repeats([], issued), TimerOf(s, t).period)
  {
    var start, period := Post([Start(t, Wrapped(issued), issued)]), TimerOf(s, t).period;
    var idle := Run(s, pre, user);
    InitiallySilent(s, t);
    assert !s.trapped;
    hide Initial; hide OnSchedule; hide LeavesAlone; hide Step; hide PostsNotAbout; hide TimerOf;
    RunOnSchedule(s, pre, user, t, Silent([]), period);
    RunSplits(s, pre, [start] + post, user);
    RunSplits(idle, [start], post, user);
    if idle.trapped {
      TrappedStays(idle, [start] + post, user);
      assert false;
    }
    hide Run;
    StartStep(idle, t, issued, user, period);
    OneStep(idle, start, user);
    RunOnSchedule(Run(idle, [start], user), post, user, t, Repeats([], issued), period);
  }

  /** From the initial state to the n-th expiry: whatever happens before and after, as long
      as nobody else touches the timer, an auto-reload timer started at `issued` has run,
      when the daemon goes to sleep at `now`, for exactly issued + period, issued + 2 *
      period, ... up to `now`. */
  lemma StartedTimerKeepsTime(s: State, pre: seq<Action>, issued: int, post: seq<Action>, now: int,
                              user: Posts, t: TimerId)
    requires Initial(s) && OkPosts(user) && PostsNotAbout(user, t)
    requires forall a :: a in pre || a in post ==> LeavesAlone(a, t)
    requires TimelyRun(s, pre + ([Post([Start(t, Wrapped(issued), issued)])] + post), user)
    requires var idle := Run(s, pre, user); |idle.queue| < QUEUE_LENGTH && TimerOf(idle, t).autoReload
    requires var r := Run(s, pre + ([Post([Start(t, Wrapped(issued), issued)])] + post), user);
             !r.trapped && r.queue == [] && TimelySample(r, now) && TurnOf(r, now, user).Blocks?
    ensures var r := Run(s, pre + ([Post([Start(t, Wrapped(issued), issued)])] + post), user);
            var n, period := |CallsOf(r.log, t)|, TimerOf(s, t).period;
            && CallsOf(r.log, t) == Schedule(issued, period, n)
            && (forall k :: 1 <= k <= n ==> issued + k * period <= now)
            && now < issued + (n + 1) * period
  {
    var actions := pre + ([Post([Start(t, Wrapped(issued), issued)])] + post);
    var r := Run(s, actions, user);
    ReachableInv(s, actions, user);
    StartedTimerOnSchedule(s, pre, issued, post, user, t);
    hide Run; hide Initial; hide OnSchedule; hide Inv; hide TurnOf; hide TimelyRun; hide TimelySample;
    hide NoneEarly; hide OkPosts; hide PostsNotAbout; hide CallsOf; hide Schedule; hide TimerOf; hide LeavesAlone;
    CaughtUpBeforeSleep(r, now, user, t, [], issued, TimerOf(s, t).period);
    Nothing(Schedule(issued, TimerOf(s, t).period, |CallsOf(r.log, t)|));
  }

  lemma OneStep(s: State, a: Action, user: Posts)
    ensures Run(s, [a], user) == Step(s, a, user)
  {
    assert [a][1..] == [];
    assert Run(Step(s, a, user), [], user) == Step(s, a, user);
    hide Step;
  }

  /** With no command on the way the next expiry is on one of the lists. */
  lemma NextIsArmed(s: State, t: TimerId, before: seq<int>, start: int, period: Tick)
    requires OnSchedule(s, t, Repeats(before, start), period) && s.queue == []
    ensures var due := Nth(start, period, |CallsOf(s.log, t)| - |before| + 1);
            exists x :: (x in s.current || x in s.overflow) && x.owner.due == due
  {
    var due := Nth(start, period, |CallsOf(s.log, t)| - |before| + 1);
    assert due in Armings(s, t);
    hide OnSchedule; hide Nth; hide CallsOf;
    if due in Dues(s.current, t) { DuesHas(s.current, t, due); } else { DuesHas(s.overflow, t, due); }
  }

  lemma HandledBy(log: seq<Call>, t: TimerId, before: seq<int>, start: int, period: int, n: nat, now: int)
    requires CallsOf(log, t) == before + Schedule(start, period, n)
    requires forall c :: c in log ==> c.due <= now
    ensures forall k :: 1 <= k <= n ==> start + k * period <= now
  {
    forall k | 1 <= k <= n ensures start + k * period <= now {
      NthIsLinear(start, period, k);
      ScheduleAt(start, period, n, k);
      CallsMember(log, t, |before| + k - 1);
    }
  }

  lemma {:induction false} ScheduleAt(start: int, period: int, n: nat, k: nat)
    requires 1 <= k <= n
    ensures Schedule(start, period, n)[k - 1] == Nth(start, period, k)
  {
    if k < n {
      ScheduleAt(start, period, n - 1, k);
    }
  }

  lemma {:induction false} CallsMember(log: seq<Call>, t: TimerId, i: nat)
    requires i < |CallsOf(log, t)|
    ensures Call(t, CallsOf(log, t)[i]) in log
  {
    var last := log[|log| - 1];
    if last.timer != t || i < |CallsOf(log, t)| - 1 {
      CallsMember(log[..|log| - 1], t, i);
    }
  }
}

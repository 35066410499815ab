/** The assertion in `prvSwitchTimerLists` that the command queue has room, and exactly when
    it fails. */
module TimerLimits {
  import opened Ticks
  import opened ListSpec
  import opened TimerSpec
  import opened TimerInvariant

  // ----------------------------------------------------- room in the command queue

  /** How many auto-reload timers a list holds. */
  function Reloading(timers: map<TimerId, Timer>, l: TimerList): nat {
    if l == [] then 0
    else (if Lookup(timers, l[0].owner.timer).autoReload then 1 else 0) + Reloading(timers, l[1..])
  }

  lemma {:induction false} ReloadingInsert(timers: map<TimerId, Timer>, l: TimerList, x: Item<Armed>)
    ensures Reloading(timers, Insert(l, x))
         == Reloading(timers, l) + if Lookup(timers, x.owner.timer).autoReload then 1 else 0
  {
    if l != [] && l[0].value <= x.value {
      ReloadingInsert(timers, l[1..], x);
      assert Insert(l, x)[1..] == Insert(l[1..], x);
    } else {
      assert Insert(l, x)[1..] == l;
    }
  }

  /** The list after one turn of the drain: the lists and the timers alone decide it. */
  function AfterTurn(timers: map<TimerId, Timer>, l: TimerList): TimerList
    requires l != []
  {
    var e, timer := l[0], Lookup(timers, l[0].owner.timer);
    var reload := Add(e.value, timer.period);
    if timer.autoReload && reload > e.value
    then Insert(l[1..], Item(reload, Armed(e.owner.timer, e.owner.due + timer.period)))
    else l[1..]
  }

  lemma AfterTurnProgress(timers: map<TimerId, Timer>, l: TimerList)
    requires l != []
    ensures Remaining(AfterTurn(timers, l)) < Remaining(l)
  {
    var e, timer := l[0], Lookup(timers, l[0].owner.timer);
    RemainingInsert(l[1..], Item(Add(e.value, timer.period), Armed(e.owner.timer, e.owner.due + timer.period)));
  }

  /** How many commands the callbacks of a drain post up to and including the one before the
      drain's last reload command; `n` callbacks have run before.  While an auto-reload timer
      is on the list, a reload command is still to come. */
  function PostsToLastReload(timers: map<TimerId, Timer>, l: TimerList, n: nat, user: Posts): nat
    decreases Remaining(l)
  {
    if Reloading(timers, l) == 0 then 0
    else
      AfterTurnProgress(timers, l);
      |user(n)| + PostsToLastReload(timers, AfterTurn(timers, l), n + 1, user)
  }

  lemma PostsOfTurn(timers: map<TimerId, Timer>, l: TimerList, n: nat, user: Posts)
    requires l != []
    ensures PostsToLastReload(timers, l, n, user)
         == if Reloading(timers, l) == 0 then 0
            else |user(n)| + PostsToLastReload(timers, AfterTurn(timers, l), n + 1, user)
    ensures Reloading(timers, AfterTurn(timers, l)) == 0 ==>
              PostsToLastReload(timers, AfterTurn(timers, l), n + 1, user) == 0
  {
    AfterTurnProgress(timers, l);
    hide AfterTurn; hide Reloading; hide Remaining;
  }

  /** The queue has no room for the commands waiting, one for each auto-reload timer on the
      list, and those posted before the last of these. */
  predicate Overfull(s: State, user: Posts) {
    && Reloading(s.timers, s.current) > 0
    && |s.queue| + Reloading(s.timers, s.current) + PostsToLastReload(s.timers, s.current, |s.log|, user) > QUEUE_LENGTH
  }

  lemma {:induction false} AcceptFills(s: State, cs: seq<Command>)
    requires |s.queue| <= QUEUE_LENGTH
    ensures |Accept(s, cs).queue| == if |s.queue| + |cs| <= QUEUE_LENGTH then |s.queue| + |cs| else QUEUE_LENGTH
    decreases |cs|
  {
    if cs != [] {
      AcceptFills(if |s.queue| < QUEUE_LENGTH then s.(queue := s.queue + [cs[0]]) else s, cs[1..]);
    }
  }

  /** One turn of the drain either puts an auto-reload timer back or turns it into a
      queued command, behind what its callback has posted. */
  lemma DrainHeadRoom(s: State, user: Posts)
    requires s.current != [] && |s.queue| <= QUEUE_LENGTH && !s.trapped
    ensures var r := DrainHead(s, user);
            var room := |s.queue| + |user(|s.log|)|;
            var filled := if room <= QUEUE_LENGTH then room else QUEUE_LENGTH;
            var command := Reloading(s.timers, s.current) - Reloading(s.timers, AfterTurn(s.timers, s.current));
            && r.current == AfterTurn(s.timers, s.current) && r.timers == s.timers && |r.log| == |s.log| + 1
            && 0 <= command <= 1
            && (r.trapped <==> command == 1 && filled == QUEUE_LENGTH)
            && (!r.trapped ==> |r.queue| == filled + command)
  {
    var Armed(t, due) := s.current[0].owner;
    var period := TimerOf(s, t).period;
    AcceptFills(s.(current := s.current[1..], log := s.log + [Call(t, due)]), user(|s.log|));
    hide Accept;
    ReloadingInsert(s.timers, s.current[1..], Item(Add(s.current[0].value, period), Armed(t, due + period)));
    hide Insert;
  }

  /** At an overflow of the tick count the daemon stops at a failed assertion exactly when
      the queue has no room, whatever the callbacks post. */
  lemma {:induction false} DrainTrapsExactlyWhenFull(s: State, user: Posts)
    requires |s.queue| <= QUEUE_LENGTH && !s.trapped
    ensures Drain(s, user).trapped <==> Overfull(s, user)
    decreases Remaining(s.current)
  {
    if s.current != [] {
      var s1 := DrainHead(s, user);
      DrainHeadRoom(s, user);
      DrainProgress(s, user);
      PostsOfTurn(s.timers, s.current, |s.log|, user);
      hide DrainHead; hide AfterTurn; hide Reloading; hide PostsToLastReload; hide Insert; hide Remaining;
      assert Drain(s, user) == Drain(s1, user);
      if !s1.trapped {
        DrainTrapsExactlyWhenFull(s1, user);
      }
    } else {
      assert Reloading(s.timers, s.current) == 0;
    }
  }

  /** So does sampling the time: only at an overflow, and then by the same condition. */
  lemma SampleTrapsExactlyWhenFull(s: State, now: int, user: Posts)
    requires Inv(s) && !s.trapped
    ensures Sample(s, now, user).trapped <==> Wrapped(now) < s.lastTime && Overfull(s, user)
  {
    DrainTrapsExactlyWhenFull(s, user);
    hide Drain; hide Overfull;
  }

  ghost predicate Quiet(user: Posts) {
    forall n :: user(n) == []
  }

  lemma {:induction false} QuietPostsNothing(timers: map<TimerId, Timer>, l: TimerList, n: nat, user: Posts)
    requires Quiet(user)
    ensures PostsToLastReload(timers, l, n, user) == 0
    decreases Remaining(l)
  {
    if Reloading(timers, l) > 0 {
      AfterTurnProgress(timers, l);
      QuietPostsNothing(timers, AfterTurn(timers, l), n + 1, user);
    }
  }

  /** If callbacks post nothing, the sum of waiting commands and auto-reload timers decides. */
  lemma QuietDrainTraps(s: State, user: Posts)
    requires Quiet(user) && |s.queue| <= QUEUE_LENGTH && !s.trapped
    ensures Drain(s, user).trapped <==> |s.queue| + Reloading(s.timers, s.current) > QUEUE_LENGTH
  {
    DrainTrapsExactlyWhenFull(s, user);
    QuietPostsNothing(s.timers, s.current, |s.log|, user);
    hide Drain; hide Reloading;
  }

  /** With one auto-reload timer and six commands waiting there is room for the timer's
      command, but not if its callback posts one of its own. */
  function SixWaiting(): State {
    State(map[0 := Timer(MAX_DELAY, true, true)], [Item(10, Armed(0, 10))], [],
          [Stop(1), Stop(1), Stop(1), Stop(1), Stop(1), Stop(1)], 5, 5, [], false)
  }

  lemma SixWaitingInv()
    ensures Inv(SixWaiting())
  {
    var s := SixWaiting();
    assert forall t :: Dues(s.current[1..], t) == multiset{};
    assert forall t :: Dues(s.current, t) == With(multiset{}, 0 == t, 10);
    assert forall t :: |Dues(s.current, t)| + |Dues(s.overflow, t)| <= 1;
  }

  lemma OnePostTraps(user: Posts, now: int)
    requires Wrapped(now) < 5
    ensures Inv(SixWaiting())
    ensures Sample(SixWaiting(), now, user).trapped <==> user(0) != []
  {
    var s := SixWaiting();
    SixWaitingInv();
    SampleTrapsExactlyWhenFull(s, now, user);
    hide Inv; hide Sample;
    assert AfterTurn(s.timers, s.current) == [];
    assert Reloading(s.timers, s.current[1..]) == 0;
    assert PostsToLastReload(s.timers, [], 1, user) == 0;
    AfterTurnProgress(s.timers, s.current);
    assert PostsToLastReload(s.timers, s.current, 0, user) == |user(0)| + PostsToLastReload(s.timers, [], 1, user);
  }

  // --------------------------------------------------------------- every assertion

  /** A normal expiry stops the daemon: the timer's next expiry is past as well, and the
      queue is full. */
  predicate ExpiryStops(s: State, now: int) {
    && s.current != [] && s.current[0].value <= Wrapped(now)
    && var Armed(t, due) := s.current[0].owner;
       TimerOf(s, t).autoReload && due + TimerOf(s, t).period <= now && |s.queue| == QUEUE_LENGTH
  }

  /** A command stops the daemon, at the time it is handled: a start of an auto-reload timer
      whose expiry is past, where the callback's commands leave no room for the next start;
      or a period of zero. */
  predicate CommandStops(s: State, c: Command, now: int, user: Posts) {
    match c
    case Start(t, _, issued) =>
      && TimerOf(s, t).autoReload && issued + TimerOf(s, t).period <= now
      && |s.queue| + |user(|s.log|)| >= QUEUE_LENGTH
    case ChangePeriod(_, period) => period == 0
    case Stop(_) => false
    case Delete(_) => false
  }

  /** The command at the head of the queue, taken off, and its timer off its list. */
  function Received(s: State): State
    requires s.queue != []
  {
    Remove(s.(queue := s.queue[1..]), s.queue[0].timer)
  }

  /** When a step fails an assertion: in the drain at an overflow, or without one, or behind
      one that went well, in an expiry or a command. */
  predicate Stops(s: State, a: Action, user: Posts) {
    match a
    case Post(_) => false
    case SetReloadMode(_, _) => false
    case TurnAt(now) => if Wrapped(now) < s.lastTime then Overfull(s, user) else ExpiryStops(s, now)
    case ReceiveAt(now) =>
      && s.queue != []
      && ((Wrapped(now) < s.lastTime && Overfull(Received(s), user))
          || CommandStops(Sample(Received(s), now, user), s.queue[0], now, user))
  }

  lemma ExpiryStopsExactly(s: State, now: int, user: Posts)
    requires Inv(s) && !s.trapped && OkPosts(user) && TimelySample(s, now) && Wrapped(now) >= s.lastTime
    ensures TakeTurn(s, now, user).trapped <==> ExpiryStops(s, now)
  {
    hide ListsOk; hide TimersOk; hide QueueOk; hide Accept; hide Insert; hide Drain;
    SampleInv(s, now, user);
    var s1 := Sample(s, now, user);
    assert s1 == s.(lastTime := Wrapped(now), clock := now);
    if s1.current != [] && s1.current[0].value <= Wrapped(now) {
      PopInv(s1);
      HeadIsDue(s1);
      QueueFits(s1);
      RearmInv(s1.(current := s1.current[1..]), s1.current[0].owner.timer, s1.current[0].owner.due);
      hide Place; hide Inv;
    }
  }

  lemma QueueFits(s: State)
    requires Inv(s)
    ensures |s.queue| <= QUEUE_LENGTH
  {
  }

  lemma CallbackFills(s: State, t: TimerId, due: int, user: Posts)
    requires |s.queue| <= QUEUE_LENGTH
    ensures |RunCallback(s, t, due, user).queue| < QUEUE_LENGTH <==> |s.queue| + |user(|s.log|)| < QUEUE_LENGTH
  {
    AcceptFills(s.(log := s.log + [Call(t, due)]), user(|s.log|));
    hide Accept;
  }

  lemma StartStopsExactly(s: State, t: TimerId, issued: int, user: Posts)
    requires Inv(s) && !s.trapped && OkPosts(user) && Armings(s, t) == multiset{}
    requires issued <= s.clock < issued + WRAP
    ensures HandleStart(s, t, Wrapped(issued), issued, user).trapped
       <==> CommandStops(s, Start(t, Wrapped(issued), issued), s.clock, user)
  {
    hide ListsOk; hide TimersOk; hide QueueOk; hide Insert;
    var s1 := SetActive(s, t, true);
    SetActiveInv(s, t, true);
    assert Armings(s1, t) == multiset{} && TimerOf(s1, t).period == TimerOf(s, t).period;
    hide Inv; hide Armings;
    RearmInv(s1, t, issued);
    QueueFits(s1);
    CallbackFills(s1, t, issued + TimerOf(s, t).period, user);
    hide Place; hide RunCallback;
  }

  lemma CommandStopsExactly(s: State, now: int, user: Posts)
    requires Inv(s) && !s.trapped && OkPosts(user) && s.queue != [] && TimelyReceive(s, now)
    requires !Sample(Received(s), now, user).trapped
    ensures HandleCommand(s, now, user).trapped
       <==> CommandStops(Sample(Received(s), now, user), s.queue[0], now, user)
  {
    hide ListsOk; hide TimersOk; hide Sample; hide HandleStart; hide Without; hide Insert; hide Place;
    var c := s.queue[0];
    assert c in s.queue;
    assert Inv(s.(queue := s.queue[1..]));
    RemoveInv(s.(queue := s.queue[1..]), c.timer);
    SampleInv(Received(s), now, user);
    if c.Start? {
      StartStopsExactly(Sample(Received(s), now, user), c.timer, c.issued, user);
    }
  }

  lemma ReceivedInv(s: State)
    requires Inv(s) && s.queue != []
    ensures Inv(Received(s)) && Received(s).trapped == s.trapped && Received(s).lastTime == s.lastTime
  {
    hide ListsOk; hide TimersOk; hide Without;
    assert Inv(s.(queue := s.queue[1..]));
    RemoveInv(s.(queue := s.queue[1..]), s.queue[0].timer);
  }

  /** Every assertion of the daemon, over every step it or the application can take in time:
      the step stops the daemon if and only if the condition holds. */
  lemma StepStopsExactlyWhen(s: State, a: Action, user: Posts)
    requires Inv(s) && !s.trapped && OkPosts(user) && Timely(s, a)
    ensures Step(s, a, user).trapped <==> Stops(s, a, user)
  {
    hide Inv; hide TakeTurn; hide HandleCommand; hide Sample; hide Overfull; hide Accept; hide Received;
    hide ExpiryStops; hide CommandStops; hide TimelyReceive;
    match a
    case Post(commands) =>
    case SetReloadMode(t, autoReload) =>
    case TurnAt(now) =>
      if Wrapped(now) < s.lastTime {
        SampleTrapsExactlyWhenFull(s, now, user);
        TurnAtOverflow(s, now, user);
      } else {
        ExpiryStopsExactly(s, now, user);
      }
    case ReceiveAt(now) =>
      if s.queue != [] {
        ReceivedInv(s);
        SampleTrapsExactlyWhenFull(Received(s), now, user);
        if Sample(Received(s), now, user).trapped {
          SampleFails(s, now, user);
        } else {
          CommandStopsExactly(s, now, user);
        }
      }
  }

  lemma TurnAtOverflow(s: State, now: int, user: Posts)
    requires Wrapped(now) < s.lastTime
    ensures TakeTurn(s, now, user) == Sample(s, now, user)
  {
    hide Sample;
  }

  lemma SampleFails(s: State, now: int, user: Posts)
    requires s.queue != [] && Sample(Received(s), now, user).trapped
    ensures HandleCommand(s, now, user).trapped
  {
    hide Sample;
  }
}

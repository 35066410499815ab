/** What each step of the daemon does: whom it calls, what it leaves armed and queued, and
    what it leaves alone. */
module TimerEffects {
  import opened Ticks
  import opened ListSpec
  import opened Sequences
  import opened TimerSpec
  import opened TimerInvariant
  import opened TimerSchedule
  import opened TimerLimits
  import opened TimerDormancy

  // ------------------------------------------------------------------ small effects

  /** The queue after commands were sent to it: those that found room, in their order. */
  function Taken(queue: seq<Command>, cs: seq<Command>): seq<Command> {
    queue + if |queue| + |cs| <= QUEUE_LENGTH then cs
            else if |queue| <= QUEUE_LENGTH then cs[..QUEUE_LENGTH - |queue|]
            else []
  }

  lemma TakenOne(queue: seq<Command>, cs: seq<Command>)
    requires cs != [] && |queue| < QUEUE_LENGTH
    ensures Taken(queue + [cs[0]], cs[1..]) == Taken(queue, cs)
  {
  }

  lemma {:induction false} AcceptTakes(s: State, cs: seq<Command>)
    requires |s.queue| <= QUEUE_LENGTH
    ensures Accept(s, cs) == s.(queue := Taken(s.queue, cs))
    decreases |cs|
  {
    if cs == [] {
      Nothing(s.queue);
    } else if |s.queue| < QUEUE_LENGTH {
      AcceptTakes(s.(queue := s.queue + [cs[0]]), cs[1..]);
      TakenOne(s.queue, cs);
      hide Taken;
    } else {
      AcceptTakes(s, cs[1..]);
      Nothing(s.queue);
    }
  }

  /** A callback is one entry in the log, and its commands in the queue. */
  lemma CallbackEffect(s: State, t: TimerId, due: int, user: Posts)
    requires |s.queue| <= QUEUE_LENGTH
    ensures var r := RunCallback(s, t, due, user);
            && r == s.(log := s.log + [Call(t, due)], queue := Taken(s.queue, user(|s.log|)))
            && SameFor(s, r, t) && OthersSame(s, r, t)
  {
    AcceptTakes(s.(log := s.log + [Call(t, due)]), user(|s.log|));
    NobodyTouched(s, RunCallback(s, t, due, user), t);
    hide Accept; hide Taken; hide SameFor; hide OthersSame;
  }

  /** Step from s to r has left timer u alone. */
  ghost predicate SameFor(s: State, r: State, u: TimerId) {
    Armings(r, u) == Armings(s, u) && TimerOf(r, u) == TimerOf(s, u)
  }

  /** And all timers but t. */
  ghost predicate OthersSame(s: State, r: State, t: TimerId) {
    forall u :: u != t ==> SameFor(s, r, u)
  }

  lemma OthersStaySame(a: State, b: State, c: State, t: TimerId)
    requires OthersSame(a, b, t) && OthersSame(b, c, t)
    ensures OthersSame(a, c, t)
  {
    forall u | u != t ensures SameFor(a, c, u) {
      assert SameFor(a, b, u) && SameFor(b, c, u);
    }
    hide Armings; hide TimerOf;
  }

  /** States that differ in neither lists nor timers. */
  lemma NobodyTouched(s: State, r: State, t: TimerId)
    requires r.current == s.current && r.overflow == s.overflow && r.timers == s.timers
    ensures SameFor(s, r, t) && OthersSame(s, r, t)
  {
    hide Dues;
  }

  /** Taking the head off disarms it. */
  lemma PopEffect(s: State)
    requires Inv(s) && s.current != []
    ensures var t := s.current[0].owner.timer;
            && Armings(Popped(s), t) == multiset{} && TimerOf(Popped(s), t) == TimerOf(s, t)
            && OthersSame(s, Popped(s), t) && Popped(s) == s.(current := s.current[1..])
  {
    PopInv(s);
    hide Inv;
  }

  /** Arming a timer that is on no list. */
  lemma PutEffect(s: State, p: Placement, t: TimerId, expiry: Tick, due: int)
    requires p != ProcessNow && Armings(s, t) == multiset{}
    ensures var r := Put(s, p, t, expiry, due);
            && Armings(r, t) == multiset{due} && TimerOf(r, t) == TimerOf(s, t) && OthersSame(s, r, t)
            && r == s.(current := r.current, overflow := r.overflow)
  {
    var r := Put(s, p, t, expiry, due);
    forall u ensures Armings(r, u) == With(Armings(s, u), u == t, due) {
      hide Insert;
      DuesInsert(s.current, Item(expiry, Armed(t, due)), u);
      DuesInsert(s.overflow, Item(expiry, Armed(t, due)), u);
    }
    hide Armings; hide Insert;
    assert With(multiset{}, true, due) == multiset{due};
  }

  lemma SetActiveEffect(s: State, t: TimerId, active: bool)
    ensures var r := SetActive(s, t, active);
            && TimerOf(r, t) == TimerOf(s, t).(active := active) && Armings(r, t) == Armings(s, t)
            && OthersSame(s, r, t) && r == s.(timers := r.timers)
  {
    hide Dues;
  }

  /** The daemon's own start command, if it finds room. */
  lemma AskEffect(s: State, t: TimerId, due: int)
    ensures var r := PostStart(s, t, Wrapped(due), due);
            && r == s.(queue := r.queue, trapped := r.trapped)
            && (!r.trapped ==> r.queue == s.queue + [Start(t, Wrapped(due), due)])
            && SameFor(s, r, t) && OthersSame(s, r, t)
  {
    NobodyTouched(s, PostStart(s, t, Wrapped(due), due), t);
    hide SameFor; hide OthersSame;
  }

  // ------------------------------------------------------------------- normal expiry

  /** What an expiry for `due` leaves of its timer, which `s` has off its lists, and of the
      others: re-armed for one period on, or, if that is past as well, asked for by a
      command; or retired. */
  ghost predicate ReloadAnswer(s: State, r: State, t: TimerId, due: int, now: int) {
    var timer := TimerOf(s, t);
    var next := due + timer.period;
    && r.log == s.log && r.clock == s.clock && r.trapped == s.trapped
    && Armings(r, t) == (if timer.autoReload && next > now then multiset{next} else multiset{})
    && TimerOf(r, t) == (if timer.autoReload then timer else timer.(active := false))
    && r.queue == s.queue + (if timer.autoReload && next <= now then [Start(t, Wrapped(due), due)] else [])
    && OthersSame(s, r, t)
  }

  lemma RetireAnswers(s: State, t: TimerId, due: int, now: int)
    requires Armings(s, t) == multiset{} && !TimerOf(s, t).autoReload
    ensures ReloadAnswer(s, SetActive(s, t, false), t, due, now)
  {
    SetActiveEffect(s, t, false);
    Nothing(s.queue);
    hide SetActive; hide TimerOf; hide Armings; hide OthersSame;
  }

  lemma PutAnswers(s: State, p: Placement, t: TimerId, expiry: Tick, due: int, now: int)
    requires Armings(s, t) == multiset{} && TimerOf(s, t).autoReload
    requires p != ProcessNow && due + TimerOf(s, t).period > now
    ensures ReloadAnswer(s, Put(s, p, t, expiry, due + TimerOf(s, t).period), t, due, now)
  {
    PutEffect(s, p, t, expiry, due + TimerOf(s, t).period);
    Nothing(s.queue);
    hide Put; hide TimerOf; hide Armings; hide OthersSame;
  }

  lemma AskAnswers(s: State, t: TimerId, due: int, now: int)
    requires Armings(s, t) == multiset{} && TimerOf(s, t).autoReload && due + TimerOf(s, t).period <= now
    requires !s.trapped && !PostStart(s, t, Wrapped(due), due).trapped
    ensures ReloadAnswer(s, PostStart(s, t, Wrapped(due), due), t, due, now)
  {
    AskEffect(s, t, due);
    hide PostStart; hide TimerOf; hide Armings; hide OthersSame;
  }

  lemma ReloadAnswers(s: State)
    requires Inv(s) && !s.trapped && s.current != [] && s.current[0].owner.due <= s.clock
    requires !Reload(s, s.current[0].value, s.lastTime).trapped
    ensures ReloadAnswer(Popped(s), Reload(s, s.current[0].value, s.lastTime),
                         s.current[0].owner.timer, s.current[0].owner.due, s.clock)
  {
    var Armed(t, due) := s.current[0].owner;
    HeadIsDue(s);
    PopInv(s);
    PopEffect(s);
    hide Inv; hide Popped; hide ReloadAnswer; hide Armings; hide TimerOf; hide Reload; hide OthersSame;
    if TimerOf(s, t).autoReload {
      RearmAnswers(Popped(s), t, due);
      ReloadRearms(s, t, due);
    } else {
      RetireAnswers(Popped(s), t, due, s.clock);
      ReloadRetires(s);
    }
  }

  /** Re-arming or asking, whichever the placement says. */
  ghost function Rearmed(s: State, t: TimerId, due: int): State {
    var period := TimerOf(s, t).period;
    var p := Place(Add(Wrapped(due), period), s.lastTime, Wrapped(due), period);
    if p == ProcessNow then PostStart(s, t, Wrapped(due), due)
    else Put(s, p, t, Add(Wrapped(due), period), due + period)
  }

  lemma RearmPlaces(s: State, t: TimerId, due: int)
    requires Inv(s) && !s.trapped && Armings(s, t) == multiset{} && TimerOf(s, t).active
    requires due <= s.clock < due + WRAP
    ensures var period := TimerOf(s, t).period;
            Place(Add(Wrapped(due), period), s.lastTime, Wrapped(due), period) == ProcessNow <==> due + period <= s.clock
  {
    RearmInv(s, t, due);
    hide *;
  }

  lemma RearmAnswers(s: State, t: TimerId, due: int)
    requires Inv(s) && !s.trapped && Armings(s, t) == multiset{} && TimerOf(s, t).active && TimerOf(s, t).autoReload
    requires due <= s.clock < due + WRAP && !Rearmed(s, t, due).trapped
    ensures ReloadAnswer(s, Rearmed(s, t, due), t, due, s.clock)
  {
    RearmPlaces(s, t, due);
    hide Inv; hide Place; hide Armings; hide ReloadAnswer; hide Put; hide PostStart; hide TimerOf;
    var period := TimerOf(s, t).period;
    var p := Place(Add(Wrapped(due), period), s.lastTime, Wrapped(due), period);
    if p == ProcessNow {
      AskAnswers(s, t, due, s.clock);
    } else {
      PutAnswers(s, p, t, Add(Wrapped(due), period), due, s.clock);
    }
  }

  lemma PoppedIs(s: State, t: TimerId)
    requires s.current != []
    ensures Popped(s) == s.(current := s.current[1..]) && TimerOf(Popped(s), t) == TimerOf(s, t)
  {
  }

  lemma ReloadRearms(s: State, t: TimerId, due: int)
    requires s.current != [] && s.current[0].owner == Armed(t, due) && s.current[0].value == Wrapped(due)
    requires TimerOf(s, t).autoReload
    ensures Reload(s, s.current[0].value, s.lastTime) == Rearmed(Popped(s), t, due)
  {
    PoppedIs(s, t);
    hide Place; hide Put; hide PostStart; hide TimerOf; hide Popped;
  }

  lemma ReloadRetires(s: State)
    requires s.current != [] && !TimerOf(s, s.current[0].owner.timer).autoReload
    ensures Reload(s, s.current[0].value, s.lastTime) == SetActive(Popped(s), s.current[0].owner.timer, false)
  {
    PoppedIs(s, s.current[0].owner.timer);
    hide SetActive; hide TimerOf; hide Popped; hide Place;
  }

  /** A turn that meets a due head runs its callback, once; behind what the reload has done
      come the callback's own commands. */
  ghost predicate ExpiryAnswer(s: State, r: State, now: int, user: Posts)
    requires s.current != []
  {
    var Armed(t, due) := s.current[0].owner;
    var timer := TimerOf(s, t);
    var next := due + timer.period;
    && r.log == s.log + [Call(t, due)]
    && Armings(r, t) == (if timer.autoReload && next > now then multiset{next} else multiset{})
    && TimerOf(r, t) == (if timer.autoReload then timer else timer.(active := false))
    && r.queue == Taken(s.queue + (if timer.autoReload && next <= now then [Start(t, Wrapped(due), due)] else []),
                        user(|s.log|))
    && OthersSame(s, r, t)
  }

  lemma ExpireHeadIs(s: State, user: Posts)
    requires s.current != [] && !ExpireHead(s, s.current[0].value, s.lastTime, user).trapped
    ensures var s1 := Reload(s, s.current[0].value, s.lastTime);
            && !s1.trapped
            && ExpireHead(s, s.current[0].value, s.lastTime, user)
            == RunCallback(s1, s.current[0].owner.timer, s.current[0].owner.due, user)
  {
    hide Reload; hide RunCallback;
  }

  /** The reload's answer and the callback's effect make up the expiry's. */
  lemma ReloadThenCall(s: State, s0: State, s1: State, r: State, now: int, user: Posts)
    requires s.current != [] && s0 == s.(current := s0.current)
    requires ReloadAnswer(s0, s1, s.current[0].owner.timer, s.current[0].owner.due, now)
    requires TimerOf(s0, s.current[0].owner.timer) == TimerOf(s, s.current[0].owner.timer)
    requires OthersSame(s, s0, s.current[0].owner.timer)
    requires r == s1.(log := s1.log + [Call(s.current[0].owner.timer, s.current[0].owner.due)],
                      queue := Taken(s1.queue, user(|s1.log|)))
    ensures ExpiryAnswer(s, r, now, user)
  {
    var t := s.current[0].owner.timer;
    NobodyTouched(s1, r, t);
    hide Armings; hide TimerOf; hide Taken; hide OthersSame;
    OthersStaySame(s, s0, s1, t);
    OthersStaySame(s, s1, r, t);
  }

  lemma ReloadFits(s: State)
    requires Inv(s) && !s.trapped && s.current != [] && s.current[0].value <= s.lastTime
    requires !Reload(s, s.current[0].value, s.lastTime).trapped
    ensures |Reload(s, s.current[0].value, s.lastTime).queue| <= QUEUE_LENGTH
  {
    ReloadInv(s);
    QueueFits(Reload(s, s.current[0].value, s.lastTime));
    hide Inv; hide Reload;
  }

  lemma ExpiryAnswers(s: State, user: Posts)
    requires Inv(s) && !s.trapped && OkPosts(user)
    requires s.current != [] && s.current[0].value <= s.lastTime && s.current[0].owner.due <= s.clock
    requires !ExpireHead(s, s.current[0].value, s.lastTime, user).trapped
    ensures ExpiryAnswer(s, ExpireHead(s, s.current[0].value, s.lastTime, user), s.clock, user)
  {
    var Armed(t, due) := s.current[0].owner;
    var s1 := Reload(s, s.current[0].value, s.lastTime);
    ExpireHeadIs(s, user);
    hide ExpireHead; hide Reload; hide Inv;
    ReloadFits(s);
    ReloadAnswers(s);
    PopEffect(s);
    CallbackEffect(s1, t, due, user);
    hide *;
    ReloadThenCall(s, Popped(s), s1, ExpireHead(s, s.current[0].value, s.lastTime, user), s.clock, user);
  }

  lemma SampleStands(s: State, now: int, user: Posts)
    requires Inv(s) && !s.trapped && OkPosts(user) && TimelySample(s, now) && Wrapped(now) >= s.lastTime
    ensures var s1 := s.(lastTime := Wrapped(now), clock := now);
            Sample(s, now, user) == s1 && Inv(s1)
  {
    SampleInv(s, now, user);
    hide Inv; hide Drain; hide Dues;
  }

  /** The current list shows what is due. */
  lemma HeadShows(s: State, now: int)
    requires Inv(s.(lastTime := Wrapped(now), clock := now)) && s.current != []
    ensures s.current[0].value <= Wrapped(now) <==> s.current[0].owner.due <= now
  {
    HeadIsDue(s.(lastTime := Wrapped(now), clock := now));
    hide Inv;
  }

  lemma TurnIsExpiry(s: State, now: int, user: Posts)
    requires Inv(s) && !s.trapped && OkPosts(user) && TimelySample(s, now) && Wrapped(now) >= s.lastTime
    requires s.current != [] && s.current[0].owner.due <= now
    ensures TurnOf(s, now, user) == Expired
    ensures var s1 := s.(lastTime := Wrapped(now), clock := now);
            && Inv(s1) && s1.current[0].value <= s1.lastTime
            && Step(s, TurnAt(now), user) == ExpireHead(s1, s1.current[0].value, s1.lastTime, user)
  {
    SampleStands(s, now, user);
    HeadShows(s, now);
    hide Inv; hide ExpireHead; hide Sample;
  }

  /** The answer does not depend on when the time was last sampled. */
  lemma SampledAnswer(s: State, s1: State, r: State, now: int, user: Posts)
    requires s1 == s.(lastTime := s1.lastTime, clock := s1.clock) && s.current != []
    requires ExpiryAnswer(s1, r, now, user)
    ensures ExpiryAnswer(s, r, now, user)
  {
    var t := s.current[0].owner.timer;
    NobodyTouched(s, s1, t);
    assert TimerOf(s1, t) == TimerOf(s, t);
    hide OthersSame; hide Armings; hide TimerOf; hide Taken;
    OthersStaySame(s, s1, r, t);
  }

  /** Over a turn of the daemon's own loop: it meets a due head, if there is one. */
  lemma TurnMeetsDueHead(s: State, now: int, user: Posts)
    requires Inv(s) && !s.trapped && OkPosts(user) && TimelySample(s, now) && Wrapped(now) >= s.lastTime
    requires s.current != [] && s.current[0].owner.due <= now
    ensures TurnOf(s, now, user) == Expired
    ensures !Step(s, TurnAt(now), user).trapped ==> ExpiryAnswer(s, Step(s, TurnAt(now), user), now, user)
  {
    var s1 := s.(lastTime := Wrapped(now), clock := now);
    TurnIsExpiry(s, now, user);
    hide Inv; hide ExpireHead; hide Step; hide TurnOf; hide ExpiryAnswer;
    if !Step(s, TurnAt(now), user).trapped {
      ExpiryAnswers(s1, user);
      SampledAnswer(s, s1, Step(s, TurnAt(now), user), now, user);
    }
  }

  /** With nothing due the turn does nothing but look at the time. */
  lemma QuietTurnAnswers(s: State, now: int, user: Posts)
    requires Inv(s) && !s.trapped && OkPosts(user) && TimelySample(s, now) && Wrapped(now) >= s.lastTime
    requires s.current == [] || s.current[0].owner.due > now
    ensures TurnOf(s, now, user).Blocks?
    ensures Step(s, TurnAt(now), user) == s.(lastTime := Wrapped(now), clock := now)
  {
    SampleStands(s, now, user);
    if s.current != [] {
      HeadShows(s, now);
    }
    hide Inv; hide ExpireHead; hide Sample;
  }

  /** At an overflow the turn drains the list, and no more: the timers of the other list are
      next, and wait for the next turn. */
  lemma SwitchedTurnAnswers(s: State, now: int, user: Posts)
    requires !s.trapped && Wrapped(now) < s.lastTime && !Step(s, TurnAt(now), user).trapped
    ensures var r, d := Step(s, TurnAt(now), user), Drain(s, user);
            && TurnOf(s, now, user) == Switched && d.current == []
            && r == d.(current := s.overflow, overflow := [], lastTime := Wrapped(now), clock := now)
  {
    hide DrainHead;
  }

  // ------------------------------------------------------------ turns until the sleep

  /** The calls that the due timers of a list are owed, in its order. */
  function DueCalls(l: TimerList, now: int): seq<Call> {
    if l == [] || l[0].owner.due > now then []
    else [Call(l[0].owner.timer, l[0].owner.due)] + DueCalls(l[1..], now)
  }

  lemma {:induction false} DueCallsInsert(l: TimerList, x: Item<Armed>, now: int)
    requires x.owner.due > now && forall y :: y in l && y.owner.due <= now ==> y.value <= x.value
    ensures DueCalls(Insert(l, x), now) == DueCalls(l, now)
  {
    if l != [] && l[0].value <= x.value {
      assert l[0] in l && Insert(l, x)[1..] == Insert(l[1..], x);
      DueCallsInsert(l[1..], x, now);
    } else {
      assert l == [] || l[0] in l;
    }
  }

  /** n turns at one time. */
  function Turns(s: State, now: int, user: Posts, n: nat): State
    decreases n
  {
    if n == 0 then s else Turns(Step(s, TurnAt(now), user), now, user, n - 1)
  }

  lemma {:induction false} TrappedTurns(s: State, now: int, user: Posts, n: nat)
    requires s.trapped
    ensures Turns(s, now, user, n) == s
    decreases n
  {
    if n > 0 {
      TrappedTurns(s, now, user, n - 1);
    }
  }

  lemma FirstIsDue(l: TimerList, now: int)
    requires l != [] && l[0].owner.due <= now
    ensures DueCalls(l, now) != [] && DueCalls(l, now)[1..] == DueCalls(l[1..], now)
  {
  }

  /** An expiry takes the head off the calls that are owed, and adds none. */
  lemma ExpiryPaysOne(s: State, user: Posts)
    requires Inv(s) && s.current != [] && s.current[0].owner.due <= s.clock
    ensures DueCalls(s.current, s.clock) != []
    ensures DueCalls(ExpireHead(s, s.current[0].value, s.lastTime, user).current, s.clock)
         == DueCalls(s.current, s.clock)[1..]
  {
    hide *;
    var Armed(t, due) := s.current[0].owner;
    var period := TimerOf(s, t).period;
    var x := Item(Add(s.current[0].value, period), Armed(t, due + period));
    HeadIsDue(s);
    TimeOfClock(s);
    FirstIsDue(s.current, s.clock);
    ReloadedList(s, user);
    if Place(x.value, s.lastTime, s.current[0].value, period) == IntoCurrent {
      LaterHere(due, period, s.clock);
      LaterIsGreater(s, x);
      DueCallsInsert(s.current[1..], x, s.clock);
    }
  }

  lemma LaterHere(due: int, period: Tick, clock: int)
    requires due <= clock < due + WRAP && period > 0
    requires Place(Add(Wrapped(due), period), Wrapped(clock), Wrapped(due), period) == IntoCurrent
    ensures Add(Wrapped(due), period) == Wrapped(due + period)
    ensures due + period > clock && Epoch(due + period) == Epoch(clock)
  {
    PlaceIsExact(due, period, clock);
    Later(due, due + period);
    hide Place;
  }

  lemma TimeOfClock(s: State)
    requires Inv(s)
    ensures s.lastTime == Wrapped(s.clock)
  {
  }

  lemma ReloadedList(s: State, user: Posts)
    requires s.current != []
    ensures var Armed(t, due) := s.current[0].owner;
            var period := TimerOf(s, t).period;
            var x := Item(Add(s.current[0].value, period), Armed(t, due + period));
            var l := ExpireHead(s, s.current[0].value, s.lastTime, user).current;
            || l == s.current[1..]
            || (&& l == Insert(s.current[1..], x)
                && Place(x.value, s.lastTime, s.current[0].value, period) == IntoCurrent)
  {
    hide Insert; hide Accept; hide Place;
  }

  /** What is due now stands before what is due later in the same epoch. */
  lemma LaterIsGreater(s: State, x: Item<Armed>)
    requires Inv(s) && s.current != []
    requires x.value == Wrapped(x.owner.due) && Epoch(x.owner.due) == Epoch(s.clock) && x.owner.due > s.clock
    ensures forall y :: y in s.current[1..] && y.owner.due <= s.clock ==> y.value <= x.value
  {
    forall y | y in s.current[1..] && y.owner.due <= s.clock ensures y.value <= x.value {
      assert y in s.current;
      SameEpochOrder(y.owner.due, x.owner.due);
    }
  }

  lemma TurnPaysOne(s: State, now: int, user: Posts)
    requires Inv(s) && NoneEarly(s, s.clock) && !s.trapped && OkPosts(user) && TimelySample(s, now)
    requires Wrapped(now) >= s.lastTime && DueCalls(s.current, now) != []
    ensures var r, owed := Step(s, TurnAt(now), user), DueCalls(s.current, now);
            !r.trapped ==>
              && Inv(r) && NoneEarly(r, r.clock) && r.clock == now && r.lastTime == Wrapped(now)
              && r.log == s.log + [owed[0]] && DueCalls(r.current, now) == owed[1..]
  {
    var s1 := s.(lastTime := Wrapped(now), clock := now);
    var r := Step(s, TurnAt(now), user);
    TurnMeetsDueHead(s, now, user);
    TurnIsExpiry(s, now, user);
    TakeTurnInv(s, now, user);
    ExpiryPaysOne(s1, user);
    assert DueCalls(s.current, now)[0] == Call(s.current[0].owner.timer, s.current[0].owner.due);
    assert r == TakeTurn(s, now, user);
    hide ExpireHead; hide Sample; hide DueCalls; hide TimerOf; hide NoneEarly; hide TakeTurn;
    if !r.trapped {
      TimeOfClock(r);
      assert ExpiryAnswer(s, r, now, user);
    }
    hide Inv; hide Step; hide Taken; hide Armings; hide OthersSame;
  }

  /** With nothing due on its list and no overflow the daemon goes to sleep. */
  lemma NothingDueBlocks(s: State, now: int, user: Posts)
    requires Inv(s) && !s.trapped && OkPosts(user) && TimelySample(s, now) && Wrapped(now) >= s.lastTime
    requires DueCalls(s.current, now) == []
    ensures TurnOf(s, now, user).Blocks?
  {
    SampleStands(s, now, user);
    if s.current != [] {
      HeadShows(s, now);
    }
    hide Inv;
  }

  /** Turn by turn the daemon calls all timers of its list that are due, in the order of the
      list, and none else; then it sleeps. */
  lemma {:induction false} TurnsPayAll(s: State, now: int, user: Posts)
    requires Inv(s) && NoneEarly(s, s.clock) && !s.trapped && OkPosts(user) && TimelySample(s, now)
    requires Wrapped(now) >= s.lastTime
    ensures var owed := DueCalls(s.current, now);
            var r := Turns(s, now, user, |owed|);
            !r.trapped ==> r.log == s.log + owed && TurnOf(r, now, user).Blocks?
    decreases |DueCalls(s.current, now)|
  {
    var owed := DueCalls(s.current, now);
    hide Inv; hide DueCalls; hide NoneEarly; hide OkPosts;
    if owed == [] {
      Nothing(s.log);
      NothingDueBlocks(s, now, user);
    } else {
      var s1 := Step(s, TurnAt(now), user);
      TurnPaysOne(s, now, user);
      hide Step; hide TurnOf;
      if s1.trapped {
        TrappedTurns(s1, now, user, |owed| - 1);
      } else {
        TurnsPayAll(s1, now, user);
        HeadAndTail(owed);
        Join(s.log, [owed[0]], owed[1..]);
      }
    }
  }

  // --------------------------------------------------------------- a turn of the drain

  /** A turn of the drain calls the head, once; its next expiry is armed if it lies in the
      epoch that is being drained, and asked for behind the callback's own commands if not.
      Nobody else is touched. */
  ghost predicate DrainAnswer(s: State, r: State, user: Posts)
    requires s.current != []
  {
    var Armed(t, due) := s.current[0].owner;
    var timer := TimerOf(s, t);
    var next := due + timer.period;
    var here := timer.autoReload && Epoch(next) == Epoch(s.clock);
    && r.log == s.log + [Call(t, due)] && r.timers == s.timers && r.overflow == s.overflow
    && Armings(r, t) == (if here then multiset{next} else multiset{})
    && r.queue == Taken(s.queue, user(|s.log|))
                  + (if timer.autoReload && !here then [Start(t, Wrapped(due), due)] else [])
    && OthersSame(s, r, t)
  }

  /** The same as a value: the head off, its callback, and then back on or asked for. */
  lemma DrainHeadIs(s: State, user: Posts)
    requires s.current != []
    ensures var Armed(t, due) := s.current[0].owner;
            var period := TimerOf(s, t).period;
            var s1 := RunCallback(Popped(s), t, due, user);
            var reload := Add(s.current[0].value, period);
            DrainHead(s, user)
            == if !TimerOf(s, t).autoReload then s1
               else if reload > s.current[0].value then Put(s1, IntoCurrent, t, reload, due + period)
               else PostStart(s1, t, s.current[0].value, due)
  {
    hide RunCallback; hide TimerOf; hide PostStart; hide Insert;
  }

  lemma SameEpochIsNoWrap(due: int, period: Tick)
    requires period > 0
    ensures Add(Wrapped(due), period) > Wrapped(due) <==> Epoch(due + period) == Epoch(due)
  {
    Later(due, due + period);
  }

  /** Behind the callback: the head called and off the list, nobody else touched. */
  ghost predicate CalledOff(s: State, r: State, t: TimerId, due: int, user: Posts) {
    && r.log == s.log + [Call(t, due)] && r.timers == s.timers && r.overflow == s.overflow
    && r.queue == Taken(s.queue, user(|s.log|)) && r.trapped == s.trapped
    && Armings(r, t) == multiset{} && OthersSame(s, r, t)
  }

  lemma CallsOff(s: State, user: Posts)
    requires Inv(s) && s.current != []
    ensures var Armed(t, due) := s.current[0].owner;
            CalledOff(s, RunCallback(Popped(s), t, due, user), t, due, user)
  {
    var Armed(t, due) := s.current[0].owner;
    QueueFits(s);
    PopEffect(s);
    CallbackEffect(Popped(s), t, due, user);
    hide Inv; hide Armings; hide RunCallback; hide Taken; hide Popped; hide OthersSame; hide TimerOf;
    OthersStaySame(s, Popped(s), RunCallback(Popped(s), t, due, user), t);
  }

  lemma BackOnAnswers(s: State, s1: State, t: TimerId, due: int, reload: Tick, user: Posts)
    requires s.current != [] && s.current[0].owner == Armed(t, due) && CalledOff(s, s1, t, due, user)
    requires TimerOf(s, t).autoReload && Epoch(due + TimerOf(s, t).period) == Epoch(s.clock)
    ensures DrainAnswer(s, Put(s1, IntoCurrent, t, reload, due + TimerOf(s, t).period), user)
  {
    var r := Put(s1, IntoCurrent, t, reload, due + TimerOf(s, t).period);
    PutEffect(s1, IntoCurrent, t, reload, due + TimerOf(s, t).period);
    Nothing(s1.queue);
    assert r.overflow == s1.overflow;
    hide Put; hide Armings; hide TimerOf; hide Taken; hide OthersSame;
    OthersStaySame(s, s1, r, t);
  }

  lemma AskedAnswers(s: State, s1: State, t: TimerId, due: int, user: Posts)
    requires s.current != [] && s.current[0].owner == Armed(t, due) && CalledOff(s, s1, t, due, user)
    requires TimerOf(s, t).autoReload && Epoch(due + TimerOf(s, t).period) != Epoch(s.clock)
    requires !PostStart(s1, t, Wrapped(due), due).trapped
    ensures DrainAnswer(s, PostStart(s1, t, Wrapped(due), due), user)
  {
    var r := PostStart(s1, t, Wrapped(due), due);
    AskEffect(s1, t, due);
    hide PostStart; hide Armings; hide TimerOf; hide Taken; hide OthersSame;
    OthersStaySame(s, s1, r, t);
  }

  lemma OffAnswers(s: State, s1: State, t: TimerId, due: int, user: Posts)
    requires s.current != [] && s.current[0].owner == Armed(t, due) && CalledOff(s, s1, t, due, user)
    requires !TimerOf(s, t).autoReload
    ensures DrainAnswer(s, s1, user)
  {
    Nothing(s1.queue);
    hide Armings; hide TimerOf; hide Taken; hide OthersSame;
  }

  /** The head's times, as the drain sees them. */
  lemma HeadReloads(s: State)
    requires Inv(s) && s.current != []
    ensures var Armed(t, due) := s.current[0].owner;
            && s.current[0].value == Wrapped(due)
            && (Add(s.current[0].value, TimerOf(s, t).period) > s.current[0].value
                <==> Epoch(due + TimerOf(s, t).period) == Epoch(s.clock))
  {
    HeadIsDue(s);
    SameEpochIsNoWrap(s.current[0].owner.due, TimerOf(s, s.current[0].owner.timer).period);
    hide Inv;
  }

  lemma DrainAnswers(s: State, user: Posts)
    requires Inv(s) && !s.trapped && s.current != [] && !DrainHead(s, user).trapped
    ensures DrainAnswer(s, DrainHead(s, user), user)
  {
    HeadReloads(s);
    CallsOff(s, user);
    DrainHeadIs(s, user);
    hide *;
    var Armed(t, due) := s.current[0].owner;
    var reload := Add(s.current[0].value, TimerOf(s, t).period);
    var s1 := RunCallback(Popped(s), t, due, user);
    if !TimerOf(s, t).autoReload {
      OffAnswers(s, s1, t, due, user);
    } else if reload > s.current[0].value {
      BackOnAnswers(s, s1, t, due, reload, user);
    } else {
      AskedAnswers(s, s1, t, due, user);
    }
  }

  /** Every timer armed for now or before is among the calls that are owed, and no other. */
  lemma {:induction false} DueCallsAreAll(l: TimerList, epoch: int, now: int)
    requires Sorted(l) && InEpoch(l, epoch) && Epoch(now) == epoch
    ensures forall c :: c in DueCalls(l, now) <==> c.due <= now && Item(Wrapped(c.due), Armed(c.timer, c.due)) in l
  {
    if l != [] {
      var rest := l[1..];
      assert l == [l[0]] + rest && l[0] in l;
      DueCallsAreAll(rest, epoch, now);
      forall x | x in rest ensures l[0].owner.due <= x.owner.due {
        SameEpochOrder(l[0].owner.due, x.owner.due);
      }
    }
  }

  // ---------------------------------------------------------------- the application

  /** Commands that are posted find their places in the queue, and nothing else happens. */
  lemma PostAnswers(s: State, commands: seq<Command>, user: Posts)
    requires !s.trapped && |s.queue| <= QUEUE_LENGTH
    ensures Step(s, Post(commands), user) == s.(queue := Taken(s.queue, commands))
  {
    AcceptTakes(s, commands);
    hide Accept; hide Taken;
  }

  /** A change of the reload mode is one of this timer's mode alone. */
  lemma ReloadModeAnswers(s: State, t: TimerId, autoReload: bool, user: Posts)
    requires !s.trapped
    ensures var r := Step(s, SetReloadMode(t, autoReload), user);
            && TimerOf(r, t) == TimerOf(s, t).(autoReload := autoReload) && Armings(r, t) == Armings(s, t)
            && OthersSame(s, r, t) && r == s.(timers := r.timers)
  {
    hide Dues;
  }
}

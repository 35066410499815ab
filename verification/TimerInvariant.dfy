/** What every reachable state of the timer daemon satisfies, and what follows
    for its decisions and its sleep. */
module TimerInvariant {
  import opened Ticks
  import opened ListSpec
  import opened TimerSpec

  // -------------------------------------------------------------- the decision

  /** `prvInsertTimerInActiveList` sees three wrapped ticks, yet decides exactly as
      the absolute times demand. */
  lemma PlaceIsExact(issued: int, period: Tick, now: int)
    requires issued <= now < issued + WRAP && period > 0
    ensures var p := Place(Add(Wrapped(issued), period), Wrapped(now), Wrapped(issued), period);
            var due := issued + period;
            && (p == ProcessNow <==> due <= now)
            && (p == IntoCurrent <==> due > now && Epoch(due) == Epoch(now))
            && (p == IntoOverflow <==> due > now && Epoch(due) == Epoch(now) + 1)
  {
    Later(issued, now);
    Later(issued, issued + period);
    if issued + period > now { Later(now, issued + period); } else { Later(issued + period, now); }
  }

  /** The bound on the lateness is needed: a command handled exactly 2^32 ticks late
      is taken for a fresh one, whatever its time and period. */
  lemma PlaceNeedsTimeliness(issued: int, period: Tick)
    requires period > 0
    ensures Place(Add(Wrapped(issued), period), Wrapped(issued + WRAP), Wrapped(issued), period) != ProcessNow
  {
    PlaceIsExact(issued, period, issued);
  }

  // ------------------------------------------------------------- the invariant

  ghost predicate InEpoch(l: TimerList, epoch: int) {
    forall x :: x in l ==> x.value == Wrapped(x.owner.due) && Epoch(x.owner.due) == epoch
  }

  /** The expiry times for which a list holds timer `t`. */
  ghost function Dues(l: TimerList, t: TimerId): multiset<int> {
    if l == [] then multiset{} else With(Dues(l[1..], t), l[0].owner.timer == t, l[0].owner.due)
  }

  /** `m` and, where it belongs, one more `d`. */
  ghost function With(m: multiset<int>, belongs: bool, d: int): multiset<int> {
    if belongs then m + multiset{d} else m
  }

  /** The expiry times for which timer `t` is armed. */
  ghost function Armings(s: State, t: TimerId): multiset<int> {
    Dues(s.current, t) + Dues(s.overflow, t)
  }

  ghost predicate ListsOk(current: TimerList, overflow: TimerList, epoch: int) {
    && InEpoch(current, epoch) && Sorted(current)
    && InEpoch(overflow, epoch + 1) && Sorted(overflow)
    // no list item is ever linked twice
    && (forall t :: |Dues(current, t)| + |Dues(overflow, t)| <= 1)
  }

  ghost predicate TimersOk(timers: map<TimerId, Timer>, current: TimerList, overflow: TimerList) {
    && (forall x :: x in current ==> Lookup(timers, x.owner.timer).active)
    && (forall x :: x in overflow ==> Lookup(timers, x.owner.timer).active)
    && (forall t :: Lookup(timers, t).period > 0)
  }

  ghost predicate OkCommand(c: Command) {
    c.Start? ==> c.value == Wrapped(c.issued)
  }

  ghost predicate QueueOk(queue: seq<Command>) {
    |queue| <= QUEUE_LENGTH && forall c :: c in queue ==> OkCommand(c)
  }

  ghost predicate Inv(s: State) {
    && s.lastTime == Wrapped(s.clock)
    && ListsOk(s.current, s.overflow, Epoch(s.clock))
    && TimersOk(s.timers, s.current, s.overflow)
    && QueueOk(s.queue)
  }

  /** No callback has run for an expiry later than `horizon`. */
  ghost predicate NoneEarly(s: State, horizon: int) {
    forall c :: c in s.log ==> c.due <= horizon
  }

  ghost predicate OkPosts(user: Posts) {
    forall n, c :: c in user(n) ==> OkCommand(c)
  }

  // ------------------------------------------------------------ list operations

  lemma InsertMembers(l: TimerList, x: Item<Armed>)
    ensures forall y :: y in Insert(l, x) <==> y in l || y == x
  {
    InsertSplits(l, x);
    var k := InsertPosition(l, x.value);
    assert l == l[..k] + l[k..];
  }

  lemma {:induction false} DuesInsert(l: TimerList, x: Item<Armed>, t: TimerId)
    ensures Dues(Insert(l, x), t) == With(Dues(l, t), x.owner.timer == t, x.owner.due)
  {
    if l != [] && l[0].value <= x.value {
      DuesInsert(l[1..], x, t);
      assert Insert(l, x)[1..] == Insert(l[1..], x);
    } else {
      assert Insert(l, x)[1..] == l;
    }
  }

  lemma {:induction false} DuesWithout(l: TimerList, out: TimerId, t: TimerId)
    ensures Dues(Without(l, out), t) == if t == out then multiset{} else Dues(l, t)
  {
    if l != [] {
      DuesWithout(l[1..], out, t);
    }
  }

  lemma {:induction false} WithoutSorted(l: TimerList, out: TimerId)
    requires Sorted(l)
    ensures Sorted(Without(l, out))
  {
    if l != [] {
      WithoutSorted(l[1..], out);
      forall x | x in Without(l[1..], out) ensures l[0].value <= x.value {
        var i :| 0 <= i < |l[1..]| && l[1..][i] == x;
        assert x == l[i + 1];
      }
    }
  }

  lemma {:induction false} DuesMember(l: TimerList, x: Item<Armed>)
    requires x in l
    ensures x.owner.due in Dues(l, x.owner.timer)
  {
    if l[0] != x {
      DuesMember(l[1..], x);
    }
  }

  lemma {:induction false} DuesHas(l: TimerList, t: TimerId, d: int)
    requires d in Dues(l, t)
    ensures exists x :: x in l && x.owner == Armed(t, d)
  {
    if l[0].owner != Armed(t, d) {
      DuesHas(l[1..], t, d);
      var x :| x in l[1..] && x.owner == Armed(t, d);
      assert x in l;
    } else {
      assert l[0] in l;
    }
  }

  // ------------------------------------------------------------ single operations

  lemma {:induction false} AcceptInv(s: State, cs: seq<Command>)
    requires Inv(s) && forall c :: c in cs ==> OkCommand(c)
    ensures Inv(Accept(s, cs))
    decreases |cs|
  {
    if cs != [] {
      AcceptInv(if |s.queue| < QUEUE_LENGTH then s.(queue := s.queue + [cs[0]]) else s, cs[1..]);
    }
  }

  lemma RunCallbackInv(s: State, t: TimerId, due: int, user: Posts)
    requires Inv(s) && OkPosts(user)
    ensures Inv(RunCallback(s, t, due, user))
  {
    AcceptInv(s.(log := s.log + [Call(t, due)]), user(|s.log|));
  }

  /** Taking the head off the current list frees its timer. */
  lemma PopInv(s: State)
    requires Inv(s) && s.current != []
    ensures var s' := s.(current := s.current[1..]);
            Inv(s') && Armings(s', s.current[0].owner.timer) == multiset{}
  {
    var l := s.current;
    var t := l[0].owner.timer;
    assert forall x :: x in l[1..] ==> x in l;
    forall u ensures |Dues(l[1..], u)| + |Dues(s.overflow, u)| <= 1 {
      assert |Dues(l, u)| + |Dues(s.overflow, u)| <= 1;
    }
    assert |Dues(l, t)| == |Dues(l[1..], t)| + 1;
    assert |Dues(l[1..], t)| + |Dues(s.overflow, t)| == 0;
  }

  /** Arming a timer that is on no list, in the list its expiry belongs to. */
  lemma PutInv(s: State, p: Placement, t: TimerId, expiry: Tick, due: int)
    requires Inv(s) && Armings(s, t) == multiset{} && TimerOf(s, t).active
    requires p != ProcessNow ==> expiry == Wrapped(due)
    requires p == IntoCurrent ==> Epoch(due) == Epoch(s.clock)
    requires p == IntoOverflow ==> Epoch(due) == Epoch(s.clock) + 1
    ensures Inv(Put(s, p, t, expiry, due))
  {
    var x := Item(expiry, Armed(t, due));
    var s' := Put(s, p, t, expiry, due);
    if p == IntoCurrent {
      PutListOk(s.current, x, Epoch(s.clock));
      ArmOnce(s.current, s.overflow, x);
      assert ListsOk(s'.current, s'.overflow, Epoch(s.clock));
    } else if p == IntoOverflow {
      PutListOk(s.overflow, x, Epoch(s.clock) + 1);
      ArmOnce(s.overflow, s.current, x);
      assert ListsOk(s'.current, s'.overflow, Epoch(s.clock));
    }
  }

  lemma PutListOk(l: TimerList, x: Item<Armed>, epoch: int)
    requires InEpoch(l, epoch) && Sorted(l)
    requires x.value == Wrapped(x.owner.due) && Epoch(x.owner.due) == epoch
    ensures InEpoch(Insert(l, x), epoch) && Sorted(Insert(l, x))
    ensures forall y :: y in Insert(l, x) <==> y in l || y == x
  {
    InsertKeepsSorted(l, x);
    InsertMembers(l, x);
  }

  lemma ArmOnce(l: TimerList, other: TimerList, x: Item<Armed>)
    requires forall t :: |Dues(l, t)| + |Dues(other, t)| <= 1
    requires Dues(l, x.owner.timer) + Dues(other, x.owner.timer) == multiset{}
    ensures forall t :: |Dues(Insert(l, x), t)| + |Dues(other, t)| <= 1
  {
    forall t ensures |Dues(Insert(l, x), t)| + |Dues(other, t)| <= 1 {
      DuesInsert(l, x, t);
      assert |Dues(l, t)| + |Dues(other, t)| <= 1;
      assert t == x.owner.timer ==> |Dues(l, t) + Dues(other, t)| == 0;
    }
  }

  lemma SetActiveInv(s: State, t: TimerId, active: bool)
    requires Inv(s) && (!active ==> Armings(s, t) == multiset{})
    ensures Inv(SetActive(s, t, active))
  {
    var s' := SetActive(s, t, active);
    assert forall u :: u != t ==> TimerOf(s', u) == TimerOf(s, u);
    assert TimerOf(s', t).period == TimerOf(s, t).period > 0;
    forall u ensures Lookup(s'.timers, u).period > 0 {
      assert Lookup(s.timers, u).period > 0;
    }
    forall x | x in s.current || x in s.overflow ensures Lookup(s'.timers, x.owner.timer).active {
      if x.owner.timer == t {
        if x in s.current { DuesMember(s.current, x); } else { DuesMember(s.overflow, x); }
        assert x.owner.due in Armings(s, t);
      }
    }
  }

  lemma RemoveInv(s: State, t: TimerId)
    requires Inv(s)
    ensures Inv(Remove(s, t))
    ensures Armings(Remove(s, t), t) == multiset{}
    ensures forall u :: u != t ==> Armings(Remove(s, t), u) == Armings(s, u)
  {
    WithoutSorted(s.current, t);
    WithoutSorted(s.overflow, t);
    forall u ensures Armings(Remove(s, t), u) == if u == t then multiset{} else Armings(s, u) {
      DuesWithout(s.current, t, u);
      DuesWithout(s.overflow, t, u);
    }
    forall u ensures |Dues(Without(s.current, t), u)| + |Dues(Without(s.overflow, t), u)| <= 1 {
      DuesWithout(s.current, t, u);
      DuesWithout(s.overflow, t, u);
      assert |Dues(s.current, u)| + |Dues(s.overflow, u)| <= 1;
    }
  }

  // ---------------------------------------------------------- the drain loop

  lemma DrainHeadInv(s: State, user: Posts)
    requires Inv(s) && !s.trapped && OkPosts(user) && s.current != []
    ensures var r := DrainHead(s, user);
            !r.trapped ==> Inv(r)
  {
    hide ListsOk; hide TimersOk; hide QueueOk;
    var e := s.current[0];
    var t := e.owner.timer;
    var s0 := s.(current := s.current[1..]);
    var s1 := RunCallback(s0, t, e.owner.due, user);
    PopInv(s);
    RunCallbackInv(s0, t, e.owner.due, user);
    ReloadStays(s, e);
    PostStartInv(s1, t, e.value, e.owner.due);
    var reload := Add(e.value, TimerOf(s, t).period);
    if TimerOf(s, t).autoReload && reload > e.value {
      assert Armings(s1, t) == Armings(s0, t);
      PutInv(s1, IntoCurrent, t, reload, e.owner.due + TimerOf(s, t).period);
    }
  }

  lemma ReloadStays(s: State, e: Item<Armed>)
    requires Inv(s) && e in s.current
    ensures var period := TimerOf(s, e.owner.timer).period;
            && e.value == Wrapped(e.owner.due) && TimerOf(s, e.owner.timer).active
            && (Add(e.value, period) > e.value ==>
                  && Add(e.value, period) == Wrapped(e.owner.due + period)
                  && Epoch(e.owner.due + period) == Epoch(s.clock))
  {
    var period := TimerOf(s, e.owner.timer).period;
    assert period > 0;
    Later(e.owner.due, e.owner.due + period);
  }

  lemma PostStartInv(s: State, t: TimerId, value: Tick, issued: int)
    requires Inv(s) && value == Wrapped(issued)
    ensures var r := PostStart(s, t, value, issued); !r.trapped ==> Inv(r)
  {
  }

  lemma DrainHeadArmings(s: State, user: Posts)
    requires s.current != []
    ensures forall t :: Armings(s, t) == multiset{} ==> Armings(DrainHead(s, user), t) == multiset{}
  {
    hide Insert; hide RunCallback;
    var e := s.current[0];
    var x := Item(Add(e.value, TimerOf(s, e.owner.timer).period),
                  Armed(e.owner.timer, e.owner.due + TimerOf(s, e.owner.timer).period));
    assert DrainHead(s, user).current == s.current[1..] || DrainHead(s, user).current == Insert(s.current[1..], x);
    hide DrainHead;
    assert e.owner.due in Armings(s, e.owner.timer);
    forall t | Armings(s, t) == multiset{} ensures Armings(DrainHead(s, user), t) == multiset{} {
      DuesInsert(s.current[1..], x, t);
    }
  }

  /** The drain loop runs the callback of the earliest timer, and what is left on the
      list then is due no earlier. */
  lemma DrainHeadOrder(s: State, user: Posts)
    requires Inv(s) && s.current != []
    ensures var r, e := DrainHead(s, user), s.current[0];
            && Epoch(e.owner.due) == Epoch(s.clock)
            && (forall x :: x in r.current ==> e.owner.due <= x.owner.due)
            && (forall x :: x in s.current && x != e ==> x in r.current)
  {
    hide Inv;
    var rest := s.current[1..];
    assert s.current == [s.current[0]] + rest;
    HeadIsEarliest(s);
    var Armed(t, due) := s.current[0].owner;
    var period := TimerOf(s, t).period;
    InsertMembers(rest, Item(Add(s.current[0].value, period), Armed(t, due + period)));
  }

  lemma HeadIsEarliest(s: State)
    requires Inv(s) && s.current != []
    ensures Epoch(s.current[0].owner.due) == Epoch(s.clock)
    ensures forall x :: x in s.current[1..] ==> s.current[0].owner.due <= x.owner.due
  {
    var e := s.current[0];
    assert e in s.current;
    forall x | x in s.current[1..] ensures e.owner.due <= x.owner.due {
      assert x in s.current;
      SameEpochOrder(e.owner.due, x.owner.due);
    }
  }

  /** Draining keeps the invariant and arms no timer that was not armed. */
  lemma {:induction false} DrainInv(s: State, user: Posts)
    requires Inv(s) && !s.trapped && OkPosts(user)
    ensures var r := Drain(s, user);
            && (!r.trapped ==> Inv(r))
            && (forall t :: Armings(s, t) == multiset{} ==> Armings(r, t) == multiset{})
    decreases Remaining(s.current)
  {
    hide ListsOk; hide TimersOk; hide QueueOk;
    if s.current != [] {
      DrainHeadInv(s, user);
      DrainHeadArmings(s, user);
      DrainProgress(s, user);
      if !DrainHead(s, user).trapped {
        DrainInv(DrainHead(s, user), user);
      }
    }
  }

  /** The calls a drain runs. */
  ghost function Drained(s: State, user: Posts): seq<Call>
    decreases Remaining(s.current)
  {
    if s.trapped || s.current == [] then []
    else
      DrainProgress(s, user);
      [Call(s.current[0].owner.timer, s.current[0].owner.due)] + Drained(DrainHead(s, user), user)
  }

  lemma {:induction false} DrainLog(s: State, user: Posts)
    ensures Drain(s, user).log == s.log + Drained(s, user)
    decreases Remaining(s.current)
  {
    hide DrainHead;
    if !s.trapped && s.current != [] {
      DrainProgress(s, user);
      DrainLog(DrainHead(s, user), user);
    }
  }

  /** In order of expiry, none before `from`, all in one epoch. */
  ghost predicate InOrder(calls: seq<Call>, from: int, epoch: int) {
    && (forall i, j :: 0 <= i < j < |calls| ==> calls[i].due <= calls[j].due)
    && (forall c :: c in calls ==> from <= c.due && Epoch(c.due) == epoch)
  }

  lemma CallFirst(c: Call, calls: seq<Call>, from: int, epoch: int)
    requires from <= c.due && Epoch(c.due) == epoch && InOrder(calls, c.due, epoch)
    ensures InOrder([c] + calls, from, epoch)
  {
    hide Epoch;
    forall i, j | 0 <= i < j < |[c] + calls| ensures ([c] + calls)[i].due <= ([c] + calls)[j].due {
      assert ([c] + calls)[j] == calls[j - 1] && calls[j - 1] in calls;
      if i > 0 {
        assert ([c] + calls)[i] == calls[i - 1];
      }
    }
  }

  /** A drain calls its first timer, and then what the rest of the drain calls. */
  lemma DrainedOne(s: State, user: Posts)
    requires !s.trapped && s.current != []
    ensures var s1, owner := DrainHead(s, user), s.current[0].owner;
            && Drained(s, user) == [Call(owner.timer, owner.due)] + Drained(s1, user)
            && Drain(s, user) == Drain(s1, user)
            && (s1.trapped ==> Drained(s1, user) == [] && Drain(s1, user).trapped)
  {
    DrainProgress(s, user);
    hide DrainHead;
  }

  /** The callbacks a drain runs: in the order of their expiries, all of them
      expiries of the epoch that has passed, none of the waiting ones left out. */
  lemma {:induction false} DrainCallbacks(s: State, user: Posts, from: int)
    requires Inv(s) && !s.trapped && OkPosts(user)
    requires forall x :: x in s.current ==> from <= x.owner.due
    ensures InOrder(Drained(s, user), from, Epoch(s.clock))
    ensures !Drain(s, user).trapped ==>
              forall x :: x in s.current ==> Call(x.owner.timer, x.owner.due) in Drained(s, user)
    decreases Remaining(s.current)
  {
    if s.current != [] {
      var s1, e := DrainHead(s, user), s.current[0];
      var c := Call(e.owner.timer, e.owner.due);
      DrainHeadInv(s, user);
      DrainHeadOrder(s, user);
      DrainProgress(s, user);
      DrainedOne(s, user);
      assert e in s.current && from <= c.due;
      assert s1.trapped ==> InOrder(Drained(s1, user), c.due, Epoch(s.clock));
      hide Inv; hide DrainHead; hide Drain; hide Drained; hide InOrder; hide Epoch;
      if !s1.trapped {
        DrainCallbacks(s1, user, c.due);
      }
      CallFirst(c, Drained(s1, user), from, Epoch(s.clock));
      if !Drain(s, user).trapped {
        forall x | x in s.current ensures Call(x.owner.timer, x.owner.due) in [c] + Drained(s1, user) {
          if x != e {
            assert x in s1.current;
          }
        }
      }
    }
  }

  /** Sampling the time at most one wrap after the last sample moves the invariant to
      the new time, across an overflow of the tick count or not. */
  lemma SampleInv(s: State, now: int, user: Posts)
    requires Inv(s) && !s.trapped && OkPosts(user) && s.clock <= now < s.clock + WRAP
    ensures var r := Sample(s, now, user);
            && (!r.trapped ==> Inv(r) && r.clock == now)
            && r.timers == s.timers
            && (NoneEarly(s, s.clock) ==> NoneEarly(r, now))
            && (forall t :: Armings(s, t) == multiset{} ==> Armings(r, t) == multiset{})
  {
    Later(s.clock, now);
    var r := Sample(s, now, user);
    if Wrapped(now) < s.lastTime {
      DrainInv(s, user);
      DrainLog(s, user);
      DrainCallbacks(s, user, Epoch(s.clock) * 0x1_0000_0000);
      var d := Drain(s, user);
      forall t | Armings(s, t) == multiset{} ensures Armings(r, t) == multiset{} {
        assert Armings(d, t) == multiset{};
      }
      if !d.trapped {
        assert forall t :: |Dues(d.current, t)| + |Dues(d.overflow, t)| <= 1;
      }
    }
  }

  // ---------------------------------------------------------- the daemon's steps

  lemma ReloadInv(s: State)
    requires Inv(s) && !s.trapped
    requires s.current != [] && s.current[0].value <= s.lastTime
    ensures var r := Reload(s, s.current[0].value, s.lastTime);
            && (!r.trapped ==> Inv(r))
            && r.clock == s.clock && r.log == s.log
  {
    hide ListsOk; hide TimersOk; hide QueueOk;
    var e := s.current[0];
    var s1 := s.(current := s.current[1..]);
    PopInv(s);
    HeadIsDue(s);
    if TimerOf(s, e.owner.timer).autoReload {
      RearmInv(s1, e.owner.timer, e.owner.due);
    } else {
      SetActiveInv(s1, e.owner.timer, false);
    }
  }

  /** Arming an unarmed timer for one period after `base`, unless that is past too. */
  lemma RearmInv(s: State, t: TimerId, base: int)
    requires Inv(s) && !s.trapped && Armings(s, t) == multiset{} && TimerOf(s, t).active
    requires base <= s.clock < base + WRAP
    ensures var period := TimerOf(s, t).period;
            var expiry := Add(Wrapped(base), period);
            var p := Place(expiry, s.lastTime, Wrapped(base), period);
            && period > 0 && expiry == Wrapped(base + period)
            && (p == ProcessNow <==> base + period <= s.clock)
            && Inv(Put(s, p, t, expiry, base + period))
            && (var r := PostStart(s, t, Wrapped(base), base); !r.trapped ==> Inv(r))
  {
    var period := TimerOf(s, t).period;
    assert period > 0;
    PlaceIsExact(base, period, s.clock);
    Later(base, base + period);
    var expiry := Add(Wrapped(base), period);
    PutInv(s, Place(expiry, s.lastTime, Wrapped(base), period), t, expiry, base + period);
    PostStartInv(s, t, Wrapped(base), base);
  }

  /** Processing the head of the current list, once its expiry has come. */
  lemma ExpireHeadInv(s: State, user: Posts)
    requires Inv(s) && OkPosts(user) && NoneEarly(s, s.clock) && !s.trapped
    requires s.current != [] && s.current[0].value <= s.lastTime
    ensures var r := ExpireHead(s, s.current[0].value, s.lastTime, user);
            && (!r.trapped ==> Inv(r))
            && r.clock == s.clock && NoneEarly(r, s.clock)
  {
    hide ListsOk; hide TimersOk; hide QueueOk;
    HeadIsDue(s);
    ReloadInv(s);
    var s1 := Reload(s, s.current[0].value, s.lastTime);
    if !s1.trapped {
      RunCallbackInv(s1, s.current[0].owner.timer, s.current[0].owner.due, user);
    }
  }

  lemma HeadIsDue(s: State)
    requires Inv(s) && s.current != []
    ensures var e := s.current[0];
            && e.value == Wrapped(e.owner.due) && Epoch(e.owner.due) == Epoch(s.clock)
            && TimerOf(s, e.owner.timer).active && TimerOf(s, e.owner.timer).period > 0
            && (e.value <= s.lastTime <==> e.owner.due <= s.clock)
            && s.clock < e.owner.due + WRAP
  {
    assert s.current[0] in s.current;
    SameEpochOrder(s.current[0].owner.due, s.clock);
  }

  lemma LateStartInv(s: State, t: TimerId, due: int, user: Posts)
    requires Inv(s) && OkPosts(user) && NoneEarly(s, s.clock) && !s.trapped && due <= s.clock
    ensures var s1 := RunCallback(s, t, due, user);
            && Inv(s1) && s1.clock == s.clock && NoneEarly(s1, s.clock)
            && (var r := PostStart(s1, t, Wrapped(due), due);
                (!r.trapped ==> Inv(r)) && r.clock == s.clock && NoneEarly(r, s.clock))
  {
    hide ListsOk; hide TimersOk; hide QueueOk;
    RunCallbackInv(s, t, due, user);
    PostStartInv(RunCallback(s, t, due, user), t, Wrapped(due), due);
  }

  /** Starting a timer that is on no list, less than one wrap after the command. */
  lemma HandleStartInv(s: State, t: TimerId, issued: int, user: Posts)
    requires Inv(s) && OkPosts(user) && NoneEarly(s, s.clock) && !s.trapped
    requires Armings(s, t) == multiset{} && issued <= s.clock < issued + WRAP
    ensures var r := HandleStart(s, t, Wrapped(issued), issued, user);
            && (!r.trapped ==> Inv(r))
            && r.clock == s.clock && NoneEarly(r, s.clock)
  {
    hide ListsOk; hide TimersOk; hide QueueOk;
    var period := TimerOf(s, t).period;
    var s1 := SetActive(s, t, true);
    SetActiveInv(s, t, true);
    assert Armings(s1, t) == multiset{} && TimerOf(s1, t).period == period;
    RearmInv(s1, t, issued);
    if issued + period <= s.clock {
      LateStartInv(s1, t, issued + period, user);
    }
  }

  lemma HandleChangePeriodInv(s: State, t: TimerId, period: Tick)
    requires Inv(s) && !s.trapped && Armings(s, t) == multiset{}
    ensures var r := HandleChangePeriod(s, t, period);
            && (!r.trapped ==> Inv(r))
            && r.clock == s.clock && r.log == s.log
  {
    hide ListsOk; hide QueueOk;
    if period > 0 {
      var s1 := s.(timers := s.timers[t := TimerOf(s, t).(active := true, period := period)]);
      assert forall u :: u != t ==> Lookup(s1.timers, u) == Lookup(s.timers, u);
      assert Inv(s1);
      PlaceIsExact(s.clock, period, s.clock);
      Later(s.clock, s.clock + period);
      var expiry := Add(s.lastTime, period);
      assert Armings(s1, t) == multiset{};
      PutInv(s1, Place(expiry, s.lastTime, s.lastTime, period), t, expiry, s.clock + period);
    }
  }

  /** Time does not run backwards and less than 2^32 ticks pass between two samples. */
  ghost predicate TimelySample(s: State, now: int) {
    s.clock <= now < s.clock + WRAP
  }

  /** A start command is handled at or after the time it carries, less than 2^32 ticks
      late. */
  ghost predicate TimelyReceive(s: State, now: int) {
    && TimelySample(s, now)
    && (s.queue != [] && s.queue[0].Start? ==> s.queue[0].issued <= now < s.queue[0].issued + WRAP)
  }

  lemma HandleCommandInv(s: State, now: int, user: Posts)
    requires Inv(s) && OkPosts(user) && NoneEarly(s, s.clock) && !s.trapped
    requires s.queue != [] && TimelyReceive(s, now)
    ensures var r := HandleCommand(s, now, user);
            && NoneEarly(r, now)
            && (!r.trapped ==> Inv(r) && r.clock == now)
  {
    hide ListsOk; hide TimersOk; hide Sample; hide HandleStart; hide HandleChangePeriod;
    var c := s.queue[0];
    assert c in s.queue;
    var s0 := s.(queue := s.queue[1..]);
    assert Inv(s0);
    RemoveInv(s0, c.timer);
    var s1 := Sample(Remove(s0, c.timer), now, user);
    SampleInv(Remove(s0, c.timer), now, user);
    if !s1.trapped {
      match c
      case Start(t, value, issued) => HandleStartInv(s1, t, issued, user);
      case Stop(t) => SetActiveInv(s1, t, false);
      case ChangePeriod(t, period) => HandleChangePeriodInv(s1, t, period);
      case Delete(t) => SetActiveInv(s1, t, false);
    }
  }

  lemma TakeTurnInv(s: State, now: int, user: Posts)
    requires Inv(s) && OkPosts(user) && NoneEarly(s, s.clock) && !s.trapped && TimelySample(s, now)
    ensures var r := TakeTurn(s, now, user);
            && NoneEarly(r, now)
            && (!r.trapped ==> Inv(r) && r.clock == now)
  {
    hide ListsOk; hide TimersOk; hide QueueOk;
    SampleInv(s, now, user);
    if TurnOf(s, now, user) == Expired {
      ExpireHeadInv(Sample(s, now, user), user);
    }
  }

  // ------------------------------------------------------------------------ runs

  ghost predicate Timely(s: State, a: Action) {
    match a
    case Post(commands) => forall c :: c in commands ==> OkCommand(c)
    case SetReloadMode(t, autoReload) => true
    case TurnAt(now) => TimelySample(s, now)
    case ReceiveAt(now) => TimelyReceive(s, now)
  }

  ghost predicate TimelyRun(s: State, actions: seq<Action>, user: Posts)
    decreases |actions|
  {
    actions == [] || (Timely(s, actions[0]) && TimelyRun(Step(s, actions[0], user), actions[1..], user))
  }

  lemma StepInv(s: State, a: Action, user: Posts)
    requires Inv(s) && OkPosts(user) && NoneEarly(s, s.clock) && !s.trapped && Timely(s, a)
    ensures var r := Step(s, a, user);
            && (!r.trapped ==> Inv(r) && NoneEarly(r, r.clock))
  {
    match a
    case Post(commands) => AcceptInv(s, commands);
    case SetReloadMode(t, autoReload) =>
      var r := Step(s, a, user);
      assert forall u :: u != t ==> Lookup(r.timers, u) == Lookup(s.timers, u);
      assert Lookup(r.timers, t).active == Lookup(s.timers, t).active;
      assert Lookup(r.timers, t).period == Lookup(s.timers, t).period;
      assert forall u :: Lookup(s.timers, u).period > 0 ==> Lookup(r.timers, u).period > 0;
    case TurnAt(now) => TakeTurnInv(s, now, user);
    case ReceiveAt(now) =>
      if s.queue != [] {
        HandleCommandInv(s, now, user);
      }
  }

  /** The daemon before its first turn: no timer is active, nothing is armed. */
  ghost predicate Initial(s: State) {
    && s.current == [] && s.overflow == [] && s.queue == [] && s.log == [] && !s.trapped
    && s.lastTime == 0 && s.clock == 0
    && (forall t :: TimerOf(s, t).period > 0)
  }

  /** Every reachable state that has not stopped at a failed assertion satisfies the
      invariant, and no callback ever ran before its time. */
  lemma {:induction false} RunInv(s: State, actions: seq<Action>, user: Posts)
    requires Inv(s) && NoneEarly(s, s.clock) && !s.trapped && OkPosts(user)
    requires TimelyRun(s, actions, user)
    ensures var r := Run(s, actions, user);
            !r.trapped ==> Inv(r) && NoneEarly(r, r.clock)
    decreases |actions|
  {
    hide ListsOk; hide TimersOk; hide QueueOk;
    if actions != [] {
      StepInv(s, actions[0], user);
      var s1 := Step(s, actions[0], user);
      if s1.trapped {
        TrappedStays(s1, actions[1..], user);
      } else {
        RunInv(s1, actions[1..], user);
      }
    }
  }

  lemma {:induction false} TrappedStays(s: State, actions: seq<Action>, user: Posts)
    requires s.trapped
    ensures Run(s, actions, user) == s
    decreases |actions|
  {
    if actions != [] {
      TrappedStays(s, actions[1..], user);
    }
  }

  lemma ReachableInv(s: State, actions: seq<Action>, user: Posts)
    requires Initial(s) && OkPosts(user) && TimelyRun(s, actions, user)
    ensures var r := Run(s, actions, user);
            !r.trapped ==> Inv(r) && NoneEarly(r, r.clock)
  {
    assert forall t :: |Dues([], t)| == 0;
    assert forall t :: TimerOf(s, t).period > 0 ==> Lookup(s.timers, t).period > 0;
    RunInv(s, actions, user);
  }

  // ------------------------------------------------------------------- the sleep

  /** The daemon never sleeps past an expiry, on either list; while the current list is
      not empty it sleeps exactly to the earliest one, otherwise to the next time that the
      tick count is zero, and it drops its timeout only when nothing is armed at all. */
  lemma NeverOversleeps(s: State, now: int, user: Posts)
    requires Inv(s) && !s.trapped && OkPosts(user) && TimelySample(s, now)
    requires TurnOf(s, now, user).Blocks?
    ensures var Blocks(ticks, indefinitely) := TurnOf(s, now, user);
            && (forall x :: x in s.current || x in s.overflow ==> now + ticks <= x.owner.due)
            && (s.current != [] ==> now + ticks == s.current[0].owner.due > now)
            && (s.current == [] ==> Wrapped(now + ticks) == 0)
            && (indefinitely <==> forall t :: Armings(s, t) == multiset{})
  {
    Later(s.clock, now);
    var Blocks(ticks, indefinitely) := TurnOf(s, now, user);
    if s.current != [] {
      HeadIsDue(s);
      Later(now, s.current[0].owner.due);
    } else {
      ToTheWrap(now);
    }
    forall x | x in s.current ensures now + ticks <= x.owner.due {
      SameEpochOrder(s.current[0].owner.due, x.owner.due);
    }
    forall x | x in s.overflow ensures now + ticks <= x.owner.due {
      NextEpochIsAhead(now, x.owner.due, NextExpireTime(s));
    }
    if s.current != [] {
      DuesMember(s.current, s.current[0]);
      assert s.current[0].owner.due in Armings(s, s.current[0].owner.timer);
    } else if s.overflow != [] {
      DuesMember(s.overflow, s.overflow[0]);
      assert s.overflow[0].owner.due in Armings(s, s.overflow[0].owner.timer);
    }
  }

  lemma ToTheWrap(now: int)
    ensures Wrapped(now + Sub(0, Wrapped(now))) == 0
  {
  }

  lemma NextEpochIsAhead(now: int, due: int, next: Tick)
    requires Epoch(due) == Epoch(now) + 1
    requires next == 0 || next > Wrapped(now)
    ensures now + Sub(next, Wrapped(now)) <= due
  {
  }
}

/** The timer daemon as `timers.c` writes it: static variables updated in place, proved
    to do what `TimerSpec` says. */
module TimerDaemon {
  import opened Ticks
  import opened ListSpec
  import opened TimerSpec
  import opened TimerInvariant

  class Daemon {
    var timers: map<TimerId, Timer>
    var current: TimerList              // *pxCurrentTimerList
    var overflow: TimerList             // *pxOverflowTimerList
    var queue: seq<Command>             // xTimerQueue
    var lastTime: Tick                  // xLastTime
    var trapped: bool                   // a configASSERT has failed
    var clock: int                      // history: the absolute time of xLastTime
    var log: seq<Call>                  // history: the callbacks run

    ghost function State(): State
      reads this
    {
      TimerSpec.State(timers, current, overflow, queue, lastTime, clock, log, trapped)
    }

    constructor (timers: map<TimerId, Timer>)
      requires forall t :: Lookup(timers, t).period > 0
      ensures Initial(State()) && this.timers == timers
    {
      this.timers, current, overflow, queue, lastTime, trapped := timers, [], [], [], 0, false;
      clock, log := 0, [];
      new;
      assert forall t :: Lookup(timers, t).period > 0 ==> TimerOf(State(), t).period > 0;
    }

    /** The timer's callback, and what user code posts from within it. */
    method Callback(t: TimerId, due: int, user: Posts)
      modifies this`queue, this`log
      ensures State() == RunCallback(old(State()), t, due, user)
    {
      var posts := user(|log|);
      log := log + [Call(t, due)];
      ghost var s := State();
      var i := 0;
      while i < |posts|
        invariant 0 <= i <= |posts|
        invariant Accept(State(), posts[i..]) == Accept(s, posts)
      {
        assert posts[i..][1..] == posts[i + 1..];
        if |queue| < QUEUE_LENGTH {
          queue := queue + [posts[i]];
        }
        i := i + 1;
      }
    }

    /** `xTimerGenericCommand( START_DONT_TRACE )` and the assertion on its result. */
    method RestartByCommand(t: TimerId, value: Tick, issued: int)
      modifies this`queue, this`trapped
      ensures State() == PostStart(old(State()), t, value, issued)
    {
      if |queue| < QUEUE_LENGTH {
        queue := queue + [Start(t, value, issued)];
      } else {
        trapped := true;
      }
    }

    method InsertTimerInActiveList(t: TimerId, expiry: Tick, now: Tick, command: Tick, due: int)
      returns (processNow: bool)
      modifies this`current, this`overflow
      ensures var p := Place(expiry, now, command, Lookup(timers, t).period);
              && processNow == (p == ProcessNow)
              && State() == Put(old(State()), p, t, expiry, due)
    {
      var item := Item(expiry, Armed(t, due));
      processNow := false;
      if expiry <= now {
        if Sub(now, command) >= Lookup(timers, t).period {
          processNow := true;
        } else {
          overflow := Insert(overflow, item);
        }
      } else {
        if now < command && expiry >= command {
          processNow := true;
        } else {
          current := Insert(current, item);
        }
      }
    }

    /** One turn of the loop in `prvSwitchTimerLists`. */
    method DrainOne(user: Posts)
      requires current != []
      modifies this`current, this`queue, this`log, this`trapped
      ensures State() == DrainHead(old(State()), user)
    {
      var next, owner := current[0].value, current[0].owner;
      var t, due := owner.timer, owner.due;
      current := current[1..];
      Callback(t, due, user);
      if Lookup(timers, t).autoReload {
        var reload := Add(next, Lookup(timers, t).period);
        if reload > next {
          current := Insert(current, Item(reload, Armed(t, due + Lookup(timers, t).period)));
        } else {
          RestartByCommand(t, next, due);
        }
      }
    }

    method SwitchTimerLists(user: Posts)
      requires !trapped
      modifies this`current, this`overflow, this`queue, this`log, this`trapped
      ensures State() == SwitchLists(old(State()), user)
    {
      while current != [] && !trapped
        invariant Drain(State(), user) == Drain(old(State()), user)
        decreases Remaining(current)
      {
        DrainProgress(State(), user);
        DrainOne(user);
      }
      if !trapped {
        current, overflow := overflow, current;
      }
    }

    method SampleTimeNow(now: int, user: Posts) returns (tick: Tick, switched: bool)
      requires !trapped
      modifies this`current, this`overflow, this`queue, this`log, this`trapped, this`lastTime, this`clock
      ensures State() == Sample(old(State()), now, user)
      ensures tick == Wrapped(now) && switched == (tick < old(lastTime))
      ensures !trapped ==> tick == lastTime && now == clock
    {
      tick := Wrapped(now);
      switched := false;
      if tick < lastTime {
        SwitchTimerLists(user);
        switched := true;
      }
      if !trapped {
        lastTime, clock := tick, now;
      }
    }

    method ProcessExpiredTimer(next: Tick, now: Tick, user: Posts)
      requires current != [] && !trapped
      modifies this
      ensures State() == ExpireHead(old(State()), next, now, user)
    {
      var owner := current[0].owner;
      var t, due := owner.timer, owner.due;
      current := current[1..];
      if Lookup(timers, t).autoReload {
        var expired := InsertTimerInActiveList(t, Add(next, Lookup(timers, t).period), now, next,
                                               due + Lookup(timers, t).period);
        if expired {
          RestartByCommand(t, next, due);
          if trapped {
            return;
          }
        }
      } else {
        timers := timers[t := Lookup(timers, t).(active := false)];
      }
      Callback(t, due, user);
    }

    method GetNextExpireTime() returns (next: Tick, listWasEmpty: bool)
      ensures next == NextExpireTime(State()) && listWasEmpty == (current == [])
    {
      listWasEmpty := current == [];
      next := if listWasEmpty then 0 else current[0].value;
    }

    /** One pass over the timers: the first two calls in the loop of `prvTimerTask`. */
    method ProcessTimerOrBlockTask(now: int, user: Posts) returns (turn: Turn)
      requires !trapped
      modifies this
      ensures turn == TurnOf(old(State()), now, user)
      ensures State() == TakeTurn(old(State()), now, user)
    {
      var next, listWasEmpty := GetNextExpireTime();
      var tick, switched := SampleTimeNow(now, user);
      if switched {
        return Switched;
      } else if !listWasEmpty && next <= tick {
        ProcessExpiredTimer(next, tick, user);
        return Expired;
      } else {
        if listWasEmpty {
          listWasEmpty := overflow == [];
        }
        return Blocks(Sub(next, tick), listWasEmpty);
      }
    }

    method RemoveFromLists(t: TimerId)
      modifies this`current, this`overflow
      ensures State() == Remove(old(State()), t)
    {
      current, overflow := Without(current, t), Without(overflow, t);
    }

    method ProcessStart(t: TimerId, value: Tick, issued: int, user: Posts)
      requires !trapped
      modifies this
      ensures State() == HandleStart(old(State()), t, value, issued, user)
    {
      hide Place; hide Insert; hide RunCallback; hide PostStart;
      timers := timers[t := Lookup(timers, t).(active := true)];
      var period := Lookup(timers, t).period;
      var expired := InsertTimerInActiveList(t, Add(value, period), lastTime, value, issued + period);
      if expired {
        Callback(t, issued + period, user);
        if Lookup(timers, t).autoReload {
          RestartByCommand(t, Add(value, period), issued + period);
        }
      }
    }

    /** One turn of the loop in `prvProcessReceivedCommands`. */
    method ProcessReceivedCommand(now: int, user: Posts)
      requires queue != [] && !trapped
      modifies this
      ensures State() == HandleCommand(old(State()), now, user)
    {
      hide Sample; hide HandleStart; hide Without; hide Insert; hide Place;
      var c := queue[0];
      queue := queue[1..];
      RemoveFromLists(c.timer);
      var tick, _ := SampleTimeNow(now, user);
      if trapped {
        return;
      }
      match c
      case Start(t, value, issued) =>
        ProcessStart(t, value, issued, user);
      case Stop(t) =>
        timers := timers[t := Lookup(timers, t).(active := false)];
      case ChangePeriod(t, period) =>
        timers := timers[t := Lookup(timers, t).(active := true, period := period)];
        if period == 0 {
          trapped := true;
        } else {
          var _ := InsertTimerInActiveList(t, Add(tick, period), tick, tick, clock + period);
        }
      case Delete(t) =>
        timers := timers[t := Lookup(timers, t).(active := false)];
    }

    /** `prvProcessReceivedCommands`, with the times that the clock shows, one for each
        command.  Given enough of them it goes on until the queue is empty, whatever callbacks
        and the daemon itself put in meanwhile, or an assertion fails. */
    method ProcessReceivedCommands(samples: seq<int>, user: Posts) returns (handled: nat)
      requires !trapped
      modifies this
      ensures handled <= |samples| && (handled < |samples| ==> queue == [] || trapped)
      ensures State() == Run(old(State()), Receives(samples, handled), user)
    {
      handled := 0;
      assert Receives(samples, 0) == [];
      assert Run(State(), [], user) == State();
      hide Run; hide Receives; hide HandleCommand; hide Step;
      ghost var s := State();
      while handled < |samples| && queue != [] && !trapped
        invariant 0 <= handled <= |samples|
        invariant State() == Run(s, Receives(samples, handled), user)
      {
        ReceiveMore(s, samples, handled, user);
        ghost var r := State();
        ReceivesCommand(r, samples[handled], user);
        ProcessReceivedCommand(samples[handled], user);
        assert State() == Step(r, ReceiveAt(samples[handled]), user);
        handled := handled + 1;
      }
    }
  }

  /** The first n times at which commands are received. */
  ghost function Receives(samples: seq<int>, n: nat): (actions: seq<Action>)
    requires n <= |samples|
    ensures |actions| == n
  {
    seq(n, i requires 0 <= i < n => ReceiveAt(samples[i]))
  }

  lemma ReceiveMore(s: TimerSpec.State, samples: seq<int>, n: nat, user: Posts)
    requires n < |samples|
    ensures var r := Run(s, Receives(samples, n), user);
            Run(s, Receives(samples, n + 1), user) == Step(r, ReceiveAt(samples[n]), user)
  {
    var a := ReceiveAt(samples[n]);
    assert Receives(samples, n + 1) == Receives(samples, n) + [a];
    RunOneMore(s, Receives(samples, n), a, user);
  }

  lemma ReceivesCommand(s: TimerSpec.State, now: int, user: Posts)
    requires s.queue != [] && !s.trapped
    ensures HandleCommand(s, now, user) == Step(s, ReceiveAt(now), user)
  {
    hide HandleCommand;
  }

  lemma {:induction false} RunOneMore(s: TimerSpec.State, actions: seq<Action>, a: Action, user: Posts)
    ensures Run(s, actions + [a], user) == Step(Run(s, actions, user), a, user)
    decreases |actions|
  {
    hide Step;
    if actions == [] {
      assert [] + [a] == [a] && [a][1..] == [];
      assert Run(Step(s, a, user), [], user) == Step(s, a, user);
    } else {
      RunOneMore(Step(s, actions[0], user), actions[1..], a, user);
      assert (actions + [a])[1..] == actions[1..] + [a];
    }
  }
}

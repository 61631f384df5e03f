/** The operation guards of `src/hooks/useOperationSafeguards.ts`: the set
    of active operation ids (`useOperationControl`), the throttle
    (`useThrottle`) and `safeExecute`, which combines them. Each hook keeps
    its state in a React ref; here each is an object whose fields the
    methods update. `Date.now()` is a parameter, and the 100 ms timer that
    `safeExecute` starts is a queue of pending releases fired by
    `FireTimer`. */
module OperationSafeguards {
  import opened Wrappers
  import Sequences

  /** No id occurs twice: a JavaScript `Set` listed in insertion order. */
  predicate NoDuplicates(s: seq<string>)
  {
    forall i, j :: 0 <= i < j < |s| ==> s[i] != s[j]
  }

  /** `set.delete(x)` on the insertion-ordered listing of a set. */
  function Remove(s: seq<string>, x: string): (r: seq<string>)
    ensures x !in r
    ensures forall y :: y in r ==> y in s
    ensures forall y :: y in s && y != x ==> y in r
    ensures Sequences.IsSubsequence(r, s)
    ensures NoDuplicates(s) ==> NoDuplicates(r)
  {
    if s == [] then []
    else
      var rest := Remove(s[1..], x);
      if s[0] == x then rest
      else
        assert NoDuplicates(s) ==> s[0] !in s[1..];
        assert ([s[0]] + rest)[1..] == rest;
        [s[0]] + rest
  }

  /** Deleting an id that is not there changes nothing. */
  lemma {:induction false} RemoveAbsent(s: seq<string>, x: string)
    requires x !in s
    ensures Remove(s, x) == s
  {
    if s != [] {
      RemoveAbsent(s[1..], x);
    }
  }

  /** Adding a new id and deleting it again gives back the set as it was. */
  lemma {:induction false} AddThenRemove(s: seq<string>, x: string)
    requires x !in s
    ensures Remove(s + [x], x) == s
  {
    if s == [] {
    } else {
      assert (s + [x])[1..] == s[1..] + [x];
      AddThenRemove(s[1..], x);
    }
  }

  /** `endOperation` is idempotent. */
  lemma RemoveTwice(s: seq<string>, x: string)
    ensures Remove(Remove(s, x), x) == Remove(s, x)
  {
    RemoveAbsent(Remove(s, x), x);
  }

  /** `useOperationControl`: the ids of the operations in progress. */
  class OperationControl {
    var active: seq<string>

    ghost predicate Valid()
      reads this
    {
      NoDuplicates(active)
    }

    constructor()
      ensures active == [] && Valid()
    {
      active := [];
    }

    /** `startOperation(id)`: refused for an active id, else the id joins
        the set. */
    method StartOperation(id: string) returns (started: bool)
      requires Valid()
      modifies this
      ensures Valid()
      ensures started <==> id !in old(active)
      ensures started ==> active == old(active) + [id]
      ensures !started ==> active == old(active)
    {
      if id in active {
        return false;
      }
      active := active + [id];
      started := true;
    }

    /** `endOperation(id)`: the id leaves the set. */
    method EndOperation(id: string)
      requires Valid()
      modifies this
      ensures Valid()
      ensures active == Remove(old(active), id)
    {
      active := Remove(active, id);
    }

    /** `isOperationActive(id)`. */
    function IsOperationActive(id: string): (b: bool)
      reads this
      ensures b <==> id in active
    {
      id in active
    }

    /** `getActiveOperations()`: every active id once, in the order the
        operations started. */
    function GetActiveOperations(): (ids: seq<string>)
      reads this
      requires Valid()
      ensures NoDuplicates(ids)
      ensures forall x :: x in ids ==> IsOperationActive(x)
      ensures forall x :: IsOperationActive(x) ==> x in ids
    {
      active
    }
  }

  /** Whether the throttle lets a call at `now` through after the last one
      it let through at `last`. */
  predicate Admits(last: int, delay: int, now: int)
  {
    now - last >= delay
  }

  /** The times at which a throttle that last ran at `last` runs its
      function when called at each of `times` in turn. */
  function ThrottleRuns(last: int, delay: int, times: seq<int>): (runs: seq<int>)
    ensures Sequences.IsSubsequence(runs, times)
    ensures |runs| > 0 ==> runs[0] - last >= delay
    ensures forall k :: 0 < k < |runs| ==> runs[k] - runs[k - 1] >= delay
    decreases |times|
  {
    if times == [] then []
    else if Admits(last, delay, times[0]) then
      var rest := ThrottleRuns(times[0], delay, times[1..]);
      assert ([times[0]] + rest)[1..] == rest;
      [times[0]] + rest
    else ThrottleRuns(last, delay, times[1..])
  }

  /** What a wrapped function does when called: returns a value (`None` for
      `null`), returns `undefined` (a callback with no `return`), or throws.
      Only `null` counts as a refusal in `safeExecute`'s strict test. */
  datatype Outcome<V> = Value(v: Option<V>) | Undefined | Thrown(e: Error)

  /** `useThrottle(delay)`. */
  class Throttle {
    const delay: int
    var lastExecuted: int

    constructor(delay: int)
      ensures this.delay == delay && lastExecuted == 0
    {
      this.delay := delay;
      lastExecuted := 0;
    }

    /** `throttle(fn)` at time `now`, where `outcome` is what `fn` does:
        `ran` tells whether `fn` was called. A throttled call returns null
        and keeps the time of the last run. */
    method Run<V>(now: int, outcome: Outcome<V>) returns (r: Outcome<V>, ran: bool)
      modifies this
      ensures ran <==> Admits(old(lastExecuted), delay, now)
      ensures ran ==> r == outcome && lastExecuted == now
      ensures !ran ==> r == Value(None) && lastExecuted == old(lastExecuted)
    {
      if now - lastExecuted >= delay {
        lastExecuted := now;
        return outcome, true;
      }
      return Value(None), false;
    }
  }

  /** The delay the release timer of `safeExecute` waits, in milliseconds. */
  const ReleaseDelay := 100

  /** `useOperationSafeguards(options)`: the operation set and the throttle,
      plus the releases whose timers have not fired yet. */
  class Safeguards {
    const control: OperationControl
    const throttle: Throttle
    var pending: seq<string>

    ghost predicate Valid()
      reads this, control
    {
      control.Valid()
    }

    /** `throttleDelay` defaults to 1000 ms when the option is absent. */
    constructor(throttleDelay: Option<int>)
      ensures fresh(control) && fresh(throttle) && Valid()
      ensures control.active == [] && pending == []
      ensures throttle.lastExecuted == 0
      ensures throttle.delay == if throttleDelay.Some? then throttleDelay.value else 1000
    {
      control := new OperationControl();
      throttle := new Throttle(if throttleDelay.Some? then throttleDelay.value else 1000);
      pending := [];
    }

    /** `safeExecute(id, fn)` at time `now`, where `outcome` is what `fn`
        does. An active id is refused with null and nothing changes. A
        throttled call is refused with null and the id is released at once.
        A call that runs `fn` starts a release timer; a `null` result also
        releases the id at once, while any other result, `undefined` or a
        throw keeps it active until the timer fires. */
    method SafeExecute<V>(id: string, now: int, outcome: Outcome<V>) returns (r: Outcome<V>)
      requires Valid()
      modifies this, control, throttle
      ensures Valid()
      ensures id in old(control.active) ==>
                r == Value(None) && control.active == old(control.active) &&
                throttle.lastExecuted == old(throttle.lastExecuted) && pending == old(pending)
      ensures id !in old(control.active) && !Admits(old(throttle.lastExecuted), throttle.delay, now) ==>
                r == Value(None) && control.active == old(control.active) &&
                throttle.lastExecuted == old(throttle.lastExecuted) && pending == old(pending)
      ensures id !in old(control.active) && Admits(old(throttle.lastExecuted), throttle.delay, now) ==>
                r == outcome && throttle.lastExecuted == now && pending == old(pending) + [id] &&
                control.active == if outcome == Value(None) then old(control.active) else old(control.active) + [id]
    {
      if control.IsOperationActive(id) {
        return Value(None);
      }
      var started := control.StartOperation(id);
      assert started;
      var ran;
      r, ran := throttle.Run(now, outcome);
      if ran {
        pending := pending + [id];
      }
      if r == Value(None) {
        AddThenRemove(old(control.active), id);
        control.EndOperation(id);
      }
    }

    /** The oldest release timer fires and ends its operation. */
    method FireTimer()
      requires Valid() && |pending| > 0
      modifies this, control
      ensures Valid()
      ensures pending == old(pending)[1..]
      ensures control.active == Remove(old(control.active), old(pending)[0])
    {
      control.EndOperation(pending[0]);
      pending := pending[1..];
    }
  }

  /** A callback that returns nothing keeps its id active until the release
      timer fires: a second call with the same id, even long after the
      throttle delay, is refused; once the timer has fired it runs again. */
  method VoidCallbackBlocksUntilTimer() returns (first: Outcome<int>, second: Outcome<int>, third: Outcome<int>)
    ensures first == Undefined && second == Value(None) && third == Undefined
  {
    var g := new Safeguards(None);
    first := g.SafeExecute("book", 1000, Undefined);
    second := g.SafeExecute("book", 5000, Undefined);
    g.FireTimer();
    RemoveAbsent([], "book");
    third := g.SafeExecute("book", 9000, Undefined);
  }
}

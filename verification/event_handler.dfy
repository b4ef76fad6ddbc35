/**
 * The event bus (`RealtimeEventHandler`): durable and one-shot listener lists keyed by
 * event name. A listener is identified by a `HandlerId`; what it does when invoked is given
 * as a sequence of calls back into the bus (`Op`), so that the order in which a dispatch
 * sees listeners added or removed by other listeners is part of the model.
 */
module Events {
  import opened Wrappers

  /** The identity of a listener callback; `list.remove` compares callbacks by identity. */
  type HandlerId = nat

  /** The `ValueError` raised by a removal of a listener that is not registered, or an exception raised by a listener itself. */
  datatype HandlerError = NotAListener(name: string) | ListenerRaised(id: HandlerId)

  /** Both listener maps. */
  datatype Registry = Registry(durable: map<string, seq<HandlerId>>, oneShot: map<string, seq<HandlerId>>)

  /** The list stored under a name, or the empty list (`dict.get(name, [])`). */
  function Get(m: map<string, seq<HandlerId>>, name: string): seq<HandlerId>
  {
    if name in m then m[name] else []
  }

  /** `on` / `on_next`: the list under `name` (created if absent) gets `cb` appended; no other name changes. */
  function Subscribed(m: map<string, seq<HandlerId>>, name: string, cb: HandlerId): (r: map<string, seq<HandlerId>>)
    ensures name in r && r[name] == Get(m, name) + [cb]
    ensures forall n :: n != name ==> (n in r <==> n in m) && Get(r, n) == Get(m, n)
  {
    m[name := Get(m, name) + [cb]]
  }

  /** The position of the first occurrence of `cb`. */
  function FirstIndex(s: seq<HandlerId>, cb: HandlerId): (k: nat)
    requires cb in s
    ensures k < |s| && s[k] == cb && cb !in s[..k]
  {
    if s[0] == cb then 0
    else
      var k := FirstIndex(s[1..], cb) + 1;
      assert s[..k] == [s[0]] + s[1..][..k - 1];
      k
  }

  /** `list.remove(cb)` on a list that holds `cb`: its first occurrence goes, the rest keep their order. */
  function RemoveFirst(s: seq<HandlerId>, cb: HandlerId): (r: seq<HandlerId>)
    requires cb in s
    ensures |r| == |s| - 1
    ensures multiset(r) == multiset(s) - multiset{cb}
    ensures exists k :: 0 <= k < |s| && s[k] == cb && cb !in s[..k] && r == s[..k] + s[k + 1..]
  {
    var k := FirstIndex(s, cb);
    assert s == s[..k] + [s[k]] + s[k + 1..];
    s[..k] + s[k + 1..]
  }

  /**
   * `off` / `off_next`: with a callback, its first occurrence leaves the list under `name`
   * (an emptied list stays in the map) or, when it is not there, the removal raises; without
   * a callback the whole list under `name` goes, and a missing name is no error.
   */
  function Unsubscribed(m: map<string, seq<HandlerId>>, name: string, cb: Option<HandlerId>): (r: Result<map<string, seq<HandlerId>>, HandlerError>)
    ensures r.Err? <==> cb.Some? && cb.value !in Get(m, name)
    ensures r.Ok? && cb.None? ==> r.value == m - {name}
    ensures r.Ok? && cb.Some? ==> name in r.value && multiset(r.value[name]) == multiset(m[name]) - multiset{cb.value}
    ensures r.Ok? ==> forall n :: n != name ==> (n in r.value <==> n in m) && Get(r.value, n) == Get(m, n)
  {
    match cb
    case None => Ok(m - {name})
    case Some(c) =>
      if c in Get(m, name) then Ok(m[name := RemoveFirst(m[name], c)]) else Err(NotAListener(name))
  }

  /** Removing a callback right after adding it restores the list, though a name that was absent now maps to `[]`. */
  lemma OffUndoesOn(m: map<string, seq<HandlerId>>, name: string, cb: HandlerId)
    requires cb !in Get(m, name)
    ensures Unsubscribed(Subscribed(m, name, cb), name, Some(cb)) == Ok(m[name := Get(m, name)])
  {
    var s := Get(m, name);
    RemoveFirstOfAppended(s, cb);
    assert Subscribed(m, name, cb) == m[name := s + [cb]];
    assert m[name := s + [cb]][name := s] == m[name := s];
  }

  /** The first occurrence of a callback just appended to a list that lacked it is the appended one. */
  lemma RemoveFirstOfAppended(s: seq<HandlerId>, cb: HandlerId)
    requires cb !in s
    ensures RemoveFirst(s + [cb], cb) == s
  {
    var t := s + [cb];
    assert FirstIndex(t, cb) == |s|;
    assert t[..|s|] == s;
    assert t[|s| + 1..] == [];
  }

  /** A listener's call back into the bus: `on`, `on_next`, `off`, `off_next`, or raising an exception. */
  datatype Op =
    | Subscribe(name: string, cb: HandlerId)
    | SubscribeNext(name: string, cb: HandlerId)
    | Unsubscribe(name: string, target: Option<HandlerId>)
    | UnsubscribeNext(name: string, target: Option<HandlerId>)
    | Raise

  /** The registry after some calls, and the exception that stopped them, if any. */
  datatype Step = Step(reg: Registry, error: Option<HandlerError>)

  function ApplyOp(reg: Registry, op: Op, self: HandlerId): Step
  {
    match op
    case Subscribe(n, c) => Step(reg.(durable := Subscribed(reg.durable, n, c)), None)
    case SubscribeNext(n, c) => Step(reg.(oneShot := Subscribed(reg.oneShot, n, c)), None)
    case Unsubscribe(n, t) =>
      (match Unsubscribed(reg.durable, n, t)
       case Ok(m) => Step(reg.(durable := m), None)
       case Err(e) => Step(reg, Some(e)))
    case UnsubscribeNext(n, t) =>
      (match Unsubscribed(reg.oneShot, n, t)
       case Ok(m) => Step(reg.(oneShot := m), None)
       case Err(e) => Step(reg, Some(e)))
    case Raise => Step(reg, Some(ListenerRaised(self)))
  }

  /** The calls a listener makes, in order, stopping at the first that raises. */
  function ApplyOps(reg: Registry, ops: seq<Op>, self: HandlerId): Step
  {
    if ops == [] then Step(reg, None)
    else
      var prev := ApplyOps(reg, ops[..|ops| - 1], self);
      if prev.error.Some? then prev else ApplyOp(prev.reg, ops[|ops| - 1], self)
  }

  /** The registry after a run of listeners, the listeners invoked, and the exception that stopped the run, if any. */
  datatype Run = Run(reg: Registry, invoked: seq<HandlerId>, error: Option<HandlerError>)

  /** Invokes the listeners `hs` in order; an exception from one of them ends the run. */
  function RunAll(reg: Registry, hs: seq<HandlerId>, behaviour: HandlerId -> seq<Op>): Run
  {
    if hs == [] then Run(reg, [], None)
    else
      var prev := RunAll(reg, hs[..|hs| - 1], behaviour);
      if prev.error.Some? then prev
      else
        var h := hs[|hs| - 1];
        var st := ApplyOps(prev.reg, behaviour(h), h);
        Run(st.reg, prev.invoked + [h], st.error)
  }

  /**
   * `dispatch`: runs a copy of the durable list taken before any listener runs, then pops
   * the one-shot list (as it stands after the durable listeners ran) and runs it.
   */
  function DispatchSpec(reg: Registry, name: string, behaviour: HandlerId -> seq<Op>): Run
  {
    var first := RunAll(reg, Get(reg.durable, name), behaviour);
    if first.error.Some? then first
    else
      var popped := first.reg.(oneShot := first.reg.oneShot - {name});
      var second := RunAll(popped, Get(first.reg.oneShot, name), behaviour);
      Run(second.reg, first.invoked + second.invoked, second.error)
  }

  /**
   * The listeners a run invokes are a prefix of the list it was given, and all of it when
   * nothing raised: a listener added to or removed from the stored list meanwhile does not
   * change who runs.
   */
  lemma {:induction false} RunAllInvokesPrefix(reg: Registry, hs: seq<HandlerId>, behaviour: HandlerId -> seq<Op>)
    ensures var run := RunAll(reg, hs, behaviour);
      && |run.invoked| <= |hs|
      && run.invoked == hs[..|run.invoked|]
      && (run.error.None? ==> run.invoked == hs)
      && (run.error.Some? ==> |run.invoked| > 0)
  {
    if hs != [] {
      var init := hs[..|hs| - 1];
      RunAllInvokesPrefix(reg, init, behaviour);
      var prev := RunAll(reg, init, behaviour);
      assert hs[..|prev.invoked|] == init[..|prev.invoked|];
      if prev.error.None? {
        assert hs == init + [hs[|hs| - 1]];
      }
    }
  }

  /** Once a run has raised, the listeners after that point are not invoked and change nothing. */
  lemma {:induction false} RunAllStops(reg: Registry, hs: seq<HandlerId>, i: nat, behaviour: HandlerId -> seq<Op>)
    requires i <= |hs| && RunAll(reg, hs[..i], behaviour).error.Some?
    ensures RunAll(reg, hs, behaviour) == RunAll(reg, hs[..i], behaviour)
    decreases |hs| - i
  {
    if i < |hs| {
      assert hs[..i + 1][..i] == hs[..i];
      RunAllStops(reg, hs, i + 1, behaviour);
    } else {
      assert hs[..i] == hs;
    }
  }

  /** The same for the calls a single listener makes. */
  lemma {:induction false} ApplyOpsStops(reg: Registry, ops: seq<Op>, i: nat, self: HandlerId)
    requires i <= |ops| && ApplyOps(reg, ops[..i], self).error.Some?
    ensures ApplyOps(reg, ops, self) == ApplyOps(reg, ops[..i], self)
    decreases |ops| - i
  {
    if i < |ops| {
      assert ops[..i + 1][..i] == ops[..i];
      ApplyOpsStops(reg, ops, i + 1, self);
    } else {
      assert ops[..i] == ops;
    }
  }

  /** Listeners that call nothing are all invoked, in order, and leave the registry as it was. */
  lemma {:induction false} RunAllInert(reg: Registry, hs: seq<HandlerId>, behaviour: HandlerId -> seq<Op>)
    requires forall i :: 0 <= i < |hs| ==> behaviour(hs[i]) == []
    ensures RunAll(reg, hs, behaviour) == Run(reg, hs, None)
  {
    if hs != [] {
      var init := hs[..|hs| - 1];
      var last := hs[|hs| - 1];
      RunAllInert(reg, init, behaviour);
      assert behaviour(last) == [];
      assert ApplyOps(reg, behaviour(last), last) == Step(reg, None);
      assert RunAll(reg, hs, behaviour) == Run(reg, init + [last], None);
      assert init + [last] == hs;
    }
  }

  /**
   * With listeners that call nothing, a dispatch invokes the durable listeners and then the
   * one-shot listeners of that name, keeps the durable lists, and drops the one-shot list,
   * so a second dispatch of the same name invokes only the durable listeners.
   */
  lemma DispatchInert(reg: Registry, name: string, behaviour: HandlerId -> seq<Op>)
    requires forall h :: behaviour(h) == []
    ensures var d := DispatchSpec(reg, name, behaviour);
      && d == Run(reg.(oneShot := reg.oneShot - {name}), Get(reg.durable, name) + Get(reg.oneShot, name), None)
      && DispatchSpec(d.reg, name, behaviour).invoked == Get(reg.durable, name)
  {
    RunAllInert(reg, Get(reg.durable, name), behaviour);
    var popped := reg.(oneShot := reg.oneShot - {name});
    RunAllInert(popped, Get(reg.oneShot, name), behaviour);
    RunAllInert(popped, Get(popped.durable, name), behaviour);
    RunAllInert(popped.(oneShot := popped.oneShot - {name}), [], behaviour);
    assert Get(popped.oneShot, name) == [];
  }

  /**
   * A durable listener that registers a one-shot listener for the event being dispatched
   * sees it run in the same dispatch, because the one-shot list is popped only after the
   * durable listeners ran; the one-shot listener is gone afterwards.
   */
  lemma OneShotFromDurableRunsNow(reg: Registry, name: string, h: HandlerId, x: HandlerId, behaviour: HandlerId -> seq<Op>)
    requires Get(reg.durable, name) == [h] && Get(reg.oneShot, name) == []
    requires behaviour(h) == [SubscribeNext(name, x)] && behaviour(x) == []
    ensures var d := DispatchSpec(reg, name, behaviour);
      d.invoked == [h, x] && d.error.None? && name !in d.reg.oneShot && d.reg.durable == reg.durable
  {
    var ops := [SubscribeNext(name, x)];
    assert ops[..0] == [];
    assert ApplyOps(reg, ops, h) == Step(reg.(oneShot := Subscribed(reg.oneShot, name, x)), None);
    assert [h][..0] == [];
    var afterFirst := reg.(oneShot := Subscribed(reg.oneShot, name, x));
    assert RunAll(reg, [h], behaviour) == Run(afterFirst, [h], None);
    assert Get(afterFirst.oneShot, name) == [x];
    var popped := afterFirst.(oneShot := afterFirst.oneShot - {name});
    assert [x][..0] == [];
    assert ApplyOps(popped, [], x) == Step(popped, None);
    assert RunAll(popped, [x], behaviour) == Run(popped, [x], None);
  }

  /**
   * A durable listener that registers a durable listener for the event being dispatched
   * does not see it run: the dispatch works on a copy of the durable list taken before any
   * listener ran. The new listener runs from the next dispatch on.
   */
  lemma DurableFromDurableWaits(reg: Registry, name: string, h: HandlerId, x: HandlerId, behaviour: HandlerId -> seq<Op>)
    requires Get(reg.durable, name) == [h] && Get(reg.oneShot, name) == []
    requires behaviour(h) == [Subscribe(name, x)] && behaviour(x) == []
    ensures var d := DispatchSpec(reg, name, behaviour);
      && d.invoked == [h] && d.error.None? && Get(d.reg.durable, name) == [h, x]
      && DispatchSpec(d.reg, name, behaviour).invoked == [h, x]
  {
    var ops := [Subscribe(name, x)];
    assert ops[..0] == [];
    assert [h][..0] == [];
    var after := reg.(durable := Subscribed(reg.durable, name, x));
    assert ApplyOps(reg, ops, h) == Step(after, None);
    assert RunAll(reg, [h], behaviour) == Run(after, [h], None);
    var popped := after.(oneShot := after.oneShot - {name});
    assert RunAll(popped, [], behaviour) == Run(popped, [], None);
    var d := DispatchSpec(reg, name, behaviour);
    assert d == Run(popped, [h], None);
    // The second dispatch: `h` subscribes `x` once more, then `x` runs and calls nothing.
    var again := popped.(durable := Subscribed(popped.durable, name, x));
    assert ApplyOps(popped, ops, h) == Step(again, None);
    assert [h, x][..1] == [h];
    assert RunAll(popped, [h], behaviour) == Run(again, [h], None);
    assert ApplyOps(again, [], x) == Step(again, None);
    assert RunAll(popped, [h, x], behaviour) == Run(again, [h, x], None);
    assert Get(again.oneShot, name) == [];
    var popped2 := again.(oneShot := again.oneShot - {name});
    assert RunAll(popped2, [], behaviour) == Run(popped2, [], None);
  }

  /**
   * A one-shot listener that registers a one-shot listener for the same name does not see
   * it run: the list it was in had already been popped, so the new listener waits for the
   * next dispatch.
   */
  lemma OneShotFromOneShotWaits(reg: Registry, name: string, y: HandlerId, x: HandlerId, behaviour: HandlerId -> seq<Op>)
    requires Get(reg.durable, name) == [] && Get(reg.oneShot, name) == [y]
    requires behaviour(y) == [SubscribeNext(name, x)]
    ensures var d := DispatchSpec(reg, name, behaviour);
      d.invoked == [y] && d.error.None? && Get(d.reg.oneShot, name) == [x]
  {
    assert RunAll(reg, [], behaviour) == Run(reg, [], None);
    var popped := reg.(oneShot := reg.oneShot - {name});
    var ops := [SubscribeNext(name, x)];
    assert ops[..0] == [];
    var after := popped.(oneShot := Subscribed(popped.oneShot, name, x));
    assert ApplyOps(popped, ops, y) == Step(after, None);
    assert [y][..0] == [];
    assert RunAll(popped, [y], behaviour) == Run(after, [y], None);
    assert Get(popped.oneShot, name) == [];
    assert Get(after.oneShot, name) == [x];
  }

  /** The bus itself. */
  class EventHandler {
    var eventHandlers: map<string, seq<HandlerId>>
    var nextEventHandlers: map<string, seq<HandlerId>>

    function Reg(): Registry
      reads this
    {
      Registry(eventHandlers, nextEventHandlers)
    }

    constructor ()
      ensures eventHandlers == map[] && nextEventHandlers == map[]
    {
      eventHandlers := map[];
      nextEventHandlers := map[];
    }

    /** `clear_event_handlers`: both maps become empty. */
    method ClearEventHandlers() returns (r: bool)
      modifies this
      ensures eventHandlers == map[] && nextEventHandlers == map[] && r
    {
      eventHandlers := map[];
      nextEventHandlers := map[];
      r := true;
    }

    /** `on`: appends a durable listener and returns it. */
    method On(name: string, cb: HandlerId) returns (r: HandlerId)
      modifies this`eventHandlers
      ensures eventHandlers == Subscribed(old(eventHandlers), name, cb) && r == cb
    {
      var handlers := if name in eventHandlers then eventHandlers[name] else [];
      eventHandlers := eventHandlers[name := handlers + [cb]];
      r := cb;
    }

    /** `on_next`: appends a one-shot listener and returns it. */
    method OnNext(name: string, cb: HandlerId) returns (r: HandlerId)
      modifies this`nextEventHandlers
      ensures nextEventHandlers == Subscribed(old(nextEventHandlers), name, cb) && r == cb
    {
      var handlers := if name in nextEventHandlers then nextEventHandlers[name] else [];
      nextEventHandlers := nextEventHandlers[name := handlers + [cb]];
      r := cb;
    }

    /** `off`: removes one durable listener, or all of them for the name; raises for a listener that is not registered. */
    method Off(name: string, cb: Option<HandlerId>) returns (r: Result<bool, HandlerError>)
      modifies this`eventHandlers
      ensures match Unsubscribed(old(eventHandlers), name, cb)
        case Ok(m) => eventHandlers == m && r == Ok(true)
        case Err(e) => eventHandlers == old(eventHandlers) && r == Err(e)
    {
      var handlers := if name in eventHandlers then eventHandlers[name] else [];
      if cb.Some? {
        if cb.value !in handlers {
          return Err(NotAListener(name));
        }
        eventHandlers := eventHandlers[name := RemoveFirst(handlers, cb.value)];
      } else {
        eventHandlers := eventHandlers - {name};
      }
      r := Ok(true);
    }

    /** `off_next`: the same for one-shot listeners. */
    method OffNext(name: string, cb: Option<HandlerId>) returns (r: Result<bool, HandlerError>)
      modifies this`nextEventHandlers
      ensures match Unsubscribed(old(nextEventHandlers), name, cb)
        case Ok(m) => nextEventHandlers == m && r == Ok(true)
        case Err(e) => nextEventHandlers == old(nextEventHandlers) && r == Err(e)
    {
      var handlers := if name in nextEventHandlers then nextEventHandlers[name] else [];
      if cb.Some? {
        if cb.value !in handlers {
          return Err(NotAListener(name));
        }
        nextEventHandlers := nextEventHandlers[name := RemoveFirst(handlers, cb.value)];
      } else {
        nextEventHandlers := nextEventHandlers - {name};
      }
      r := Ok(true);
    }

    /** One call a listener makes back into the bus. */
    method Call(op: Op, self: HandlerId) returns (error: Option<HandlerError>)
      modifies this
      ensures ApplyOp(old(Reg()), op, self) == Step(Reg(), error)
    {
      error := None;
      match op {
        case Subscribe(n, c) =>
          var _ := On(n, c);
        case SubscribeNext(n, c) =>
          var _ := OnNext(n, c);
        case Unsubscribe(n, t) =>
          var res := Off(n, t);
          if res.Err? { error := Some(res.error); }
        case UnsubscribeNext(n, t) =>
          var res := OffNext(n, t);
          if res.Err? { error := Some(res.error); }
        case Raise =>
          error := Some(ListenerRaised(self));
      }
    }

    /** One listener's body: its calls back into the bus, in order, until one raises. */
    method Perform(ops: seq<Op>, self: HandlerId) returns (error: Option<HandlerError>)
      modifies this
      ensures ApplyOps(old(Reg()), ops, self) == Step(Reg(), error)
    {
      var i := 0;
      error := None;
      while i < |ops|
        invariant 0 <= i <= |ops|
        invariant ApplyOps(old(Reg()), ops[..i], self) == Step(Reg(), None)
        invariant error.None?
      {
        assert ops[..i + 1][..i] == ops[..i];
        ghost var before := Reg();
        assert ApplyOps(old(Reg()), ops[..i + 1], self) == ApplyOp(before, ops[i], self);
        error := Call(ops[i], self);
        if error.Some? {
          ApplyOpsStops(old(Reg()), ops, i + 1, self);
          return;
        }
        i := i + 1;
      }
      assert ops[..i] == ops;
    }

    /** The `for handler in handlers` loop: invokes the listeners in order until one raises. */
    method RunListeners(hs: seq<HandlerId>, behaviour: HandlerId -> seq<Op>) returns (invoked: seq<HandlerId>, error: Option<HandlerError>)
      modifies this
      ensures RunAll(old(Reg()), hs, behaviour) == Run(Reg(), invoked, error)
    {
      ghost var start := Reg();
      invoked := [];
      error := None;
      var i := 0;
      while i < |hs|
        invariant 0 <= i <= |hs|
        invariant RunAll(start, hs[..i], behaviour) == Run(Reg(), invoked, None)
        invariant error.None?
      {
        assert hs[..i + 1][..i] == hs[..i];
        var h := hs[i];
        invoked := invoked + [h];
        error := Perform(behaviour(h), h);
        assert RunAll(start, hs[..i + 1], behaviour) == Run(Reg(), invoked, error);
        if error.Some? {
          RunAllStops(start, hs, i + 1, behaviour);
          return;
        }
        i := i + 1;
      }
      assert hs[..i] == hs;
    }

    /**
     * `dispatch`: invokes a snapshot of the durable listeners, then pops and invokes the
     * one-shot listeners; an exception from a listener ends the dispatch and propagates.
     */
    method Dispatch(name: string, behaviour: HandlerId -> seq<Op>) returns (invoked: seq<HandlerId>, r: Result<bool, HandlerError>)
      modifies this
      ensures var d := DispatchSpec(old(Reg()), name, behaviour);
        Reg() == d.reg && invoked == d.invoked && r == (if d.error.Some? then Err(d.error.value) else Ok(true))
    {
      var handlers := if name in eventHandlers then eventHandlers[name] else [];
      var error;
      invoked, error := RunListeners(handlers, behaviour);
      if error.Some? {
        return invoked, Err(error.value);
      }
      var nextHandlers := if name in nextEventHandlers then nextEventHandlers[name] else [];
      nextEventHandlers := nextEventHandlers - {name};
      var more;
      more, error := RunListeners(nextHandlers, behaviour);
      invoked := invoked + more;
      r := if error.Some? then Err(error.value) else Ok(true);
    }
  }
}

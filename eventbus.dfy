/**
 * The app-wide event bus (src/utils/eventBus.ts): a map from event name to
 * the list of handlers registered for it. Handlers are opaque ids compared
 * by identity, as the code compares functions with `!==`; the payload a
 * handler receives plays no part in the bus and is not modelled.
 */
module Events {
  import opened Records

  type HandlerId = nat

  /** The handlers `emit(event)` calls: a copy of the list, or none for an unknown event. */
  function Snapshot(handlers: map<string, seq<HandlerId>>, event: string): seq<HandlerId>
  {
    if event in handlers then handlers[event] else []
  }

  /** `hs.filter(h => h !== fn)` */
  function Remove(hs: seq<HandlerId>, fn: HandlerId): (r: seq<HandlerId>)
    ensures forall h :: h in r <==> h in hs && h != fn
    ensures |r| <= |hs|
  {
    if hs == [] then []
    else
      var init, last := hs[..|hs| - 1], hs[|hs| - 1];
      assert hs == init + [last];
      Remove(init, fn) + (if last == fn then [] else [last])
  }

  /** Filtering keeps the relative order: it distributes over concatenation. */
  lemma {:induction false} RemoveAppend(a: seq<HandlerId>, b: seq<HandlerId>, fn: HandlerId)
    ensures Remove(a + b, fn) == Remove(a, fn) + Remove(b, fn)
  {
    if b == [] {
      assert a + b == a;
    } else {
      assert (a + b)[..|a + b| - 1] == a + b[..|b| - 1];
      RemoveAppend(a, b[..|b| - 1], fn);
    }
  }

  /** A list without `fn` is left as it is. */
  lemma {:induction false} RemoveAbsent(hs: seq<HandlerId>, fn: HandlerId)
    requires fn !in hs
    ensures Remove(hs, fn) == hs
  {
    if hs != [] {
      var init, last := hs[..|hs| - 1], hs[|hs| - 1];
      assert hs == init + [last];
      assert fn !in init && last != fn;
      RemoveAbsent(init, fn);
    }
  }

  /** `on(event, fn)`: create the list if absent, then push `fn` at its end. */
  function Register(handlers: map<string, seq<HandlerId>>, event: string, fn: HandlerId): (r: map<string, seq<HandlerId>>)
    ensures event in r && r[event] == Snapshot(handlers, event) + [fn]
    ensures forall e :: e != event ==> (e in r <==> e in handlers) && (e in handlers ==> r[e] == handlers[e])
  {
    handlers[event := Snapshot(handlers, event) + [fn]]
  }

  /**
   * `off(event, fn)`: nothing for an unknown event; with no `fn`, drop the
   * event; otherwise filter every occurrence of `fn` out of its list (an
   * emptied list stays, since `[]` is truthy in JavaScript).
   */
  function Unregister(handlers: map<string, seq<HandlerId>>, event: string, fn: Option<HandlerId>): (r: map<string, seq<HandlerId>>)
    ensures event !in handlers ==> r == handlers
    ensures event in handlers && fn.None? ==> event !in r
    ensures event in handlers && fn.Some? ==> event in r && r[event] == Remove(handlers[event], fn.value)
    ensures forall e :: e != event ==> (e in r <==> e in handlers) && (e in handlers ==> r[e] == handlers[e])
  {
    if event !in handlers then handlers
    else if fn.None? then handlers - {event}
    else handlers[event := Remove(handlers[event], fn.value)]
  }

  /** Unsubscribing right after a fresh registration gives every event the handlers it had before. */
  lemma RegisterThenUnregister(handlers: map<string, seq<HandlerId>>, event: string, fn: HandlerId, e: string)
    requires fn !in Snapshot(handlers, event)
    ensures Snapshot(Unregister(Register(handlers, event, fn), event, Some(fn)), e) == Snapshot(handlers, e)
  {
    var hs := Snapshot(handlers, event);
    RemoveAppend(hs, [fn], fn);
    RemoveAbsent(hs, fn);
    assert Remove([fn], fn) == [];
  }

  /** If `fn` was already registered, its unsubscribe removes the earlier registrations too. */
  lemma UnsubscribeRemovesAll(handlers: map<string, seq<HandlerId>>, event: string, fn: HandlerId)
    ensures fn !in Snapshot(Unregister(Register(handlers, event, fn), event, Some(fn)), event)
  {
  }

  /** What a handler does to the bus while it runs. */
  datatype Action = Subscribe(event: string, handler: HandlerId) | Unsubscribe(target: string, which: Option<HandlerId>)

  function ActionEvent(a: Action): string
  {
    match a
    case Subscribe(e, _) => e
    case Unsubscribe(e, _) => e
  }

  /** The bus after the actions, in order. */
  function Apply(handlers: map<string, seq<HandlerId>>, actions: seq<Action>): map<string, seq<HandlerId>>
  {
    if actions == [] then handlers
    else
      var before := Apply(handlers, actions[..|actions| - 1]);
      match actions[|actions| - 1]
      case Subscribe(e, f) => Register(before, e, f)
      case Unsubscribe(e, f) => Unregister(before, e, f)
  }

  /**
   * What a handler does when called: the bus actions it performs and whether
   * it then throws. A handler absent from the map does nothing.
   */
  datatype Reaction = Reaction(actions: seq<Action>, throws: bool)

  function ActionsOf(behaviour: map<HandlerId, Reaction>, h: HandlerId): seq<Action>
  {
    if h in behaviour then behaviour[h].actions else []
  }

  predicate Throws(behaviour: map<HandlerId, Reaction>, h: HandlerId)
  {
    h in behaviour && behaviour[h].throws
  }

  /** The actions of the called handlers, in call order. */
  function Effects(called: seq<HandlerId>, behaviour: map<HandlerId, Reaction>): seq<Action>
  {
    if called == [] then []
    else Effects(called[..|called| - 1], behaviour) + ActionsOf(behaviour, called[|called| - 1])
  }

  /** Every action in the effects was performed by one of the called handlers. */
  lemma {:induction false} EffectsFromCalled(called: seq<HandlerId>, behaviour: map<HandlerId, Reaction>, a: Action)
    requires a in Effects(called, behaviour)
    ensures exists h :: h in called && a in ActionsOf(behaviour, h)
  {
    var init, last := called[..|called| - 1], called[|called| - 1];
    if a in Effects(init, behaviour) {
      EffectsFromCalled(init, behaviour, a);
      var h :| h in init && a in ActionsOf(behaviour, h);
      assert h in called;
    } else {
      assert last in called;
    }
  }

  /** An event that no action names keeps its handler list, or its absence. */
  lemma {:induction false} ApplyLeavesOthers(handlers: map<string, seq<HandlerId>>, actions: seq<Action>, e: string)
    requires forall a :: a in actions ==> ActionEvent(a) != e
    ensures e in Apply(handlers, actions) <==> e in handlers
    ensures e in handlers ==> Apply(handlers, actions)[e] == handlers[e]
  {
    if actions != [] {
      var init := actions[..|actions| - 1];
      assert forall a :: a in init ==> a in actions;
      assert actions[|actions| - 1] in actions;
      ApplyLeavesOthers(handlers, init, e);
    }
  }

  lemma {:induction false} ApplyAppend(handlers: map<string, seq<HandlerId>>, a: seq<Action>, b: seq<Action>)
    ensures Apply(handlers, a + b) == Apply(Apply(handlers, a), b)
  {
    if b != [] {
      assert (a + b)[..|a + b| - 1] == a + b[..|b| - 1];
      ApplyAppend(handlers, a, b[..|b| - 1]);
    } else {
      assert a + b == a;
    }
  }

  /**
   * Calling the next handler of the copied list extends the calls by it and
   * applies its actions after those of the handlers called before it.
   */
  lemma CallNext(start: map<string, seq<HandlerId>>, snapshot: seq<HandlerId>, behaviour: map<HandlerId, Reaction>,
                 i: nat, called: seq<HandlerId>, bus: map<string, seq<HandlerId>>)
    requires i < |snapshot| && called == snapshot[..i]
    requires bus == Apply(start, Effects(called, behaviour))
    ensures called + [snapshot[i]] == snapshot[..i + 1]
    ensures Apply(bus, ActionsOf(behaviour, snapshot[i])) == Apply(start, Effects(called + [snapshot[i]], behaviour))
  {
    var h := snapshot[i];
    assert (called + [h])[..|called|] == called;
    assert Effects(called + [h], behaviour) == Effects(called, behaviour) + ActionsOf(behaviour, h);
    ApplyAppend(start, Effects(called, behaviour), ActionsOf(behaviour, h));
  }

  /** The closure `on` returns, by what it captured. */
  datatype Subscription = Subscription(event: string, fn: HandlerId)

  class EventBus {
    var handlers: map<string, seq<HandlerId>>

    constructor ()
      ensures handlers == map[]
    {
      handlers := map[];
    }

    method On(event: string, fn: HandlerId) returns (unsubscribe: Subscription)
      modifies this
      ensures handlers == Register(old(handlers), event, fn)
      ensures unsubscribe == Subscription(event, fn)
    {
      if event !in handlers {
        handlers := handlers[event := []];
      }
      handlers := handlers[event := handlers[event] + [fn]];
      unsubscribe := Subscription(event, fn);
    }

    method Off(event: string, fn: Option<HandlerId>)
      modifies this
      ensures handlers == Unregister(old(handlers), event, fn)
    {
      if event !in handlers {
        return;
      }
      if fn.None? {
        handlers := handlers - {event};
        return;
      }
      handlers := handlers[event := Remove(handlers[event], fn.value)];
    }

    /** Calling the closure `on` returned: `() => this.off(event, fn)`. */
    method Call(u: Subscription)
      modifies this
      ensures handlers == Unregister(old(handlers), u.event, Some(u.fn))
    {
      Off(u.event, Some(u.fn));
    }

    /**
     * `emit(event)`: call the handlers of a copy of the event's list, in
     * order. `behaviour` gives what each handler does when called; the
     * changes it makes to the bus do not alter which handlers this emit
     * calls. A handler that throws ends the `forEach`: the later handlers are
     * not called, and `thrown` reports the exception to the caller.
     */
    method Emit(event: string, behaviour: map<HandlerId, Reaction>) returns (called: seq<HandlerId>, thrown: bool)
      modifies this
      ensures |called| <= |Snapshot(old(handlers), event)| && called == Snapshot(old(handlers), event)[..|called|]
      ensures forall j :: 0 <= j < |called| - 1 ==> !Throws(behaviour, called[j])
      ensures thrown <==> |called| > 0 && Throws(behaviour, called[|called| - 1])
      ensures !thrown ==> called == Snapshot(old(handlers), event)
      ensures handlers == Apply(old(handlers), Effects(called, behaviour))
    {
      called, thrown, handlers := CallHandlers(handlers, Snapshot(handlers, event), behaviour);
    }
  }

  /**
   * The `forEach` of `emit` over the copied list `snapshot`, starting from
   * the bus `start`: call each handler in turn, apply its actions, and stop
   * after the first that throws.
   */
  method CallHandlers(start: map<string, seq<HandlerId>>, snapshot: seq<HandlerId>, behaviour: map<HandlerId, Reaction>)
    returns (called: seq<HandlerId>, thrown: bool, bus: map<string, seq<HandlerId>>)
    ensures |called| <= |snapshot| && called == snapshot[..|called|]
    ensures forall j :: 0 <= j < |called| - 1 ==> !Throws(behaviour, called[j])
    ensures thrown <==> |called| > 0 && Throws(behaviour, called[|called| - 1])
    ensures !thrown ==> called == snapshot
    ensures bus == Apply(start, Effects(called, behaviour))
  {
    called, thrown, bus := [], false, start;
    var i := 0;
    while i < |snapshot| && !thrown
      invariant 0 <= i <= |snapshot| && |called| == i && called == snapshot[..i]
      invariant forall j :: 0 <= j < |called| - 1 ==> !Throws(behaviour, called[j])
      invariant thrown <==> |called| > 0 && Throws(behaviour, called[|called| - 1])
      invariant bus == Apply(start, Effects(called, behaviour))
    {
      var h := snapshot[i];
      CallNext(start, snapshot, behaviour, i, called, bus);
      bus := Apply(bus, ActionsOf(behaviour, h));
      called := called + [h];
      thrown := Throws(behaviour, h);
      i := i + 1;
    }
    assert snapshot[..|snapshot|] == snapshot;
  }
}

/**
 * The EventDispatcher mixin of src/hfixnel.js and src/fixnel.js (identical in
 * both): a map from an event type to the ordered list of `[fnc, context]`
 * registrations. Handlers are opaque ids; dispatching answers the calls it
 * makes, in order, instead of running them.
 */
module Events {
  import opened Wrappers

  type HandlerId = nat
  type ContextId = nat

  /** A registration `[fnc, context]`; `fn == None` is a missing (falsy) function. */
  datatype Entry = Entry(fn: Option<HandlerId>, context: Option<ContextId>)

  /** One handler call and the `this` it runs with (`None`: the dispatcher itself). */
  datatype Call = Call(fn: HandlerId, receiver: Option<ContextId>)

  /** The event object handed to handlers; an empty `typ` is an absent `type`. */
  datatype EventObject = EventObject(typ: string, value: Option<real>)

  /** What the mixin throws. */
  datatype Thrown =
    | InvalidEventType
      /** removeEventListener builds its message from an undeclared `fn`. */
    | ReferenceError(name: string)

  /** `obj[typ] || []`. */
  function Lookup(m: map<string, seq<Entry>>, typ: string): seq<Entry> {
    if typ in m then m[typ] else []
  }

  /** The calls one pass over a handler list makes: entries without a function are skipped. */
  function Calls(s: seq<Entry>): (r: seq<Call>)
    ensures |r| <= |s|
  {
    if s == [] then [] else CallOf(s[0]) + Calls(s[1..])
  }

  /** The call one entry makes: none when its function is missing. */
  function CallOf(e: Entry): (r: seq<Call>)
    ensures |r| <= 1
  {
    if e.fn.Some? then [Call(e.fn.value, e.context)] else []
  }

  /** The entries whose function is not `fn`, in their original order. */
  function Without(s: seq<Entry>, fn: Option<HandlerId>): (r: seq<Entry>)
    ensures |r| <= |s|
  {
    if s == [] then []
    else (if s[0].fn == fn then [] else [s[0]]) + Without(s[1..], fn)
  }

  /** `evt.type || (evt.type = typ)` on `opt_evt || {}`. */
  function Stamped(payload: Option<EventObject>, typ: string): (e: EventObject)
    ensures payload.Some? && payload.value.typ != "" ==> e == payload.value
    ensures payload.Some? && payload.value.typ == "" ==> e == payload.value.(typ := typ)
    ensures payload.None? ==> e == EventObject(typ, None)
  {
    var evt := payload.GetOr(EventObject("", None));
    if evt.typ == "" then evt.(typ := typ) else evt
  }

  lemma {:induction false} CallsAppend(s: seq<Entry>, t: seq<Entry>)
    ensures Calls(s + t) == Calls(s) + Calls(t)
    decreases |s|
  {
    if s == [] {
      assert s + t == t;
    } else {
      var u := s + t;
      assert u[0] == s[0];
      assert u[1..] == s[1..] + t;
      CallsAppend(s[1..], t);
      assert Calls(u) == CallOf(s[0]) + (Calls(s[1..]) + Calls(t));
    }
  }

  /** Appending one entry appends its call. */
  lemma CallsSnoc(s: seq<Entry>, e: Entry)
    ensures Calls(s + [e]) == Calls(s) + CallOf(e)
  {
    CallsAppend(s, [e]);
    assert [e][1..] == [];
  }

  lemma {:induction false} WithoutAppend(s: seq<Entry>, t: seq<Entry>, fn: Option<HandlerId>)
    ensures Without(s + t, fn) == Without(s, fn) + Without(t, fn)
  {
    if s == [] {
      assert s + t == t;
    } else {
      assert (s + t)[1..] == s[1..] + t;
      WithoutAppend(s[1..], t, fn);
    }
  }

  /** Removal keeps exactly the entries with another function. */
  lemma {:induction false} WithoutMembers(s: seq<Entry>, fn: Option<HandlerId>, e: Entry)
    ensures e in Without(s, fn) <==> e in s && e.fn != fn
  {
    if s != [] {
      WithoutMembers(s[1..], fn, e);
      assert s == [s[0]] + s[1..];
    }
  }

  /** After removal, dispatch never calls the removed function again. */
  lemma {:induction false} RemovedNeverCalled(s: seq<Entry>, h: HandlerId, ctx: Option<ContextId>)
    ensures Call(h, ctx) !in Calls(Without(s, Some(h)))
  {
    if s != [] {
      var head := if s[0].fn == Some(h) then [] else [s[0]];
      assert Without(s, Some(h)) == head + Without(s[1..], Some(h));
      CallsAppend(head, Without(s[1..], Some(h)));
      if head != [] {
        assert head[1..] == [];
      }
      RemovedNeverCalled(s[1..], h, ctx);
    }
  }

  /**
   * Registering h1 and then h2 for a type and dispatching that type calls
   * everything registered before, then h1, then h2.
   */
  lemma RegistrationOrder(m: map<string, seq<Entry>>, typ: string, h1: HandlerId, c1: Option<ContextId>,
                          h2: HandlerId, c2: Option<ContextId>)
    ensures var m1 := m[typ := Lookup(m, typ) + [Entry(Some(h1), c1)]];
            var m2 := m1[typ := Lookup(m1, typ) + [Entry(Some(h2), c2)]];
            Calls(Lookup(m2, typ)) == Calls(Lookup(m, typ)) + [Call(h1, c1), Call(h2, c2)]
  {
    var e1, e2 := Entry(Some(h1), c1), Entry(Some(h2), c2);
    CallsSnoc(Lookup(m, typ), e1);
    CallsSnoc(Lookup(m, typ) + [e1], e2);
  }

  /** One backward step of removeEventListener's splice loop keeps its invariant. */
  lemma RemoveStep(orig: seq<Entry>, arr: seq<Entry>, i: nat, fn: Option<HandlerId>)
    requires 0 < i <= |orig|
    requires arr == orig[..i] + Without(orig[i..], fn)
    ensures i - 1 < |arr| && arr[i - 1] == orig[i - 1]
    ensures arr[i - 1].fn == fn ==> arr[..i - 1] + arr[i..] == orig[..i - 1] + Without(orig[i - 1..], fn)
    ensures arr[i - 1].fn != fn ==> arr == orig[..i - 1] + Without(orig[i - 1..], fn)
  {
    assert orig[i - 1..] == [orig[i - 1]] + orig[i..];
    assert orig[..i] == orig[..i - 1] + [orig[i - 1]];
    assert arr[..i - 1] == orig[..i - 1];
    assert arr[i..] == Without(orig[i..], fn);
  }

  class Dispatcher {
    var handlers: map<string, seq<Entry>>

    constructor ()
      ensures handlers == map[]
    {
      handlers := map[];
    }

    /** addEventListener (alias bind, sub, on). */
    method Add(typ: string, fn: Option<HandlerId>, context: Option<ContextId>) returns (r: Result<(), Thrown>)
      modifies this
      ensures r.Err? <==> typ == ""
      ensures r.Err? ==> r.error == InvalidEventType && handlers == old(handlers)
      ensures r.Ok? ==> handlers == old(handlers)[typ := Lookup(old(handlers), typ) + [Entry(fn, context)]]
    {
      if typ == "" {
        return Err(InvalidEventType);
      }
      handlers := handlers[typ := Lookup(handlers, typ) + [Entry(fn, context)]];
      r := Ok(());
    }

    /**
     * removeEventListener (alias unbind, off): walks the list from its end and
     * splices out every entry whose function is identical to `fn`.
     */
    method Remove(typ: string, fn: Option<HandlerId>) returns (r: Result<(), Thrown>)
      modifies this
      ensures r.Err? <==> typ == ""
      ensures r.Err? ==> r.error == ReferenceError("fn") && handlers == old(handlers)
      ensures r.Ok? && typ in old(handlers) ==> handlers == old(handlers)[typ := Without(old(handlers)[typ], fn)]
      ensures r.Ok? && typ !in old(handlers) ==> handlers == old(handlers)
    {
      if typ == "" {
        return Err(ReferenceError("fn"));
      }
      var arr := Lookup(handlers, typ);
      ghost var orig := arr;
      var i := |arr|;
      while i > 0
        invariant 0 <= i <= |orig|
        invariant arr == orig[..i] + Without(orig[i..], fn)
        invariant handlers == old(handlers)
      {
        RemoveStep(orig, arr, i, fn);
        i := i - 1;
        if arr[i].fn == fn {
          arr := arr[..i] + arr[i + 1..];
        }
      }
      assert orig[0..] == orig && orig[..0] == [];
      assert arr == Without(orig, fn);
      if typ in handlers {
        handlers := handlers[typ := arr];
      }
      r := Ok(());
    }

    /** One pass over a handler list: the calls it makes, in order. */
    method CollectCalls(arr: seq<Entry>) returns (calls: seq<Call>)
      ensures calls == Calls(arr)
    {
      calls := [];
      var i := 0;
      while i < |arr|
        invariant 0 <= i <= |arr|
        invariant calls == Calls(arr[..i])
      {
        CallsSnoc(arr[..i], arr[i]);
        assert arr[..i + 1] == arr[..i] + [arr[i]];
        if arr[i].fn.Some? {
          calls := calls + [Call(arr[i].fn.value, arr[i].context)];
        }
        i := i + 1;
      }
      assert arr[..|arr|] == arr;
    }

    /**
     * dispatchEvent (alias trigger, pub): calls a copy of the type's list taken
     * on entry, then the '*' list, each in registration order.
     */
    method Dispatch(typ: string, payload: Option<EventObject>) returns (r: Result<(seq<Call>, EventObject), Thrown>)
      ensures r.Err? <==> typ == ""
      ensures r.Err? ==> r.error == InvalidEventType
      ensures r.Ok? ==> r.value.0 == Calls(Lookup(handlers, typ)) + Calls(Lookup(handlers, "*"))
      ensures r.Ok? ==> r.value.1 == Stamped(payload, typ)
    {
      if typ == "" {
        return Err(InvalidEventType);
      }
      var evt := Stamped(payload, typ);
      var own := CollectCalls(Lookup(handlers, typ));
      var star := CollectCalls(Lookup(handlers, "*"));
      r := Ok((own + star, evt));
    }
  }
}

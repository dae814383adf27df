/**
 * The per-kind listener lists of the websocket and the pure functions that
 * say what registration, removal and dispatch do to one list.
 *
 * An entry pairs a listener with its (optional) options object. Options are
 * compared by reference, as the JavaScript `!==` does, so they are modelled
 * by a class whose identity is the object reference.
 */
module Listeners {
  import opened Events

  /** The options object passed to addEventListener; only its `once` flag is read. */
  class ListenerOptions {
    const once: bool

    constructor (once: bool)
      ensures this.once == once
    {
      this.once := once;
    }
  }

  /** A registered `{listener, options}` pair; `null` options stand for `undefined`. */
  datatype Entry = Entry(listener: ListenerId, options: ListenerOptions?)

  /** An entry registered with options whose `once` flag is set. */
  predicate IsOnce(e: Entry)
  {
    e.options != null && e.options.once
  }

  /**
   * The keep-predicate of removeEventListener: an entry survives when its
   * listener differs from the given one and its options are either
   * undefined or a different object from the given options.
   */
  predicate Keep(e: Entry, listener: ListenerId, options: ListenerOptions?)
  {
    e.listener != listener && (e.options == null || e.options != options)
  }

  /** The list that removeEventListener leaves behind: `s` filtered by Keep. */
  function Removed(s: seq<Entry>, listener: ListenerId, options: ListenerOptions?): (r: seq<Entry>)
    ensures |r| <= |s|
    ensures forall e :: e in r ==> e in s && Keep(e, listener, options)
    ensures forall e :: e in s && Keep(e, listener, options) ==> e in r
  {
    if s == [] then []
    else (if Keep(s[0], listener, options) then [s[0]] else []) + Removed(s[1..], listener, options)
  }

  /** Removal distributes over concatenation, so survivors keep their relative order. */
  lemma {:induction false} RemovedAppend(a: seq<Entry>, b: seq<Entry>, listener: ListenerId, options: ListenerOptions?)
    ensures Removed(a + b, listener, options) == Removed(a, listener, options) + Removed(b, listener, options)
  {
    if a == [] {
      assert a + b == b;
    } else {
      assert (a + b)[0] == a[0];
      assert (a + b)[1..] == a[1..] + b;
      RemovedAppend(a[1..], b, listener, options);
    }
  }

  /** Removing a listener that no entry matches leaves the list as it was. */
  lemma {:induction false} RemovedUnchanged(s: seq<Entry>, listener: ListenerId, options: ListenerOptions?)
    requires forall e :: e in s ==> Keep(e, listener, options)
    ensures Removed(s, listener, options) == s
  {
    if s != [] {
      assert s[0] in s;
      assert forall e :: e in s[1..] ==> e in s;
      RemovedUnchanged(s[1..], listener, options);
      assert [s[0]] + s[1..] == s;
    }
  }

  /** Removing the same listener and options twice is the same as removing them once. */
  lemma RemovedIdempotent(s: seq<Entry>, listener: ListenerId, options: ListenerOptions?)
    ensures Removed(Removed(s, listener, options), listener, options) == Removed(s, listener, options)
  {
    RemovedUnchanged(Removed(s, listener, options), listener, options);
  }

  /** Removing with the arguments of an addition undoes that addition. */
  lemma RemoveUndoesAdd(s: seq<Entry>, listener: ListenerId, options: ListenerOptions?)
    ensures Removed(s + [Entry(listener, options)], listener, options) == Removed(s, listener, options)
  {
    RemovedAppend(s, [Entry(listener, options)], listener, options);
    assert Removed([Entry(listener, options)], listener, options) == [];
  }

  /** When nothing in the list matched, adding then removing restores the list exactly. */
  lemma AddThenRemoveRestores(s: seq<Entry>, listener: ListenerId, options: ListenerOptions?)
    requires forall e :: e in s ==> Keep(e, listener, options)
    ensures Removed(s + [Entry(listener, options)], listener, options) == s
  {
    RemoveUndoesAdd(s, listener, options);
    RemovedUnchanged(s, listener, options);
  }

  /** The `onceListeners` that dispatch collects: the once-entries of `s`, in order. */
  function OnceEntries(s: seq<Entry>): (r: seq<Entry>)
    ensures |r| <= |s|
    ensures forall e :: e in r ==> e in s && IsOnce(e)
    ensures forall e :: e in s && IsOnce(e) ==> e in r
  {
    if s == [] then []
    else
      assert s == s[..|s| - 1] + [s[|s| - 1]];
      OnceEntries(s[..|s| - 1]) + (if IsOnce(s[|s| - 1]) then [s[|s| - 1]] else [])
  }

  /** The list left after removeEventListener has been called with each entry of `removals`, in order. */
  function RemoveEach(s: seq<Entry>, removals: seq<Entry>): (r: seq<Entry>)
    ensures |r| <= |s|
    ensures forall e :: e in r ==> e in s
  {
    if removals == [] then s
    else
      var last := removals[|removals| - 1];
      Removed(RemoveEach(s, removals[..|removals| - 1]), last.listener, last.options)
  }

  /** An entry that every removal in `removals` keeps. */
  predicate Survives(e: Entry, removals: seq<Entry>)
  {
    forall o :: o in removals ==> Keep(e, o.listener, o.options)
  }

  /** After a series of removals exactly the entries that every removal keeps remain. */
  lemma {:induction false} RemoveEachSurvivors(s: seq<Entry>, removals: seq<Entry>)
    ensures forall e :: e in RemoveEach(s, removals) <==> e in s && Survives(e, removals)
  {
    if removals != [] {
      var init, last := removals[..|removals| - 1], removals[|removals| - 1];
      RemoveEachSurvivors(s, init);
      assert removals == init + [last];
      forall e
        ensures Survives(e, removals) <==> Survives(e, init) && Keep(e, last.listener, last.options)
      {
        if Survives(e, init) && Keep(e, last.listener, last.options) {
          forall o | o in removals ensures Keep(e, o.listener, o.options) {
            if o != last {
              assert o in init;
            }
          }
        }
      }
    }
  }

  /** A series of removals also distributes over concatenation: order is preserved. */
  lemma {:induction false} RemoveEachAppend(a: seq<Entry>, b: seq<Entry>, removals: seq<Entry>)
    ensures RemoveEach(a + b, removals) == RemoveEach(a, removals) + RemoveEach(b, removals)
  {
    if removals != [] {
      var init, last := removals[..|removals| - 1], removals[|removals| - 1];
      RemoveEachAppend(a, b, init);
      RemovedAppend(RemoveEach(a, init), RemoveEach(b, init), last.listener, last.options);
    }
  }

  /** The list of one kind after dispatching it: every collected once-entry removed in turn. */
  function AfterDispatch(s: seq<Entry>): seq<Entry>
  {
    RemoveEach(s, OnceEntries(s))
  }

  /**
   * After a dispatch, an entry remains exactly when it was registered and no
   * once-entry dispatched with it shares its listener or its defined options.
   */
  lemma AfterDispatchMembers(s: seq<Entry>)
    ensures forall e :: e in AfterDispatch(s) <==>
      e in s && forall o :: o in s && IsOnce(o) ==> Keep(e, o.listener, o.options)
  {
    RemoveEachSurvivors(s, OnceEntries(s));
  }

  /** Every listener dispatched with `once` set has no entry left for that kind. */
  lemma DispatchClearsOnce(s: seq<Entry>, once: Entry)
    requires once in s && IsOnce(once)
    ensures forall e :: e in AfterDispatch(s) ==> e.listener != once.listener
  {
    AfterDispatchMembers(s);
  }

  /** A dispatch over a list without once-entries leaves the list exactly as it was. */
  lemma DispatchWithoutOnceKeepsAll(s: seq<Entry>)
    requires forall e :: e in s ==> !IsOnce(e)
    ensures AfterDispatch(s) == s
  {
    NoOnceEntries(s);
  }

  /** A list without once-entries collects no once-listeners. */
  lemma {:induction false} NoOnceEntries(s: seq<Entry>)
    requires forall e :: e in s ==> !IsOnce(e)
    ensures OnceEntries(s) == []
  {
    if s != [] {
      assert s[|s| - 1] in s;
      assert forall e :: e in s[..|s| - 1] ==> e in s;
      NoOnceEntries(s[..|s| - 1]);
    }
  }

  /** The calls one dispatch makes: each entry's listener in list order, all with the same payload. */
  function Invocations(kind: EventKind, s: seq<Entry>, payload: Payload): seq<Call>
  {
    if s == [] then []
    else Invocations(kind, s[..|s| - 1], payload) + [Call(kind, s[|s| - 1].listener, payload)]
  }

  /** Dispatch invokes every entry present at its start, once each, in registration order. */
  lemma {:induction false} InvocationsAt(kind: EventKind, s: seq<Entry>, payload: Payload)
    ensures |Invocations(kind, s, payload)| == |s|
    ensures forall i :: 0 <= i < |s| ==> Invocations(kind, s, payload)[i] == Call(kind, s[i].listener, payload)
  {
    if s != [] {
      InvocationsAt(kind, s[..|s| - 1], payload);
    }
  }
}

/** A stand-in for the test framework's recording function (`jest.fn()`), limited to
    what the mock builder and its tests rely on: every call is recorded, a single
    configured return value (`mockReturnValue`) is returned by every later call, and
    `mockReset` clears both. A substitute is described by its observable state, a
    `Recording`; the mock objects hold one per key. */
module Substitutes {

  datatype Option<+T> = None | Some(value: T)

  /** Values passed to and returned from substitutes; `None` plays the part of `undefined`. */
  datatype Value = Str(s: string) | Num(n: int)

  type Args = seq<Value>

  /** What can be observed of one substitute: its recorded calls and its configured return value. */
  datatype Recording = Recording(calls: seq<Args>, ret: Option<Value>)

  /** The state of a substitute that was just created or just reset. */
  const Unused := Recording([], None)

  /** One call: appends the arguments to the history and yields the configured value. */
  function Invoke(r: Recording, args: Args): (Recording, Option<Value>)
  {
    (Recording(r.calls + [args], r.ret), r.ret)
  }

  /** `mockReturnValue(v)`: keeps the history, replaces the configured value. */
  function Configure(r: Recording, v: Value): Recording
  {
    Recording(r.calls, Some(v))
  }

  /** Calls the substitute once for each argument list, in order; gives the final state
      and the values the calls returned. */
  function InvokeAll(r: Recording, argLists: seq<Args>): (Recording, seq<Option<Value>>)
    decreases |argLists|
  {
    if argLists == [] then (r, [])
    else
      var (r1, x) := Invoke(r, argLists[0]);
      var (r2, xs) := InvokeAll(r1, argLists[1..]);
      (r2, [x] + xs)
  }

  /** Calls never change what a substitute returns: each of them returns the configured
      value, and the history grows by exactly the argument lists, in order. */
  lemma {:induction false} InvokeAllReturns(r: Recording, argLists: seq<Args>)
    ensures var (r', results) := InvokeAll(r, argLists);
      && |results| == |argLists|
      && (forall i :: 0 <= i < |results| ==> results[i] == r.ret)
      && r'.calls == r.calls + argLists
      && r'.ret == r.ret
    decreases |argLists|
  {
    if argLists != [] {
      var (r1, x) := Invoke(r, argLists[0]);
      InvokeAllReturns(r1, argLists[1..]);
      assert r.calls + [argLists[0]] + argLists[1..] == r.calls + argLists;
    }
  }

  /** A substitute nobody has configured returns `undefined` on every call. */
  lemma {:induction false} UnconfiguredReturnsUndefined(argLists: seq<Args>)
    ensures var (r', results) := InvokeAll(Unused, argLists);
      && |results| == |argLists|
      && (forall i :: 0 <= i < |results| ==> results[i] == None)
      && r'.calls == argLists
  {
    InvokeAllReturns(Unused, argLists);
  }

  /** After `mockReturnValue(v)` every later call returns `v`, whatever was recorded before. */
  lemma {:induction false} ConfiguredValueReturned(r: Recording, v: Value, argLists: seq<Args>)
    ensures var (r', results) := InvokeAll(Configure(r, v), argLists);
      && |results| == |argLists|
      && (forall i :: 0 <= i < |results| ==> results[i] == Some(v))
      && r'.calls == r.calls + argLists
  {
    InvokeAllReturns(Configure(r, v), argLists);
  }
}

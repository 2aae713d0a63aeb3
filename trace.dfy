/**
 * Sequences of calls against the logging configuration. The lock makes every call an
 * atomic step, so any run of the program is, as far as the record is concerned, one
 * sequence of such steps in lock order. The lemmas here say what such a sequence
 * leaves in the record and what each call in it gives back.
 */
module Trace {
  import opened Levels
  import opened Logging

  /** A call under the lock, or a `log_format` call made by a logger from `default_logger`. */
  datatype Event = Call(call: StoreCall) | Format(level: Level, message: Option<string>)

  predicate WritesLevel(e: Event) {
    e.Call? && e.call.SetLevel?
  }

  predicate WritesFactory(e: Event) {
    e.Call? && e.call.SetFactory?
  }

  /** One event: a store call, or a format that reads the level (and panics on a poisoned lock). */
  function Step(o: Order, s: ConfigState, e: Event): (r: (ConfigState, Reply))
    ensures e.Call? ==> r == Apply(s, e.call)
    ensures e.Format? ==> r.0 == s
    ensures e.Format? ==> r.1 == (if s.poisoned then Panicked else Text(FilterMessage(o, e.level, e.message, s.level)))
  {
    match e
    case Call(c) => Apply(s, c)
    case Format(level, message) =>
      if s.poisoned then (s, Panicked) else (s, Text(FilterMessage(o, level, message, s.level)))
  }

  /**
   * The record after `events`, starting from `s`, and the reply to each event. The
   * lock ends up poisoned exactly when it started so or some holder panicked, and a
   * poisoned lock keeps the record as it was and fails every call.
   */
  function Run(o: Order, s: ConfigState, events: seq<Event>): (r: (ConfigState, seq<Reply>))
    ensures |r.1| == |events|
    ensures r.0.poisoned <==> s.poisoned || Call(PanicWhileLocked) in events
    ensures s.poisoned ==> r.0 == s && forall k :: 0 <= k < |events| ==> r.1[k].Failed()
    decreases |events|
  {
    if events == [] then (s, [])
    else
      var before := Run(o, s, events[..|events| - 1]);
      var last := Step(o, before.0, events[|events| - 1]);
      (last.0, before.1 + [last.1])
  }

  /**
   * The level written by the last `set_logger_level` in `events`, if there is one: it
   * is one of the written levels, and no level is written after it.
   */
  function LastLevelWritten(events: seq<Event>): (r: Option<Level>)
    ensures r.None? <==> forall k :: 0 <= k < |events| ==> !WritesLevel(events[k])
    ensures r.Some? ==> exists k :: 0 <= k < |events| && events[k] == Call(SetLevel(r.value)) &&
                                    forall j :: k < j < |events| ==> !WritesLevel(events[j])
  {
    if events == [] then None
    else if WritesLevel(events[|events| - 1]) then Some(events[|events| - 1].call.level)
    else LastLevelWritten(events[..|events| - 1])
  }

  /**
   * The factory written by the last `set_logger` in `events`, if there is one: it is
   * one of the written factories, and no factory is written after it.
   */
  function LastFactoryWritten(events: seq<Event>): (r: Option<Factory>)
    ensures r.None? <==> forall k :: 0 <= k < |events| ==> !WritesFactory(events[k])
    ensures r.Some? ==> exists k :: 0 <= k < |events| && events[k] == Call(SetFactory(r.value)) &&
                                    forall j :: k < j < |events| ==> !WritesFactory(events[j])
  {
    if events == [] then None
    else if WritesFactory(events[|events| - 1]) then Some(events[|events| - 1].call.factory)
    else LastFactoryWritten(events[..|events| - 1])
  }

  /**
   * Last writer wins, field by field: while the lock stays healthy, the record holds
   * the level of the last `set_logger_level` and the factory of the last `set_logger`,
   * each untouched by writes to the other field, or its starting value if never written.
   */
  lemma {:induction false} LastWriteWins(o: Order, s: ConfigState, events: seq<Event>)
    requires !s.poisoned && Call(PanicWhileLocked) !in events
    ensures Run(o, s, events).0.level == LastLevelWritten(events).GetOr(s.level)
    ensures Run(o, s, events).0.factory == LastFactoryWritten(events).GetOr(s.factory)
    ensures !Run(o, s, events).0.poisoned
    decreases |events|
  {
    if events != [] {
      var prefix := events[..|events| - 1];
      assert events == prefix + [events[|events| - 1]];
      LastWriteWins(o, s, prefix);
    }
  }

  /** The reply to event `k` is the reply that event gives in the state the events before it leave. */
  lemma {:induction false} ReplyAt(o: Order, s: ConfigState, events: seq<Event>, k: nat)
    requires k < |events|
    ensures Run(o, s, events).1[k] == Step(o, Run(o, s, events[..k]).0, events[k]).1
    decreases |events|
  {
    var prefix := events[..|events| - 1];
    if k < |events| - 1 {
      ReplyAt(o, s, prefix, k);
      assert prefix[..k] == events[..k];
    } else {
      assert prefix == events[..k];
    }
  }

  /**
   * A logger obtained from the program's start is built by the factory of the last
   * `set_logger` before it, or by `default_logger`; a later `set_logger` does not
   * reach it.
   */
  lemma LoggerComesFromLatestFactory(o: Order, events: seq<Event>, k: nat)
    requires k < |events| && events[k] == Call(Get)
    requires Call(PanicWhileLocked) !in events[..k]
    ensures Run(o, Initial, events).1[k] == Built(Ok(Build(LastFactoryWritten(events[..k]).GetOr(DefaultLogger))))
  {
    ReplyAt(o, Initial, events, k);
    LastWriteWins(o, Initial, events[..k]);
  }

  /**
   * A format from the program's start filters against the level of the last
   * `set_logger_level` before it, or Info, whenever the logger doing the formatting
   * was obtained.
   */
  lemma FormatReadsLiveLevel(o: Order, events: seq<Event>, k: nat)
    requires k < |events| && events[k].Format?
    requires Call(PanicWhileLocked) !in events[..k]
    ensures Run(o, Initial, events).1[k] ==
            Text(FilterMessage(o, events[k].level, events[k].message, LastLevelWritten(events[..k]).GetOr(Info)))
  {
    ReplyAt(o, Initial, events, k);
    LastWriteWins(o, Initial, events[..k]);
  }

  /** Level and factory are independent: writing them in either order leaves the same record. */
  lemma LevelAndFactoryCommute(o: Order, s: ConfigState, events: seq<Event>, l: Level, f: Factory)
    ensures Run(o, s, events + [Call(SetLevel(l)), Call(SetFactory(f))]).0 ==
            Run(o, s, events + [Call(SetFactory(f)), Call(SetLevel(l))]).0
  {
    var a := events + [Call(SetLevel(l)), Call(SetFactory(f))];
    var b := events + [Call(SetFactory(f)), Call(SetLevel(l))];
    assert a[..|a| - 1][..|a| - 2] == events;
    assert b[..|b| - 1][..|b| - 2] == events;
  }
}

/**
 * The overlay's state file (app/overlay_state.py): a JSON object read on
 * every call, holding display flags and a buffer of the ten newest events.
 * Clock readings are a parameter `now`; whether writing the file succeeds is
 * a parameter `writable` (a failed write is the exception the source turns
 * into `False`).
 */
module Overlay {
  import opened Common

  /** A JSON value. */
  datatype Value = Null | Bool(b: bool) | Num(n: int) | Str(s: string)
                 | List(items: seq<Value>) | Obj(fields: map<string, Value>)

  type State = map<string, Value>

  const MaxEvents: nat := 10

  /** The state used when the file is missing or cannot be parsed. */
  function DefaultState(now: string): (s: State)
    ensures s.Keys == {"afk_mode", "victory_screen_hidden", "last_updated", "events"}
    ensures s["afk_mode"] == Bool(false) && s["victory_screen_hidden"] == Bool(false)
    ensures s["events"] == List([]) && s["last_updated"] == Str(now)
  {
    map["afk_mode" := Bool(false), "victory_screen_hidden" := Bool(false),
        "last_updated" := Str(now), "events" := List([])]
  }

  /** Python's s[-n:] for n >= 1: the last n elements, or all of a shorter s. */
  function LastN<T>(s: seq<T>, n: nat): (r: seq<T>)
    ensures |r| == Min(|s|, n)
    ensures r == s[|s| - |r|..]
  {
    if |s| <= n then s else s[|s| - n..]
  }

  /** The event buffer after appending e: at most ten entries, e last, the
      survivors being the newest earlier events in their old order. */
  function WithEvent(events: seq<Value>, e: Value): (r: seq<Value>)
    ensures 1 <= |r| <= MaxEvents && r[|r| - 1] == e
    ensures |r| == Min(|events| + 1, MaxEvents)
    ensures r[..|r| - 1] == events[|events| - (|r| - 1)..]
  {
    var all := events + [e];
    var r := LastN(all, MaxEvents);
    assert r[..|r| - 1] == all[|all| - |r|..|all| - 1];
    assert all[..|events|] == events;
    r
  }

  /** The event record {type, data or {}, timestamp}. */
  function EventRecord(kind: string, data: Option<map<string, Value>>, now: string): Value {
    Obj(map["type" := Str(kind), "data" := Obj(if data.Some? then data.value else map[]),
            "timestamp" := Str(now)])
  }

  /** state.update(updates) followed by the timestamp. */
  function Updated(st: State, updates: State, now: string): (r: State)
    ensures r.Keys == st.Keys + updates.Keys + {"last_updated"}
    ensures r["last_updated"] == Str(now)
    ensures forall k :: k in updates && k != "last_updated" ==> r[k] == updates[k]
    ensures forall k :: k in st && k !in updates && k != "last_updated" ==> r[k] == st[k]
  {
    (st + updates)["last_updated" := Str(now)]
  }

  /** The state after add_overlay_event; None when the events entry is not a
      list, on which `append` raises. */
  function EventAdded(st: State, kind: string, data: Option<map<string, Value>>, now: string): (r: Option<State>)
    ensures r.Some? <==> ("events" !in st || st["events"].List?)
    ensures r.Some? ==> r.value.Keys == st.Keys + {"events", "last_updated"}
    ensures r.Some? ==> forall k :: k in st && k != "events" && k != "last_updated" ==> r.value[k] == st[k]
    ensures r.Some? ==> (r.value["events"].List? &&
              r.value["events"].items == WithEvent(if "events" in st then st["events"].items else [],
                                                   EventRecord(kind, data, now)))
  {
    var events := if "events" in st then st["events"] else List([]);
    if !events.List? then None
    else Some(st["events" := List(WithEvent(events.items, EventRecord(kind, data, now)))]["last_updated" := Str(now)])
  }

  /** The state after clear_overlay_events. */
  function EventsCleared(st: State, now: string): (r: State)
    ensures r.Keys == st.Keys + {"events", "last_updated"}
    ensures r["events"] == List([])
    ensures forall k :: k in st && k != "events" && k != "last_updated" ==> r[k] == st[k]
  {
    st["events" := List([])]["last_updated" := Str(now)]
  }

  /** The file on disk; None when it is missing or cannot be parsed. */
  class OverlayStore {
    var file: Option<State>

    constructor (initial: Option<State>)
      ensures file == initial
    {
      file := initial;
    }

    /** get_overlay_state: the stored object, or the default. */
    function Current(now: string): (s: State)
      reads this
      ensures file.None? ==> s == DefaultState(now)
      ensures file.Some? ==> s == file.value
    {
      if file.Some? then file.value else DefaultState(now)
    }

    method UpdateOverlayState(updates: State, now: string, writable: bool) returns (ok: bool)
      modifies this
      ensures ok == writable
      ensures file == if ok then Some(Updated(old(Current(now)), updates, now)) else old(file)
    {
      var state := Current(now);
      state := state + updates;
      state := state["last_updated" := Str(now)];
      if !writable {
        return false;
      }
      file := Some(state);
      ok := true;
    }

    method AddOverlayEvent(kind: string, data: Option<map<string, Value>>, now: string, writable: bool)
      returns (ok: bool)
      modifies this
      ensures var next := EventAdded(old(Current(now)), kind, data, now);
              ok == (next.Some? && writable) && file == if ok then next else old(file)
    {
      var state := Current(now);
      ghost var start := state;
      if "events" !in state {
        state := state["events" := List([])];
      }
      if !state["events"].List? {
        return false;
      }
      var event := EventRecord(kind, data, now);
      var events := state["events"].items + [event];
      var buffer := List(LastN(events, MaxEvents));
      assert buffer == List(WithEvent(if "events" in start then start["events"].items else [], event));
      assert state["events" := buffer] == start["events" := buffer];
      state := state["events" := buffer];
      state := state["last_updated" := Str(now)];
      if !writable {
        return false;
      }
      file := Some(state);
      ok := true;
    }

    method ClearOverlayEvents(now: string, writable: bool) returns (ok: bool)
      modifies this
      ensures ok == writable
      ensures file == if ok then Some(EventsCleared(old(Current(now)), now)) else old(file)
    {
      var state := Current(now);
      state := state["events" := List([])];
      state := state["last_updated" := Str(now)];
      if !writable {
        return false;
      }
      file := Some(state);
      ok := true;
    }
  }
}

/**
  The in-memory status cache (src/service/memory_cache_service.py): a map
  from event name to a map from action name to a status, updated in place.
  Statuses are values of an opaque type S.
*/
module MemoryCache {
  import opened Dicts
  import opened States

  /** What `get_status` returns: the stored status, or the text "Unknown". */
  datatype StatusReply<S> = Stored(status: S) | Unknown

  /** The cache after the inner loop of `set_status_with_state` over one event's actions. */
  function ForActions<S>(cache: map<string, map<string, S>>, eventName: string, actions: seq<Action>,
                         target: string, status: S): map<string, map<string, S>>
  {
    if actions == [] then cache
    else
      var n := |actions| - 1;
      var before := ForActions(cache, eventName, actions[..n], target, status);
      if target == actions[n].name then PutNested(before, eventName, actions[n].name, status) else before
  }

  /** The cache after the outer loop of `set_status_with_state` over the first `n` events. */
  function ForEvents<S>(cache: map<string, map<string, S>>, events: Dict<string, Event>, n: nat,
                        target: string, status: S): map<string, map<string, S>>
    requires n <= |events.keys|
  {
    if n == 0 then cache
    else
      var e := events.keys[n - 1];
      ForActions(ForEvents(cache, events, n - 1, target, status), e, events.entries[e].actions, target, status)
  }

  /** One event's pass sets (event, target) exactly when the event lists the target action. */
  lemma {:induction false} ForActionsEffect<S>(cache: map<string, map<string, S>>, eventName: string, actions: seq<Action>,
                                               target: string, status: S)
    ensures var r := ForActions(cache, eventName, actions, target, status);
            var hit := target in ActionNames(actions);
            && (forall k :: k in r <==> k in cache || (k == eventName && hit))
            && (forall k, l :: (k in r && l in r[k]) <==> (k in cache && l in cache[k]) || (k == eventName && l == target && hit))
            && (forall k, l :: k in r && l in r[k] ==>
                  r[k][l] == (if k == eventName && l == target && hit then status else cache[k][l]))
  {
    if actions != [] {
      var n := |actions| - 1;
      ForActionsEffect(cache, eventName, actions[..n], target, status);
      assert ActionNames(actions) == ActionNames(actions[..n]) + [actions[n].name];
    }
  }

  /** Event `k` is among the first `n` events and lists the target action. */
  ghost predicate Hit(events: Dict<string, Event>, n: nat, target: string, k: string)
    requires n <= |events.keys|
  {
    exists i :: 0 <= i < n && events.keys[i] == k && target in ActionNames(events.entries[k].actions)
  }

  lemma {:induction false} ForEventsEffect<S>(cache: map<string, map<string, S>>, events: Dict<string, Event>, n: nat,
                                              target: string, status: S)
    requires n <= |events.keys|
    ensures var r := ForEvents(cache, events, n, target, status);
            && (forall k :: k in r <==> k in cache || Hit(events, n, target, k))
            && (forall k, l :: (k in r && l in r[k]) <==> (k in cache && l in cache[k]) || (l == target && Hit(events, n, target, k)))
            && (forall k, l :: k in r && l in r[k] ==>
                  r[k][l] == (if l == target && Hit(events, n, target, k) then status else cache[k][l]))
  {
    if n > 0 {
      var e := events.keys[n - 1];
      ForEventsEffect(cache, events, n - 1, target, status);
      var before := ForEvents(cache, events, n - 1, target, status);
      ForActionsEffect(before, e, events.entries[e].actions, target, status);
      forall k
        ensures Hit(events, n, target, k) <==> Hit(events, n - 1, target, k) || (k == e && target in ActionNames(events.entries[e].actions))
      {
        if Hit(events, n, target, k) && !(k == e && target in ActionNames(events.entries[e].actions)) {
          var i :| 0 <= i < n && events.keys[i] == k && target in ActionNames(events.entries[k].actions);
          assert i < n - 1;
        }
      }
    }
  }

  /**
    `set_status_with_state` changes exactly the (event, target) entries of the
    events of the state that list the target action: those take the status and
    every other entry is left alone, so an action no event lists changes nothing.
  */
  lemma SetStatusWithStateEffect<S>(cache: map<string, map<string, S>>, state: State, target: string, status: S)
    ensures var events := state.eventActions;
            var r := ForEvents(cache, events, |events.keys|, target, status);
            && (forall k :: k in r <==> k in cache || (k in events.entries && target in ActionNames(events.entries[k].actions)))
            && (forall k, l :: (k in r && l in r[k]) <==>
                  (k in cache && l in cache[k]) ||
                  (l == target && k in events.entries && target in ActionNames(events.entries[k].actions)))
            && (forall k, l :: k in r && l in r[k] ==>
                  r[k][l] == (if l == target && k in events.entries && target in ActionNames(events.entries[k].actions)
                              then status else cache[k][l]))
  {
    var events := state.eventActions;
    ForEventsEffect(cache, events, |events.keys|, target, status);
    forall k
      ensures Hit(events, |events.keys|, target, k) <==> k in events.entries && target in ActionNames(events.entries[k].actions)
    {
      if k in events.entries {
        assert k in events.keys;
        var i :| 0 <= i < |events.keys| && events.keys[i] == k;
      }
    }
  }

  /** `MemoryCacheService`. */
  class MemoryCacheService<S> {
    var cache: map<string, map<string, S>>

    constructor ()
      ensures cache == map[]
    {
      cache := map[];
    }

    /** `set_status`: creates the event's map when missing, then sets the one entry. */
    method SetStatus(eventName: string, actionName: string, status: S)
      modifies this`cache
      ensures cache == PutNested(old(cache), eventName, actionName, status)
      ensures GetStatus(eventName, actionName) == Stored(status)
    {
      if eventName !in cache {
        cache := cache[eventName := map[]];
      }
      cache := cache[eventName := cache[eventName][actionName := status]];
    }

    /** `get_status`: the stored status, or "Unknown" for a pair never set. */
    function GetStatus(eventName: string, actionName: string): (r: StatusReply<S>)
      reads this`cache
      ensures r.Unknown? <==> !(eventName in cache && actionName in cache[eventName])
      ensures r.Stored? ==> r.status == cache[eventName][actionName]
    {
      if eventName in cache && actionName in cache[eventName] then Stored(cache[eventName][actionName]) else Unknown
    }

    /** `set_status_with_state`: for each event in order, for each of its actions naming the target, set the status. */
    method SetStatusWithState(state: State, target: string, status: S)
      modifies this`cache
      ensures cache == ForEvents(old(cache), state.eventActions, |state.eventActions.keys|, target, status)
    {
      var events := state.eventActions;
      var i := 0;
      while i < |events.keys|
        invariant 0 <= i <= |events.keys|
        invariant cache == ForEvents(old(cache), events, i, target, status)
      {
        var eventName := events.keys[i];
        var actions := events.entries[eventName].actions;
        var before := cache;
        var j := 0;
        while j < |actions|
          invariant 0 <= j <= |actions|
          invariant cache == ForActions(before, eventName, actions[..j], target, status)
        {
          assert actions[..j + 1][..j] == actions[..j];
          if target == actions[j].name {
            SetStatus(eventName, actions[j].name, status);
          }
          j := j + 1;
        }
        assert actions[..j] == actions;
        i := i + 1;
      }
    }
  }
}

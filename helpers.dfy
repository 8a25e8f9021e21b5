/**
 * helpers.py: the refresh throttle entities use after a command, and the wrapper
 * that turns the exceptions of an entity command into HomeAssistantError.
 */
module Helpers {
  import opened Wrappers
  import opened Exceptions

  // ---------------------------------------------------------------------------
  // safe_refresh and _LAST_REFRESH_TIMES
  // ---------------------------------------------------------------------------

  /** _REFRESH_COOLDOWN, in seconds. */
  const RefreshCooldown: real := 0.5

  /** `_LAST_REFRESH_TIMES.get(coordinator_id, 0)`: a coordinator never refreshed counts as time 0. */
  function LastRefresh(table: map<int, real>, id: int): real {
    if id in table then table[id] else 0.0
  }

  /** Whether safe_refresh goes ahead: at least the cooldown has passed since the last refresh. */
  predicate Due(table: map<int, real>, id: int, now: real): (b: bool)
    ensures b <==> LastRefresh(table, id) + RefreshCooldown <= now
  {
    !(now - LastRefresh(table, id) < RefreshCooldown)
  }

  /** The table after safe_refresh at time `now`: a refresh that goes ahead records `now` first. */
  function AfterRefresh(table: map<int, real>, id: int, now: real): (t: map<int, real>)
    ensures Due(table, id, now) ==> id in t && t[id] == now && t.Keys == table.Keys + {id}
    ensures !Due(table, id, now) ==> t == table
    ensures forall k :: k in table && k != id ==> k in t && t[k] == table[k]
  {
    if Due(table, id, now) then table[id := now] else table
  }

  /** A refresh for one coordinator never changes the entry of another. */
  lemma RefreshIsPerCoordinator(table: map<int, real>, id: int, now: real, other: int)
    requires other != id
    ensures LastRefresh(AfterRefresh(table, id, now), other) == LastRefresh(table, other)
    ensures (other in AfterRefresh(table, id, now)) <==> other in table
  {
  }

  /**
   * Once a refresh goes ahead at `now`, every later request for the same
   * coordinator before `now + 0.5` is skipped, whether or not the refresh itself
   * then failed.
   */
  lemma RefreshStartsCooldown(table: map<int, real>, id: int, now: real, later: real)
    requires Due(table, id, now)
    requires now <= later < now + RefreshCooldown
    ensures !Due(AfterRefresh(table, id, now), id, later)
  {
  }

  /** A skipped refresh leaves the table as it was. */
  lemma SkippedRefreshKeepsTable(table: map<int, real>, id: int, now: real)
    requires !Due(table, id, now)
    ensures AfterRefresh(table, id, now) == table
  {
  }

  /** A coordinator with no entry refreshes exactly when the clock reads at least 0.5. */
  lemma FirstRefresh(table: map<int, real>, id: int, now: real)
    requires id !in table
    ensures Due(table, id, now) <==> now >= 0.5
  {
  }

  /**
   * Two requests that both go ahead, one after the other for the same coordinator,
   * are at least the cooldown apart.
   */
  lemma RefreshesAreSpaced(table: map<int, real>, id: int, t1: real, t2: real)
    requires Due(table, id, t1)
    requires Due(AfterRefresh(table, id, t1), id, t2)
    ensures t2 - t1 >= RefreshCooldown
  {
  }

  /** The module-level `_LAST_REFRESH_TIMES` dict, keyed by `id(coordinator)`. */
  class RefreshThrottle {
    var lastRefresh: map<int, real>

    constructor ()
      ensures lastRefresh == map[]
    {
      lastRefresh := map[];
    }

    /**
     * safe_refresh at time `now`: inside the cooldown it returns at once; otherwise
     * it records `now`, then sleeps and asks the coordinator for a refresh, whose
     * outcome is `refresh`. Any Exception from those is swallowed; only a
     * cancellation, which is not an Exception, gets out.
     */
    method SafeRefresh(id: int, now: real, refresh: Option<Exc>) returns (refreshed: bool, raised: Option<Exc>)
      modifies this
      ensures refreshed == Due(old(lastRefresh), id, now)
      ensures lastRefresh == AfterRefresh(old(lastRefresh), id, now)
      ensures raised.Some? <==> refreshed && refresh.Some? && !IsException(refresh.value)
      ensures raised.Some? ==> raised == refresh
    {
      var last := if id in lastRefresh then lastRefresh[id] else 0.0;
      var sinceLast := now - last;
      if sinceLast < RefreshCooldown {
        return false, None;
      }
      lastRefresh := lastRefresh[id := now];
      refreshed := true;
      if refresh.Some? && !IsException(refresh.value) {
        raised := refresh;
      } else {
        raised := None;
      }
    }
  }

  // ---------------------------------------------------------------------------
  // handle_api_errors
  // ---------------------------------------------------------------------------

  /** What a wrapped entity command does: return its value, raise HomeAssistantError, or let a BaseException through. */
  datatype Handled<T> =
    | Returned(value: T)
    | HomeAssistantError(prefix: string, cause: Exc)   // message: prefix + str(cause)
    | Propagated(e: Exc)

  const NotReadyPrefix := "Projector not ready: "
  const ConnectionPrefix := "Connection error: "

  /** The message head of the catch-all clause: the wrapped function's `__name__`, then " failed: ". */
  function FailedPrefix(funcName: string): string {
    funcName + " failed: "
  }

  /**
   * The wrapper: the value passes through; BarcoStateError, then
   * BarcoConnectionError, then any other Exception become HomeAssistantError with
   * the cause chained; a cancellation is not caught.
   */
  function HandleApiErrors<T>(funcName: string, r: Result<T, Exc>): Handled<T> {
    match r
    case Ok(v) => Returned(v)
    case Err(e) =>
      if e.StateError? then HomeAssistantError(NotReadyPrefix, e)
      else if e.ConnectionError? then HomeAssistantError(ConnectionPrefix, e)
      else if IsException(e) then HomeAssistantError(FailedPrefix(funcName), e)
      else Propagated(e)
  }

  /**
   * The result passes through unchanged; every Exception becomes a
   * HomeAssistantError chained to it; only a cancellation escapes as itself.
   */
  lemma HandleApiErrorsMeaning<T>(funcName: string, r: Result<T, Exc>)
    ensures var h := HandleApiErrors(funcName, r);
      && (h.Returned? <==> r.Ok?) && (r.Ok? ==> h.value == r.value)
      && (h.HomeAssistantError? <==> r.Err? && IsException(r.error))
      && (h.HomeAssistantError? ==> h.cause == r.error)
      && (h.Propagated? <==> r == Err(Cancelled))
      && (h.Propagated? ==> h.e == Cancelled)
  {
  }

  lemma FailedPrefixTail(funcName: string)
    ensures var p := FailedPrefix(funcName); |p| >= 3 && p[|p| - 3] == 'd'
  {
    var p := FailedPrefix(funcName);
    assert p[|p| - 3] == " failed: "[6];
  }

  /**
   * The message head tells the three clauses apart for every function name: it
   * is "Projector not ready: " exactly for a state error and "Connection error: "
   * exactly for a connection error.
   */
  lemma PrefixNamesTheClause<T>(funcName: string, r: Result<T, Exc>)
    requires r.Err? && IsException(r.error)
    ensures var h := HandleApiErrors(funcName, r);
      && (h.prefix == NotReadyPrefix <==> r.error.StateError?)
      && (h.prefix == ConnectionPrefix <==> r.error.ConnectionError?)
      && (h.prefix == FailedPrefix(funcName) <==> !r.error.StateError? && !r.error.ConnectionError?)
  {
    FailedPrefixTail(funcName);
    var p := FailedPrefix(funcName);
    assert NotReadyPrefix[|NotReadyPrefix| - 3] == 'y';
    assert ConnectionPrefix[|ConnectionPrefix| - 3] == 'r';
  }
}

/** providers/settlement_provider.ts: the scheduler that hands games whose
    hour is up to `settle`, holding each dispatched id in `settling` until
    that call completes. The settle calls themselves are issued without
    waiting; a tick returns the ids it dispatched, and `Finish` is the
    completion callback. */
module SettlementProvider {
  import opened Types
  import opened Pot
  import opened Listeners

  /** The length of a game, in milliseconds. */
  const HOUR_MS: int := GAME_MINUTES * MS_PER_MINUTE

  function Abs(x: int): nat
  {
    if x < 0 then -x else x
  }

  /** The tick skips a game whose start lies in the past by less than an
      hour: now is after the start and the absolute difference, in
      fractional minutes, is below sixty. */
  predicate InSkipWindow(start: int, now: int)
  {
    now > start && Abs(start - now) as real / MS_PER_MINUTE as real < GAME_MINUTES as real
  }

  /** The skip rule is the open window of one hour after the start: a
      start in the future is not skipped. */
  lemma SkippedWindow(start: int, now: int)
    ensures InSkipWindow(start, now) <==> start < now < start + HOUR_MS
  {
    var d := (now - start) as real / MS_PER_MINUTE as real;
    if now > start {
      assert Abs(start - now) == now - start;
      assert d < GAME_MINUTES as real <==> now - start < GAME_MINUTES * MS_PER_MINUTE;
    }
  }

  /** The tick and `settle` agree on the games still within their hour: a
      skipped game is one `settle` would report as not due, and of the
      games the tick dispatches, `settle` reports as not due exactly those
      whose start lies in the future. */
  lemma SkipAgreesWithSettle(start: int, now: int)
    ensures InSkipWindow(start, now) ==> ElapsedMinutes(now, start) < GAME_MINUTES as real
    ensures !InSkipWindow(start, now) ==> (ElapsedMinutes(now, start) < GAME_MINUTES as real <==> now <= start)
  {
    SkippedWindow(start, now);
  }

  /** The ids a tick dispatches, in query order: every queried game that is
      not skipped. Its start is `timeStarted`, or `createdAt` when that is
      null. */
  function DueIds(gs: seq<GameRow>, now: int): seq<nat>
  {
    if gs == [] then []
    else
      var last := gs[|gs| - 1];
      DueIds(gs[..|gs| - 1], now) + (if InSkipWindow(last.StartTime(), now) then [] else [last.id])
  }

  /** Exactly the queried games outside the skip window are dispatched. */
  lemma {:induction false} DueIdsExact(gs: seq<GameRow>, now: int)
    ensures forall id :: id in DueIds(gs, now) <==> exists i :: 0 <= i < |gs| && gs[i].id == id && !InSkipWindow(gs[i].StartTime(), now)
  {
    if gs != [] {
      var n := |gs| - 1;
      DueIdsExact(gs[..n], now);
      forall id | id in DueIds(gs, now)
        ensures exists i :: 0 <= i < |gs| && gs[i].id == id && !InSkipWindow(gs[i].StartTime(), now)
      {
        if id in DueIds(gs[..n], now) {
          var i :| 0 <= i < n && gs[..n][i].id == id && !InSkipWindow(gs[..n][i].StartTime(), now);
          assert gs[i] == gs[..n][i];
        }
      }
      forall i | 0 <= i < |gs| && !InSkipWindow(gs[i].StartTime(), now)
        ensures gs[i].id in DueIds(gs, now)
      {
        if i < n {
          assert gs[..n][i] == gs[i];
        }
      }
    }
  }

  /** What a tick keeps while it walks the queried games `open`: after the
      first `i`, it dispatched their due ids, each added to the ids
      settling `before` the tick, and none of the games still to come is
      settling. */
  ghost predicate TickInvariant(open: seq<GameRow>, i: nat, now: int, before: set<nat>,
                                settling: set<nat>, dispatched: seq<nat>)
  {
    && i <= |open|
    && dispatched == DueIds(open[..i], now)
    && settling == before + (set id | id in dispatched)
    && (forall id :: id in dispatched ==> id !in before)
    && (forall k :: i <= k < |open| ==> open[k].id !in settling)
  }

  /** One game of a tick: a game inside the skip window changes nothing,
      any other is not yet settling and is dispatched. */
  lemma TickStep(open: seq<GameRow>, i: nat, now: int, before: set<nat>, settling: set<nat>, dispatched: seq<nat>)
    requires DistinctIds(open) && i < |open|
    requires TickInvariant(open, i, now, before, settling, dispatched)
    ensures InSkipWindow(open[i].StartTime(), now) ==> TickInvariant(open, i + 1, now, before, settling, dispatched)
    ensures !InSkipWindow(open[i].StartTime(), now) ==> (
      && open[i].id !in settling
      && TickInvariant(open, i + 1, now, before, settling + {open[i].id}, dispatched + [open[i].id]))
  {
    assert open[..i + 1][..i] == open[..i];
    if !InSkipWindow(open[i].StartTime(), now) {
      var d := dispatched + [open[i].id];
      assert (set id | id in d) == (set id | id in dispatched) + {open[i].id};
    }
  }

  class Scheduler {
    /** The ids whose settle call has not completed. */
    var settling: set<nat>
    /** Whether the one-second interval is set. */
    var scheduled: bool

    constructor ()
      ensures settling == {} && !scheduled
    {
      settling, scheduled := {}, false;
    }

    /** `ready`: no interval in the api role or with settlement disabled. */
    method Ready(role: string, settlement: bool)
      modifies this
      ensures scheduled == (old(scheduled) || (role != "api" && settlement))
      ensures settling == old(settling)
    {
      if role == "api" {
        return;
      }
      if !settlement {
        return;
      }
      scheduled := true;
    }

    /** One tick over the games table: queries the games with `timeEnded`
        null whose id is not settling, and dispatches each one outside the
        skip window, adding its id to `settling` first. */
    method Tick(games: seq<GameRow>, now: int) returns (dispatched: seq<nat>)
      requires DistinctIds(games)
      modifies this
      ensures scheduled == old(scheduled)
      ensures !scheduled ==> dispatched == [] && settling == old(settling)
      ensures scheduled ==> dispatched == DueIds(Select(games, Open(old(settling))), now)
      ensures settling == old(settling) + (set id | id in dispatched)
      ensures forall id :: id in dispatched ==> id !in old(settling)
    {
      dispatched := [];
      if !scheduled {
        return;
      }
      var open := Select(games, Open(settling));
      SelectDistinct(games, Open(settling));
      assert forall k :: 0 <= k < |open| ==> open[k] in open;
      for i := 0 to |open|
        invariant scheduled
        invariant TickInvariant(open, i, now, old(settling), settling, dispatched)
      {
        var g := open[i];
        TickStep(open, i, now, old(settling), settling, dispatched);
        var start := g.StartTime();
        if InSkipWindow(start, now) {
          // still within its hour
        } else if g.id in settling {
          // already settling: the query excluded it, so the source's second check never skips
        } else {
          settling := settling + {g.id};
          dispatched := dispatched + [g.id];
        }
      }
      assert open[..|open|] == open;
    }

    /** The completion of a settle call, whether it succeeded or failed. */
    method Finish(id: nat)
      modifies this
      ensures settling == old(settling) - {id} && scheduled == old(scheduled)
    {
      settling := settling - {id};
    }

    /** `shutdown`: clears the interval. */
    method Shutdown()
      modifies this
      ensures !scheduled && settling == old(settling)
    {
      scheduled := false;
    }
  }

  /** While a tick's settle calls are pending, a later tick dispatches none
      of their games again. */
  lemma NoDoubleDispatch(games: seq<GameRow>, settling: set<nat>, now: int, later: int)
    ensures var first := DueIds(Select(games, Open(settling)), now);
      forall id :: id in DueIds(Select(games, Open(settling + (set x | x in first))), later) ==> id !in first
  {
    var first := DueIds(Select(games, Open(settling)), now);
    var next := Select(games, Open(settling + (set x | x in first)));
    DueIdsExact(next, later);
    forall id | id in DueIds(next, later)
      ensures id !in first
    {
      var i :| 0 <= i < |next| && next[i].id == id && !InSkipWindow(next[i].StartTime(), later);
      assert next[i] in next;
    }
  }
}

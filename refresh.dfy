/**
 * The scheduled refresh of the `mv_analytics_summary` materialized view: one
 * tick tries the concurrent refresh and, only when that one fails, the
 * blocking refresh; a failure of both is logged and goes no further.
 *
 * The database is a parameter `run` giving the outcome of each statement;
 * the schedule, the clock and the durations in the log lines are not part
 * of this model.
 */
module Refresh {
  const ConcurrentRefresh: string := "REFRESH MATERIALIZED VIEW CONCURRENTLY mv_analytics_summary;"
  const BlockingRefresh: string := "REFRESH MATERIALIZED VIEW mv_analytics_summary;"

  /** What running a statement came to: success, or the error it threw. */
  datatype Outcome = Succeeded | Failed(message: string)

  datatype Level = Info | Warning | Error

  /** The console lines a tick writes, by what they report. */
  datatype Event =
    | Starting
    | RefreshedConcurrently
    | ConcurrentFailed(message: string)
    | RefreshedBlocking
    | GraveError(message: string)

  function LevelOf(ev: Event): Level {
    match ev
    case ConcurrentFailed(_) => Warning
    case GraveError(_) => Error
    case _ => Info
  }

  /** Whether some statement of the tick refreshed the view. */
  predicate Refreshed(run: string -> Outcome, attempted: seq<string>) {
    exists i :: 0 <= i < |attempted| && run(attempted[i]).Succeeded?
  }

  /** One tick of the schedule. It never throws: every failure ends as a log line. */
  method RefreshTick(run: string -> Outcome) returns (attempted: seq<string>, log: seq<Event>)
    ensures 1 <= |attempted| <= 2 && attempted[0] == ConcurrentRefresh
    ensures |attempted| == 2 <==> run(ConcurrentRefresh).Failed?
    ensures |attempted| == 2 ==> attempted[1] == BlockingRefresh
    ensures |log| == |attempted| + 1 && log[0] == Starting
    ensures run(ConcurrentRefresh).Failed? ==> log[1] == ConcurrentFailed(run(ConcurrentRefresh).message)
    ensures Refreshed(run, attempted) <==> LevelOf(log[|log| - 1]) == Info
    ensures Refreshed(run, attempted) ==>
      log[|log| - 1] == (if |attempted| == 1 then RefreshedConcurrently else RefreshedBlocking)
    ensures !Refreshed(run, attempted) <==> log[|log| - 1].GraveError?
    ensures !Refreshed(run, attempted) ==> log[|log| - 1] == GraveError(run(BlockingRefresh).message)
    ensures forall i :: 0 <= i < |log| ==> (LevelOf(log[i]) == Error <==> i == |log| - 1 && !Refreshed(run, attempted))
  {
    log := [Starting];
    attempted := [ConcurrentRefresh];
    var concurrent := run(ConcurrentRefresh);
    if concurrent.Succeeded? {
      log := log + [RefreshedConcurrently];
    } else {
      log := log + [ConcurrentFailed(concurrent.message)];
      attempted := attempted + [BlockingRefresh];
      var blocking := run(BlockingRefresh);
      if blocking.Succeeded? {
        log := log + [RefreshedBlocking];
      } else {
        log := log + [GraveError(blocking.message)];
      }
    }
  }
}

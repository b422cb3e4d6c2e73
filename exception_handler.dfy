/**
 * ExecutorExceptionHandler: a per-thread switch saying whether an exception raised while
 * executing SQL on a shard is thrown to the caller or only logged.
 */
module ExecutorExceptionHandlers {

  /** Identifies the thread a ThreadLocal value belongs to. */
  type ThreadId = nat

  /** The exceptions the handler tells apart: java.sql.SQLException and anything else. */
  datatype Exception = SqlException(message: string) | OtherException(message: string)

  /** What handleException does with an exception. */
  datatype Handling =
    | Rethrown(exception: Exception)  // the SQLException itself is thrown
    | Wrapped(cause: Exception)       // a ShardingJdbcException with this cause is thrown
    | Logged(exception: Exception)    // nothing is thrown; the exception is logged

  /** The static ThreadLocal<Boolean>, as a map from thread to the value that thread set. */
  class ExecutorExceptionHandler {
    var flags: map<ThreadId, bool>

    /** No thread has set a value yet. */
    constructor ()
      ensures flags == map[]
      ensures forall thread: ThreadId :: IsExceptionThrown(thread)
    {
      flags := map[];
    }

    /** isExceptionThrown: a thread that never set a value throws. */
    function IsExceptionThrown(thread: ThreadId): (r: bool)
      reads this
      ensures !r <==> thread in flags && !flags[thread]
    {
      thread !in flags || flags[thread]
    }

    /** setExceptionThrown: changes the calling thread's value only. */
    method SetExceptionThrown(thread: ThreadId, isExceptionThrown: bool)
      modifies this
      ensures flags == old(flags)[thread := isExceptionThrown]
      ensures IsExceptionThrown(thread) == isExceptionThrown
      ensures forall other: ThreadId :: other != thread ==> IsExceptionThrown(other) == old(IsExceptionThrown(other))
    {
      flags := flags[thread := isExceptionThrown];
    }

    /** handleException, for the calling thread. */
    function HandleException(thread: ThreadId, exception: Exception): (r: Handling)
      reads this
      ensures r.Logged? <==> !IsExceptionThrown(thread)
      ensures r.Logged? ==> r.exception == exception
      ensures r.Rethrown? <==> IsExceptionThrown(thread) && exception.SqlException?
      ensures r.Rethrown? ==> r.exception == exception
      ensures r.Wrapped? ==> r.cause == exception && exception.OtherException?
    {
      if IsExceptionThrown(thread) then
        if exception.SqlException? then Rethrown(exception) else Wrapped(exception)
      else Logged(exception)
    }
  }
}

/** The audit log: an append-only sequence of entries and a "most recent entries" query.
    The JSON file behind it is the sequence itself; the clock is a parameter. */
module Audit {
  import opened Wrappers

  /** One audit record. The type parameters are the request, the policy verdict and the result. */
  datatype Entry<Req, Check, Res> = Entry(
    timestamp: string,
    operation: string,
    request: Req,
    policyCheck: Option<Check>,
    result: Res)

  type Log<Req, Check, Res> = seq<Entry<Req, Check, Res>>

  function Min(a: int, b: int): int {
    if a <= b then a else b
  }

  /** Opening the log: a store that does not exist yet starts as an empty log;
      an existing store is read back as it is. */
  function Open<Req, Check, Res>(existing: Option<Log<Req, Check, Res>>): (log: Log<Req, Check, Res>)
    ensures existing.None? ==> |log| == 0
    ensures existing.Some? ==> log == existing.value
  {
    existing.GetOr([])
  }

  /** `log_operation`: appends exactly one entry, recording the arguments, after all
      earlier entries, which are unchanged. The verdict defaults to None. */
  function LogOperation<Req, Check, Res>(
    log: Log<Req, Check, Res>, timestamp: string, operationType: string,
    request: Req, result: Res, policyCheck: Option<Check> := None)
    : (r: Log<Req, Check, Res>)
    ensures |r| == |log| + 1
    ensures r[..|log|] == log
    ensures && r[|log|].timestamp == timestamp
            && r[|log|].operation == operationType
            && r[|log|].request == request
            && r[|log|].policyCheck == policyCheck
            && r[|log|].result == result
  {
    log + [Entry(timestamp, operationType, request, policyCheck, result)]
  }

  /** Python's `xs[start:]`: a negative start counts from the end, and both kinds are
      clamped to the sequence. */
  function SliceFrom<T>(xs: seq<T>, start: int): (r: seq<T>)
    ensures |r| <= |xs|
    ensures r == xs[|xs| - |r|..]
    ensures start >= 0 ==> |r| == |xs| - Min(start, |xs|)
    ensures start < 0 ==> |r| == Min(-start, |xs|)
  {
    if start < 0 then
      (if |xs| + start <= 0 then xs else xs[|xs| + start..])
    else
      xs[Min(start, |xs|)..]
  }

  /** `get_logs`: `logs[-limit:]`. A positive limit gives the last `limit` entries (all of
      them when there are fewer), newest last; a limit of 0 gives the whole log, since
      `-0` is `0`; a negative limit drops that many entries from the front. */
  function GetLogs<Req, Check, Res>(log: Log<Req, Check, Res>, limit: int := 10)
    : (r: Log<Req, Check, Res>)
    ensures |r| <= |log| && r == log[|log| - |r|..]
    ensures limit > 0 ==> |r| == Min(limit, |log|)
    ensures limit == 0 ==> r == log
    ensures limit < 0 ==> |r| == |log| - Min(-limit, |log|)
  {
    SliceFrom(log, -limit)
  }

  /** After an append, any positive-limit query ends with the new entry; for a limit
      above one the entries before it are what the next smaller query returned on
      the old log (a limit of one returns the new entry alone). */
  lemma GetLogsAfterAppend<Req, Check, Res>(
    log: Log<Req, Check, Res>, timestamp: string, operationType: string,
    request: Req, result: Res, policyCheck: Option<Check>, limit: int)
    requires limit > 0
    ensures var r := GetLogs(LogOperation(log, timestamp, operationType, request, result, policyCheck), limit);
            && |r| > 0
            && r[|r| - 1] == Entry(timestamp, operationType, request, policyCheck, result)
            && (limit == 1 ==> |r| == 1)
            && (limit > 1 ==> r[..|r| - 1] == GetLogs(log, limit - 1))
  {
    var log' := LogOperation(log, timestamp, operationType, request, result, policyCheck);
    var r := GetLogs(log', limit);
    if limit > 1 {
      assert r[..|r| - 1] == log[|log| - (|r| - 1)..];
    }
  }
}

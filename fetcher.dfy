/** `olFetch`: the one gate every request passes. It keeps the time of the
    last dispatch, waits until 200 ms have passed since it, records the new
    dispatch time before the request goes out, and turns a failed status
    into an error. The clock and the remote answer are parameters. */
module Fetcher {
  import opened Wrappers
  import opened Errors
  import opened Js

  /** Minimum spacing, in milliseconds, between the starts of two requests. */
  const RATE_LIMIT_MS := 200

  /** The pause `olFetch` takes when the clock reads `now` and the last
      dispatch was at `last`. */
  function Wait(last: int, now: int): (w: int)
    ensures w >= 0
    ensures w == 0 <==> now - last >= RATE_LIMIT_MS
    ensures w > 0 ==> now + w == last + RATE_LIMIT_MS
    ensures now >= last ==> w <= RATE_LIMIT_MS
  {
    if now - last < RATE_LIMIT_MS then RATE_LIMIT_MS - (now - last) else 0
  }

  /** Consecutive dispatch times at least the minimum spacing apart. */
  ghost predicate Spaced(starts: seq<int>) {
    forall i :: 0 < i < |starts| ==> starts[i - 1] + RATE_LIMIT_MS <= starts[i]
  }

  /** After a wait that lasted at least as long as asked, the clock is at
      least the spacing past the previous dispatch, however early the call
      came. */
  lemma WaitSuffices(last: int, now: int, later: int)
    requires later >= now + Wait(last, now)
    ensures later >= last + RATE_LIMIT_MS
  {
  }

  /** In a spaced run, dispatches `k` apart are at least `k` spacings
      apart. */
  lemma {:induction false} SpacedSpread(starts: seq<int>, i: int, j: int)
    requires Spaced(starts)
    requires 0 <= i <= j < |starts|
    ensures starts[i] + (j - i) * RATE_LIMIT_MS <= starts[j]
  {
    if i < j {
      SpacedSpread(starts, i, j - 1);
    }
  }

  /** What came back: a status and, when the body is JSON, the decoded
      document; or no answer at all, when `fetch` itself rejects. */
  datatype Response =
    | Response(status: int, body: Option<Json>)
    | NoAnswer

  const ERROR_PREFIX := "Open Library "

  /** The tail of `olFetch`: a rejected `fetch` propagates, a status
      outside 200-299 fails with a message carrying the status, and
      otherwise the body must decode. */
  function CheckResponse(res: Response): (r: Result<Json, ToolError>)
    ensures r.Ok? <==> res.Response? && 200 <= res.status <= 299 && res.body.Some?
    ensures r.Ok? ==> r.value == res.body.value
    ensures res.NoAnswer? ==> r == Err(NetworkError)
    ensures r.Err? && r.error.RemoteError? <==> res.Response? && !(200 <= res.status <= 299)
    ensures res.Response? && r.Err? && !r.error.RemoteError? ==> r.error == DecodeError
    ensures r.Err? && r.error.RemoteError? ==>
              r.error.status == res.status && r.error.message == ERROR_PREFIX + Decimal(res.status)
  {
    match res
    case NoAnswer => Err(NetworkError)
    case Response(status, body) =>
      if !(200 <= status <= 299) then Err(RemoteError(status, ERROR_PREFIX + Decimal(status)))
      else if body.None? then Err(DecodeError)
      else Ok(body.value)
  }

  /** The status can be read back from the error message alone. */
  lemma StatusInMessage(res: Response)
    requires res.Response? && !(200 <= res.status <= 299)
    ensures var msg := CheckResponse(res).error.message;
            |msg| >= |ERROR_PREFIX| && ParseDecimal(msg[|ERROR_PREFIX|..]) == Some(res.status)
  {
    var msg := ERROR_PREFIX + Decimal(res.status);
    assert msg[|ERROR_PREFIX|..] == Decimal(res.status);
    DecimalRoundTrip(res.status);
  }

  /** A 404 is a RemoteError naming 404, and no document comes back. */
  lemma NotFoundExample(body: Option<Json>)
    ensures CheckResponse(Response(404, body)).Err?
    ensures CheckResponse(Response(404, body)).error.RemoteError?
    ensures CheckResponse(Response(404, body)).error.status == 404
    ensures CheckResponse(Response(404, body)).error.message == "Open Library 404"
  {
  }

  /** The module-level state of `olFetch`: `last`, the time of the most
      recent dispatch (0 before the first one). The ghost history records
      every dispatch time and URL, in order. */
  class Pacer {
    var last: int
    ghost var starts: seq<int>
    ghost var sent: seq<string>

    ghost predicate Valid()
      reads this
    {
      |starts| == |sent| && last == (if starts == [] then 0 else starts[|starts| - 1])
    }

    /** Every dispatch, the first included (measured from the initial 0),
        came at least the spacing after the one before. */
    ghost predicate Paced()
      reads this
    {
      Spaced([0] + starts)
    }

    constructor ()
      ensures Valid() && Paced()
      ensures last == 0 && starts == [] && sent == []
    {
      last := 0;
      starts := [];
      sent := [];
    }

    /** The pacing gate: `now` is the first clock reading, `later` the
        second one, taken after the pause; `later` becomes `last` before the
        request is issued, so how long the request takes does not matter. */
    method Dispatch(url: string, now: int, later: int) returns (wait: int)
      requires Valid()
      modifies this
      ensures Valid()
      ensures wait == Wait(old(last), now)
      ensures last == later
      ensures starts == old(starts) + [later] && sent == old(sent) + [url]
      ensures old(Paced()) && later >= now + wait ==> Paced()
    {
      if now - last < RATE_LIMIT_MS {
        wait := RATE_LIMIT_MS - (now - last);
      } else {
        wait := 0;
      }
      ghost var before := [0] + starts;
      if later >= now + wait {
        WaitSuffices(last, now, later);
      }
      last := later;
      starts := starts + [later];
      sent := sent + [url];
      assert [0] + starts == before + [later];
    }

    /** `olFetch(url)`: the gate, then the status check on the answer. The
        dispatch is recorded whether or not an answer comes back. */
    method Fetch(url: string, now: int, later: int, res: Response) returns (r: Result<Json, ToolError>)
      requires Valid()
      modifies this
      ensures Valid()
      ensures last == later
      ensures starts == old(starts) + [later] && sent == old(sent) + [url]
      ensures old(Paced()) && later >= now + Wait(old(last), now) ==> Paced()
      ensures r == CheckResponse(res)
    {
      var _ := Dispatch(url, now, later);
      r := CheckResponse(res);
    }
  }
}

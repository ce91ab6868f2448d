/** Reading a paged collection to its end. */
module Pagination {
  import opened Results

  /** The answer to one request: a page, or nothing when the call fails or its answer is not a page. */
  datatype Reply<T> = Rejected | Reply(items: seq<T>, total: int, count: int)

  /** A server answers by start offset and by how many requests came before. */
  type Server<!T> = (nat, nat) -> Reply<T>

  const MAX_REQUESTS := 100

  /** The offsets a reader asks for, given how many items each answer held. */
  ghost predicate Consecutive<T>(server: Server<T>, starts: seq<nat>) {
    && (|starts| > 0 ==> starts[0] == 0)
    && forall k :: 0 <= k < |starts| - 1 ==>
         server(starts[k], k).Reply? && starts[k + 1] == starts[k] + |server(starts[k], k).items|
  }

  /** Everything the first `n` answers held, in order. */
  ghost function Collected<T>(server: Server<T>, starts: seq<nat>): seq<T> {
    if starts == [] then []
    else
      var n := |starts| - 1;
      Collected(server, starts[..n]) + (if server(starts[n], n).Reply? then server(starts[n], n).items else [])
  }

  /** The server holds `all` and does not change: a request below its end gets a non-empty slice. */
  ghost predicate Stable<T>(server: Server<T>, all: seq<T>) {
    forall start: nat, k: nat :: start <= |all| ==>
      var reply := server(start, k);
      && reply.Reply? && reply.total == |all| && reply.count >= 0
      && start + |reply.items| <= |all| && reply.items == all[start..start + |reply.items|]
      && (start < |all| ==> |reply.items| > 0)
  }

  /** How many requests a stable server needs from `start` on. */
  ghost function Needed<T>(server: Server<T>, all: seq<T>, start: nat, k: nat): nat
    requires Stable(server, all) && start <= |all|
    decreases |all| - start
  {
    var next := start + |server(start, k).items|;
    if next >= |all| then 1 else 1 + Needed(server, all, next, k + 1)
  }

  /** A stable server's reader has read up to `start` and still needs to ask. */
  ghost predicate Reading<T>(server: Server<T>, all: seq<T>, start: nat, records: seq<T>, k: nat) {
    && start <= |all| && records == all[..start]
    && Stable(server, all)
    && Needed(server, all, 0, 0) == k + Needed(server, all, start, k)
  }

  lemma ReadingOn<T>(server: Server<T>, all: seq<T>, start: nat, records: seq<T>, k: nat)
    requires Reading(server, all, start, records, k)
    ensures var reply := server(start, k);
            && reply.Reply? && reply.total >= 0 && reply.count >= 0
            && |records + reply.items| <= reply.total
            && (|records + reply.items| == reply.total ==>
                  records + reply.items == all && Needed(server, all, 0, 0) == k + 1)
            && (|records + reply.items| < reply.total ==>
                  reply.items != [] && Reading(server, all, start + |reply.items|, records + reply.items, k + 1))
            && Needed(server, all, 0, 0) > k
  {
    var reply := server(start, k);
    assert records + reply.items == all[..start + |reply.items|];
  }

  lemma ReadingStarts<T>(server: Server<T>, all: seq<T>)
    ensures Stable(server, all) ==> Reading(server, all, 0, [], 0)
  {
  }

  /** The reader asked for `starts`, got pages each time, and has collected `records`. */
  ghost predicate Asked<T>(server: Server<T>, starts: seq<nat>, records: seq<T>) {
    && Consecutive(server, starts) && records == Collected(server, starts)
    && (forall k :: 0 <= k < |starts| ==> server(starts[k], k).Reply?)
    && |records| == if starts == [] then 0
                    else starts[|starts| - 1] + |server(starts[|starts| - 1], |starts| - 1).items|
  }

  lemma NothingAsked<T>(server: Server<T>)
    ensures Asked(server, [], []) && Consecutive(server, [])
  {
  }

  lemma AskedOn<T>(server: Server<T>, starts: seq<nat>, records: seq<T>)
    requires Asked(server, starts, records)
    ensures var next, reply := starts + [|records|], server(|records|, |starts|);
            && Consecutive(server, next)
            && (reply.Reply? ==>
                  Collected(server, next) == records + reply.items && Asked(server, next, records + reply.items))
  {
    var n, next := |starts|, starts + [|records|];
    assert next[..n] == starts && next[n] == |records|;
    assert forall k :: 0 <= k < n ==> next[k] == starts[k];
  }

  /** Read pages until the reported total is reached.

      Against any server it asks at most 100 times, always for the offset it has reached, and
      returns only what the answers held, when their number equals the last reported total.
      Against a stable server it returns the whole collection exactly when 100 requests are enough. */
  method ReadPages<T>(server: Server<T>, ghost all: seq<T>) returns (r: Result<seq<T>>, ghost starts: seq<nat>)
    ensures |starts| <= MAX_REQUESTS && Consecutive(server, starts)
    ensures r.Returned? ==>
              && |starts| > 0 && r.value == Collected(server, starts)
              && server(starts[|starts| - 1], |starts| - 1).Reply?
              && |r.value| == server(starts[|starts| - 1], |starts| - 1).total
    ensures Stable(server, all) ==>
              r == if Needed(server, all, 0, 0) <= MAX_REQUESTS then Returned(all) else Raised
  {
    hide Stable, Needed, Reading, Asked, Consecutive, Collected;
    assert Asked(server, [], []) && Consecutive(server, []) by {
      NothingAsked(server);
    }
    var start: nat, records: seq<T> := 0, [];
    ReadingStarts(server, all);
    starts := [];
    for request := 0 to MAX_REQUESTS
      invariant |starts| == request && start == |records|
      invariant Consecutive(server, starts) && Asked(server, starts, records)
      invariant Stable(server, all) ==> Reading(server, all, start, records, request)
    {
      if Stable(server, all) {
        ReadingOn(server, all, start, records, request);
      }
      var reply := server(start, request);
      AskedOn(server, starts, records);
      starts := starts + [start];
      if reply.Rejected? || reply.total < 0 || reply.count < 0 {
        return Raised, starts;
      }
      records := records + reply.items;
      if |records| >= reply.total {
        r := if |records| == reply.total then Returned(records) else Raised;
        return;
      }
      if reply.items == [] {
        return Raised, starts;
      }
      start := start + |reply.items|;
    }
    if Stable(server, all) {
      ReadingOn(server, all, start, records, MAX_REQUESTS);
    }
    r := Raised;
  }
}

/**
 * The endpoint client: a queue of requests waiting for a slot and a list of
 * requests in flight, bounded by a concurrency maximum. Queueing, completing
 * and cancelling each run one admission pass, specified by `Pass`.
 *
 * The transport is left out: `Complete` is the completion handler the data
 * task calls, given the outcome the transport and Foundation produced.
 */
module EndpointClient {
  import opened Wrappers
  import opened LockingArrays
  import opened EndpointRequest
  import opened EndpointAdmission
  import opened EndpointURL
  import Strings

  /** What an admission pass may change about a request (its state) and what it must keep. */
  datatype RequestView = RequestView(state: State, isCancelled: bool, errors: seq<Error>, procs: JSONProcs)

  ghost function ViewOf(r: Request): RequestView
    reads r
  {
    RequestView(r.state, r.isCancelled, r.errors, r.Procs())
  }

  /** A request as an admission pass leaves it: active if admitted, otherwise as it was. */
  function Activated(view: RequestView, admitted: bool): RequestView {
    if admitted then view.(state := Active) else view
  }

  /** Each of `requests` is as in `snapshot`, but active if it is among `activated`. */
  ghost predicate Agrees(requests: set<Request>, activated: set<Request>, snapshot: map<Request, RequestView>)
    reads requests
  {
    forall r :: r in requests ==> r in snapshot && ViewOf(r) == Activated(snapshot[r], r in activated)
  }

  /** No request of the list is still in the queued state. */
  ghost predicate NotQueued(s: seq<Info>)
    reads RequestsOf(s)`state
  {
    forall i :: i in s ==> i.request.state != Queued
  }

  class HTTPEndpointClient {
    var logTransactions: bool

    const serverPrefix: string
    const multiValueQueryParameterHandling: MultiValueQueryParameterHandling
    const maximumURLLength: int
    const maximumConcurrentHTTPEndpointRequests: int

    const active: LockingArray<Info>
    const queued: LockingArray<Info>

    /**
     * The client's invariant: two distinct lists; the in-flight list within
     * the maximum (or empty, when the maximum is not positive); nothing in it
     * still queued.
     */
    ghost predicate Valid()
      reads this, active, queued, RequestsOf(active.elements)`state
    {
      active != queued
      && (|active.elements| <= maximumConcurrentHTTPEndpointRequests || active.elements == [])
      && NotQueued(active.elements)
    }

    /** The maximum is the given one, or else the session's connections-per-host limit. */
    constructor (serverPrefix: string, sessionMaximumConnectionsPerHost: int,
                 multiValueQueryParameterHandling: MultiValueQueryParameterHandling := RepeatKey,
                 maximumURLLength: int := 1024, maximumConcurrentHTTPEndpointRequests: Option<int> := None)
      ensures Valid() && fresh(active) && fresh(queued)
      ensures active.elements == [] && queued.elements == [] && !logTransactions
      ensures this.serverPrefix == serverPrefix && this.multiValueQueryParameterHandling == multiValueQueryParameterHandling
      ensures this.maximumURLLength == maximumURLLength
      ensures this.maximumConcurrentHTTPEndpointRequests
           == maximumConcurrentHTTPEndpointRequests.GetOr(sessionMaximumConnectionsPerHost)
    {
      logTransactions := false;
      this.serverPrefix := serverPrefix;
      this.multiValueQueryParameterHandling := multiValueQueryParameterHandling;
      this.maximumURLLength := maximumURLLength;
      this.maximumConcurrentHTTPEndpointRequests :=
        maximumConcurrentHTTPEndpointRequests.GetOr(sessionMaximumConnectionsPerHost);
      active := new LockingArray();
      queued := new LockingArray();
    }

    /**
     * One admission pass (`updateActiveHTTPEndpointRequests`): the lists
     * become those of `Pass`; every admitted request becomes active, and no
     * other request and no other field of a request changes. The dispatched
     * entries are the ones whose data task the source starts.
     */
    method UpdateActive() returns (dispatched: seq<Info>)
      requires Valid()
      modifies active, queued, RequestsOf(queued.elements)
      ensures Valid()
      ensures var r := Pass(old(active.elements), old(queued.elements), old(FinishedOf(active.elements)),
                            old(CancelledOf(queued.elements)), maximumConcurrentHTTPEndpointRequests);
              active.elements == r.active && queued.elements == r.queued && dispatched == r.admitted
      ensures forall r :: r in old(RequestsOf(queued.elements)) ==>
                ViewOf(r) == Activated(old(ViewOf(r)), r in RequestsOf(dispatched))
      ensures RequestsOf(dispatched) <= old(RequestsOf(queued.elements))
    {
      ghost var requests := RequestsOf(queued.elements);
      ghost var cancelled := CancelledOf(queued.elements);
      var finished := FinishedOf(active.elements);
      PurgeRemovesFinished(active.elements, finished);
      active.RemoveAllWhere(FinishedIn(finished));
      forall i | i in active.elements
        ensures i.request.state != Queued
      {
        WithoutMember(old(active.elements), FinishedIn(finished), i);
      }
      if active.Count() >= maximumConcurrentHTTPEndpointRequests {
        if old(active.elements) == [] {
          assert active.elements == [];
        }
        return [];
      }
      ghost var purged := active.elements;
      dispatched := SortAndAdmit(cancelled, requests);
      PassWithRoom(old(active.elements), old(queued.elements), finished, cancelled, maximumConcurrentHTTPEndpointRequests,
                   purged, SortedByKey(old(queued.elements), PriorityKey), dispatched, queued.elements);
    }

    /** Sort the queue by priority, then run the admission loop on it. */
    method SortAndAdmit(ghost cancelled: set<Request>, ghost requests: set<Request>) returns (admitted: seq<Info>)
      requires active != queued
      requires |active.elements| < maximumConcurrentHTTPEndpointRequests
      requires NotQueued(active.elements)
      requires RequestsOf(queued.elements) <= requests
      requires forall r :: r in requests ==> (r in cancelled <==> r.isCancelled)
      modifies active, queued, requests
      ensures active.elements == old(active.elements) + admitted
      ensures (admitted, queued.elements)
           == Admit(SortedByKey(old(queued.elements), PriorityKey), cancelled,
                    maximumConcurrentHTTPEndpointRequests - old(|active.elements|))
      ensures |active.elements| <= maximumConcurrentHTTPEndpointRequests
      ensures NotQueued(active.elements)
      ensures forall r :: r in requests ==> ViewOf(r) == Activated(old(ViewOf(r)), r in RequestsOf(admitted))
      ensures RequestsOf(admitted) <= requests
    {
      queued.SortByKey(PriorityKey);
      ghost var sorted := queued.elements;
      SameRequests(sorted, old(queued.elements));
      admitted := AdmitFromQueue(sorted, maximumConcurrentHTTPEndpointRequests - |active.elements|, cancelled, requests);
    }

    /**
     * The admission loop: pop the head of the (sorted) queue while it is not
     * empty and a slot is free; a cancelled entry is dropped, a live one
     * becomes active and joins the in-flight list. What it admits and what
     * stays queued are those of `Admit`.
     */
    method AdmitFromQueue(ghost pending: seq<Info>, ghost room: int, ghost cancelled: set<Request>,
                          ghost requests: set<Request>)
      returns (admitted: seq<Info>)
      requires queued.elements == pending && room == maximumConcurrentHTTPEndpointRequests - |active.elements|
      requires active != queued
      requires |active.elements| < maximumConcurrentHTTPEndpointRequests
      requires NotQueued(active.elements)
      requires RequestsOf(queued.elements) <= requests
      requires forall r :: r in requests ==> (r in cancelled <==> r.isCancelled)
      modifies active, queued, requests
      ensures active.elements == old(active.elements) + admitted
      ensures (admitted, queued.elements) == Admit(pending, cancelled, room)
      ensures |active.elements| <= maximumConcurrentHTTPEndpointRequests
      ensures NotQueued(active.elements)
      ensures forall r :: r in requests ==> ViewOf(r) == Activated(old(ViewOf(r)), r in RequestsOf(admitted))
      ensures RequestsOf(admitted) <= requests
    {
      ghost var snapshot := map r | r in requests :: ViewOf(r);
      assert forall r :: r in requests ==> (r in cancelled <==> snapshot[r].isCancelled);
      ghost var target := Admit(pending, cancelled, room);
      ghost var rest := target;
      ghost var free := room;
      ghost var activated: set<Request> := {};
      ghost var popped := 0;
      admitted := [];
      assert [] + target.0 == target.0;
      while queued.Count() > 0 && active.Count() < maximumConcurrentHTTPEndpointRequests
        invariant active.elements == old(active.elements) + admitted
        invariant free == maximumConcurrentHTTPEndpointRequests - |active.elements| && free >= 0
        invariant 0 <= popped <= |pending| && queued.elements == pending[popped..]
        invariant rest == Admit(queued.elements, cancelled, free)
        invariant target == (admitted + rest.0, rest.1)
        invariant activated == RequestsOf(admitted) && activated <= requests
        invariant Agrees(requests, activated, snapshot)
        invariant NotQueued(active.elements)
        decreases |queued.elements|
      {
        DropOne(pending, popped);
        var info, live := AdmitHead(cancelled, free, requests, activated, snapshot);
        popped := popped + 1;
        if live {
          ghost var tail := Admit(queued.elements, cancelled, free - 1);
          Strings.ConcatAssociates(admitted, [info], tail.0);
          Strings.ConcatAssociates(old(active.elements), admitted, [info]);
          RequestsOfAppend(admitted, info);
          admitted := admitted + [info];
          activated := activated + {info.request};
          free := free - 1;
          rest := tail;
        } else {
          rest := Admit(queued.elements, cancelled, free);
        }
      }
      assert rest == ([], queued.elements);
      assert admitted + [] == admitted;
    }

    /**
     * One turn of the admission loop: pop the head; unless it is cancelled,
     * make it active and append it in flight. `snapshot` holds each request as
     * it was when the loop began, `activated` the requests made active since.
     */
    method AdmitHead(ghost cancelled: set<Request>, ghost free: int, ghost requests: set<Request>,
                     ghost activated: set<Request>, ghost snapshot: map<Request, RequestView>)
      returns (info: Info, live: bool)
      requires active != queued && |queued.elements| > 0 && free > 0
      requires Agrees(requests, activated, snapshot) && NotQueued(active.elements)
      requires queued.elements[0].request in requests
      requires queued.elements[0].request in cancelled <==> snapshot[queued.elements[0].request].isCancelled
      modifies active, queued, queued.elements[0].request
      ensures info == old(queued.elements[0]) && queued.elements == old(queued.elements[1..])
      ensures live <==> info.request !in cancelled
      ensures var tail := Admit(queued.elements, cancelled, free - 1);
              Admit(old(queued.elements), cancelled, free)
              == if live then ([info] + tail.0, tail.1) else Admit(queued.elements, cancelled, free)
      ensures active.elements == old(active.elements) + (if live then [info] else [])
      ensures Agrees(requests, if live then activated + {info.request} else activated, snapshot)
      ensures NotQueued(active.elements)
    {
      info := queued.RemoveFirst();
      live := !info.request.isCancelled;
      if live {
        info.request.Transition(Active);
        active.Append(info);
      }
    }

    /** `queue(_:identifier:priority:)`: append an entry, then run a pass. */
    method Queue(request: Request, identifier: string := "", priority: Priority := Normal)
      returns (dispatched: seq<Info>)
      requires Valid()
      modifies active, queued, RequestsOf(queued.elements), request
      ensures Valid()
      ensures var entry := Info(request, identifier, priority);
              var r := Pass(old(active.elements), old(queued.elements) + [entry], old(FinishedOf(active.elements)),
                            old(CancelledOf(queued.elements + [entry])), maximumConcurrentHTTPEndpointRequests);
              active.elements == r.active && queued.elements == r.queued && dispatched == r.admitted
      ensures forall r :: r in old(RequestsOf(queued.elements)) + {request} ==>
                ViewOf(r) == Activated(old(ViewOf(r)), r in RequestsOf(dispatched))
    {
      var entry := Info(request, identifier, priority);
      ghost var finished := FinishedOf(active.elements);
      ghost var cancelled := CancelledOf(queued.elements + [entry]);
      queued.Append(entry);
      RequestsOfAppend(old(queued.elements), entry);
      assert FinishedOf(active.elements) == finished;
      assert CancelledOf(queued.elements) == cancelled;
      dispatched := UpdateActive();
    }

    /**
     * The typed `queue` overloads: store the completion proc, then queue. The
     * proc itself is not modelled, only that one is set.
     */
    method QueueWithCompletionProc(request: Request, identifier: string := "", priority: Priority := Normal)
      returns (dispatched: seq<Info>)
      requires Valid()
      modifies active, queued, RequestsOf(queued.elements), request
      ensures Valid()
      ensures var entry := Info(request, identifier, priority);
              var r := Pass(old(active.elements), old(queued.elements) + [entry], old(FinishedOf(active.elements)),
                            old(CancelledOf(queued.elements + [entry])), maximumConcurrentHTTPEndpointRequests);
              active.elements == r.active && queued.elements == r.queued && dispatched == r.admitted
      ensures var before := old(ViewOf(request));
              ViewOf(request)
              == Activated(before.(procs := before.procs.(completion := true)), request in RequestsOf(dispatched))
      ensures forall r :: r in old(RequestsOf(queued.elements)) && r != request ==>
                ViewOf(r) == Activated(old(ViewOf(r)), r in RequestsOf(dispatched))
    {
      ghost var finished := FinishedOf(active.elements);
      ghost var cancelled := CancelledOf(queued.elements + [Info(request, identifier, priority)]);
      request.SetCompletionProc();
      assert FinishedOf(active.elements) == finished;
      assert CancelledOf(queued.elements + [Info(request, identifier, priority)]) == cancelled;
      dispatched := Queue(request, identifier, priority);
    }

    /**
     * `cancel(identifier:)`: every request of an entry with the identifier is
     * cancelled, in flight or queued; the matching queued entries are removed;
     * the in-flight list stays as it is (its entries leave when they finish).
     * Nothing of a request but its cancelled flag changes.
     */
    method Cancel(identifier: string)
      requires Valid()
      modifies queued, RequestsOf(active.elements)`isCancelled, RequestsOf(queued.elements)`isCancelled
      ensures Valid()
      ensures active.elements == old(active.elements)
      ensures queued.elements == Without(old(queued.elements), HasIdentifier(identifier))
      ensures forall r :: r in old(RequestsOf(active.elements)) + old(RequestsOf(queued.elements)) ==>
                r.isCancelled == (old(r.isCancelled) || r in old(MatchingOf(active.elements, identifier))
                                  || r in old(MatchingOf(queued.elements, identifier)))
    {
      var inFlight := active.Values();
      var pending := queued.Values();
      CancelBoth(inFlight, pending, identifier);
      queued.RemoveAllWhere(HasIdentifier(identifier));
    }

    /** `cancel`'s traversal of the in-flight list, then of the queued list. */
    method CancelBoth(inFlight: seq<Info>, pending: seq<Info>, identifier: string)
      modifies RequestsOf(inFlight)`isCancelled, RequestsOf(pending)`isCancelled
      ensures forall r :: r in RequestsOf(inFlight) + RequestsOf(pending) ==>
                r.isCancelled == (old(r.isCancelled) || r in MatchingOf(inFlight, identifier)
                                  || r in MatchingOf(pending, identifier))
    {
      ghost var requests := RequestsOf(inFlight) + RequestsOf(pending);
      ghost var before := map r | r in requests :: r.isCancelled;
      CancelMatching(inFlight, identifier, requests, before, {});
      CancelMatching(pending, identifier, requests, before, MatchingOf(inFlight, identifier));
    }

    /**
     * The body of `cancel`'s two traversals: cancel the request of every entry
     * of `entries` with the identifier. `before` holds the flags as they were
     * before the first traversal, `cancelled` the requests cancelled since.
     */
    method CancelMatching(entries: seq<Info>, identifier: string, ghost requests: set<Request>,
                          ghost before: map<Request, bool>, ghost cancelled: set<Request>)
      requires RequestsOf(entries) <= requests
      requires forall r :: r in requests ==> r in before && r.isCancelled == (before[r] || r in cancelled)
      modifies requests`isCancelled
      ensures forall r :: r in requests ==>
                r.isCancelled == (before[r] || r in cancelled || r in MatchingOf(entries, identifier))
    {
      var k := 0;
      while k < |entries|
        invariant 0 <= k <= |entries|
        invariant forall r :: r in requests ==>
                    r.isCancelled == (before[r] || r in cancelled || r in MatchingOf(entries[..k], identifier))
      {
        MatchingOfAppend(entries[..k], entries[k], identifier);
        assert entries[..k + 1] == entries[..k] + [entries[k]];
        if entries[k].identifier == identifier {
          assert entries[k] in entries;
          entries[k].request.Cancel();
        }
        k := k + 1;
      }
      assert entries[..k] == entries;
    }

    /**
     * The data task's completion handler for an admitted entry: the request
     * becomes finished; a cancelled request stops there. Otherwise its results
     * are processed (a JSON request as a single response) and a pass runs with
     * the request counted as finished.
     */
    method Complete(info: Info, response: Option<Response>, data: Option<Data>, error: Option<Error>,
                    foundation: Foundation)
      returns (calls: seq<Callback>, written: Option<Data>, dispatched: seq<Info>)
      requires Valid()
      requires info.request.kind.JSONKind? ==>
                 JSONProcsSuffice(info.request.Procs(), info.request.isCancelled, info.request.Aggregate().completed, 1)
      modifies info.request, info.request.completedRequestsCount, active, queued, RequestsOf(queued.elements)
      ensures Valid()
      ensures info.request.isCancelled == old(info.request.isCancelled)
      ensures info.request.Procs() == old(info.request.Procs())
      ensures info.request.state == (if info.request in RequestsOf(dispatched) then Active else Finished)
      ensures old(info.request.isCancelled) ==>
                calls == [] && written == None && dispatched == []
                && active.elements == old(active.elements) && queued.elements == old(queued.elements)
                && info.request.Aggregate() == old(info.request.Aggregate())
      ensures !old(info.request.isCancelled) ==>
                (info.request.Aggregate(), calls, written)
                == Processed(info.request.kind, old(info.request.Aggregate()), info.request.Procs(), false,
                             response, data, error, foundation)
      ensures !old(info.request.isCancelled) ==>
                var r := Pass(old(active.elements), old(queued.elements), old(FinishedOf(active.elements)) + {info.request},
                              old(CancelledOf(queued.elements)), maximumConcurrentHTTPEndpointRequests);
                active.elements == r.active && queued.elements == r.queued && dispatched == r.admitted
      ensures forall r :: r in old(RequestsOf(queued.elements)) && r != info.request ==>
                ViewOf(r) == Activated(old(ViewOf(r)), r in RequestsOf(dispatched))
    {
      var request := info.request;
      ghost var finishedBefore := FinishedOf(active.elements);
      ghost var cancelledBefore := CancelledOf(queued.elements);
      calls, written := FinishRequest(request, response, data, error, foundation);
      if request.isCancelled {
        dispatched := [];
        return;
      }
      assert CancelledOf(queued.elements) == cancelledBefore;
      PassDependsOnActiveOnly(active.elements, queued.elements, FinishedOf(active.elements), finishedBefore + {request},
                              cancelledBefore, maximumConcurrentHTTPEndpointRequests);
      dispatched := UpdateActive();
    }

    /**
     * The completion handler up to the pass: the request becomes finished;
     * unless it is cancelled, its results are processed.
     */
    method FinishRequest(request: Request, response: Option<Response>, data: Option<Data>, error: Option<Error>,
                         foundation: Foundation)
      returns (calls: seq<Callback>, written: Option<Data>)
      requires Valid()
      requires request.kind.JSONKind? ==>
                 JSONProcsSuffice(request.Procs(), request.isCancelled, request.Aggregate().completed, 1)
      modifies request, request.completedRequestsCount
      ensures Valid()
      ensures request.state == Finished
      ensures request.isCancelled == old(request.isCancelled) && request.Procs() == old(request.Procs())
      ensures old(request.isCancelled) ==>
                calls == [] && written == None && request.Aggregate() == old(request.Aggregate())
      ensures !old(request.isCancelled) ==>
                (request.Aggregate(), calls, written)
                == Processed(request.kind, old(request.Aggregate()), request.Procs(), false, response, data, error, foundation)
    {
      request.Transition(Finished);
      if request.isCancelled {
        return [], None;
      }
      calls, written := request.ProcessResults(response, data, error, foundation);
    }
  }

  /** Two lists with the same entries, in any order, hold the same requests. */
  lemma SameRequests(a: seq<Info>, b: seq<Info>)
    requires multiset(a) == multiset(b)
    ensures RequestsOf(a) == RequestsOf(b)
  {
    SameMembers(a, b);
    SameMembers(b, a);
  }

  /** Popping the head of a suffix leaves the next suffix. */
  lemma DropOne<T>(s: seq<T>, k: int)
    requires 0 <= k < |s|
    ensures s[k] in s && s[k..][0] == s[k] && s[k..][1..] == s[k + 1..]
  {
  }

  /** The requests of a list grow entry by entry. */
  lemma RequestsOfAppend(s: seq<Info>, info: Info)
    ensures RequestsOf(s + [info]) == RequestsOf(s) + {info.request}
  {
    var lhs := RequestsOf(s + [info]);
    forall r | r in lhs ensures r in RequestsOf(s) + {info.request} {
      var i :| i in s + [info] && i.request == r;
      if i != info {
        assert i in s;
      }
    }
    assert info in s + [info];
    forall r | r in RequestsOf(s) ensures r in lhs {
      var i :| i in s && i.request == r;
      assert i in s + [info];
    }
  }

  /** The requests matching an identifier grow entry by entry. */
  lemma MatchingOfAppend(s: seq<Info>, info: Info, identifier: string)
    ensures MatchingOf(s + [info], identifier)
         == MatchingOf(s, identifier) + (if info.identifier == identifier then {info.request} else {})
  {
    var lhs := MatchingOf(s + [info], identifier);
    var rhs := MatchingOf(s, identifier) + (if info.identifier == identifier then {info.request} else {});
    forall r | r in lhs ensures r in rhs {
      var i :| i in s + [info] && i.identifier == identifier && i.request == r;
      if i != info {
        assert i in s;
      }
    }
    forall r | r in rhs ensures r in lhs {
      if r in MatchingOf(s, identifier) {
        var i :| i in s && i.identifier == identifier && i.request == r;
        assert i in s + [info];
      } else {
        assert info in s + [info];
      }
    }
  }
}

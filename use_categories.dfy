/** src/hooks/useCategories/useCategories.ts: a cache of the category list
    shared by every component that uses the hook, filled by at most one
    request at a time.

    The module-level variables become the fields of CategoriesCache. The
    rest of what the hook touches is made explicit so that the events can
    be stated without time or concurrency: the promises created so far
    (each with a settled flag), the subscribers (one per component that
    ran the hook, with its React state and its `componentIsMounted` flag),
    the getCategories requests in flight and the retry timers pending,
    each tagged with the subscriber whose updateCategories closure started
    it. Each event of the source is one method. */
module UseCategories {
  import opened Options
  import opened Types

  /** What a subscriber's mount effect did */
  datatype Role =
    | Pending                 // rendered, but its mount effect has not run yet
    | Skipped                 // the categories had loaded: the effect returned at once
    | Attached(promise: nat)  // it chained a callback onto the shared promise
    | Requester               // it ran updateCategories itself

  /** One component using the hook: its two pieces of React state, the
      module flag as it read it at its latest render, and `componentIsMounted` */
  datatype Subscriber = Subscriber(
    categories: seq<Category>,
    errorMessage: Option<string>,
    categoriesHaveLoaded: bool,
    mounted: bool,
    role: Role,
    delivered: bool)

  /** The value the hook returned at the subscriber's latest render */
  datatype HookResult = HookResult(categories: seq<Category>, categoriesHaveLoaded: bool, errorMessage: Option<string>)

  /** A subscriber that no callback of the hook can reach any more: it has
      unmounted, or its effect returned at once without attaching to
      anything */
  predicate Frozen(s: Subscriber) {
    !s.mounted || s.role == Skipped
  }

  /** The frozen components before an event are still frozen and still show
      what they showed: nothing is set on them */
  ghost predicate FrozenUnchanged(before: seq<Subscriber>, after: seq<Subscriber>) {
    |before| <= |after| &&
    forall j :: 0 <= j < |before| && Frozen(before[j]) ==>
      Frozen(after[j]) && after[j].categories == before[j].categories &&
      after[j].errorMessage == before[j].errorMessage &&
      after[j].categoriesHaveLoaded == before[j].categoriesHaveLoaded
  }

  function Without(xs: seq<nat>, k: nat): (r: seq<nat>)
    requires k < |xs|
    ensures |r| == |xs| - 1
  {
    xs[..k] + xs[k + 1..]
  }

  class CategoriesCache {
    var cachedCategories: seq<Category>
    var cachedErrorMessage: Option<string>
    var categoriesHaveLoaded: bool
    /** `requestInProgress`: the shared promise, as an index into `promises` */
    var requestInProgress: Option<nat>
    /** The promise whose resolve function `resolvePromise` holds */
    var resolvePromise: Option<nat>
    /** Every promise created so far, and whether it has settled */
    var promises: seq<bool>
    var subscribers: seq<Subscriber>
    /** getCategories calls in flight, by owning subscriber */
    var requests: seq<nat>
    /** setTimeout(updateCategories, 5000) callbacks pending, by owning subscriber */
    var timers: seq<nat>
    /** How many getCategories calls have been made */
    var requestsIssued: nat

    ghost predicate Valid()
      reads this
    {
      (requestInProgress.Some? ==> requestInProgress == resolvePromise) &&
      (resolvePromise.Some? ==> resolvePromise.value < |promises|) &&
      (|requests| + |timers| > 0 ==> resolvePromise.Some?) &&
      (forall j :: 0 <= j < |requests| ==> requests[j] < |subscribers| && subscribers[requests[j]].role == Requester) &&
      (forall j :: 0 <= j < |timers| ==> timers[j] < |subscribers| && subscribers[timers[j]].role == Requester) &&
      (forall i :: 0 <= i < |subscribers| && subscribers[i].role.Attached? ==> subscribers[i].role.promise < |promises|)
    }

    /** At most one request or retry is outstanding, and while one is, the
        shared promise exists, is unsettled and nothing has loaded */
    ghost predicate SingleFlight()
      reads this
    {
      |requests| + |timers| <= 1 &&
      (|requests| + |timers| == 1 ==>
        requestInProgress.Some? && requestInProgress.value < |promises| &&
        !promises[requestInProgress.value] && !categoriesHaveLoaded)
    }

    /** After a 404: nothing has loaded, the shared promise has settled and
        nothing is outstanding, so nothing will ever be requested again */
    ghost predicate Dormant()
      reads this
    {
      !categoriesHaveLoaded && requestInProgress.Some? && requestInProgress.value < |promises| &&
      promises[requestInProgress.value] && requests == [] && timers == []
    }

    /** The state when the module is first loaded */
    constructor ()
      ensures Valid() && SingleFlight()
      ensures cachedCategories == [] && cachedErrorMessage == None && !categoriesHaveLoaded
      ensures requestInProgress == None && resolvePromise == None && promises == []
      ensures subscribers == [] && requests == [] && timers == [] && requestsIssued == 0
    {
      cachedCategories := [];
      cachedErrorMessage := None;
      categoriesHaveLoaded := false;
      requestInProgress := None;
      resolvePromise := None;
      promises := [];
      subscribers := [];
      requests := [];
      timers := [];
      requestsIssued := 0;
    }

    /** resetCache(): clears the cache and forgets the shared promise. It
        does not cancel outstanding work and leaves `resolvePromise` as it is. */
    method ResetCache()
      requires Valid()
      modifies this
      ensures Valid()
      ensures cachedCategories == [] && cachedErrorMessage == None && !categoriesHaveLoaded && requestInProgress == None
      ensures resolvePromise == old(resolvePromise) && promises == old(promises) && subscribers == old(subscribers)
      ensures requests == old(requests) && timers == old(timers) && requestsIssued == old(requestsIssued)
      ensures old(requests) == [] && old(timers) == [] ==> SingleFlight()
    {
      cachedCategories := [];
      cachedErrorMessage := None;
      categoriesHaveLoaded := false;
      requestInProgress := None;
    }

    /** updateCategories(): creates the shared promise when there is none,
        then issues a request on behalf of `owner` */
    method UpdateCategories(owner: nat)
      requires Valid() && owner < |subscribers| && subscribers[owner].role == Requester
      modifies this
      ensures Valid()
      ensures old(requestInProgress).Some? ==>
        promises == old(promises) && requestInProgress == old(requestInProgress) && resolvePromise == old(resolvePromise)
      ensures old(requestInProgress).None? ==>
        promises == old(promises) + [false] && requestInProgress == Some(|old(promises)|) && resolvePromise == requestInProgress
      ensures requests == old(requests) + [owner] && requestsIssued == old(requestsIssued) + 1
      ensures timers == old(timers) && subscribers == old(subscribers)
      ensures cachedCategories == old(cachedCategories) && cachedErrorMessage == old(cachedErrorMessage)
      ensures categoriesHaveLoaded == old(categoriesHaveLoaded)
    {
      if requestInProgress.None? {
        requestInProgress := Some(|promises|);
        resolvePromise := requestInProgress;
        promises := promises + [false];
      }
      requests := requests + [owner];
      requestsIssued := requestsIssued + 1;
    }

    /** A component renders for the first time: its two pieces of state
        start as the cache, and it returns the module flag as it is now */
    method Render() returns (id: nat)
      requires Valid()
      modifies this
      ensures Valid()
      ensures id == |old(subscribers)|
      ensures subscribers == old(subscribers) +
        [Subscriber(old(cachedCategories), old(cachedErrorMessage), old(categoriesHaveLoaded), true, Pending, false)]
      ensures cachedCategories == old(cachedCategories) && cachedErrorMessage == old(cachedErrorMessage)
      ensures categoriesHaveLoaded == old(categoriesHaveLoaded) && requestInProgress == old(requestInProgress)
      ensures resolvePromise == old(resolvePromise) && promises == old(promises)
      ensures requests == old(requests) && timers == old(timers) && requestsIssued == old(requestsIssued)
      ensures FrozenUnchanged(old(subscribers), subscribers)
      ensures old(SingleFlight()) ==> SingleFlight()
      ensures old(Dormant()) ==> Dormant()
    {
      id := |subscribers|;
      subscribers := subscribers + [Subscriber(cachedCategories, cachedErrorMessage, categoriesHaveLoaded, true, Pending, false)];
    }

    /** Subscriber i's mount effect runs, some time after its render: it
        stops at once when the categories have loaded by now, attaches to
        the shared promise when there is one, and otherwise runs
        updateCategories. Its state stays as it was rendered. */
    method Effect(i: nat)
      requires Valid() && i < |subscribers| && subscribers[i].role == Pending && subscribers[i].mounted
      modifies this
      ensures Valid()
      ensures var role := if old(categoriesHaveLoaded) then Skipped
          else if old(requestInProgress).Some? then Attached(old(requestInProgress).value)
          else Requester;
        subscribers == old(subscribers)[i := old(subscribers[i]).(role := role)]
      ensures cachedCategories == old(cachedCategories) && cachedErrorMessage == old(cachedErrorMessage)
      ensures categoriesHaveLoaded == old(categoriesHaveLoaded) && timers == old(timers)
      ensures old(categoriesHaveLoaded) || old(requestInProgress).Some? ==>
        requests == old(requests) && requestsIssued == old(requestsIssued) &&
        promises == old(promises) && requestInProgress == old(requestInProgress) && resolvePromise == old(resolvePromise)
      ensures !old(categoriesHaveLoaded) && old(requestInProgress).None? ==>
        requests == old(requests) + [i] &&
        requestsIssued == old(requestsIssued) + 1 && promises == old(promises) + [false] &&
        requestInProgress == Some(|old(promises)|) && resolvePromise == requestInProgress
      ensures FrozenUnchanged(old(subscribers), subscribers)
      ensures old(SingleFlight()) ==> SingleFlight()
      ensures old(Dormant()) ==> Dormant()
    {
      var role := if categoriesHaveLoaded then Skipped
        else if requestInProgress.Some? then Attached(requestInProgress.value)
        else Requester;
      subscribers := subscribers[i := subscribers[i].(role := role)];
      if role == Requester {
        UpdateCategories(i);
      }
    }

    /** A component renders and its effect runs before anything else
        happens, as when a test renders inside act() */
    method Mount() returns (id: nat)
      requires Valid()
      modifies this
      ensures Valid()
      ensures id == |old(subscribers)| && |subscribers| == id + 1 && subscribers[..id] == old(subscribers)
      ensures subscribers[id].categories == old(cachedCategories) && subscribers[id].errorMessage == old(cachedErrorMessage)
      ensures subscribers[id].categoriesHaveLoaded == old(categoriesHaveLoaded)
      ensures subscribers[id].mounted && !subscribers[id].delivered
      ensures cachedCategories == old(cachedCategories) && cachedErrorMessage == old(cachedErrorMessage)
      ensures categoriesHaveLoaded == old(categoriesHaveLoaded) && timers == old(timers)
      ensures old(categoriesHaveLoaded) ==>
        subscribers[id].role == Skipped && requests == old(requests) && requestsIssued == old(requestsIssued) &&
        promises == old(promises) && requestInProgress == old(requestInProgress) && resolvePromise == old(resolvePromise)
      ensures !old(categoriesHaveLoaded) && old(requestInProgress).Some? ==>
        subscribers[id].role == Attached(old(requestInProgress).value) &&
        requests == old(requests) && requestsIssued == old(requestsIssued) &&
        promises == old(promises) && requestInProgress == old(requestInProgress) && resolvePromise == old(resolvePromise)
      ensures !old(categoriesHaveLoaded) && old(requestInProgress).None? ==>
        subscribers[id].role == Requester && requests == old(requests) + [id] &&
        requestsIssued == old(requestsIssued) + 1 && promises == old(promises) + [false] &&
        requestInProgress == Some(|old(promises)|) && resolvePromise == requestInProgress
      ensures FrozenUnchanged(old(subscribers), subscribers)
      ensures old(SingleFlight()) ==> SingleFlight()
      ensures old(Dormant()) ==> Dormant()
    {
      id := Render();
      Effect(id);
    }

    /** The effect's cleanup: `componentIsMounted = false` */
    method Unmount(i: nat)
      requires Valid() && i < |subscribers|
      modifies this
      ensures Valid()
      ensures subscribers == old(subscribers)[i := old(subscribers[i]).(mounted := false)]
      ensures cachedCategories == old(cachedCategories) && cachedErrorMessage == old(cachedErrorMessage)
      ensures categoriesHaveLoaded == old(categoriesHaveLoaded) && requestInProgress == old(requestInProgress)
      ensures resolvePromise == old(resolvePromise) && promises == old(promises)
      ensures requests == old(requests) && timers == old(timers) && requestsIssued == old(requestsIssued)
      ensures FrozenUnchanged(old(subscribers), subscribers)
      ensures old(SingleFlight()) ==> SingleFlight()
      ensures old(Dormant()) ==> Dormant()
    {
      subscribers := subscribers[i := subscribers[i].(mounted := false)];
    }

    /** onSuccess of request k: the data goes into the cache, the cached
        error is cleared, the categories count as loaded and the promise is
        settled; the owner's state is set only while it is mounted */
    method RequestSucceeded(k: nat, data: seq<Category>)
      requires Valid() && k < |requests|
      modifies this
      ensures Valid()
      ensures cachedCategories == data && cachedErrorMessage == None && categoriesHaveLoaded
      ensures requests == Without(old(requests), k)
      ensures promises == old(promises)[old(resolvePromise).value := true]
      ensures var owner := old(requests[k]);
        subscribers == if old(subscribers[owner].mounted)
          then old(subscribers)[owner := old(subscribers[owner]).(categories := data, errorMessage := None, categoriesHaveLoaded := true)]
          else old(subscribers)
      ensures requestInProgress == old(requestInProgress) && resolvePromise == old(resolvePromise)
      ensures timers == old(timers) && requestsIssued == old(requestsIssued)
      ensures FrozenUnchanged(old(subscribers), subscribers)
      ensures old(SingleFlight()) ==> SingleFlight() && requests == [] && timers == []
    {
      var owner := requests[k];
      requests := Without(requests, k);
      cachedCategories := data;
      cachedErrorMessage := None;
      categoriesHaveLoaded := true;
      promises := promises[resolvePromise.value := true];
      if subscribers[owner].mounted {
        subscribers := subscribers[owner := subscribers[owner].(categories := data, errorMessage := None, categoriesHaveLoaded := true)];
      }
    }

    /** onError of request k: the message goes into the cache and into the
        owner's state while it is mounted; a 404 settles the promise, any
        other failure schedules a retry by the same owner */
    method RequestFailed(k: nat, uiErrorMessage: string, status: Option<nat>)
      requires Valid() && k < |requests|
      modifies this
      ensures Valid()
      ensures cachedErrorMessage == Some(uiErrorMessage)
      ensures cachedCategories == old(cachedCategories) && categoriesHaveLoaded == old(categoriesHaveLoaded)
      ensures requests == Without(old(requests), k)
      ensures status == Some(404) ==> promises == old(promises)[old(resolvePromise).value := true] && timers == old(timers)
      ensures status != Some(404) ==> promises == old(promises) && timers == old(timers) + [old(requests[k])]
      ensures var owner := old(requests[k]);
        subscribers == if old(subscribers[owner].mounted)
          then old(subscribers)[owner := old(subscribers[owner]).(errorMessage := Some(uiErrorMessage), categoriesHaveLoaded := old(categoriesHaveLoaded))]
          else old(subscribers)
      ensures requestInProgress == old(requestInProgress) && resolvePromise == old(resolvePromise)
      ensures requestsIssued == old(requestsIssued)
      ensures FrozenUnchanged(old(subscribers), subscribers)
      ensures old(SingleFlight()) ==> SingleFlight()
      ensures old(SingleFlight()) && status == Some(404) ==> Dormant()
    {
      var owner := requests[k];
      requests := Without(requests, k);
      cachedErrorMessage := Some(uiErrorMessage);
      if subscribers[owner].mounted {
        subscribers := subscribers[owner := subscribers[owner].(errorMessage := Some(uiErrorMessage), categoriesHaveLoaded := categoriesHaveLoaded)];
      }
      if status == Some(404) {
        promises := promises[resolvePromise.value := true];
      } else {
        timers := timers + [owner];
      }
    }

    /** Retry timer k fires: updateCategories runs again for the same owner,
        reusing the shared promise when there is one */
    method TimerFired(k: nat)
      requires Valid() && k < |timers|
      modifies this
      ensures Valid()
      ensures timers == Without(old(timers), k)
      ensures requests == old(requests) + [old(timers[k])] && requestsIssued == old(requestsIssued) + 1
      ensures old(requestInProgress).Some? ==>
        promises == old(promises) && requestInProgress == old(requestInProgress) && resolvePromise == old(resolvePromise)
      ensures old(requestInProgress).None? ==>
        promises == old(promises) + [false] && requestInProgress == Some(|old(promises)|) && resolvePromise == requestInProgress
      ensures subscribers == old(subscribers)
      ensures cachedCategories == old(cachedCategories) && cachedErrorMessage == old(cachedErrorMessage)
      ensures categoriesHaveLoaded == old(categoriesHaveLoaded)
      ensures old(SingleFlight()) ==> SingleFlight()
    {
      var owner := timers[k];
      timers := Without(timers, k);
      UpdateCategories(owner);
    }

    /** The callback subscriber i chained onto the shared promise runs once
        the promise has settled: while mounted, the subscriber takes the
        cache as it is then */
    method Deliver(i: nat)
      requires Valid() && i < |subscribers|
      requires subscribers[i].role.Attached? && subscribers[i].role.promise < |promises|
      requires promises[subscribers[i].role.promise] && !subscribers[i].delivered
      modifies this
      ensures Valid()
      ensures subscribers == old(subscribers)[i :=
        if old(subscribers[i].mounted)
        then old(subscribers[i]).(categories := old(cachedCategories), errorMessage := old(cachedErrorMessage),
                                  categoriesHaveLoaded := old(categoriesHaveLoaded), delivered := true)
        else old(subscribers[i]).(delivered := true)]
      ensures cachedCategories == old(cachedCategories) && cachedErrorMessage == old(cachedErrorMessage)
      ensures categoriesHaveLoaded == old(categoriesHaveLoaded) && requestInProgress == old(requestInProgress)
      ensures resolvePromise == old(resolvePromise) && promises == old(promises)
      ensures requests == old(requests) && timers == old(timers) && requestsIssued == old(requestsIssued)
      ensures FrozenUnchanged(old(subscribers), subscribers)
      ensures old(SingleFlight()) ==> SingleFlight()
      ensures old(Dormant()) ==> Dormant()
    {
      var s := subscribers[i];
      if s.mounted {
        subscribers := subscribers[i := s.(categories := cachedCategories, errorMessage := cachedErrorMessage,
                                           categoriesHaveLoaded := categoriesHaveLoaded, delivered := true)];
      } else {
        subscribers := subscribers[i := s.(delivered := true)];
      }
    }

    /** What subscriber i's latest render returned */
    function Hook(i: nat): (r: HookResult)
      reads this
      requires i < |subscribers|
    {
      HookResult(subscribers[i].categories, subscribers[i].categoriesHaveLoaded, subscribers[i].errorMessage)
    }
  }

  /** A successful load is cached: a component mounted afterwards shows the
      data on its first render, and no second request is made */
  method CachedRemount(data: seq<Category>) returns (first: HookResult, second: HookResult, requestsIssued: nat)
    ensures first == HookResult(data, true, None) && second == HookResult(data, true, None)
    ensures requestsIssued == 1
  {
    var cache := new CategoriesCache();
    var a := cache.Mount();
    assert cache.Hook(a) == HookResult([], false, None);
    cache.RequestSucceeded(0, data);
    var b := cache.Mount();
    first, second := cache.Hook(a), cache.Hook(b);
    requestsIssued := cache.requestsIssued;
  }

  /** Two components mounted before the response: one request, and both
      show the same data */
  method TwoSubscribersShareOneRequest(data: seq<Category>) returns (first: HookResult, second: HookResult, requestsIssued: nat)
    ensures first == HookResult(data, true, None) && second == first
    ensures requestsIssued == 1
  {
    var cache := new CategoriesCache();
    var a := cache.Mount();
    var b := cache.Mount();
    cache.RequestSucceeded(0, data);
    cache.Deliver(b);
    first, second := cache.Hook(a), cache.Hook(b);
    requestsIssued := cache.requestsIssued;
  }

  /** The first of two components unmounts before the response: the data
      still reaches the cache and the second component, while the first
      keeps showing its initial render */
  method UnmountedSubscriberNotUpdated(data: seq<Category>)
    returns (first: HookResult, second: HookResult, cached: seq<Category>)
    ensures first == HookResult([], false, None)
    ensures second == HookResult(data, true, None)
    ensures cached == data
  {
    var cache := new CategoriesCache();
    var a := cache.Mount();
    var b := cache.Mount();
    cache.Unmount(a);
    cache.RequestSucceeded(0, data);
    cache.Deliver(b);
    first, second := cache.Hook(a), cache.Hook(b);
    cached := cache.cachedCategories;
  }

  /** The request succeeds after a second component has rendered but before
      its mount effect runs: the effect finds the categories loaded and
      returns at once, so that component keeps the empty list it rendered
      with while the first one shows the data. It is frozen: no later event
      sets its state. */
  method RenderBeforeSuccessIsStale(data: seq<Category>)
    returns (first: HookResult, second: HookResult, stale: Subscriber, requestsIssued: nat)
    ensures first == HookResult(data, true, None)
    ensures second == HookResult([], false, None)
    ensures stale.mounted && stale.role == Skipped && Frozen(stale)
    ensures requestsIssued == 1
  {
    var cache := new CategoriesCache();
    var a := cache.Mount();
    var b := cache.Render();
    cache.RequestSucceeded(0, data);
    cache.Effect(b);
    first, second := cache.Hook(a), cache.Hook(b);
    stale := cache.subscribers[b];
    requestsIssued := cache.requestsIssued;
  }

  /** Two components mount before the first response, and the request
      fails with the given status: the state both failure scenarios start from */
  method MountTwoThenFail(message: string, status: nat) returns (cache: CategoriesCache)
    ensures fresh(cache) && cache.Valid()
    ensures cache.subscribers == [Subscriber([], Some(message), false, true, Requester, false),
                                  Subscriber([], None, false, true, Attached(0), false)]
    ensures cache.cachedCategories == [] && cache.cachedErrorMessage == Some(message) && !cache.categoriesHaveLoaded
    ensures cache.requestInProgress == Some(0) && cache.resolvePromise == Some(0)
    ensures cache.promises == [status == 404] && cache.requests == []
    ensures cache.timers == if status == 404 then [] else [0]
    ensures cache.requestsIssued == 1
  {
    cache := new CategoriesCache();
    var a := cache.Mount();
    var b := cache.Mount();
    assert cache.subscribers == [Subscriber([], None, false, true, Requester, false),
                                 Subscriber([], None, false, true, Attached(0), false)];
    assert cache.requests == [0] && cache.resolvePromise == Some(0);
    cache.RequestFailed(0, message, Some(status));
  }

  /** A 404 is final: both early components and one mounted afterwards
      show the error, nothing loads, and no further request is made */
  method NotFoundIsTerminal(message: string)
    returns (first: HookResult, second: HookResult, third: HookResult, requestsIssued: nat, outstanding: nat)
    ensures first == HookResult([], false, Some(message))
    ensures second == first && third == first
    ensures requestsIssued == 1 && outstanding == 0
  {
    var cache := MountTwoThenFail(message, 404);
    cache.Deliver(1);
    assert cache.subscribers == [Subscriber([], Some(message), false, true, Requester, false),
                                 Subscriber([], Some(message), false, true, Attached(0), true)];
    var c := cache.Mount();
    assert cache.subscribers == [Subscriber([], Some(message), false, true, Requester, false),
                                 Subscriber([], Some(message), false, true, Attached(0), true),
                                 Subscriber([], Some(message), false, true, Attached(0), false)];
    cache.Deliver(c);
    assert cache.subscribers == [Subscriber([], Some(message), false, true, Requester, false),
                                 Subscriber([], Some(message), false, true, Attached(0), true),
                                 Subscriber([], Some(message), false, true, Attached(0), true)];
    first, second, third := cache.Hook(0), cache.Hook(1), cache.Hook(c);
    requestsIssued := cache.requestsIssued;
    outstanding := |cache.requests| + |cache.timers|;
  }

  /** After a 500 for the first of two components, a third one mounts */
  method FailThenMountThird(message: string) returns (cache: CategoriesCache, rendered: seq<HookResult>)
    ensures fresh(cache) && cache.Valid()
    ensures cache.subscribers == [Subscriber([], Some(message), false, true, Requester, false),
                                  Subscriber([], None, false, true, Attached(0), false),
                                  Subscriber([], Some(message), false, true, Attached(0), false)]
    ensures rendered == [HookResult([], false, Some(message)), HookResult([], false, None), HookResult([], false, Some(message))]
    ensures cache.cachedCategories == [] && cache.cachedErrorMessage == Some(message) && !cache.categoriesHaveLoaded
    ensures cache.requestInProgress == Some(0) && cache.resolvePromise == Some(0)
    ensures cache.promises == [false] && cache.requests == [] && cache.timers == [0]
    ensures cache.requestsIssued == 1
  {
    cache := MountTwoThenFail(message, 500);
    var c := cache.Mount();
    assert cache.subscribers == [Subscriber([], Some(message), false, true, Requester, false),
                                 Subscriber([], None, false, true, Attached(0), false),
                                 Subscriber([], Some(message), false, true, Attached(0), false)];
    rendered := [cache.Hook(0), cache.Hook(1), cache.Hook(c)];
  }

  /** A 500 schedules a retry. Until it succeeds the requester and a
      component mounted after the failure show the error while the other
      early component still shows no error (the inconsistency the source
      documents); the retry reuses the shared promise, and its success
      brings all three into line */
  method ServerErrorRetries(message: string, data: seq<Category>)
    returns (beforeRetry: seq<HookResult>, afterRetry: seq<HookResult>, requestsIssued: nat, promisesCreated: nat)
    ensures beforeRetry == [HookResult([], false, Some(message)), HookResult([], false, None), HookResult([], false, Some(message))]
    ensures afterRetry == [HookResult(data, true, None), HookResult(data, true, None), HookResult(data, true, None)]
    ensures requestsIssued == 2 && promisesCreated == 1
  {
    var cache;
    cache, beforeRetry := FailThenMountThird(message);
    cache.TimerFired(0);
    assert cache.requests == [0] && cache.promises == [false] && cache.resolvePromise == Some(0);
    cache.RequestSucceeded(0, data);
    assert cache.subscribers == [Subscriber(data, None, true, true, Requester, false),
                                 Subscriber([], None, false, true, Attached(0), false),
                                 Subscriber([], Some(message), false, true, Attached(0), false)];
    assert cache.promises == [true] && cache.cachedCategories == data && cache.cachedErrorMessage == None;
    cache.Deliver(1);
    assert cache.subscribers == [Subscriber(data, None, true, true, Requester, false),
                                 Subscriber(data, None, true, true, Attached(0), true),
                                 Subscriber([], Some(message), false, true, Attached(0), false)];
    cache.Deliver(2);
    assert cache.subscribers == [Subscriber(data, None, true, true, Requester, false),
                                 Subscriber(data, None, true, true, Attached(0), true),
                                 Subscriber(data, None, true, true, Attached(0), true)];
    afterRetry := [cache.Hook(0), cache.Hook(1), cache.Hook(2)];
    requestsIssued := cache.requestsIssued;
    promisesCreated := |cache.promises|;
  }
}

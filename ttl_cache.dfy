/** The memoising wrapper `timed_lru_cache` (src/main.py): an LRU memo table
    that is emptied wholesale once its lifetime has run out. The wrapped call
    depends on the state of the upstream services as well as on its
    arguments; that state is the `world` parameter, and the clock is `now`
    (seconds). A call that raises is not memoised by `lru_cache`, so the
    wrapped function answers with a `Result` and only its `Ok` answers are
    kept. */
module TtlCache {
  import opened Wrappers

  class TimedCache<W, A(==), R, E> {
    /** The wrapped function: its answer for arguments `a` in world `w`. */
    const func: (W, A) -> Result<R, E>
    /** `func.lifetime`. */
    const lifetime: int
    /** `func.expiration`: the time at which the memo table is next emptied. */
    var expiration: int
    /** The memo table of `lru_cache`. */
    var memo: map<A, R>
    /** The world each memoised answer was computed in. */
    ghost var origin: map<A, W>

    /** Every memoised value is the wrapped function's successful answer for
        those arguments in some world it was called in. */
    ghost predicate Valid()
      reads this
    {
      && memo.Keys == origin.Keys
      && forall a :: a in memo ==> func(origin[a], a) == Ok(memo[a])
    }

    /** Decorating: an empty memo table that expires `seconds` from `now`. */
    constructor (f: (W, A) -> Result<R, E>, seconds: int, now: int)
      ensures Valid()
      ensures func == f && lifetime == seconds
      ensures expiration == now + seconds && memo == map[]
    {
      func := f;
      lifetime := seconds;
      expiration := now + seconds;
      memo := map[];
      origin := map[];
    }

    /** `wrapped_func(*args)`: at or after the expiration time the table is
        emptied and the expiration moved to `now + lifetime`; then a memoised
        answer is returned if there is one, and otherwise the function is
        called and its answer memoised unless it is an error. */
    method Call(now: int, world: W, args: A) returns (r: Result<R, E>)
      requires Valid()
      modifies this
      ensures Valid()
      ensures old(expiration) <= now ==>
        && expiration == now + lifetime
        && r == func(world, args)
        && memo == if r.Ok? then map[args := r.value] else map[]
      ensures now < old(expiration) ==> expiration == old(expiration)
      ensures now < old(expiration) && args in old(memo) ==>
        r == Ok(old(memo)[args]) && memo == old(memo)
      ensures now < old(expiration) && args !in old(memo) ==>
        && r == func(world, args)
        && memo == if r.Ok? then old(memo)[args := r.value] else old(memo)
      // a stale answer is only ever served before expiration, and it is still
      // the function's answer in the world it was computed in
      ensures r != func(world, args) ==>
        now < old(expiration) && args in old(memo) && r == func(old(origin)[args], args)
    {
      if expiration <= now {
        memo := map[];
        origin := map[];
        expiration := now + lifetime;
      }
      if args in memo {
        r := Ok(memo[args]);
      } else {
        r := func(world, args);
        if r.Ok? {
          memo := memo[args := r.value];
          origin := origin[args := world];
        }
      }
    }
  }

  /** Two calls with the same arguments before the first expiration: when the
      first succeeds, the second is served from the memo table, so it repeats
      the first answer even when the upstream world has changed in between. */
  method RepeatWithinLifetime<W, A(==), R, E>(f: (W, A) -> Result<R, E>, seconds: int, t0: int, t1: int, t2: int,
                                               w1: W, w2: W, a: A)
    returns (r1: Result<R, E>, r2: Result<R, E>)
    requires t1 < t0 + seconds && t2 < t0 + seconds
    ensures r1 == f(w1, a)
    ensures r1.Ok? ==> r2 == r1
    ensures r1.Err? ==> r2 == f(w2, a)
  {
    var cache := new TimedCache(f, seconds, t0);
    r1 := cache.Call(t1, w1, a);
    r2 := cache.Call(t2, w2, a);
  }

  /** A call at or after the expiration time computes afresh in the current
      world, whatever was memoised before. */
  method RepeatAfterExpiry<W, A(==), R, E>(f: (W, A) -> Result<R, E>, seconds: int, t0: int, t1: int, t2: int,
                                            w1: W, w2: W, a: A)
    returns (r1: Result<R, E>, r2: Result<R, E>)
    requires t1 < t0 + seconds <= t2
    ensures r1 == f(w1, a) && r2 == f(w2, a)
  {
    var cache := new TimedCache(f, seconds, t0);
    r1 := cache.Call(t1, w1, a);
    r2 := cache.Call(t2, w2, a);
  }
}

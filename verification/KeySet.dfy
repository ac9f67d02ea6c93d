/** The cached signing keys: when they are fetched again, and that they are never lost. */
module KeySet {
  import opened Options
  import opened RealMath

  const REFRESH_COOLDOWN := 300.0
  const MAX_AGE := 3600.0
  const INITIAL_FAILURE_BACKOFF := 15.0

  /** One request to the key endpoint: the clock before it was sent, the clock value it left
      in the cache, whether keys were held before it, and whether it brought keys. */
  datatype Attempt = Attempt(start: real, stamp: real, held: bool, ok: bool)

  /** Two attempts in a row keep the pause that applies to the second. */
  predicate Apart(a: Attempt, b: Attempt) {
    b.start - a.stamp >= if b.held then REFRESH_COOLDOWN else INITIAL_FAILURE_BACKOFF
  }

  /** The attempts of a run, oldest first: keys are held from the first success on. */
  ghost predicate Spread(log: seq<Attempt>) {
    && (forall k :: 0 <= k < |log| ==> log[k].start <= log[k].stamp)
    && (forall k :: 0 <= k < |log| - 1 ==> Apart(log[k], log[k + 1]))
    && (forall k :: 0 <= k < |log| - 1 ==> log[k + 1].held == (log[k].held || log[k].ok))
    && (log != [] ==> !log[0].held)
  }

  lemma SpreadGrows(log: seq<Attempt>, a: Attempt)
    requires Spread(log) && a.start <= a.stamp
    requires log == [] ==> !a.held
    requires log != [] ==> Apart(log[|log| - 1], a) && a.held == (log[|log| - 1].held || log[|log| - 1].ok)
    ensures Spread(log + [a])
  {
  }

  /** Once keys are held, `n` further attempts take `n` cooldowns, however many calls are made. */
  lemma {:induction false} AttemptsTakeCooldowns(log: seq<Attempt>, i: nat, j: nat)
    requires Spread(log) && i < j < |log| && log[i + 1].held
    ensures log[j].start - log[i].start >= Times(REFRESH_COOLDOWN, j - i)
    ensures log[j].held
    decreases j
  {
    if i + 1 < j {
      AttemptsTakeCooldowns(log, i, j - 1);
      assert Apart(log[j - 1], log[j]);
    } else {
      assert Apart(log[i], log[i + 1]);
    }
  }

  /** While no keys are held, each attempt follows a failure and waits out its backoff. */
  lemma {:induction false} FailuresTakeBackoffs(log: seq<Attempt>, i: nat, j: nat)
    requires Spread(log) && i < j < |log| && !log[j].held
    ensures log[j].start - log[i].start >= Times(INITIAL_FAILURE_BACKOFF, j - i)
    ensures !log[i].ok && !log[i].held
    decreases j
  {
    assert Apart(log[j - 1], log[j]);
    if i + 1 < j {
      FailuresTakeBackoffs(log, i, j - 1);
    }
  }

  class KeySetCache<K> {
    var cache: Option<seq<K>>
    var fetchedAt: Option<real>
    var failedAt: Option<real>
    /** Every attempt since the last reset, and the last clock value read. */
    ghost var log: seq<Attempt>
    ghost var clock: real

    /** The attempts are spread out, and the fields remember the last of them. */
    ghost predicate Valid()
      reads this
    {
      && Spread(log)
      && fetchedAt.Some? == cache.Some?
      && (cache.Some? ==> log != [] && (log[|log| - 1].held || log[|log| - 1].ok)
                          && fetchedAt.value == log[|log| - 1].stamp && failedAt.None?)
      && (cache.None? ==> failedAt.Some? == (log != []))
      && (cache.None? && log != [] ==>
            !log[|log| - 1].held && !log[|log| - 1].ok && failedAt.value == log[|log| - 1].stamp)
      && (log != [] ==> log[|log| - 1].stamp <= clock)
    }

    constructor ()
      ensures Valid() && cache.None? && log == []
    {
      cache, fetchedAt, failedAt := None, None, None;
      log, clock := [], 0.0;
    }

    /** Forgets the keys. */
    method Reset()
      modifies this
      ensures Valid() && cache.None? && log == []
    {
      cache, fetchedAt, failedAt := None, None, None;
      log := [];
    }

    /** Whether a request for the keys asks the endpoint: with none held, unless a failure is
        recent; with keys held, once they are too old. */
    predicate AsksAgain(now: real)
      reads this
    {
      if cache.None? then failedAt.None? || now - failedAt.value >= INITIAL_FAILURE_BACKOFF
      else fetchedAt.Some? && now - fetchedAt.value >= MAX_AGE
    }

    /** The keys, fetched if none are held or if they are too old. `now` and `stamp` are the
        clock when the lock is taken and at its next reading; `fetched` is what the endpoint
        answers if it is asked. Keys once held are never lost. */
    method GetJwks(now: real, stamp: real, fetched: Option<seq<K>>) returns (keys: Option<seq<K>>)
      requires Valid() && clock <= now <= stamp
      modifies this
      ensures Valid() && clock == stamp && keys == cache
      ensures old(AsksAgain(now))
              <==> if old(cache).None? then old(failedAt).None? || now >= old(failedAt).value + 15.0
                   else now >= old(fetchedAt).value + 3600.0
      ensures cache == if old(AsksAgain(now)) && fetched.Some? then fetched else old(cache)
      ensures log == old(log) + if !old(AsksAgain(now)) then []
                                else [Attempt(if old(cache).Some? then stamp else now, stamp, old(cache).Some?,
                                              fetched.Some?)]
    {
      hide Spread;
      clock := stamp;
      if cache.None? {
        if failedAt.Some? && now - failedAt.value < INITIAL_FAILURE_BACKOFF {
          return None;
        }
        FetchFirst(now, stamp, fetched);
      } else if fetchedAt.Some? && now - fetchedAt.value >= MAX_AGE {
        var stored := RefetchLocked(stamp, fetched);
      }
      keys := cache;
    }

    /** The first fetch: a failure starts the backoff, a success holds the keys. */
    method FetchFirst(now: real, stamp: real, fetched: Option<seq<K>>)
      requires Valid() && cache.None? && now <= stamp <= clock
      requires failedAt.Some? ==> now - failedAt.value >= INITIAL_FAILURE_BACKOFF
      modifies this`cache, this`fetchedAt, this`failedAt, this`log
      ensures Valid() && cache == fetched
      ensures log == old(log) + [Attempt(now, stamp, false, fetched.Some?)]
    {
      var attempt := Attempt(now, stamp, false, fetched.Some?);
      SpreadGrows(log, attempt);
      hide Spread;
      log := log + [attempt];
      if fetched.None? {
        failedAt := Some(stamp);
      } else {
        cache, fetchedAt, failedAt := fetched, Some(stamp), None;
      }
    }

    /** One refetch; the attempt restarts the clock whether or not it brings keys. */
    method RefetchLocked(stamp: real, fetched: Option<seq<K>>) returns (stored: bool)
      requires Valid() && cache.Some? && stamp - fetchedAt.value >= REFRESH_COOLDOWN && stamp <= clock
      modifies this`cache, this`fetchedAt, this`log
      ensures Valid() && stored == fetched.Some?
      ensures cache == (if fetched.Some? then fetched else old(cache)) && fetchedAt == Some(stamp)
      ensures log == old(log) + [Attempt(stamp, stamp, true, fetched.Some?)]
    {
      var attempt := Attempt(stamp, stamp, true, fetched.Some?);
      SpreadGrows(log, attempt);
      hide Spread;
      fetchedAt := Some(stamp);
      log := log + [attempt];
      if fetched.None? {
        return false;
      }
      cache := fetched;
      return true;
    }

    /** A token names a key the cache lacks: the set is refetched once the cooldown has run. */
    method RefreshForUnknownKid(now: real, stamp: real, fetched: Option<seq<K>>) returns (stored: bool)
      requires Valid() && clock <= now <= stamp
      modifies this
      ensures Valid() && clock == stamp && failedAt == old(failedAt)
      ensures stored == (old(cache).Some? && now >= old(fetchedAt).value + 300.0 && fetched.Some?)
      ensures cache == if stored then fetched else old(cache)
      ensures log == old(log) + if old(cache).Some? && now >= old(fetchedAt).value + 300.0
                                then [Attempt(stamp, stamp, true, stored)] else []
    {
      hide Spread;
      clock := stamp;
      if fetchedAt.None? {
        return false;
      }
      if now - fetchedAt.value < REFRESH_COOLDOWN {
        return false;
      }
      stored := RefetchLocked(stamp, fetched);
    }
  }
}

/** The client-side cooldowns of `hub-rate-limit.ts`: one per rate-limit bucket of
    the Hub.  Requests run concurrently, so a response may arrive long after its
    bucket's cooldown changed; times are milliseconds on a clock that never goes
    back. */
module HubRateLimit {
  import opened Options

  const BASE_COOLDOWN_MS := 5_000.0
  const MAX_COOLDOWN_MS := 60_000.0
  const JITTER_RATIO := 0.25

  datatype Cooldown = Cooldown(until: real, consecutive429s: nat)

  type Key = string
  type Cooldowns = map<Key, Cooldown>

  datatype Status = Ok | TooManyRequests | Other

  // ----- One window

  function Pow2(n: nat): nat {
    if n == 0 then 1 else 2 * Pow2(n - 1)
  }

  function Max(a: real, b: real): real { if a >= b then a else b }

  function Min(a: real, b: real): real { if a <= b then a else b }

  function Backoff(attempt: nat): real
    requires attempt >= 1
  {
    BASE_COOLDOWN_MS * Pow2(attempt - 1) as real
  }

  function CooldownMs(attempt: nat, serverMs: Option<real>, random: real): real
    requires attempt >= 1
  {
    var server := if serverMs.Some? then serverMs.value else 0.0;
    Min(MAX_COOLDOWN_MS, Max(server, Backoff(attempt)) * (1.0 + random * JITTER_RATIO))
  }

  /** The part of the window no jitter draw takes away. */
  function LeastWindow(attempt: nat): real
    requires attempt >= 1
  {
    Min(MAX_COOLDOWN_MS, Backoff(attempt))
  }

  lemma {:induction false} Pow2Positive(n: nat)
    ensures Pow2(n) >= 1
  {
    if n > 0 { Pow2Positive(n - 1); }
  }

  /** Never sooner than the Hub asked or the backoff says, unless that exceeds the
      cap; never later than the cap. */
  lemma WindowBounds(attempt: nat, serverMs: Option<real>, random: real)
    requires attempt >= 1 && 0.0 <= random < 1.0
    ensures var server := if serverMs.Some? then serverMs.value else 0.0;
            Min(MAX_COOLDOWN_MS, Max(server, Backoff(attempt)))
            <= CooldownMs(attempt, serverMs, random) <= MAX_COOLDOWN_MS
    ensures LeastWindow(attempt) <= CooldownMs(attempt, serverMs, random)
    ensures LeastWindow(attempt) > 0.0
  {
    Pow2Positive(attempt - 1);
    var server := if serverMs.Some? then serverMs.value else 0.0;
    var wait := Max(server, Backoff(attempt));
    assert Pow2(attempt - 1) as real >= 1.0;
    assert Backoff(attempt) >= BASE_COOLDOWN_MS;
    assert random * JITTER_RATIO >= 0.0;
    Stretch(wait, random * JITTER_RATIO);
    assert CooldownMs(attempt, serverMs, random) == Min(MAX_COOLDOWN_MS, wait * (1.0 + random * JITTER_RATIO));
  }

  /** The window in numbers: the longer of what the Hub asks for and of 5 seconds doubled
      with every 429, stretched by up to a quarter, and one minute at most. */
  lemma WindowIs(attempt: nat, asked: real, random: real)
    requires attempt >= 1 && asked >= 0.0
    ensures var backoff := 5000.0 * Pow2(attempt - 1) as real;
      var wait := if asked > backoff then asked else backoff;
      var stretched := wait + wait * random / 4.0;
      && CooldownMs(attempt, Some(asked), random) == (if stretched < 60000.0 then stretched else 60000.0)
      && CooldownMs(attempt, None, random) == CooldownMs(attempt, Some(0.0), random)
  {
    Pow2Positive(attempt - 1);
    var backoff := 5000.0 * Pow2(attempt - 1) as real;
    var wait := if asked > backoff then asked else backoff;
    assert wait * (1.0 + random * 0.25) == wait + wait * random / 4.0;
  }

  /** The windows after the first 429s in a row, without jitter. */
  lemma FirstWindows()
    ensures CooldownMs(1, None, 0.0) == 5000.0 && CooldownMs(2, None, 0.0) == 10000.0
    ensures CooldownMs(3, None, 0.0) == 20000.0 && CooldownMs(4, None, 0.0) == 40000.0
    ensures CooldownMs(5, None, 0.0) == 60000.0 && CooldownMs(1, Some(7000.0), 0.5) == 7875.0
  {}

  lemma Stretch(x: real, f: real)
    requires x >= 0.0 && f >= 0.0
    ensures x <= x * (1.0 + f)
  {
    assert x * f >= 0.0;
  }

  // ----- The cooldown map

  function RemainingMs(cs: Cooldowns, key: Key, now: real): real {
    Max(0.0, (if key in cs then cs[key].until else 0.0) - now)
  }

  /** The time left to the end of the bucket's window, and none without one. */
  lemma TimeLeft(cs: Cooldowns, key: Key, now: real)
    requires now >= 0.0
    ensures RemainingMs(cs, key, now) == if key in cs && now < cs[key].until then cs[key].until - now else 0.0
  {}

  /** What a 429 does: it opens a window unless one is still running. */
  function Limited(cs: Cooldowns, key: Key, serverMs: Option<real>, random: real, now: real): Cooldowns {
    var cooldown := if key in cs then cs[key] else Cooldown(0.0, 0);
    if now >= cooldown.until then
      var n := cooldown.consecutive429s + 1;
      cs[key := Cooldown(now + CooldownMs(n, serverMs, random), n)]
    else cs
  }

  function Responded(cs: Cooldowns, key: Key, status: Status, serverMs: Option<real>, random: real, now: real)
    : Cooldowns
  {
    match status
    case TooManyRequests => Limited(cs, key, serverMs, random, now)
    case Ok => if RemainingMs(cs, key, now) == 0.0 then cs - {key} else cs
    case Other => cs
  }

  class HubCooldowns {
    var cooldowns: Cooldowns

    constructor ()
      ensures cooldowns == map[]
    {
      cooldowns := map[];
    }

    /** The gate: `None` lets the call reach the network, otherwise it fails with
        the time that is left. */
    method Gate(key: Key, now: real) returns (refused: Option<real>)
      ensures refused == if RemainingMs(cooldowns, key, now) > 0.0
                         then Some(RemainingMs(cooldowns, key, now)) else None
    {
      var remaining := RemainingMs(cooldowns, key, now);
      if remaining > 0.0 {
        return Some(remaining);
      }
      return None;
    }

    method NoteRateLimited(key: Key, serverMs: Option<real>, random: real, now: real) returns (retryAfterMs: real)
      requires 0.0 <= random < 1.0 && now >= 0.0
      modifies this
      ensures cooldowns == Limited(old(cooldowns), key, serverMs, random, now)
      ensures key in cooldowns && retryAfterMs == cooldowns[key].until - now > 0.0
    {
      var cooldown := if key in cooldowns then cooldowns[key] else Cooldown(0.0, 0);
      if now >= cooldown.until {
        var n := cooldown.consecutive429s + 1;
        WindowBounds(n, serverMs, random);
        cooldown := Cooldown(now + CooldownMs(n, serverMs, random), n);
        cooldowns := cooldowns[key := cooldown];
      }
      return cooldown.until - now;
    }

    method Settle(key: Key, status: Status, serverMs: Option<real>, random: real, now: real)
      returns (failed: Option<real>)
      requires 0.0 <= random < 1.0 && now >= 0.0
      modifies this
      ensures cooldowns == Responded(old(cooldowns), key, status, serverMs, random, now)
      ensures failed.Some? <==> status.TooManyRequests?
      ensures failed.Some? ==> failed == Some(RemainingMs(cooldowns, key, now)) && failed.value > 0.0
    {
      failed := None;
      if status.TooManyRequests? {
        var retryAfterMs := NoteRateLimited(key, serverMs, random, now);
        return Some(retryAfterMs);
      }
      if status.Ok? && RemainingMs(cooldowns, key, now) == 0.0 {
        cooldowns := cooldowns - {key};
      }
    }

    /** The longest cooldown left on any bucket of `group`. */
    method RemainingOf(group: RouteGroup, now: real) returns (longest: real)
      ensures longest >= 0.0
      ensures forall key :: key in cooldowns && OfGroup(key, group) ==> RemainingMs(cooldowns, key, now) <= longest
      ensures longest > 0.0 ==>
                exists key :: key in cooldowns && OfGroup(key, group) && RemainingMs(cooldowns, key, now) == longest
    {
      longest := 0.0;
      var keys := cooldowns.Keys;
      while keys != {}
        invariant keys <= cooldowns.Keys && longest >= 0.0
        invariant forall key :: key in cooldowns && key !in keys && OfGroup(key, group)
                                ==> RemainingMs(cooldowns, key, now) <= longest
        invariant longest > 0.0 ==>
                    exists key :: key in cooldowns && OfGroup(key, group) && RemainingMs(cooldowns, key, now) == longest
        decreases |keys|
      {
        var key :| key in keys;
        keys := keys - {key};
        if OfGroup(key, group) {
          longest := Max(longest, RemainingMs(cooldowns, key, now));
        }
      }
    }
  }

  // ----- Buckets

  datatype RouteGroup = Global | Auth | Recovery | Indexer | Send

  function Name(group: RouteGroup): string {
    match group
    case Global => "global"
    case Auth => "auth"
    case Recovery => "recovery"
    case Indexer => "indexer"
    case Send => "send"
  }

  /** Auth and recovery are limited per route, the other groups as a whole. */
  function KeyOf(group: RouteGroup, path: string): Key {
    if group.Auth? || group.Recovery? then Name(group) + ":" + path else Name(group)
  }

  predicate OfGroup(key: Key, group: RouteGroup) {
    key == Name(group) || Name(group) + ":" <= key
  }

  /** A request's bucket is counted for its own group and for no other, whatever
      its path. */
  lemma BucketsOfGroup(group: RouteGroup, path: string, other: RouteGroup)
    ensures OfGroup(KeyOf(group, path), other) <==> group == other
  {
    var key := KeyOf(group, path);
    assert key[0] == Name(group)[0];
    if OfGroup(key, other) {
      assert key[0] == Name(other)[0];
    }
    if group == other && (group.Auth? || group.Recovery?) {
      assert key[..|Name(group) + ":"|] == Name(group) + ":";
    }
  }

  lemma BucketNames(path: string)
    ensures KeyOf(Send, path) == "send" && KeyOf(Indexer, path) == "indexer" && KeyOf(Global, path) == "global"
    ensures KeyOf(Auth, path) == "auth:" + path && KeyOf(Recovery, path) == "recovery:" + path
  {
    assert "auth" + ":" == "auth:" && "recovery" + ":" == "recovery:";
  }

  // ----- Runs

  /** A call is started on a bucket, or the response to an earlier one arrives. */
  datatype Event =
    | Started(key: Key, now: real)
    | Arrived(key: Key, now: real, status: Status, serverMs: Option<real>, random: real)

  function After(cs: Cooldowns, e: Event): Cooldowns {
    match e
    case Started(_, _) => cs
    case Arrived(key, now, status, serverMs, random) => Responded(cs, key, status, serverMs, random, now)
  }

  function Run(cs: Cooldowns, events: seq<Event>): Cooldowns {
    if events == [] then cs else After(Run(cs, events[..|events| - 1]), events[|events| - 1])
  }

  /** Times do not go back and jitter draws come from [0, 1). */
  ghost predicate Plausible(events: seq<Event>) {
    && (forall i :: 0 <= i < |events| ==> events[i].now >= 0.0)
    && (forall i, j :: 0 <= i < j < |events| ==> events[i].now <= events[j].now)
    && (forall i :: 0 <= i < |events| && events[i].Arrived? ==> 0.0 <= events[i].random < 1.0)
  }

  /** While a bucket's window runs nothing that arrives changes it, and no call on
      that bucket reaches the network. */
  lemma {:induction false} CooldownHolds(cs: Cooldowns, key: Key, events: seq<Event>)
    requires key in cs
    requires forall i :: 0 <= i < |events| && events[i].key == key ==> events[i].now < cs[key].until
    ensures key in Run(cs, events) && Run(cs, events)[key] == cs[key]
    ensures forall i :: 0 <= i < |events| && events[i].Started? && events[i].key == key
                        ==> RemainingMs(Run(cs, events[..i]), key, events[i].now) > 0.0
  {
    if events != [] {
      var before := events[..|events| - 1];
      CooldownHolds(cs, key, before);
      forall i | 0 <= i < |events| && events[i].Started? && events[i].key == key
        ensures RemainingMs(Run(cs, events[..i]), key, events[i].now) > 0.0
      {
        if i < |before| {
          assert before[i] == events[i] && before[..i] == events[..i];
        }
      }
    }
  }

  function Lookup(cs: Cooldowns, key: Key): Option<Cooldown> {
    if key in cs then Some(cs[key]) else None
  }

  function OnKey(events: seq<Event>, key: Key): seq<Event> {
    if events == [] then []
    else
      var rest := OnKey(events[..|events| - 1], key);
      var last := events[|events| - 1];
      if last.key == key then rest + [last] else rest
  }

  /** Buckets are independent: what happens on the others never matters. */
  lemma {:induction false} BucketsIndependent(cs: Cooldowns, key: Key, events: seq<Event>)
    ensures Lookup(Run(cs, events), key) == Lookup(Run(cs, OnKey(events, key)), key)
  {
    if events != [] {
      var before, last := events[..|events| - 1], events[|events| - 1];
      BucketsIndependent(cs, key, before);
      if last.key == key {
        var mine := OnKey(before, key);
        assert (mine + [last])[..|mine|] == mine;
        SameBucketSameStep(Run(cs, before), Run(cs, mine), last);
      } else {
        OtherBucketUntouched(Run(cs, before), last, key);
      }
    }
  }

  lemma OtherBucketUntouched(cs: Cooldowns, e: Event, key: Key)
    requires e.key != key
    ensures Lookup(After(cs, e), key) == Lookup(cs, key)
  {}

  lemma SameBucketSameStep(a: Cooldowns, b: Cooldowns, e: Event)
    requires Lookup(a, e.key) == Lookup(b, e.key)
    ensures Lookup(After(a, e), e.key) == Lookup(After(b, e), e.key)
  {}

  // ----- When the backoff grows and when it starts again

  /** On `key` nothing but calls started and responses that are neither ok nor 429. */
  ghost predicate Quiet(events: seq<Event>, key: Key) {
    forall i :: 0 <= i < |events| && events[i].key == key ==> events[i].Started? || events[i].status.Other?
  }

  lemma {:induction false} QuietRun(cs: Cooldowns, events: seq<Event>, key: Key)
    requires Quiet(events, key)
    ensures Lookup(Run(cs, events), key) == Lookup(cs, key)
  {
    if events != [] {
      var before, last := events[..|events| - 1], events[|events| - 1];
      QuietRun(cs, before, key);
      if last.key != key {
        OtherBucketUntouched(Run(cs, before), last, key);
      }
    }
  }

  /** Whatever quiet events came since, a 429 after a window's end opens the next,
      longer one; a 429 before its end changes nothing. */
  lemma BackoffGrows(cs: Cooldowns, quiet: seq<Event>, e: Event)
    requires e.Arrived? && e.status.TooManyRequests? && e.key in cs && Quiet(quiet, e.key)
    ensures var was := cs[e.key]; var n := was.consecutive429s + 1;
            Lookup(Run(cs, quiet + [e]), e.key) ==
            Some(if e.now >= was.until then Cooldown(e.now + CooldownMs(n, e.serverMs, e.random), n) else was)
  {
    QuietRun(cs, quiet, e.key);
    assert (quiet + [e])[..|quiet|] == quiet;
  }

  /** A success after a window's end forgets the bucket: the next 429 starts again with
      the first window.  A success before its end does not. */
  lemma BackoffRestarts(cs: Cooldowns, ok: Event, quiet: seq<Event>, e: Event)
    requires ok.Arrived? && ok.status.Ok? && e.Arrived? && e.status.TooManyRequests? && ok.key == e.key
    requires Quiet(quiet, e.key) && 0.0 <= ok.now <= e.now
    ensures RemainingMs(cs, e.key, ok.now) == 0.0 ==>
              Lookup(Run(cs, [ok] + quiet + [e]), e.key) ==
              Some(Cooldown(e.now + CooldownMs(1, e.serverMs, e.random), 1))
    ensures RemainingMs(cs, e.key, ok.now) > 0.0 ==>
              Lookup(Run(cs, [ok] + quiet + [e]), e.key) == Lookup(Run(cs, quiet + [e]), e.key)
  {
    RunFirst(cs, ok, quiet + [e]);
    assert [ok] + quiet + [e] == [ok] + (quiet + [e]);
    assert (quiet + [e])[..|quiet|] == quiet;
    QuietRun(After(cs, ok), quiet, e.key);
    QuietRun(cs, quiet, e.key);
  }

  lemma {:induction false} RunFirst(cs: Cooldowns, e: Event, events: seq<Event>)
    ensures Run(cs, [e] + events) == Run(After(cs, e), events)
  {
    var all := [e] + events;
    if events == [] {
      assert all[..0] == [];
    } else {
      assert all[..|all| - 1] == [e] + events[..|events| - 1];
      RunFirst(cs, e, events[..|events| - 1]);
    }
  }

  // ----- How long a bucket with a given count has been limited

  /** The time of the first 429 since the bucket was last reset, if it is limited. */
  function FirstLimited(events: seq<Event>, key: Key): Option<real> {
    if events == [] then None
    else
      var before, e := events[..|events| - 1], events[|events| - 1];
      var cs := Run(map[], before);
      if key !in After(cs, e) then None
      else if key !in cs then Some(e.now)
      else FirstLimited(before, key)
  }

  /** The sum of the least windows 1 to `n`. */
  function LeastTotal(n: nat): real {
    if n == 0 then 0.0 else LeastTotal(n - 1) + LeastWindow(n)
  }

  /** With the count at `n`, the windows 1 to n-1 have run to their end since the
      first 429 after the last reset, and the n-th is accounted for by its end
      time, which is at most a minute after the last event. */
  lemma {:induction false} CountTakesTime(events: seq<Event>, key: Key)
    requires Plausible(events) && key in Run(map[], events)
    ensures FirstLimited(events, key).Some?
    ensures var c := Run(map[], events)[key]; var first := FirstLimited(events, key).value;
            && c.consecutive429s >= 1 && events != []
            && first + LeastTotal(c.consecutive429s - 1) <= events[|events| - 1].now
            && first + LeastTotal(c.consecutive429s) <= c.until <= events[|events| - 1].now + MAX_COOLDOWN_MS
  {
    hide CooldownMs, LeastWindow;
    var before, e := events[..|events| - 1], events[|events| - 1];
    var cs := Run(map[], before);
    if key in cs {
      CountTakesTime(before, key);
      assert before[|before| - 1].now <= e.now;
    }
    if e.Arrived? && e.key == key && e.status.TooManyRequests? {
      var n := (if key in cs then cs[key].consecutive429s else 0) + 1;
      WindowBounds(n, e.serverMs, e.random);
      assert LeastTotal(n) == LeastTotal(n - 1) + LeastWindow(n);
    } else if key !in cs {
      OtherEventKeepsAbsent(cs, e, key);
    }
  }

  lemma OtherEventKeepsAbsent(cs: Cooldowns, e: Event, key: Key)
    requires key !in cs && !(e.Arrived? && e.key == key && e.status.TooManyRequests?)
    ensures key !in After(cs, e)
  {}
}

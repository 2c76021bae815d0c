/**
 The cached preflight checks: a verdict is probed for, kept in Redis for a while, and served from
 there. One check is taken to be instantaneous; between checks time passes, and any number of
 workers share the cache.
 */
module Preflight {
  import opened Wrappers

  const QUEUE_PREFIX := "cli_orchestrator:preflight:temporal_queue:"
  const CLOUD_PREFIX := "cli_orchestrator:preflight:cloud_api:"
  const MAX_AGE: real := 60.0

  datatype Verdict = Ok | ProviderUnavailable | ApiDisabled

  /** A Redis value and the time at which it expires. */
  datatype Cached = Cached(value: string, until: real)

  /** A look at a queue's heartbeat: when, and the time stamp found, if there was a readable one. */
  datatype Beat = Beat(queue: string, at: real, lastSeen: Option<real>)

  /** A probe of a tenant's cloud API; one that raised counts as not enabled. */
  datatype Probe = Probe(tenant: string, platform: Platform, at: real, enabled: bool)

  function QueueKey(queue: string): string {
    QUEUE_PREFIX + queue
  }

  function CloudKey(tenant: string, platform: string): string {
    CLOUD_PREFIX + tenant + ":" + platform
  }

  predicate Fresh(b: Beat) {
    b.lastSeen.Some? && 0.0 <= b.at - b.lastSeen.value <= MAX_AGE
  }

  function Flag(ok: bool): string {
    if ok then "1" else "0"
  }

  predicate BeatWrote(b: Beat, ttl: nat, key: string, c: Cached) {
    key == QueueKey(b.queue) && c == Cached(Flag(Fresh(b)), b.at + ttl as real)
  }

  predicate ProbeWrote(p: Probe, ttl: nat, key: string, c: Cached) {
    key == CloudKey(p.tenant, p.platform) && c == Cached(Flag(p.enabled), p.at + ttl as real)
  }

  /** Queue verdicts and cloud verdicts never share a key. */
  lemma KeysApart(queue: string, tenant: string, platform: string)
    ensures QueueKey(queue) != CloudKey(tenant, platform)
  {
    var k := |"cli_orchestrator:preflight:"|;
    assert QueueKey(queue)[k] == 't' && CloudKey(tenant, platform)[k] == 'c';
  }

  predicate ColonFree(s: string) {
    forall i :: 0 <= i < |s| ==> s[i] != ':'
  }

  /** The rest of the longer tenant id and the shorter one's platform overlap around a colon. */
  predicate Overlaps(t1: string, p1: string, t2: string, p2: string) {
    && |t1| < |t2| && |p2| < |p1|
    && t2[..|t1|] == t1 && t2[|t1|] == ':'
    && p1 == t2[|t1| + 1..] + ":" + p2
  }

  lemma KeyTails(t1: string, p1: string, t2: string, p2: string)
    ensures CloudKey(t1, p1) == CloudKey(t2, p2) <==> t1 + ":" + p1 == t2 + ":" + p2
  {
    var n := |CLOUD_PREFIX|;
    assert CloudKey(t1, p1)[n..] == t1 + ":" + p1 && CloudKey(t2, p2)[n..] == t2 + ":" + p2;
    assert CloudKey(t1, p1) == CLOUD_PREFIX + (t1 + ":" + p1) && CloudKey(t2, p2) == CLOUD_PREFIX + (t2 + ":" + p2);
  }

  lemma SameLengthKeys(t1: string, p1: string, t2: string, p2: string)
    requires |t1| == |t2|
    ensures CloudKey(t1, p1) == CloudKey(t2, p2) <==> t1 == t2 && p1 == p2
  {
    KeyTails(t1, p1, t2, p2);
    var s, t := t1 + ":" + p1, t2 + ":" + p2;
    assert s[..|t1|] == t1 && t[..|t2|] == t2 && s[|t1| + 1..] == p1 && t[|t2| + 1..] == p2;
  }

  lemma ShorterTenantKeys(t1: string, p1: string, t2: string, p2: string)
    requires |t1| < |t2|
    ensures CloudKey(t1, p1) == CloudKey(t2, p2) <==> Overlaps(t1, p1, t2, p2)
  {
    KeyTails(t1, p1, t2, p2);
    var s, t := t1 + ":" + p1, t2 + ":" + p2;
    var m := t2[|t1| + 1..];
    assert t2 == t2[..|t1|] + [t2[|t1|]] + m;
    assert s[..|t1|] == t1 && s[|t1|] == ':' && s[|t1| + 1..] == p1;
    assert t[..|t1|] == t2[..|t1|] && t[|t1|] == t2[|t1|] && t[|t1| + 1..] == m + ":" + p2;
    assert s == s[..|t1|] + [s[|t1|]] + s[|t1| + 1..];
    assert t == t[..|t1|] + [t[|t1|]] + t[|t1| + 1..];
  }

  /**
   Two verdicts share a key exactly when tenant and platform are the same, or when one tenant id
   continues the other after a colon and the platform names make up for it.
   */
  lemma CloudKeysClashExactly(t1: string, p1: string, t2: string, p2: string)
    ensures CloudKey(t1, p1) == CloudKey(t2, p2) <==>
      (t1 == t2 && p1 == p2) || Overlaps(t1, p1, t2, p2) || Overlaps(t2, p2, t1, p1)
  {
    if |t1| == |t2| {
      SameLengthKeys(t1, p1, t2, p2);
    } else if |t1| < |t2| {
      ShorterTenantKeys(t1, p1, t2, p2);
    } else {
      ShorterTenantKeys(t2, p2, t1, p1);
    }
  }

  /** The name of a command-line platform, such as `claude_code`: it holds no colon. */
  type Platform = s: string | ColonFree(s) witness ""

  /** For platform names the keys are distinct, whatever the tenant ids are. */
  lemma PlatformKeysAreDistinct(t1: string, p1: Platform, t2: string, p2: Platform)
    ensures CloudKey(t1, p1) == CloudKey(t2, p2) <==> t1 == t2 && p1 == p2
  {
    CloudKeysClashExactly(t1, p1, t2, p2);
    NoOverlap(t1, p1, t2, p2);
    NoOverlap(t2, p2, t1, p1);
  }

  lemma NoOverlap(t1: string, p1: string, t2: string, p2: string)
    ensures Overlaps(t1, p1, t2, p2) ==> !ColonFree(p1) && !ColonFree(t2)
  {
    if Overlaps(t1, p1, t2, p2) {
      assert p1[|t2| - |t1| - 1] == ':' && t2[|t1|] == ':';
    }
  }

  /** So are they for tenant ids without colons, whatever the platform names are. */
  lemma CloudKeysAreDistinct(t1: string, p1: string, t2: string, p2: string)
    requires ColonFree(t1) && ColonFree(t2)
    ensures CloudKey(t1, p1) == CloudKey(t2, p2) <==> t1 == t2 && p1 == p2
  {
    CloudKeysClashExactly(t1, p1, t2, p2);
    NoOverlap(t1, p1, t2, p2);
    NoOverlap(t2, p2, t1, p1);
  }

  /** With a colon in both a tenant id and a platform name two tenants would share a verdict. */
  lemma ColonsClash(a: string, b: string, c: string)
    ensures Overlaps(a, b + ":" + c, a + ":" + b, c) && CloudKey(a + ":" + b, c) == CloudKey(a, b + ":" + c)
  {
    CloudKeysClashExactly(a, b + ":" + c, a + ":" + b, c);
    assert (a + ":" + b)[|a| + 1..] == b;
  }

  class Checks {
    const queueTtl: nat
    const cloudTtl: nat
    var now: real
    var redis: map<string, Cached>
    ghost var beats: seq<Beat>
    ghost var probes: seq<Probe>

    constructor (queueTtl: nat, cloudTtl: nat, now: real)
      requires queueTtl > 0 && cloudTtl > 0
      ensures Valid() && this.queueTtl == queueTtl && this.cloudTtl == cloudTtl && this.now == now
    {
      this.queueTtl, this.cloudTtl, this.now := queueTtl, cloudTtl, now;
      redis, beats, probes := map[], [], [];
    }

    /** Every flag in the cache was written by a check, with that check's verdict. */
    ghost predicate Valid()
      reads this
    {
      && queueTtl > 0 && cloudTtl > 0
      && (forall i :: 0 <= i < |beats| ==> beats[i].at <= now)
      && (forall i :: 0 <= i < |probes| ==> probes[i].at <= now)
      && (forall key :: key in redis && redis[key].value in {"0", "1"} ==>
            || (exists i :: 0 <= i < |beats| && BeatWrote(beats[i], queueTtl, key, redis[key]))
            || (exists i :: 0 <= i < |probes| && ProbeWrote(probes[i], cloudTtl, key, redis[key])))
    }

    /** Time passes. */
    method Pass(seconds: real)
      requires Valid() && seconds >= 0.0
      modifies this`now
      ensures Valid() && now == old(now) + seconds
    {
      now := now + seconds;
    }

    /** Somebody else writes, but neither of the two flags. */
    method Disturb(key: string, c: Cached)
      requires Valid() && c.value !in {"0", "1"}
      modifies this`redis
      ensures Valid() && redis == old(redis)[key := c]
    {
      redis := redis[key := c];
    }

    /** A read of the cache; it may fail, which counts as a miss. */
    function Get(key: string, fails: bool): Option<string>
      reads this
    {
      if !fails && key in redis && now < redis[key].until then Some(redis[key].value) else None
    }

    /** There is a live verdict to serve. */
    predicate Hit(key: string, fails: bool)
      reads this
    {
      Get(key, fails) == Some("0") || Get(key, fails) == Some("1")
    }

    method Setex(key: string, ttl: nat, value: string, fails: bool)
      modifies this`redis
      ensures redis == if fails then old(redis) else old(redis)[key := Cached(value, now + ttl as real)]
    {
      if !fails {
        redis := redis[key := Cached(value, now + ttl as real)];
      }
    }

    /** The cache serves this flag for the key now. */
    predicate Serves(key: string, flag: string)
      reads this
    {
      key in redis && now < redis[key].until && redis[key].value == flag
    }

    /** A heartbeat look that supports a verdict given now. */
    ghost predicate Supports(b: Beat, queue: string, verdict: Verdict)
      reads this
    {
      b.queue == queue && b.at <= now < b.at + queueTtl as real && (verdict == Ok <==> Fresh(b))
    }

    /** The queue had a heartbeat at most the permitted age and the ttl ago. */
    ghost predicate SeenAlive(b: Beat, queue: string)
      reads this
    {
      b.queue == queue && b.lastSeen.Some? && 0.0 <= now - b.lastSeen.value <= 60.0 + queueTtl as real
    }

    /**
     Whatever fails: the verdict is that of a look at this queue's heartbeat no older than the ttl,
     so an OK verdict means a heartbeat at most 60 seconds plus the ttl old. A look is taken now
     exactly when there is no readable verdict; the verdict is then its own, and is kept for the ttl
     if it can be.
     */
    method CheckTemporalQueueReachable(queue: string, getFails: bool, setFails: bool, lastSeen: Option<real>)
      returns (verdict: Verdict, probed: bool)
      requires Valid()
      modifies this`redis, this`beats
      ensures Valid()
      ensures
        var key := "cli_orchestrator:preflight:temporal_queue:" + queue;
        && (probed <==> getFails || !(old(Serves(key, "0")) || old(Serves(key, "1"))))
        && (!probed ==> (verdict == Ok <==> old(Serves(key, "1"))))
        && redis == if !probed || setFails then old(redis)
                    else old(redis)[key := Cached(if verdict == Ok then "1" else "0", now + queueTtl as real)]
      ensures beats == if probed then old(beats) + [Beat(queue, now, lastSeen)] else old(beats)
      ensures probed ==> (verdict == Ok <==> lastSeen.Some? && 0.0 <= now - lastSeen.value <= 60.0)
      ensures exists i :: 0 <= i < |beats| && Supports(beats[i], queue, verdict)
      ensures verdict == Ok ==> exists i :: 0 <= i < |beats| && SeenAlive(beats[i], queue)
      ensures verdict in {Ok, ProviderUnavailable}
    {
      var key := QueueKey(queue);
      var cached := Get(key, getFails);
      if cached == Some("1") || cached == Some("0") {
        verdict, probed := if cached == Some("1") then Ok else ProviderUnavailable, false;
        ghost var i := BeatBehind(queue);
        assert Supports(beats[i], queue, verdict);
        assert verdict == Ok ==> SeenAlive(beats[i], queue);
        return;
      }
      ghost var beat := Beat(queue, now, lastSeen);
      var recent := false;
      if lastSeen.Some? {
        var age := now - lastSeen.value;
        recent := 0.0 <= age <= 60.0;
      }
      ghost var before := beats;
      beats := beats + [beat];
      assert forall i :: 0 <= i < |before| ==> beats[i] == before[i];
      assert beats[|before|] == beat && BeatWrote(beat, queueTtl, key, Cached(Flag(recent), now + queueTtl as real));
      Setex(key, queueTtl, Flag(recent), setFails);
      verdict, probed := if recent then Ok else ProviderUnavailable, true;
      assert Supports(beats[|before|], queue, verdict);
      assert verdict == Ok ==> SeenAlive(beats[|before|], queue);
    }

    lemma BeatBehind(queue: string) returns (i: nat)
      requires Valid() && Hit(QueueKey(queue), false)
      ensures i < |beats| && beats[i].queue == queue && beats[i].at <= now < beats[i].at + queueTtl as real
      ensures redis[QueueKey(queue)].value == Flag(Fresh(beats[i]))
    {
      var key := QueueKey(queue);
      forall p: Probe ensures !ProbeWrote(p, cloudTtl, key, redis[key]) {
        KeysApart(queue, p.tenant, p.platform);
      }
      i :| 0 <= i < |beats| && BeatWrote(beats[i], queueTtl, key, redis[key]);
      assert QueueKey(queue)[|QUEUE_PREFIX|..] == queue;
      assert QueueKey(beats[i].queue)[|QUEUE_PREFIX|..] == beats[i].queue;
    }

    /** A probe that supports a verdict given now: of the same tenant and platform, and recent enough. */
    ghost predicate Backs(p: Probe, tenant: string, platform: Platform, verdict: Verdict)
      reads this
    {
      && p.tenant == tenant && p.platform == platform
      && p.at <= now < p.at + cloudTtl as real && (verdict == Ok <==> p.enabled)
    }

    /**
     Whatever fails: the verdict is that of a probe of this tenant and platform no older than the ttl.
     A probe is made exactly when there is no readable verdict, and its verdict is kept for the ttl
     if it can be.
     */
    method CheckCloudApiEnabled(tenant: string, platform: Platform, getFails: bool, setFails: bool, enabled: bool)
      returns (verdict: Verdict, probed: bool)
      requires Valid()
      modifies this`redis, this`probes
      ensures Valid()
      ensures
        var key := "cli_orchestrator:preflight:cloud_api:" + tenant + ":" + platform;
        && (probed <==> getFails || !(old(Serves(key, "0")) || old(Serves(key, "1"))))
        && (!probed ==> (verdict == Ok <==> old(Serves(key, "1"))))
        && redis == if !probed || setFails then old(redis)
                    else old(redis)[key := Cached(if verdict == Ok then "1" else "0", now + cloudTtl as real)]
      ensures probes == if probed then old(probes) + [Probe(tenant, platform, now, enabled)] else old(probes)
      ensures probed ==> (verdict == Ok <==> enabled)
      ensures exists i :: 0 <= i < |probes| && Backs(probes[i], tenant, platform, verdict)
      ensures verdict in {Ok, ApiDisabled}
    {
      var key := CloudKey(tenant, platform);
      var cached := Get(key, getFails);
      if cached == Some("1") || cached == Some("0") {
        verdict, probed := if cached == Some("1") then Ok else ApiDisabled, false;
        ghost var i := ProbeBehind(tenant, platform);
        assert Backs(probes[i], tenant, platform, verdict);
        return;
      }
      ghost var probe := Probe(tenant, platform, now, enabled);
      ghost var before := probes;
      probes := probes + [probe];
      assert forall i :: 0 <= i < |before| ==> probes[i] == before[i];
      assert probes[|before|] == probe && ProbeWrote(probe, cloudTtl, key, Cached(Flag(enabled), now + cloudTtl as real));
      Setex(key, cloudTtl, Flag(enabled), setFails);
      verdict, probed := if enabled then Ok else ApiDisabled, true;
      assert Backs(probes[|before|], tenant, platform, verdict);
    }

    lemma ProbeBehind(tenant: string, platform: Platform) returns (i: nat)
      requires Valid() && Hit(CloudKey(tenant, platform), false)
      ensures i < |probes| && probes[i].at <= now < probes[i].at + cloudTtl as real
      ensures probes[i].tenant == tenant && probes[i].platform == platform
      ensures redis[CloudKey(tenant, platform)].value == Flag(probes[i].enabled)
    {
      var key := CloudKey(tenant, platform);
      forall b: Beat ensures !BeatWrote(b, queueTtl, key, redis[key]) {
        KeysApart(b.queue, tenant, platform);
      }
      i :| 0 <= i < |probes| && ProbeWrote(probes[i], cloudTtl, key, redis[key]);
      PlatformKeysAreDistinct(probes[i].tenant, probes[i].platform, tenant, platform);
    }
  }
}

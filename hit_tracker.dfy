/**
 * The per-client hit statistics that the key generator keeps: one record per
 * normalised address, never removed, whose total always equals the sum of its
 * per-path counts.
 */
module HitTracking {
  import opened Wrappers
  import opened RateLimit

  /** Statistics for one client key; timestamps are plain integers. */
  datatype HitCountData = HitCountData(
    count: nat,
    firstHit: int,
    lastHit: int,
    pathCounts: map<string, nat>)

  /** `pathCounts[path] || 0`: the hits recorded on `path`, zero when absent. */
  function PathCount(pathCounts: map<string, nat>, path: string): (n: nat)
    ensures path !in pathCounts ==> n == 0
    ensures path in pathCounts ==> n == pathCounts[path]
  {
    if path in pathCounts then pathCounts[path] else 0
  }

  /** The total recorded for `ip`, zero for an unseen key. */
  function CountOf(m: map<string, HitCountData>, ip: string): nat
  {
    if ip in m then m[ip].count else 0
  }

  /** The per-path counts recorded for `ip`, empty for an unseen key. */
  function PathsOf(m: map<string, HitCountData>, ip: string): map<string, nat>
  {
    if ip in m then m[ip].pathCounts else map[]
  }

  ghost function PickPath(pathCounts: map<string, nat>): (p: string)
    requires pathCounts != map[]
    ensures p in pathCounts
  {
    var p :| p in pathCounts; p
  }

  /** The sum of all per-path counts. */
  ghost function PathTotal(pathCounts: map<string, nat>): nat
    decreases |pathCounts|
  {
    if pathCounts == map[] then 0
    else
      var p := PickPath(pathCounts);
      assert |pathCounts - {p}| < |pathCounts| by {
        assert pathCounts.Keys - {p} < pathCounts.Keys;
      }
      pathCounts[p] + PathTotal(pathCounts - {p})
  }

  /** A record's total is at least one and equals the sum of its per-path counts. */
  ghost predicate RecordValid(d: HitCountData)
  {
    d.count >= 1 && d.count == PathTotal(d.pathCounts)
  }

  ghost predicate TrackerValid(m: map<string, HitCountData>)
  {
    forall ip :: ip in m ==> RecordValid(m[ip])
  }

  /** The sum can be taken by removing any one path first. */
  lemma {:induction false} PathTotalRemove(pathCounts: map<string, nat>, p: string)
    requires p in pathCounts
    ensures PathTotal(pathCounts) == pathCounts[p] + PathTotal(pathCounts - {p})
    decreases |pathCounts|
  {
    var q := PickPath(pathCounts);
    if q != p {
      var rest := pathCounts - {q};
      assert |rest| < |pathCounts| by { assert rest.Keys < pathCounts.Keys; }
      PathTotalRemove(rest, p);
      var rest' := pathCounts - {p};
      assert |rest'| < |pathCounts| by { assert rest'.Keys < pathCounts.Keys; }
      PathTotalRemove(rest', q);
      assert rest - {p} == rest' - {q};
    }
  }

  /** Counting one more hit on `path` adds exactly one to the sum. */
  lemma PathTotalIncrement(pathCounts: map<string, nat>, path: string)
    ensures PathTotal(pathCounts[path := PathCount(pathCounts, path) + 1]) == PathTotal(pathCounts) + 1
  {
    var updated := pathCounts[path := PathCount(pathCounts, path) + 1];
    PathTotalRemove(updated, path);
    if path in pathCounts {
      PathTotalRemove(pathCounts, path);
      assert updated - {path} == pathCounts - {path};
    } else {
      assert updated - {path} == pathCounts;
    }
  }

  /**
   * The statistics after one counted hit on `path` from key `ip` at time `now`:
   * the key gains a record if it had none, its total and the count of `path`
   * grow by one, `lastHit` becomes `now`, and nothing else changes.
   */
  function AfterHit(m: map<string, HitCountData>, ip: string, path: string, now: int)
    : (m': map<string, HitCountData>)
    ensures m'.Keys == m.Keys + {ip}
    ensures forall k :: k in m && k != ip ==> m'[k] == m[k]
    ensures CountOf(m', ip) == CountOf(m, ip) + 1
    ensures m'[ip].firstHit == (if ip in m then m[ip].firstHit else now)
    ensures m'[ip].lastHit == now
    ensures m'[ip].pathCounts.Keys == PathsOf(m, ip).Keys + {path}
    ensures PathCount(m'[ip].pathCounts, path) == PathCount(PathsOf(m, ip), path) + 1
    ensures forall p :: p != path ==> PathCount(m'[ip].pathCounts, p) == PathCount(PathsOf(m, ip), p)
  {
    if ip !in m then
      m[ip := HitCountData(1, now, now, map[path := 1])]
    else
      var d := m[ip];
      m[ip := d.(count := d.count + 1,
                 lastHit := now,
                 pathCounts := d.pathCounts[path := PathCount(d.pathCounts, path) + 1])]
  }

  /** A hit keeps every record's total equal to the sum of its per-path counts. */
  lemma AfterHitValid(m: map<string, HitCountData>, ip: string, path: string, now: int)
    requires TrackerValid(m)
    ensures TrackerValid(AfterHit(m, ip, path, now))
  {
    var m' := AfterHit(m, ip, path, now);
    PathTotalIncrement(PathsOf(m, ip), path);
    if ip !in m {
      assert map[][path := 0 + 1] == map[path := 1];
    }
    assert RecordValid(m'[ip]);
  }

  /** One request as seen by the limiter: its address, path and arrival time. */
  datatype HitEvent = HitEvent(ip: Option<string>, path: string, now: int)

  /** The limiter's treatment of one request: trusted ones leave the statistics alone. */
  function Step(m: map<string, HitCountData>, e: HitEvent): (m': map<string, HitCountData>)
    ensures Skip(e.ip) ==> m' == m
    ensures !Skip(e.ip) ==> m' == AfterHit(m, KeyOf(e.ip), e.path, e.now)
  {
    if Skip(e.ip) then m else AfterHit(m, KeyOf(e.ip), e.path, e.now)
  }

  /** The statistics after a sequence of requests, in arrival order. */
  function Replay(m: map<string, HitCountData>, events: seq<HitEvent>): (m': map<string, HitCountData>)
    decreases |events|
  {
    if events == [] then m else Replay(Step(m, events[0]), events[1..])
  }

  /** How many of `events` are counted under `key`. */
  function CountedFor(events: seq<HitEvent>, key: string): (n: nat)
    decreases |events|
  {
    if events == [] then 0
    else (if !Skip(events[0].ip) && KeyOf(events[0].ip) == key then 1 else 0)
         + CountedFor(events[1..], key)
  }

  /** How many of `events` are counted under `key` on `path`. */
  function CountedOn(events: seq<HitEvent>, key: string, path: string): (n: nat)
    decreases |events|
  {
    if events == [] then 0
    else (if !Skip(events[0].ip) && KeyOf(events[0].ip) == key && events[0].path == path then 1 else 0)
         + CountedOn(events[1..], key, path)
  }

  /** No record is removed, no total shrinks, and a record's first hit never moves. */
  ghost predicate Grows(m: map<string, HitCountData>, m': map<string, HitCountData>)
  {
    forall ip :: ip in m ==>
      && ip in m'
      && m[ip].count <= m'[ip].count
      && m'[ip].firstHit == m[ip].firstHit
      && forall p :: p in m[ip].pathCounts ==> p in m'[ip].pathCounts && m[ip].pathCounts[p] <= m'[ip].pathCounts[p]
  }

  /** Over any request sequence the conservation invariant holds for every record. */
  lemma {:induction false} ReplayValid(m: map<string, HitCountData>, events: seq<HitEvent>)
    requires TrackerValid(m)
    ensures TrackerValid(Replay(m, events))
    decreases |events|
  {
    if events != [] {
      var e := events[0];
      if !Skip(e.ip) {
        AfterHitValid(m, KeyOf(e.ip), e.path, e.now);
      }
      ReplayValid(Step(m, e), events[1..]);
    }
  }

  /** Over any request sequence records are never removed and counts never decrease. */
  lemma {:induction false} ReplayGrows(m: map<string, HitCountData>, events: seq<HitEvent>)
    ensures Grows(m, Replay(m, events))
    decreases |events|
  {
    if events != [] {
      var m1 := Step(m, events[0]);
      ReplayGrows(m1, events[1..]);
      var m2 := Replay(m1, events[1..]);
      assert Grows(m, m1);
      forall ip | ip in m
        ensures ip in m2 && m[ip].count <= m2[ip].count && m2[ip].firstHit == m[ip].firstHit
        ensures forall p :: p in m[ip].pathCounts ==> p in m2[ip].pathCounts && m[ip].pathCounts[p] <= m2[ip].pathCounts[p]
      {
        forall p | p in m[ip].pathCounts
          ensures p in m2[ip].pathCounts && m[ip].pathCounts[p] <= m2[ip].pathCounts[p]
        {
          assert p in m1[ip].pathCounts;
        }
      }
    }
  }

  /**
   * A key's total after a request sequence is its total before plus the
   * number of requests counted under it; the same holds per path.
   */
  lemma {:induction false} ReplayCounts(m: map<string, HitCountData>, events: seq<HitEvent>, key: string, path: string)
    ensures CountOf(Replay(m, events), key) == CountOf(m, key) + CountedFor(events, key)
    ensures PathCount(PathsOf(Replay(m, events), key), path)
            == PathCount(PathsOf(m, key), path) + CountedOn(events, key, path)
    ensures key in Replay(m, events) <==> key in m || CountedFor(events, key) > 0
    decreases |events|
  {
    if events != [] {
      ReplayCounts(Step(m, events[0]), events[1..], key, path);
    }
  }

  /** A trusted key never gains a record, whatever requests arrive. */
  lemma {:induction false} TrustedNeverCounted(events: seq<HitEvent>, key: string)
    requires key in TrustedIPs
    ensures CountedFor(events, key) == 0
    decreases |events|
  {
    if events != [] {
      TrustedNeverCounted(events[1..], key);
    }
  }

  /** Starting empty, a key holds a record exactly when some request was counted under it. */
  lemma ReplayFromEmpty(events: seq<HitEvent>, key: string)
    ensures key in Replay(map[], events) <==> CountedFor(events, key) > 0
    ensures CountOf(Replay(map[], events), key) == CountedFor(events, key)
    ensures key in TrustedIPs ==> key !in Replay(map[], events)
  {
    ReplayCounts(map[], events, key, "");
    if key in TrustedIPs {
      TrustedNeverCounted(events, key);
    }
  }

  /** The mapped and plain forms of one IPv4 address update the same record. */
  lemma MappedHitsShareRecord(m: map<string, HitCountData>, v: string, path: string, now: int)
    requires IPv4Text(v)
    ensures Step(m, HitEvent(Some(MappedMarker + v), path, now)) == Step(m, HitEvent(Some(v), path, now))
  {
    MappedKeysAgree(v);
  }

  /** The module-level `hitCounts` dictionary and the key generator that updates it. */
  class HitTracker {
    var hitCounts: map<string, HitCountData>

    ghost predicate Valid()
      reads this
    {
      TrackerValid(hitCounts)
    }

    constructor ()
      ensures Valid() && hitCounts == map[]
    {
      hitCounts := map[];
    }

    /** Counts one hit on `path` for key `ip` at time `now`, in place. */
    method RecordHit(ip: string, path: string, now: int)
      requires Valid()
      modifies this
      ensures Valid()
      ensures hitCounts == AfterHit(old(hitCounts), ip, path, now)
    {
      AfterHitValid(hitCounts, ip, path, now);
      if ip !in hitCounts {
        hitCounts := hitCounts[ip := HitCountData(1, now, now, map[path := 1])];
      } else {
        var data := hitCounts[ip];
        data := data.(count := data.count + 1);
        data := data.(lastHit := now);
        data := data.(pathCounts := data.pathCounts[path := PathCount(data.pathCounts, path) + 1]);
        hitCounts := hitCounts[ip := data];
      }
    }

    /** The key generator: counts the request and returns its normalised address. */
    method KeyGenerator(ip: Option<string>, path: string, now: int) returns (key: string)
      requires Valid()
      modifies this
      ensures Valid()
      ensures key == KeyOf(ip)
      ensures hitCounts == AfterHit(old(hitCounts), key, path, now)
    {
      var raw := RawIP(ip);
      key := NormalizeIP(raw);
      RecordHit(key, path, now);
    }

    /**
     * One request through the limiter: a trusted request is skipped and leaves
     * the statistics alone; any other is counted by the key generator.
     */
    method Observe(ip: Option<string>, path: string, now: int) returns (counted: bool)
      requires Valid()
      modifies this
      ensures Valid()
      ensures counted == !Skip(ip)
      ensures hitCounts == Step(old(hitCounts), HitEvent(ip, path, now))
    {
      counted := !Skip(ip);
      if counted {
        var _ := KeyGenerator(ip, path, now);
      }
    }
  }
}

/** Object-storage usage per tenant: checked sums over lookups that complete in any order. */
module QuotaUsage {
  import opened Outcomes
  import opened Json
  import opened Permutations

  type Org = string

  /** A finished lookup: the bucket's organization and its bytes, or nothing when the lookup failed. */
  datatype Lookup = Lookup(org: Org, bytes: Option<nat>)

  datatype Bucket = Bucket(id: string, org: Org, ready: bool, quotaBytes: nat, quotaObjects: nat, specReadable: bool)

  datatype Reply = Reply(id: string, quotaBytes: nat, quotaObjects: nat, bytesUsed: nat)

  /** A lookup succeeds only for a ready bucket of a known tenant whose provider answers for just that bucket. */
  predicate Verified(b: Bucket, known: set<Org>, reply: Option<Reply>) {
    && b.ready && b.org in known && b.specReadable && reply.Some?
    && reply.value.id == b.id && reply.value.quotaBytes == b.quotaBytes && reply.value.quotaObjects == b.quotaObjects
  }

  /** The provider's reply vouches for this bucket and tells its bytes. */
  ghost predicate Tells(b: Bucket, known: set<Org>, reply: Option<Reply>, bytes: nat) {
    && reply == Some(Reply(b.id, b.quotaBytes, b.quotaObjects, bytes))
    && b == Bucket(b.id, b.org, true, b.quotaBytes, b.quotaObjects, true) && b.org in known
  }

  lemma VerifiedExactly(b: Bucket, known: set<Org>, reply: Option<Reply>)
    ensures Verified(b, known, reply) <==> exists bytes: nat :: Tells(b, known, reply, bytes)
    ensures forall bytes: nat :: LookUp(b, known, reply) == Lookup(b.org, Some(bytes)) <==> Tells(b, known, reply, bytes)
    ensures LookUp(b, known, reply).org == b.org
  {
    if Verified(b, known, reply) {
      assert Tells(b, known, reply, reply.value.bytesUsed);
    }
  }

  function LookUp(b: Bucket, known: set<Org>, reply: Option<Reply>): Lookup {
    if Verified(b, known, reply) then Lookup(b.org, Some(reply.value.bytesUsed)) else Lookup(b.org, None)
  }

  /** Every lookup of this organization succeeded. */
  ghost predicate AllSucceeded(done: seq<Lookup>, org: Org) {
    forall i :: 0 <= i < |done| && done[i].org == org ==> done[i].bytes.Some?
  }

  function BytesOf(l: Lookup, org: Org): nat {
    if l.org == org && l.bytes.Some? then l.bytes.value else 0
  }

  /** The exact sum of what this organization's lookups reported. */
  function Sum(done: seq<Lookup>, org: Org): nat {
    if done == [] then 0 else Sum(done[..|done| - 1], org) + BytesOf(done[|done| - 1], org)
  }

  /** What a tenant is entitled to see: the exact sum if it is known and representable, else nothing. */
  ghost function Total(done: seq<Lookup>, org: Org): Option<nat> {
    if AllSucceeded(done, org) && Sum(done, org) <= U64_MAX then Some(Sum(done, org)) else None
  }

  function CheckedAdd(a: nat, b: nat): Option<nat> {
    if a + b <= U64_MAX then Some(a + b) else None
  }

  function TotalIn(totals: map<Org, Option<nat>>, org: Org): Option<nat> {
    if org in totals then totals[org] else Some(0)
  }

  /** `add_usage`: a failed lookup or an overflow makes the total unavailable for good. */
  function AddUsage(totals: map<Org, Option<nat>>, l: Lookup): map<Org, Option<nat>> {
    var total := TotalIn(totals, l.org);
    totals[l.org :=
      if total.Some? && l.bytes.Some? then CheckedAdd(total.value, l.bytes.value) else None]
  }

  lemma AddUsageTracksTotal(totals: map<Org, Option<nat>>, done: seq<Lookup>, l: Lookup, org: Org)
    requires TotalIn(totals, org) == Total(done, org)
    ensures TotalIn(AddUsage(totals, l), org) == Total(done + [l], org)
  {
    var longer := done + [l];
    assert longer[..|longer| - 1] == done && longer[|longer| - 1] == l;
    assert Sum(longer, org) == Sum(done, org) + BytesOf(l, org);
    assert AllSucceeded(longer, org) <==> AllSucceeded(done, org) && (l.org == org ==> l.bytes.Some?) by {
      assert forall i :: 0 <= i < |done| ==> longer[i] == done[i];
    }
  }

  /** Folds the lookups into per-tenant totals, in completion order. */
  method AddUpLookups(tenants: seq<Org>, done: seq<Lookup>) returns (totals: map<Org, Option<nat>>)
    ensures forall i :: 0 <= i < |tenants| ==> tenants[i] in totals && totals[tenants[i]] == Total(done, tenants[i])
  {
    hide Total, AddUsage;
    totals := map i | i in tenants :: Some(0);
    forall org ensures TotalIn(totals, org) == Total(done[..0], org) {
      NothingUsed(org);
    }
    for n := 0 to |done|
      invariant forall org :: TotalIn(totals, org) == Total(done[..n], org)
      invariant forall i :: 0 <= i < |tenants| ==> tenants[i] in totals
    {
      forall org ensures TotalIn(AddUsage(totals, done[n]), org) == Total(done[..n + 1], org) {
        AddUsageTracksTotal(totals, done[..n], done[n], org);
        assert done[..n] + [done[n]] == done[..n + 1];
      }
      AddUsageKeeps(totals, done[n]);
      totals := AddUsage(totals, done[n]);
    }
    assert done[..|done|] == done;
    forall i | 0 <= i < |tenants| ensures totals[tenants[i]] == Total(done, tenants[i]) {
      assert TotalIn(totals, tenants[i]) == Total(done, tenants[i]);
    }
  }

  lemma NothingUsed(org: Org)
    ensures Total([], org) == Some(0)
  {
  }

  lemma AddUsageKeeps(totals: map<Org, Option<nat>>, l: Lookup)
    ensures forall org :: org in totals ==> org in AddUsage(totals, l)
  {
  }

  /** What row i shows: the first row of an organization shows its total, a repeated one nothing. */
  ghost function Shown(tenants: seq<Org>, done: seq<Lookup>, i: nat): Option<nat>
    requires i < |tenants|
  {
    if Listed(tenants, i, tenants[i]) then None else Total(done, tenants[i])
  }

  /** An organization's total is shown once, in its first row. */
  lemma ShownOnce(tenants: seq<Org>, done: seq<Lookup>, i: nat)
    requires i < |tenants|
    ensures (forall j :: 0 <= j < i ==> tenants[j] != tenants[i]) ==> Shown(tenants, done, i) == Total(done, tenants[i])
    ensures (exists j :: 0 <= j < i && tenants[j] == tenants[i]) ==> Shown(tenants, done, i) == None
  {
  }

  ghost predicate Remaining(tenants: seq<Org>, done: seq<Lookup>, n: nat, totals: map<Org, Option<nat>>) {
    forall i :: 0 <= i < |tenants| ==>
      if Listed(tenants, n, tenants[i]) then tenants[i] !in totals
      else tenants[i] in totals && totals[tenants[i]] == Total(done, tenants[i])
  }

  lemma TakeTotal(tenants: seq<Org>, done: seq<Lookup>, n: nat, totals: map<Org, Option<nat>>)
    requires n < |tenants| && Remaining(tenants, done, n, totals)
    ensures Remaining(tenants, done, n + 1, totals - {tenants[n]})
    ensures (if tenants[n] in totals then totals[tenants[n]] else None) == Shown(tenants, done, n)
  {
    hide Listed, Total;
    ListedNext(tenants, n);
  }

  /** The aggregation, in place on the tenants' usage column. */
  method PopulateUsage(tenants: seq<Org>, done: seq<Lookup>, usage: array<Option<nat>>)
    requires usage.Length == |tenants|
    modifies usage
    ensures forall i :: 0 <= i < |tenants| ==> usage[i] == Shown(tenants, done, i)
  {
    hide Total, Shown;
    var totals := AddUpLookups(tenants, done);
    assert Remaining(tenants, done, 0, totals);
    hide Remaining;
    for i := 0 to |tenants|
      invariant forall k :: 0 <= k < i ==> usage[k] == Shown(tenants, done, k)
      invariant Remaining(tenants, done, i, totals)
    {
      var org := tenants[i];
      TakeTotal(tenants, done, i, totals);
      usage[i] := if org in totals then totals[org] else None;
      totals := totals - {org};
    }
  }

  // ---------------------------------------------------------------- order and isolation

  lemma {:induction false} SumWithout(done: seq<Lookup>, org: Org, k: nat)
    requires k < |done|
    ensures Sum(done, org) == Sum(Without(done, k), org) + BytesOf(done[k], org)
    decreases |done|
  {
    hide BytesOf;
    var n := |done| - 1;
    var without := Without(done, k);
    if k == n {
      assert without == done[..n];
    } else {
      SumWithout(done[..n], org, k);
      assert without[..|without| - 1] == Without(done[..n], k);
      assert without[|without| - 1] == done[n];
    }
  }

  lemma {:induction false} SumIgnoresOrder(done: seq<Lookup>, other: seq<Lookup>, org: Org)
    requires multiset(done) == multiset(other)
    ensures Sum(done, org) == Sum(other, org)
    decreases |done|
  {
    hide BytesOf;
    assert |done| == |multiset(done)| && |other| == |multiset(other)|;
    if done != [] {
      var k := MatchLast(done, other);
      SumIgnoresOrder(done[..|done| - 1], Without(other, k), org);
      SumWithout(other, org, k);
    }
  }

  /** The completion order of the lookups does not matter. */
  lemma TotalIgnoresOrder(done: seq<Lookup>, other: seq<Lookup>, org: Org)
    requires multiset(done) == multiset(other)
    ensures Total(done, org) == Total(other, org)
  {
    SumIgnoresOrder(done, other, org);
    assert forall l :: l in done <==> l in multiset(done);
    assert forall l :: l in other <==> l in multiset(other);
    assert AllSucceeded(done, org) <==> forall l :: l in done && l.org == org ==> l.bytes.Some?;
    assert AllSucceeded(other, org) <==> forall l :: l in other && l.org == org ==> l.bytes.Some?;
  }

  function Only(done: seq<Lookup>, org: Org): seq<Lookup> {
    if done == [] then []
    else Only(done[..|done| - 1], org) + (if done[|done| - 1].org == org then [done[|done| - 1]] else [])
  }

  lemma {:induction false} OnlyOwnCount(done: seq<Lookup>, org: Org)
    ensures Sum(done, org) == Sum(Only(done, org), org)
    ensures AllSucceeded(done, org) <==> AllSucceeded(Only(done, org), org)
  {
    if done != [] {
      var rest, l := done[..|done| - 1], done[|done| - 1];
      OnlyOwnCount(rest, org);
      var kept := Only(rest, org);
      if l.org == org {
        assert (kept + [l])[..|kept|] == kept;
        assert forall i :: 0 <= i < |kept| ==> (kept + [l])[i] == kept[i];
        assert (kept + [l])[|kept|] == l;
      } else {
        assert kept + [] == kept;
      }
    }
  }

  /** No tenant's lookups affect another's total; a tenant without buckets has used nothing. */
  lemma TenantsAreIsolated(done: seq<Lookup>, other: seq<Lookup>, org: Org)
    requires Only(done, org) == Only(other, org)
    ensures Total(done, org) == Total(other, org)
    ensures Only(done, org) == [] ==> Total(done, org) == Some(0)
  {
    OnlyOwnCount(done, org);
    OnlyOwnCount(other, org);
  }

  // ---------------------------------------------------------------- from buckets to totals

  /** The lookups of all buckets; they complete in any order. */
  function LookUps(buckets: seq<Bucket>, known: set<Org>, replies: seq<Option<Reply>>): seq<Lookup>
    requires |buckets| == |replies|
  {
    seq(|buckets|, i requires 0 <= i < |buckets| => LookUp(buckets[i], known, replies[i]))
  }

  /** The bytes the provider reported for this organization's verified buckets. */
  function Used(buckets: seq<Bucket>, known: set<Org>, replies: seq<Option<Reply>>, org: Org): nat
    requires |buckets| == |replies|
  {
    if buckets == [] then 0
    else
      var n := |buckets| - 1;
      Used(buckets[..n], known, replies[..n], org)
      + (if buckets[n].org == org && Verified(buckets[n], known, replies[n]) then replies[n].value.bytesUsed else 0)
  }

  lemma {:induction false} SumIsUsed(buckets: seq<Bucket>, known: set<Org>, replies: seq<Option<Reply>>, org: Org)
    requires |buckets| == |replies|
    ensures Sum(LookUps(buckets, known, replies), org) == Used(buckets, known, replies, org)
    decreases |buckets|
  {
    hide Verified;
    if buckets != [] {
      var n := |buckets| - 1;
      SumIsUsed(buckets[..n], known, replies[..n], org);
      var all := LookUps(buckets, known, replies);
      assert all[..n] == LookUps(buckets[..n], known, replies[..n]);
      assert all[n] == LookUp(buckets[n], known, replies[n]);
    }
  }

  /**
  In whatever order the lookups complete, a tenant's storage is the exact sum over its buckets when
  every one of them was verified and the sum fits, and unavailable otherwise.
  */
  lemma StorageIsExact(
    buckets: seq<Bucket>, known: set<Org>, replies: seq<Option<Reply>>, done: seq<Lookup>, org: Org)
    requires |buckets| == |replies| && multiset(done) == multiset(LookUps(buckets, known, replies))
    ensures Total(done, org) ==
            if (forall i :: 0 <= i < |buckets| && buckets[i].org == org ==>
                  exists bytes: nat :: Tells(buckets[i], known, replies[i], bytes))
               && Used(buckets, known, replies, org) <= 18446744073709551615
            then Some(Used(buckets, known, replies, org))
            else None
  {
    hide Verified, Sum, Used, Tells;
    forall i | 0 <= i < |buckets|
      ensures Verified(buckets[i], known, replies[i]) <==> exists bytes: nat :: Tells(buckets[i], known, replies[i], bytes)
    {
      VerifiedExactly(buckets[i], known, replies[i]);
    }
    var all := LookUps(buckets, known, replies);
    TotalIgnoresOrder(done, all, org);
    SumIsUsed(buckets, known, replies, org);
    assert AllSucceeded(all, org) <==>
           forall i :: 0 <= i < |buckets| && buckets[i].org == org ==> Verified(buckets[i], known, replies[i]) by {
      if AllSucceeded(all, org) {
        forall i | 0 <= i < |buckets| && buckets[i].org == org ensures Verified(buckets[i], known, replies[i]) {
          assert all[i] == LookUp(buckets[i], known, replies[i]);
        }
      }
    }
  }
}

/** Flash runtime usage: saturating totals of a provider snapshot, platform-wide and per organization. */
module FlashUsage {
  import opened Json
  import opened Permutations

  datatype Weekly = Weekly(startedAt: int, cpu: nat, memory: nat, gpu: nat, lastMeteredAt: int)

  datatype Item = Item(
    org: string, service: string, active: bool, replicas: nat, cpuMillis: nat, memoryMib: nat, gpus: nat, weekly: Weekly)

  datatype Snapshot = Snapshot(generatedAt: int, weekStartedAt: int, items: seq<Item>)

  /** The fields fit the wire types. */
  predicate Fits(x: Item) {
    && x.replicas <= U32_MAX && x.cpuMillis <= U32_MAX && x.memoryMib <= U32_MAX && x.gpus <= U32_MAX
    && x.weekly.cpu <= U64_MAX && x.weekly.memory <= U64_MAX && x.weekly.gpu <= U64_MAX
  }

  // ---------------------------------------------------------------- validation

  const WEEK: int := 7 * 24 * 60 * 60

  /** The result of a saturating addition of something positive. */
  function SaturatingI64(a: int): int {
    if a > I64_MAX then I64_MAX else a
  }

  predicate ItemInWeek(s: Snapshot, x: Item) {
    && x.weekly.startedAt == s.weekStartedAt
    && s.weekStartedAt <= x.weekly.lastMeteredAt <= SaturatingI64(s.generatedAt + 5)
  }

  ghost predicate AllDifferent(items: seq<Item>) {
    forall i, j :: 0 <= i < j < |items| ==> items[i].service != items[j].service
  }

  /** No service appears twice, and every item belongs to the snapshot's week. */
  ghost predicate Coherent(s: Snapshot) {
    && s.weekStartedAt <= s.generatedAt < SaturatingI64(s.weekStartedAt + WEEK)
    && AllDifferent(s.items)
    && (forall i :: 0 <= i < |s.items| ==> ItemInWeek(s, s.items[i]))
  }

  function Services(items: seq<Item>): set<string> {
    if items == [] then {} else Services(items[..|items| - 1]) + {items[|items| - 1].service}
  }

  predicate IsI64(n: int) {
    -0x8000_0000_0000_0000 <= n <= 0x7FFF_FFFF_FFFF_FFFF
  }

  /**
  A snapshot is coherent when it is of its week, has as many services as items, and none is metered
  outside, with five seconds to spare.
  */
  lemma CoherentExactly(s: Snapshot)
    requires IsI64(s.weekStartedAt) && IsI64(s.generatedAt)
    ensures Coherent(s) <==>
            && s.weekStartedAt <= s.generatedAt < 0x7FFF_FFFF_FFFF_FFFF && s.generatedAt < s.weekStartedAt + 604800
            && |Services(s.items)| == |s.items|
            && forall i :: 0 <= i < |s.items| ==>
                 var w := s.items[i].weekly;
                 && w.startedAt == s.weekStartedAt <= w.lastMeteredAt
                 && w.lastMeteredAt <= s.generatedAt + 5 && w.lastMeteredAt <= 0x7FFF_FFFF_FFFF_FFFF
  {
    hide Services, AllDifferent;
    DistinctExactly(s.items);
  }

  lemma {:induction false} ServicesAreThose(items: seq<Item>)
    ensures forall v :: v in Services(items) <==> exists i :: 0 <= i < |items| && items[i].service == v
  {
    if items != [] {
      var n := |items| - 1;
      var rest := items[..n];
      ServicesAreThose(rest);
      assert forall i :: 0 <= i < n ==> rest[i] == items[i];
      forall v ensures v in Services(items) <==> exists i :: 0 <= i < |items| && items[i].service == v {
        if v in Services(rest) {
          var k :| 0 <= k < n && rest[k].service == v;
          assert items[k].service == v;
        }
      }
    }
  }

  lemma DifferentSnoc(rest: seq<Item>, x: Item)
    ensures AllDifferent(rest + [x]) <==> AllDifferent(rest) && x.service !in Services(rest)
  {
    hide Services;
    ServicesAreThose(rest);
    var items := rest + [x];
    assert forall i :: 0 <= i < |rest| ==> items[i] == rest[i];
    if AllDifferent(items) {
      assert forall i :: 0 <= i < |rest| ==> items[i].service != items[|rest|].service;
    }
  }

  lemma {:induction false} DistinctExactly(items: seq<Item>)
    ensures |Services(items)| <= |items|
    ensures |Services(items)| == |items| <==> AllDifferent(items)
  {
    hide AllDifferent;
    if items == [] {
      NoneAlike();
    } else {
      var rest, last := items[..|items| - 1], items[|items| - 1];
      DistinctExactly(rest);
      assert items == rest + [last];
      DifferentSnoc(rest, last);
      if last.service in Services(rest) {
        assert Services(rest) + {last.service} == Services(rest);
      }
    }
  }

  lemma NoneAlike()
    ensures AllDifferent([])
  {
  }

  method Validate(s: Snapshot) returns (ok: bool)
    ensures ok <==> Coherent(s)
  {
    if s.generatedAt < s.weekStartedAt || s.generatedAt >= SaturatingI64(s.weekStartedAt + WEEK) { return false; }
    var services: set<string> := {};
    for n := 0 to |s.items|
      invariant forall v :: v in services <==> exists i :: 0 <= i < n && s.items[i].service == v
      invariant forall i, j :: 0 <= i < j < n ==> s.items[i].service != s.items[j].service
      invariant forall i :: 0 <= i < n ==> ItemInWeek(s, s.items[i])
    {
      var x := s.items[n];
      if x.service in services || x.weekly.startedAt != s.weekStartedAt || x.weekly.lastMeteredAt < s.weekStartedAt
         || x.weekly.lastMeteredAt > SaturatingI64(s.generatedAt + 5) {
        return false;
      }
      services := services + {x.service};
    }
    ok := true;
  }

  // ---------------------------------------------------------------- sums

  function Sat(n: nat): nat { if n > U64_MAX then U64_MAX else n }

  /** The measures that are summed. */
  datatype Measure = CpuUsed | MemoryUsed | GpuUsed | ActiveServices | Replicas | CpuNow | MemoryNow | GpusNow

  /** One item's exact contribution. */
  function Amount(m: Measure, x: Item): nat {
    match m
    case CpuUsed => x.weekly.cpu
    case MemoryUsed => x.weekly.memory
    case GpuUsed => x.weekly.gpu
    case ActiveServices => if x.active then 1 else 0
    case Replicas => x.replicas
    case CpuNow => x.replicas * x.cpuMillis
    case MemoryNow => x.replicas * x.memoryMib
    case GpusNow => x.replicas * x.gpus
  }

  function Sum(m: Measure, items: seq<Item>): nat {
    if items == [] then 0 else Sum(m, items[..|items| - 1]) + Amount(m, items[|items| - 1])
  }

  /** What one more item adds to each sum: its use of the week, and what its replicas hold now. */
  lemma OneMoreCounts(items: seq<Item>, x: Item)
    ensures Sum(CpuUsed, items + [x]) == Sum(CpuUsed, items) + x.weekly.cpu
    ensures Sum(MemoryUsed, items + [x]) == Sum(MemoryUsed, items) + x.weekly.memory
    ensures Sum(GpuUsed, items + [x]) == Sum(GpuUsed, items) + x.weekly.gpu
    ensures Sum(ActiveServices, items + [x]) == Sum(ActiveServices, items) + (if x.active then 1 else 0)
    ensures Sum(Replicas, items + [x]) == Sum(Replicas, items) + x.replicas
    ensures Sum(CpuNow, items + [x]) == Sum(CpuNow, items) + x.replicas * x.cpuMillis
    ensures Sum(MemoryNow, items + [x]) == Sum(MemoryNow, items) + x.replicas * x.memoryMib
    ensures Sum(GpusNow, items + [x]) == Sum(GpusNow, items) + x.replicas * x.gpus
    ensures forall m :: Sum(m, []) == 0
  {
    assert (items + [x])[..|items|] == items;
  }

  /** Totals are exact up to the largest 64-bit number. */
  lemma SaturatesExactly(n: nat)
    ensures n <= 18446744073709551615 ==> Sat(n) == n
    ensures n > 18446744073709551615 ==> Sat(n) == 18446744073709551615
  {
  }

  function SatAdd(a: nat, b: nat): nat { Sat(a + b) }

  function SatMul(a: nat, b: nat): nat { Sat(a * b) }

  lemma ProductsFit(a: nat, b: nat)
    requires a <= U32_MAX && b <= U32_MAX
    ensures SatMul(a, b) == a * b
  {
    assert a * b <= U32_MAX * b <= U32_MAX * U32_MAX;
  }

  /** Weekly usage, updated in place. */
  class RuntimeUsage {
    var cpu: nat
    var memory: nat
    var gpu: nat

    constructor ()
      ensures cpu == 0 && memory == 0 && gpu == 0
    {
      cpu, memory, gpu := 0, 0, 0;
    }

    ghost predicate Totals(items: seq<Item>)
      reads this
    {
      cpu == Sat(Sum(CpuUsed, items)) && memory == Sat(Sum(MemoryUsed, items)) && gpu == Sat(Sum(GpuUsed, items))
    }

    method Add(x: Item, ghost before: seq<Item>)
      requires Totals(before)
      modifies this
      ensures Totals(before + [x])
    {
      assert (before + [x])[..|before|] == before;
      cpu := SatAdd(cpu, x.weekly.cpu);
      memory := SatAdd(memory, x.weekly.memory);
      gpu := SatAdd(gpu, x.weekly.gpu);
    }
  }

  /** What is allocated now, updated in place. */
  class CurrentAllocation {
    var activeServices: nat
    var readyReplicas: nat
    var cpuMillis: nat
    var memoryMib: nat
    var gpus: nat

    constructor ()
      ensures activeServices == 0 && readyReplicas == 0 && cpuMillis == 0 && memoryMib == 0 && gpus == 0
    {
      activeServices, readyReplicas, cpuMillis, memoryMib, gpus := 0, 0, 0, 0, 0;
    }

    ghost predicate Totals(items: seq<Item>)
      reads this
    {
      && activeServices == Sat(Sum(ActiveServices, items)) && readyReplicas == Sat(Sum(Replicas, items))
      && cpuMillis == Sat(Sum(CpuNow, items)) && memoryMib == Sat(Sum(MemoryNow, items)) && gpus == Sat(Sum(GpusNow, items))
    }

    method Add(x: Item, ghost before: seq<Item>)
      requires Totals(before) && Fits(x)
      modifies this
      ensures Totals(before + [x])
    {
      assert (before + [x])[..|before|] == before;
      if x.active {
        activeServices := SatAdd(activeServices, 1);
      }
      readyReplicas := SatAdd(readyReplicas, x.replicas);
      ProductsFit(x.replicas, x.cpuMillis);
      ProductsFit(x.replicas, x.memoryMib);
      ProductsFit(x.replicas, x.gpus);
      cpuMillis := SatAdd(cpuMillis, SatMul(x.replicas, x.cpuMillis));
      memoryMib := SatAdd(memoryMib, SatMul(x.replicas, x.memoryMib));
      gpus := SatAdd(gpus, SatMul(x.replicas, x.gpus));
    }
  }

  /** Every total is the exact sum, or the largest representable number when that is larger. */
  method Summarize(items: seq<Item>) returns (usage: RuntimeUsage, current: CurrentAllocation)
    requires forall i :: 0 <= i < |items| ==> Fits(items[i])
    ensures fresh(usage) && fresh(current)
    ensures usage.Totals(items) && current.Totals(items)
  {
    hide Fits;
    usage := new RuntimeUsage();
    current := new CurrentAllocation();
    for n := 0 to |items|
      invariant fresh(usage) && fresh(current)
      invariant usage.Totals(items[..n]) && current.Totals(items[..n])
    {
      assert items[..n + 1] == items[..n] + [items[n]];
      usage.Add(items[n], items[..n]);
      current.Add(items[n], items[..n]);
    }
    assert items[..|items|] == items;
  }

  lemma {:induction false} SumWithout(m: Measure, items: seq<Item>, k: nat)
    requires k < |items|
    ensures Sum(m, items) == Sum(m, Without(items, k)) + Amount(m, items[k])
    decreases |items|
  {
    hide Amount;
    var n := |items| - 1;
    var without := Without(items, k);
    if k == n {
      assert without == items[..n];
    } else {
      SumWithout(m, items[..n], k);
      assert without[..|without| - 1] == Without(items[..n], k);
      assert without[|without| - 1] == items[n];
    }
  }

  /** The order of a snapshot's items does not matter to any total. */
  lemma {:induction false} SumIgnoresOrder(m: Measure, items: seq<Item>, other: seq<Item>)
    requires multiset(items) == multiset(other)
    ensures Sum(m, items) == Sum(m, other)
    decreases |items|
  {
    hide Amount;
    assert |items| == |multiset(items)| && |other| == |multiset(other)|;
    if items != [] {
      var k := MatchLast(items, other);
      SumIgnoresOrder(m, items[..|items| - 1], Without(other, k));
      SumWithout(m, other, k);
    }
  }

  // ---------------------------------------------------------------- grouping

  /** The items of one organization, in order. */
  function Of(items: seq<Item>, org: string): seq<Item> {
    if items == [] then []
    else Of(items[..|items| - 1], org) + (if items[|items| - 1].org == org then [items[|items| - 1]] else [])
  }

  /** The group of an organization that is not there yet counts as empty. */
  function GroupIn(groups: map<string, seq<Item>>, org: string): seq<Item> {
    if org in groups then groups[org] else []
  }

  function Append(groups: map<string, seq<Item>>, x: Item): map<string, seq<Item>> {
    groups[x.org := GroupIn(groups, x.org) + [x]]
  }

  /** The groups hold exactly their organizations' items, in order, and none is empty. */
  ghost predicate Grouped(items: seq<Item>, groups: map<string, seq<Item>>) {
    && (forall org :: GroupIn(groups, org) == Of(items, org))
    && (forall org :: org in groups ==> Of(items, org) != [])
  }

  lemma OfNext(items: seq<Item>, x: Item, org: string)
    ensures Of(items + [x], org) == if x.org == org then Of(items, org) + [x] else Of(items, org)
  {
    assert (items + [x])[..|items|] == items;
    assert Of(items, org) + [] == Of(items, org);
  }

  lemma GroupedNext(items: seq<Item>, groups: map<string, seq<Item>>, x: Item)
    requires Grouped(items, groups)
    ensures Grouped(items + [x], Append(groups, x))
  {
    hide Of;
    var next := Append(groups, x);
    forall org ensures GroupIn(next, org) == Of(items + [x], org) && (org in next ==> Of(items + [x], org) != []) {
      OfNext(items, x, org);
      assert GroupIn(groups, org) == Of(items, org);
    }
  }

  lemma NothingGrouped()
    ensures Grouped([], map[])
  {
  }

  /** Grouping fills a map item by item. */
  method GroupByOrganization(items: seq<Item>) returns (groups: map<string, seq<Item>>)
    ensures Grouped(items, groups)
  {
    hide Grouped, Append, Of;
    groups := map[];
    NothingGrouped();
    assert items[..0] == [];
    for n := 0 to |items|
      invariant Grouped(items[..n], groups)
    {
      GroupedNext(items[..n], groups, items[n]);
      assert items[..n] + [items[n]] == items[..n + 1];
      groups := Append(groups, items[n]);
    }
    assert items[..|items|] == items;
  }

  /** The exact sum over the groups of the listed organizations. */
  function SumOverGroups(m: Measure, items: seq<Item>, orgs: seq<string>): nat {
    if orgs == [] then 0
    else SumOverGroups(m, items, orgs[..|orgs| - 1]) + Sum(m, Of(items, orgs[|orgs| - 1]))
  }

  /** What the platform would get by adding the groups' saturated totals, saturating. */
  function SatOverGroups(m: Measure, items: seq<Item>, orgs: seq<string>): nat {
    if orgs == [] then 0
    else SatAdd(SatOverGroups(m, items, orgs[..|orgs| - 1]), Sat(Sum(m, Of(items, orgs[|orgs| - 1]))))
  }

  ghost predicate Distinct(orgs: seq<string>) {
    forall i, j :: 0 <= i < j < |orgs| ==> orgs[i] != orgs[j]
  }

  lemma OneMoreInGroup(m: Measure, items: seq<Item>, x: Item, org: string)
    ensures Sum(m, Of(items + [x], org)) == Sum(m, Of(items, org)) + (if x.org == org then Amount(m, x) else 0)
  {
    hide Amount, Of;
    OfNext(items, x, org);
    var group := Of(items, org);
    assert (group + [x])[..|group|] == group;
  }

  lemma {:induction false} OneMoreItem(m: Measure, items: seq<Item>, x: Item, orgs: seq<string>)
    requires Distinct(orgs)
    ensures SumOverGroups(m, items + [x], orgs)
         == SumOverGroups(m, items, orgs) + (if x.org in orgs then Amount(m, x) else 0)
    decreases |orgs|
  {
    hide Amount, Of, Sum;
    if orgs != [] {
      var rest, org := orgs[..|orgs| - 1], orgs[|orgs| - 1];
      OneMoreItem(m, items, x, rest);
      OneMoreInGroup(m, items, x, org);
      assert x.org in orgs <==> x.org in rest || x.org == org;
    }
  }

  lemma {:induction false} NoItemsNoGroups(m: Measure, orgs: seq<string>)
    ensures SumOverGroups(m, [], orgs) == 0
    decreases |orgs|
  {
    if orgs != [] {
      NoItemsNoGroups(m, orgs[..|orgs| - 1]);
    }
  }

  /** Grouping loses and duplicates nothing: the groups of all organizations add up to the platform. */
  lemma {:induction false} GroupsAddUp(m: Measure, items: seq<Item>, orgs: seq<string>)
    requires Distinct(orgs) && forall i :: 0 <= i < |items| ==> items[i].org in orgs
    ensures SumOverGroups(m, items, orgs) == Sum(m, items)
    decreases |items|
  {
    hide Amount;
    if items == [] {
      NoItemsNoGroups(m, orgs);
    } else {
      var rest, x := items[..|items| - 1], items[|items| - 1];
      GroupsAddUp(m, rest, orgs);
      OneMoreItem(m, rest, x, orgs);
      assert rest + [x] == items;
      assert items[|items| - 1].org in orgs;
    }
  }

  lemma {:induction false} SaturationCommutes(m: Measure, items: seq<Item>, orgs: seq<string>)
    ensures SatOverGroups(m, items, orgs) == Sat(SumOverGroups(m, items, orgs))
    decreases |orgs|
  {
    hide Sum;
    if orgs != [] {
      SaturationCommutes(m, items, orgs[..|orgs| - 1]);
    }
  }

  /** The platform total is the saturated sum of the groups' own saturated totals. */
  lemma PlatformIsSumOfGroups(m: Measure, items: seq<Item>, orgs: seq<string>)
    requires Distinct(orgs) && forall i :: 0 <= i < |items| ==> items[i].org in orgs
    ensures Sat(Sum(m, items)) == SatOverGroups(m, items, orgs)
  {
    GroupsAddUp(m, items, orgs);
    SaturationCommutes(m, items, orgs);
  }

  /** The groups of the listed organizations, one after the other. */
  function Together(items: seq<Item>, orgs: seq<string>): seq<Item> {
    if orgs == [] then [] else Together(items, orgs[..|orgs| - 1]) + Of(items, orgs[|orgs| - 1])
  }

  lemma {:induction false} OneMoreTogether(items: seq<Item>, x: Item, orgs: seq<string>)
    requires Distinct(orgs)
    ensures multiset(Together(items + [x], orgs))
         == multiset(Together(items, orgs)) + (if x.org in orgs then multiset{x} else multiset{})
    decreases |orgs|
  {
    hide Of;
    if orgs != [] {
      var rest, org := orgs[..|orgs| - 1], orgs[|orgs| - 1];
      OneMoreTogether(items, x, rest);
      OfNext(items, x, org);
      assert x.org in orgs <==> x.org in rest || x.org == org;
    }
  }

  lemma {:induction false} NothingTogether(orgs: seq<string>)
    ensures Together([], orgs) == []
    decreases |orgs|
  {
    if orgs != [] {
      NothingTogether(orgs[..|orgs| - 1]);
    }
  }

  /** Grouping partitions the items: every item is in its organization's group, exactly as often as in the snapshot. */
  lemma {:induction false} GroupsPartition(items: seq<Item>, orgs: seq<string>)
    requires Distinct(orgs) && forall i :: 0 <= i < |items| ==> items[i].org in orgs
    ensures multiset(Together(items, orgs)) == multiset(items)
    decreases |items|
  {
    if items == [] {
      NothingTogether(orgs);
    } else {
      hide Together;
      var rest, x := items[..|items| - 1], items[|items| - 1];
      assert rest + [x] == items;
      assert items[|items| - 1].org in orgs;
      GroupsPartition(rest, orgs);
      OneMoreTogether(rest, x, orgs);
    }
  }

  // ---------------------------------------------------------------- the owner's report

  /** The services reported for row i: its organization's, unless an earlier row already took them. */
  ghost function Reported(tenants: seq<string>, items: seq<Item>, i: nat): seq<Item>
    requires i < |tenants|
  {
    if Listed(tenants, i, tenants[i]) then [] else Of(items, tenants[i])
  }

  /** An organization's services are reported once, in its first row, and nothing else with them. */
  lemma ReportedOnce(tenants: seq<string>, items: seq<Item>, i: nat)
    requires i < |tenants|
    ensures (forall j :: 0 <= j < i ==> tenants[j] != tenants[i]) ==>
              forall x :: x in Reported(tenants, items, i) <==> x in items && x.org == tenants[i]
    ensures (exists j :: 0 <= j < i && tenants[j] == tenants[i]) ==> Reported(tenants, items, i) == []
  {
    GroupMembers(items, tenants[i]);
    hide Of;
  }

  lemma {:induction false} GroupMembers(items: seq<Item>, org: string)
    ensures forall x :: x in Of(items, org) <==> x in items && x.org == org
  {
    if items != [] {
      GroupMembers(items[..|items| - 1], org);
      assert forall x :: x in items <==> x in items[..|items| - 1] || x == items[|items| - 1];
    }
  }

  ghost predicate Left(tenants: seq<string>, items: seq<Item>, n: nat, groups: map<string, seq<Item>>) {
    forall org :: GroupIn(groups, org) == if Listed(tenants, n, org) then [] else Of(items, org)
  }

  lemma TakeGroup(tenants: seq<string>, items: seq<Item>, n: nat, groups: map<string, seq<Item>>)
    requires n < |tenants| && Left(tenants, items, n, groups)
    ensures Left(tenants, items, n + 1, groups - {tenants[n]})
    ensures GroupIn(groups, tenants[n]) == Reported(tenants, items, n)
  {
    hide Listed, Of;
    ListedNext(tenants, n);
    var rest := groups - {tenants[n]};
    forall org ensures GroupIn(rest, org) == if Listed(tenants, n + 1, org) then [] else Of(items, org) {
      assert org != tenants[n] ==> GroupIn(rest, org) == GroupIn(groups, org);
    }
  }

  method ServicesByTenant(tenants: seq<string>, items: seq<Item>) returns (rows: seq<seq<Item>>)
    ensures |rows| == |tenants| && forall i :: 0 <= i < |tenants| ==> rows[i] == Reported(tenants, items, i)
  {
    hide Of, Reported;
    var groups := GroupByOrganization(items);
    assert Left(tenants, items, 0, groups);
    hide Left;
    rows := [];
    for n := 0 to |tenants|
      invariant |rows| == n && forall i :: 0 <= i < n ==> rows[i] == Reported(tenants, items, i)
      invariant Left(tenants, items, n, groups)
    {
      TakeGroup(tenants, items, n, groups);
      rows := rows + [GroupIn(groups, tenants[n])];
      groups := groups - {tenants[n]};
    }
  }
}

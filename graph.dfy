/**
 * The consistency conditions of a topology (a device list and a link list): unique ids,
 * no self-link, at most one link per unordered pair of devices, and no dangling endpoint.
 */
module Graph {
  import opened Optional
  import opened Types

  predicate HasDevice(ds: seq<Device>, id: string) {
    exists d :: d in ds && d.id == id
  }

  predicate UniqueDeviceIds(ds: seq<Device>) {
    forall i, j :: 0 <= i < j < |ds| ==> ds[i].id != ds[j].id
  }

  predicate UniqueLinkIds(ls: seq<Link>) {
    forall i, j :: 0 <= i < j < |ls| ==> ls[i].id != ls[j].id
  }

  /** `l` joins `a` and `b`, in either orientation. */
  predicate Joins(l: Link, a: string, b: string) {
    (l.sourceId == a && l.targetId == b) || (l.sourceId == b && l.targetId == a)
  }

  /** Some link joins `a` and `b` (the `links.some(...)` test of App.tsx). */
  predicate Linked(ls: seq<Link>, a: string, b: string) {
    exists l :: l in ls && Joins(l, a, b)
  }

  predicate NoSelfLinks(ls: seq<Link>) {
    forall l :: l in ls ==> l.sourceId != l.targetId
  }

  /** No later link joins the pair of an earlier one. */
  predicate NoDuplicatePairs(ls: seq<Link>) {
    forall i, j :: 0 <= i < j < |ls| ==> !Joins(ls[j], ls[i].sourceId, ls[i].targetId)
  }

  predicate EndpointsExist(ds: seq<Device>, ls: seq<Link>) {
    forall l :: l in ls ==> HasDevice(ds, l.sourceId) && HasDevice(ds, l.targetId)
  }

  predicate WellFormed(ds: seq<Device>, ls: seq<Link>) {
    UniqueDeviceIds(ds) && UniqueLinkIds(ls) && NoSelfLinks(ls) && NoDuplicatePairs(ls) && EndpointsExist(ds, ls)
  }

  /** How many links join `a` and `b`. */
  function PairCount(ls: seq<Link>, a: string, b: string): nat {
    if |ls| == 0 then 0 else (if Joins(ls[0], a, b) then 1 else 0) + PairCount(ls[1..], a, b)
  }

  lemma {:induction false} PairCountZeroIff(ls: seq<Link>, a: string, b: string)
    ensures PairCount(ls, a, b) == 0 <==> !Linked(ls, a, b)
  {
    if |ls| > 0 {
      PairCountZeroIff(ls[1..], a, b);
      assert forall l :: l in ls <==> l == ls[0] || l in ls[1..];
    }
  }

  lemma PairCountAppend(ls: seq<Link>, l: Link, a: string, b: string)
    ensures PairCount(ls + [l], a, b) == PairCount(ls, a, b) + (if Joins(l, a, b) then 1 else 0)
  {
    if |ls| > 0 {
      assert (ls + [l])[1..] == ls[1..] + [l];
      PairCountAppend(ls[1..], l, a, b);
    }
  }

  /** Without duplicate pairs, any two devices are joined by at most one link. */
  lemma {:induction false} PairCountAtMostOne(ls: seq<Link>, a: string, b: string)
    requires NoDuplicatePairs(ls)
    ensures PairCount(ls, a, b) <= 1
  {
    if |ls| > 0 {
      PairCountAtMostOne(ls[1..], a, b);
      if Joins(ls[0], a, b) {
        forall l | l in ls[1..] ensures !Joins(l, a, b) {
          var j :| 0 <= j < |ls[1..]| && ls[1..][j] == l;
          assert !Joins(ls[j + 1], ls[0].sourceId, ls[0].targetId);
        }
        PairCountZeroIff(ls[1..], a, b);
      }
    }
  }

  /** A link given by the positions of its two devices in the device list. */
  datatype Ends = Ends(source: nat, target: nat)

  /** Two position pairs name the same unordered pair of devices. */
  predicate SamePair(e: Ends, f: Ends) {
    (e.source == f.source && e.target == f.target) || (e.source == f.target && e.target == f.source)
  }

  /** The links of `ls` join the positions `ends` of `ds`, link by link, each two different ones. */
  predicate Joined(ds: seq<Device>, ls: seq<Link>, ends: seq<Ends>) {
    && |ends| == |ls|
    && (forall k :: 0 <= k < |ls| ==>
      ends[k].source < |ds| && ends[k].target < |ds| && ends[k].source != ends[k].target
      && ls[k].sourceId == ds[ends[k].source].id && ls[k].targetId == ds[ends[k].target].id)
  }

  /** No two entries of `ends` name the same pair of positions, in either direction. */
  predicate DistinctPairs(ends: seq<Ends>) {
    forall j, k :: 0 <= j < k < |ends| ==> !SamePair(ends[j], ends[k])
  }

  /**
   * A topology whose device ids are distinct and whose links each join two different device
   * positions, no two links the same pair, is well formed.
   */
  lemma IndexedWellFormed(ds: seq<Device>, ls: seq<Link>, ends: seq<Ends>)
    requires UniqueDeviceIds(ds) && UniqueLinkIds(ls) && Joined(ds, ls, ends) && DistinctPairs(ends)
    ensures WellFormed(ds, ls)
  {
    forall l | l in ls ensures HasDevice(ds, l.sourceId) && HasDevice(ds, l.targetId) && l.sourceId != l.targetId {
      var k :| 0 <= k < |ls| && ls[k] == l;
      assert ds[ends[k].source] in ds && ds[ends[k].target] in ds;
    }
    forall j, k | 0 <= j < k < |ls| ensures !Joins(ls[k], ls[j].sourceId, ls[j].targetId) {
      assert !SamePair(ends[j], ends[k]);
    }
  }

  /** Finds the first device with the given id (`devices.find(d => d.id === id)`). */
  function Find(ds: seq<Device>, id: string): (r: Option<Device>)
    ensures r.Some? ==> r.value in ds && r.value.id == id
    ensures r.Some? ==> exists i :: 0 <= i < |ds| && ds[i] == r.value && forall j :: 0 <= j < i ==> ds[j].id != id
    ensures r.None? <==> !HasDevice(ds, id)
  {
    if |ds| == 0 then None
    else if ds[0].id == id then Some(ds[0])
    else
      assert forall d :: d in ds <==> d == ds[0] || d in ds[1..];
      var r := Find(ds[1..], id);
      if r.Some? then
        var i :| 0 <= i < |ds[1..]| && ds[1..][i] == r.value && forall j :: 0 <= j < i ==> ds[1..][j].id != id;
        assert ds[i + 1] == r.value && forall j :: 0 <= j < i + 1 ==> ds[j].id != id;
        r
      else r
  }
}

// The placement simulation of internal/capacity: worst-fit of pods on nodes and
// of volume replicas on distinct disks.

// What the placement rules mean, on values.
module Placement {
  datatype Component = Component(name: string, cpu: int, mem: int, storage: int)
  datatype Mode = Mode(name: string, components: seq<Component>)
  datatype NodeFree = NodeFree(cpu: int, mem: int)
  type DiskFree = int

  // Free resources left for one placement attempt after another.
  datatype Headroom = Headroom(nodes: seq<NodeFree>, disks: seq<DiskFree>)
  datatype Attempt = Attempt(ok: bool, left: Headroom)

  const MAX_SESSIONS: nat := 100000

  predicate PodFits(node: NodeFree, c: Component) {
    node.cpu >= c.cpu && node.mem >= c.mem
  }

  // Index worst-fit picks among the first n nodes: most free memory, the
  // earliest on a tie, -1 when none fits.
  function BestNode(nodes: seq<NodeFree>, c: Component, n: nat): (b: int)
    requires n <= |nodes|
    ensures b == -1 <==> forall i :: 0 <= i < n ==> !PodFits(nodes[i], c)
    ensures b != -1 ==> 0 <= b < n && PodFits(nodes[b], c)
    ensures b != -1 ==> forall i :: 0 <= i < n && PodFits(nodes[i], c) ==> nodes[i].mem <= nodes[b].mem
    ensures b != -1 ==> forall i :: 0 <= i < b && PodFits(nodes[i], c) ==> nodes[i].mem < nodes[b].mem
  {
    if n == 0 then -1
    else
      var b := BestNode(nodes, c, n - 1);
      if PodFits(nodes[n - 1], c) && (b == -1 || nodes[n - 1].mem > nodes[b].mem) then n - 1 else b
  }

  function TakePod(node: NodeFree, c: Component): NodeFree {
    NodeFree(node.cpu - c.cpu, node.mem - c.mem)
  }

  // Disks that can take one more replica of a volume.
  predicate DiskFits(disks: seq<DiskFree>, size: int, chosen: seq<nat>, i: nat)
    requires i < |disks|
  {
    disks[i] >= size && i !in chosen
  }

  function BestDisk(disks: seq<DiskFree>, size: int, chosen: seq<nat>, n: nat): (b: int)
    requires n <= |disks|
    ensures b == -1 <==> forall i :: 0 <= i < n ==> !DiskFits(disks, size, chosen, i)
    ensures b != -1 ==> 0 <= b < n && DiskFits(disks, size, chosen, b)
    ensures b != -1 ==> forall i :: 0 <= i < n && DiskFits(disks, size, chosen, i) ==> disks[i] <= disks[b]
    ensures b != -1 ==> forall i :: 0 <= i < b && DiskFits(disks, size, chosen, i) ==> disks[i] < disks[b]
  {
    if n == 0 then -1
    else
      var b := BestDisk(disks, size, chosen, n - 1);
      if DiskFits(disks, size, chosen, n - 1) && (b == -1 || disks[n - 1] > disks[b]) then n - 1 else b
  }

  // The disks worst-fit picks for r replicas: fewer than r when it gets stuck.
  function ChooseDisks(disks: seq<DiskFree>, size: int, r: nat): (chosen: seq<nat>)
    ensures |chosen| <= r
    ensures Distinct(chosen)
    ensures forall i :: i in chosen ==> i < |disks| && disks[i] >= size
    ensures forall i, j :: i in chosen && 0 <= j < |disks| && j !in chosen && disks[j] >= size ==> disks[j] <= disks[i]
    ensures |chosen| < r ==> forall j :: 0 <= j < |disks| && j !in chosen ==> disks[j] < size
  {
    if r == 0 then []
    else
      var chosen := ChooseDisks(disks, size, r - 1);
      if |chosen| < r - 1 then chosen
      else
        var b := BestDisk(disks, size, chosen, |disks|);
        if b == -1 then
          assert forall j :: 0 <= j < |disks| && j !in chosen ==> !DiskFits(disks, size, chosen, j);
          chosen
        else
          assert DiskFits(disks, size, chosen, b);
          assert forall j :: 0 <= j < |disks| && j !in chosen && disks[j] >= size ==> DiskFits(disks, size, chosen, j);
          chosen + [b]
  }

  predicate Distinct(s: seq<nat>) {
    forall i, j :: 0 <= i < j < |s| ==> s[i] != s[j]
  }

  function TakeDisks(disks: seq<DiskFree>, size: int, chosen: seq<nat>): seq<DiskFree> {
    seq(|disks|, i requires 0 <= i < |disks| => if i in chosen then disks[i] - size else disks[i])
  }

  function PlacePod(h: Headroom, c: Component): Attempt {
    var b := BestNode(h.nodes, c, |h.nodes|);
    if b == -1 then Attempt(false, h)
    else Attempt(true, h.(nodes := h.nodes[b := TakePod(h.nodes[b], c)]))
  }

  function PlaceVolume(h: Headroom, size: int, replicas: nat): Attempt {
    var chosen := ChooseDisks(h.disks, size, replicas);
    if |chosen| < replicas then Attempt(false, h)
    else Attempt(true, h.(disks := TakeDisks(h.disks, size, chosen)))
  }

  function PlaceComponent(h: Headroom, c: Component, replicas: nat, storageKnown: bool): Attempt {
    var pod := PlacePod(h, c);
    if pod.ok && storageKnown && c.storage > 0 then PlaceVolume(pod.left, c.storage, replicas) else pod
  }

  // Places components in order; a failure keeps what was already deducted.
  function PlaceAll(h: Headroom, cs: seq<Component>, replicas: nat, storageKnown: bool): Attempt {
    if cs == [] then Attempt(true, h)
    else
      var before := PlaceAll(h, cs[..|cs| - 1], replicas, storageKnown);
      if before.ok then PlaceComponent(before.left, cs[|cs| - 1], replicas, storageKnown) else before
  }

  // n whole sessions one after the other, stopping at the first failure.
  function PlaceSessions(h: Headroom, cs: seq<Component>, n: nat, replicas: nat, storageKnown: bool): Attempt {
    if n == 0 then Attempt(true, h)
    else
      var before := PlaceSessions(h, cs, n - 1, replicas, storageKnown);
      if before.ok then PlaceAll(before.left, cs, replicas, storageKnown) else before
  }
}

// Replica placement is optimal, pod placement of one component is optimal.
module Optimality {
  import opened Division
  import opened Placement

  function Min(a: int, b: int): int { if a <= b then a else b }

  // How many of the next n equal shares fit in x; a free share always fits.
  function Room(x: int, cost: nat, n: nat): (r: nat)
    ensures r <= n
  {
    if x < 0 then 0 else if cost == 0 then n else Min(n, x / cost)
  }

  lemma RoomAfterTake(x: int, cost: nat, n: nat)
    requires x >= cost && n > 0
    ensures Room(x - cost, cost, n - 1) == Room(x, cost, n) - 1
  {
    if cost != 0 {
      var q, r := x / cost, x % cost;
      assert x == q * cost + r;
      if q == 0 {
        assert false;
      }
      assert x - cost == (q - 1) * cost + r;
      QuotientIs(x - cost, cost, q - 1, r);
    }
  }

  lemma RoomOfOneMore(x: int, cost: nat, n: nat)
    requires n > 0
    ensures Room(x, cost, n) == Room(x, cost, n - 1) + if Room(x, cost, n) == n then 1 else 0
  {
  }

  lemma RoomOfOne(x: int, cost: nat)
    ensures Room(x, cost, 1) == 1 <==> x >= cost
  {
    if cost != 0 && 0 <= x {
      if x < cost {
        assert x / cost == 0;
      } else {
        RoomAfterTake(x, cost, 1);
      }
    }
  }

  lemma RoomConcave(x: int, cost: nat, n: nat)
    ensures Room(x, cost, n) <= n * Room(x, cost, 1)
  {
    RoomOfOne(x, cost);
    if Room(x, cost, 1) == 0 && 0 <= x {
      assert x / cost == 0;
    }
  }

  // Replicas of n volumes the first d disks can take, at most n on each.
  function DiskRoom(disks: seq<DiskFree>, size: nat, n: nat, d: nat): (r: nat)
    requires d <= |disks|
  {
    if d == 0 then 0 else DiskRoom(disks, size, n, d - 1) + Room(disks[d - 1], size, n)
  }

  // Members of `chosen` among the first d indexes.
  function Members(chosen: seq<nat>, d: nat): nat {
    if d == 0 then 0 else Members(chosen, d - 1) + if d - 1 in chosen then 1 else 0
  }

  lemma {:induction false} MembersAdd(chosen: seq<nat>, b: nat, d: nat)
    requires b !in chosen
    ensures Members(chosen + [b], d) == Members(chosen, d) + if b < d then 1 else 0
  {
    if d != 0 {
      MembersAdd(chosen, b, d - 1);
    }
  }

  lemma {:induction false} MembersAll(chosen: seq<nat>, d: nat)
    requires Distinct(chosen) && forall i :: i in chosen ==> i < d
    ensures Members(chosen, d) == |chosen|
  {
    if chosen == [] {
      NoMembers(chosen, d);
    } else {
      var init, b := chosen[..|chosen| - 1], chosen[|chosen| - 1];
      assert chosen == init + [b];
      assert b in chosen && forall i :: i in init ==> i in chosen;
      MembersAll(init, d);
      MembersAdd(init, b, d);
    }
  }

  lemma {:induction false} NoMembers(chosen: seq<nat>, d: nat)
    requires chosen == []
    ensures Members(chosen, d) == 0
  {
    if d != 0 {
      NoMembers(chosen, d - 1);
    }
  }

  // Disks that lose one share when a volume is placed and one round is over.
  function Spent(disks: seq<DiskFree>, size: nat, chosen: seq<nat>, n: nat, d: nat): nat
    requires d <= |disks|
  {
    if d == 0 then 0
    else Spent(disks, size, chosen, n, d - 1) + (if d - 1 in chosen || Room(disks[d - 1], size, n) == n then 1 else 0)
  }

  lemma {:induction false} RoomBalance(disks: seq<DiskFree>, size: nat, chosen: seq<nat>, n: nat, d: nat)
    requires n > 0 && d <= |disks|
    requires forall i :: i in chosen ==> i < |disks| && disks[i] >= size
    ensures DiskRoom(disks, size, n, d)
         == DiskRoom(TakeDisks(disks, size, chosen), size, n - 1, d) + Spent(disks, size, chosen, n, d)
  {
    if d != 0 {
      RoomBalance(disks, size, chosen, n, d - 1);
      if d - 1 in chosen {
        RoomAfterTake(disks[d - 1], size, n);
      } else {
        RoomOfOneMore(disks[d - 1], size, n);
      }
    }
  }

  lemma {:induction false} SpentAtLeast(disks: seq<DiskFree>, size: nat, chosen: seq<nat>, n: nat, d: nat)
    requires d <= |disks|
    ensures Spent(disks, size, chosen, n, d) >= Members(chosen, d)
    ensures Spent(disks, size, chosen, n, d) > Members(chosen, d) ==>
      exists i :: 0 <= i < d && i !in chosen && Room(disks[i], size, n) == n
  {
    if d != 0 {
      SpentAtLeast(disks, size, chosen, n, d - 1);
    }
  }

  lemma MulSuccessor(n: nat, m: nat)
    ensures n * (m + 1) == n * m + n
  {
  }

  lemma {:induction false} FullRoom(disks: seq<DiskFree>, size: nat, chosen: seq<nat>, n: nat, d: nat)
    requires d <= |disks|
    requires forall i :: i in chosen ==> i < |disks| && Room(disks[i], size, n) == n
    ensures DiskRoom(disks, size, n, d) >= n * Members(chosen, d)
  {
    if d != 0 {
      FullRoom(disks, size, chosen, n, d - 1);
      MulSuccessor(n, Members(chosen, d - 1));
    }
  }

  lemma RoomMonotone(x: int, y: int, cost: nat, n: nat)
    requires x <= y
    ensures Room(x, cost, n) <= Room(y, cost, n)
  {
    if 0 <= x && cost != 0 {
      DivMonotone(x, y, cost);
    }
  }

  // Worst-fit keeps every reachable optimum: n volumes fit before a placement
  // exactly when n - 1 fit after it.
  lemma DiskStep(disks: seq<DiskFree>, size: nat, k: nat, n: nat)
    requires n > 0 && |ChooseDisks(disks, size, k)| == k
    ensures var left := TakeDisks(disks, size, ChooseDisks(disks, size, k));
      DiskRoom(disks, size, n, |disks|) >= k * n <==> DiskRoom(left, size, n - 1, |disks|) >= k * (n - 1)
  {
    var chosen := ChooseDisks(disks, size, k);
    var left := TakeDisks(disks, size, chosen);
    var spent := Spent(disks, size, chosen, n, |disks|);
    RoomBalance(disks, size, chosen, n, |disks|);
    SpentAtLeast(disks, size, chosen, n, |disks|);
    MembersAll(chosen, |disks|);
    if spent > k {
      OthersAreFull(disks, size, k, n);
      FullRoom(left, size, chosen, n - 1, |disks|);
    }
    RoundArithmetic(DiskRoom(disks, size, n, |disks|), DiskRoom(left, size, n - 1, |disks|), spent, k, n);
  }

  lemma RoundArithmetic(before: nat, after: nat, spent: nat, k: nat, n: nat)
    requires n > 0 && before == after + spent && spent >= k
    requires spent > k ==> after >= (n - 1) * k
    ensures before >= k * n <==> after >= k * (n - 1)
  {
    assert k * n == k * (n - 1) + k;
  }

  // A full disk left aside means that every chosen disk was full.
  lemma OthersAreFull(disks: seq<DiskFree>, size: nat, k: nat, n: nat)
    requires n > 0
    requires var chosen := ChooseDisks(disks, size, k);
      exists i :: 0 <= i < |disks| && i !in chosen && Room(disks[i], size, n) == n
    ensures var chosen := ChooseDisks(disks, size, k);
      forall i :: i in chosen ==> Room(TakeDisks(disks, size, chosen)[i], size, n - 1) == n - 1
  {
    var chosen := ChooseDisks(disks, size, k);
    var f :| 0 <= f < |disks| && f !in chosen && Room(disks[f], size, n) == n;
    RoomOfOne(disks[f], size);
    RoomConcave(disks[f], size, n);
    assert disks[f] >= size;
    forall i | i in chosen
      ensures Room(TakeDisks(disks, size, chosen)[i], size, n - 1) == n - 1
    {
      RoomMonotone(disks[f], disks[i], size, n);
      RoomAfterTake(disks[i], size, n);
    }
  }

  lemma {:induction false} RoomOfOneVolume(disks: seq<DiskFree>, size: nat, chosen: seq<nat>, d: nat)
    requires d <= |disks|
    ensures (forall i :: i in chosen ==> i < |disks| && disks[i] >= size) ==> DiskRoom(disks, size, 1, d) >= Members(chosen, d)
    ensures (forall i :: 0 <= i < |disks| && i !in chosen ==> disks[i] < size) ==> DiskRoom(disks, size, 1, d) <= Members(chosen, d)
  {
    if d != 0 {
      RoomOfOneVolume(disks, size, chosen, d - 1);
      RoomOfOne(disks[d - 1], size);
    }
  }

  // One volume places exactly when k disks have room for a replica.
  lemma DiskFirst(disks: seq<DiskFree>, size: nat, k: nat)
    ensures |ChooseDisks(disks, size, k)| == k <==> DiskRoom(disks, size, 1, |disks|) >= k
  {
    var chosen := ChooseDisks(disks, size, k);
    RoomOfOneVolume(disks, size, chosen, |disks|);
    MembersAll(chosen, |disks|);
  }

  lemma MulDistributes(n: nat, a: nat, b: nat)
    ensures n * (a + b) == n * a + n * b
  {
  }

  lemma {:induction false} DiskConcave(disks: seq<DiskFree>, size: nat, n: nat, d: nat)
    requires d <= |disks|
    ensures DiskRoom(disks, size, n, d) <= n * DiskRoom(disks, size, 1, d)
  {
    if d != 0 {
      DiskConcave(disks, size, n, d - 1);
      RoomConcave(disks[d - 1], size, n);
      MulDistributes(n, DiskRoom(disks, size, 1, d - 1), Room(disks[d - 1], size, 1));
    }
  }

  lemma CancelFactor(n: nat, k: nat, x: nat)
    requires n > 0 && k * n <= n * x
    ensures k <= x
  {
    assert n * (x - k) >= 0;
    assert x < k ==> n * (k - x) >= n;
  }

  // If n volumes fit at all, the next placement succeeds.
  lemma DiskProgress(disks: seq<DiskFree>, size: nat, k: nat, n: nat)
    requires n > 0 && DiskRoom(disks, size, n, |disks|) >= k * n
    ensures |ChooseDisks(disks, size, k)| == k
  {
    DiskConcave(disks, size, n, |disks|);
    CancelFactor(n, k, DiskRoom(disks, size, 1, |disks|));
    DiskFirst(disks, size, k);
  }

  // The same count for pods of one component: node i takes Room of it in both
  // resources at once.
  function NodeRoom(node: NodeFree, c: Component, n: nat): (r: nat)
    requires c.cpu >= 0 && c.mem >= 0
    ensures r <= n
  {
    Min(Room(node.cpu, c.cpu, n), Room(node.mem, c.mem, n))
  }

  function PodRoom(nodes: seq<NodeFree>, c: Component, n: nat, d: nat): (r: nat)
    requires c.cpu >= 0 && c.mem >= 0 && d <= |nodes|
  {
    if d == 0 then 0 else PodRoom(nodes, c, n, d - 1) + NodeRoom(nodes[d - 1], c, n)
  }

  lemma NodeRoomAfterTake(node: NodeFree, c: Component, n: nat)
    requires c.cpu >= 0 && c.mem >= 0 && PodFits(node, c) && n > 0
    ensures NodeRoom(TakePod(node, c), c, n - 1) == NodeRoom(node, c, n) - 1
  {
    RoomAfterTake(node.cpu, c.cpu, n);
    RoomAfterTake(node.mem, c.mem, n);
  }

  // Taking a pod from node b: either some other node alone still offers the
  // whole remaining round, or the total falls by exactly one.
  lemma {:induction false} PodBalance(nodes: seq<NodeFree>, c: Component, b: nat, n: nat, d: nat)
    requires c.cpu >= 0 && c.mem >= 0 && n > 0 && d <= |nodes|
    requires b < |nodes| && PodFits(nodes[b], c)
    ensures var left := nodes[b := TakePod(nodes[b], c)];
      var before, after, taken := PodRoom(nodes, c, n, d), PodRoom(left, c, n - 1, d), if b < d then 1 else 0;
      before >= after + taken && (before == after + taken || after >= n - 1)
  {
    if d != 0 {
      PodBalance(nodes, c, b, n, d - 1);
      var node := nodes[d - 1];
      if d - 1 == b {
        NodeRoomAfterTake(node, c, n);
      } else {
        RoomOfOneMore(node.cpu, c.cpu, n);
        RoomOfOneMore(node.mem, c.mem, n);
      }
    }
  }

  lemma {:induction false} NoPodRoom(nodes: seq<NodeFree>, c: Component, n: nat, d: nat)
    requires c.cpu >= 0 && c.mem >= 0 && d <= |nodes|
    requires forall i :: 0 <= i < |nodes| ==> !PodFits(nodes[i], c)
    ensures PodRoom(nodes, c, n, d) == 0
  {
    if d != 0 {
      NoPodRoom(nodes, c, n, d - 1);
      RoomOfOne(nodes[d - 1].cpu, c.cpu);
      RoomOfOne(nodes[d - 1].mem, c.mem);
      RoomConcave(nodes[d - 1].cpu, c.cpu, n);
      RoomConcave(nodes[d - 1].mem, c.mem, n);
    }
  }

  // n pods fit before a placement exactly when it succeeds and n - 1 fit after,
  // whichever fitting node was picked.
  lemma PodStep(nodes: seq<NodeFree>, c: Component, n: nat)
    requires c.cpu >= 0 && c.mem >= 0 && n > 0
    ensures var b := BestNode(nodes, c, |nodes|);
      PodRoom(nodes, c, n, |nodes|) >= n <==>
      b != -1 && PodRoom(nodes[b := TakePod(nodes[b], c)], c, n - 1, |nodes|) >= n - 1
  {
    var b := BestNode(nodes, c, |nodes|);
    if b == -1 {
      NoPodRoom(nodes, c, n, |nodes|);
    } else {
      PodBalance(nodes, c, b, n, |nodes|);
    }
  }
}

// What the session counts mean.
module SessionCount {
  import opened Placement
  import opened Optimality

  // `count` is the largest number of sessions, up to the bound, that place one
  // after the other.
  predicate IsCount(h: Headroom, cs: seq<Component>, replicas: nat, known: bool, count: nat) {
    && count <= MAX_SESSIONS
    && PlaceSessions(h, cs, count, replicas, known).ok
    && (count < MAX_SESSIONS ==> !PlaceSessions(h, cs, count + 1, replicas, known).ok)
  }

  lemma {:induction false} PlaceSessionsSplit(h: Headroom, cs: seq<Component>, a: nat, b: nat, replicas: nat, known: bool)
    ensures var first := PlaceSessions(h, cs, a, replicas, known);
      PlaceSessions(h, cs, a + b, replicas, known) ==
      if first.ok then PlaceSessions(first.left, cs, b, replicas, known) else first
  {
    if b != 0 {
      PlaceSessionsSplit(h, cs, a, b - 1, replicas, known);
    }
  }

  lemma PlaceFewer(h: Headroom, cs: seq<Component>, n: nat, m: nat, replicas: nat, known: bool)
    requires n <= m && PlaceSessions(h, cs, m, replicas, known).ok
    ensures PlaceSessions(h, cs, n, replicas, known).ok
  {
    PlaceSessionsSplit(h, cs, n, m - n, replicas, known);
  }

  // Reserving n sessions succeeds exactly when n is at most the estimate, and
  // the estimate on what is left is the difference.
  lemma ReserveAgrees(h: Headroom, cs: seq<Component>, n: nat, count: nat, replicas: nat, known: bool)
    requires n <= MAX_SESSIONS && IsCount(h, cs, replicas, known, count)
    ensures PlaceSessions(h, cs, n, replicas, known).ok <==> n <= count
    ensures n <= count < MAX_SESSIONS ==>
      IsCount(PlaceSessions(h, cs, n, replicas, known).left, cs, replicas, known, count - n)
  {
    if n <= count {
      PlaceFewer(h, cs, n, count, replicas, known);
      PlaceSessionsSplit(h, cs, n, count - n, replicas, known);
      PlaceSessionsSplit(h, cs, n, count + 1 - n, replicas, known);
    } else if PlaceSessions(h, cs, n, replicas, known).ok {
      PlaceFewer(h, cs, count + 1, n, replicas, known);
    }
  }

  lemma CountUnique(h: Headroom, cs: seq<Component>, a: nat, b: nat, replicas: nat, known: bool)
    requires IsCount(h, cs, replicas, known, a) && IsCount(h, cs, replicas, known, b)
    ensures a == b
  {
    ReserveAgrees(h, cs, a, b, replicas, known);
    ReserveAgrees(h, cs, b, a, replicas, known);
  }

  // The disks can take the replicas of n volumes.
  predicate VolumesFit(h: Headroom, c: Component, k: nat, known: bool, n: nat) {
    known && c.storage > 0 ==> DiskRoom(h.disks, c.storage, n, |h.disks|) >= k * n
  }

  // Room for n sessions of a one-component mode, resource by resource.
  predicate HasRoom(h: Headroom, c: Component, k: nat, known: bool, n: nat)
    requires c.cpu >= 0 && c.mem >= 0
  {
    && PodRoom(h.nodes, c, n, |h.nodes|) >= n
    && VolumesFit(h, c, k, known, n)
  }

  lemma {:induction false} OneComponentStep(h: Headroom, c: Component, k: nat, known: bool, n: nat)
    requires c.cpu >= 0 && c.mem >= 0 && n > 0
    ensures var first := PlaceComponent(h, c, k, known);
      HasRoom(h, c, k, known, n) <==> first.ok && HasRoom(first.left, c, k, known, n - 1)
  {
    PodStep(h.nodes, c, n);
    if known && c.storage > 0 {
      if DiskRoom(h.disks, c.storage, n, |h.disks|) >= k * n {
        DiskProgress(h.disks, c.storage, k, n);
      }
      if |ChooseDisks(h.disks, c.storage, k)| == k {
        DiskStep(h.disks, c.storage, k, n);
      }
    }
  }

  // Greedy placement of one component is optimal: n sessions place exactly when
  // there is room for them in the sense of HasRoom.
  lemma {:induction false} OneComponentOptimal(h: Headroom, c: Component, k: nat, known: bool, n: nat)
    requires c.cpu >= 0 && c.mem >= 0
    ensures PlaceSessions(h, [c], n, k, known).ok <==> HasRoom(h, c, k, known, n)
    decreases n
  {
    if n != 0 {
      var first := PlaceComponent(h, c, k, known);
      FirstSession(h, c, n, k, known);
      OneComponentStep(h, c, k, known, n);
      OneComponentOptimal(first.left, c, k, known, n - 1);
    }
  }

  lemma SingleSession(h: Headroom, c: Component, k: nat, known: bool)
    ensures PlaceSessions(h, [c], 1, k, known) == PlaceComponent(h, c, k, known)
  {
    assert [c][..0] == [];
    assert PlaceAll(h, [c], k, known) == PlaceComponent(h, c, k, known);
    assert PlaceSessions(h, [c], 0, k, known) == Attempt(true, h);
  }

  lemma FirstSession(h: Headroom, c: Component, n: nat, k: nat, known: bool)
    requires n > 0
    ensures var first := PlaceComponent(h, c, k, known);
      PlaceSessions(h, [c], n, k, known).ok <==> first.ok && PlaceSessions(first.left, [c], n - 1, k, known).ok
  {
    PlaceSessionsSplit(h, [c], 1, n - 1, k, known);
    SingleSession(h, c, k, known);
  }

  // The count of a one-component mode is the minimum of the bound, the pod
  // optimum and the replica optimum.
  lemma OneComponentCount(h: Headroom, c: Component, k: nat, known: bool, count: nat, n: nat)
    requires c.cpu >= 0 && c.mem >= 0 && IsCount(h, [c], k, known, count)
    ensures n <= count <==> n <= 100_000 && HasRoom(h, c, k, known, n)
  {
    if n <= MAX_SESSIONS {
      ReserveAgrees(h, [c], n, count, k, known);
      OneComponentOptimal(h, c, k, known, n);
    }
  }

  // Whole pods that fit in a node of known free resources.
  function Slots(node: NodeFree, c: Component): nat
    requires c.cpu > 0 && c.mem > 0
  {
    if node.cpu < 0 || node.mem < 0 then 0 else Min(node.cpu / c.cpu, node.mem / c.mem)
  }

  function TotalSlots(nodes: seq<NodeFree>, c: Component, d: nat): nat
    requires c.cpu > 0 && c.mem > 0 && d <= |nodes|
  {
    if d == 0 then 0 else TotalSlots(nodes, c, d - 1) + Slots(nodes[d - 1], c)
  }

  lemma {:induction false} PodRoomIsSlots(nodes: seq<NodeFree>, c: Component, n: nat, d: nat)
    requires c.cpu > 0 && c.mem > 0 && d <= |nodes|
    ensures PodRoom(nodes, c, n, d) <= TotalSlots(nodes, c, d)
    ensures PodRoom(nodes, c, n, d) >= n || PodRoom(nodes, c, n, d) == TotalSlots(nodes, c, d)
  {
    if d != 0 {
      PodRoomIsSlots(nodes, c, n, d - 1);
      assert NodeRoom(nodes[d - 1], c, n) == Min(n, Slots(nodes[d - 1], c));
    }
  }

  // With positive costs the pod optimum is the number of slots, summed over the
  // nodes in any order.
  lemma OneComponentSlots(h: Headroom, c: Component, k: nat, known: bool, count: nat, n: nat)
    requires c.cpu > 0 && c.mem > 0 && IsCount(h, [c], k, known, count)
    ensures n <= count <==>
      && n <= MAX_SESSIONS
      && n <= TotalSlots(h.nodes, c, |h.nodes|)
      && VolumesFit(h, c, k, known, n)
  {
    OneComponentCount(h, c, k, known, count, n);
    PodRoomIsSlots(h.nodes, c, n, |h.nodes|);
  }

  // Pods that cost nothing fit wherever nothing is overdrawn.
  lemma {:induction false} FreePodRoom(nodes: seq<NodeFree>, c: Component, n: nat, d: nat)
    requires c.cpu == 0 && c.mem == 0 && d <= |nodes|
    ensures PodRoom(nodes, c, n, d) >= n <==> n == 0 || exists i :: 0 <= i < d && nodes[i].cpu >= 0 && nodes[i].mem >= 0
    ensures PodRoom(nodes, c, n, d) >= n || PodRoom(nodes, c, n, d) == 0
  {
    if d != 0 {
      FreePodRoom(nodes, c, n, d - 1);
    }
  }

  // By storage alone, replicas on distinct disks: on nodes not all overdrawn the
  // count is the largest n within the bound for which the sum over the disks of
  // min(n, disk / size) is at least replicas times n.
  lemma StorageOptimal(h: Headroom, c: Component, k: nat, count: nat, n: nat)
    requires c.storage > 0 && IsCount(h, [StorageOnly(c)], k, true, count)
    ensures n <= count <==>
      && n <= MAX_SESSIONS
      && (n == 0 || exists i :: 0 <= i < |h.nodes| && h.nodes[i].cpu >= 0 && h.nodes[i].mem >= 0)
      && DiskRoom(h.disks, c.storage, n, |h.disks|) >= k * n
  {
    OneComponentCount(h, StorageOnly(c), k, true, count, n);
    FreePodRoom(h.nodes, StorageOnly(c), n, |h.nodes|);
  }

  function CpuOnly(c: Component): Component { Component(c.name, c.cpu, 0, 0) }

  function MemOnly(c: Component): Component { Component(c.name, 0, c.mem, 0) }

  function StorageOnly(c: Component): Component { Component(c.name, 0, 0, c.storage) }

  lemma {:induction false} CheaperPodRoom(nodes: seq<NodeFree>, c: Component, n: nat, d: nat)
    requires c.cpu >= 0 && c.mem >= 0 && d <= |nodes|
    ensures PodRoom(nodes, c, n, d) <= PodRoom(nodes, CpuOnly(c), n, d)
    ensures PodRoom(nodes, c, n, d) <= PodRoom(nodes, MemOnly(c), n, d)
    ensures PodRoom(nodes, c, n, d) <= PodRoom(nodes, StorageOnly(c), n, d)
  {
    if d != 0 {
      CheaperPodRoom(nodes, c, n, d - 1);
    }
  }

  // Figures of one estimate; storage is -1 when it is unknown.
  datatype Estimate = Estimate(count: nat, byCpu: nat, byMemory: nat, byStorage: int, limiting: string)

  // Each component with its own CPU, memory or storage, and nothing else.
  predicate CpuShare(cs: seq<Component>, share: seq<Component>) {
    |share| == |cs| && forall i :: 0 <= i < |cs| ==> share[i] == Component(cs[i].name, cs[i].cpu, 0, 0)
  }

  predicate MemShare(cs: seq<Component>, share: seq<Component>) {
    |share| == |cs| && forall i :: 0 <= i < |cs| ==> share[i] == Component(cs[i].name, 0, cs[i].mem, 0)
  }

  predicate StorageShare(cs: seq<Component>, share: seq<Component>) {
    |share| == |cs| && forall i :: 0 <= i < |cs| ==> share[i] == Component(cs[i].name, 0, 0, cs[i].storage)
  }

  // The single-resource figures: how many sessions fit by that resource alone.
  ghost predicate IsByCpu(h: Headroom, cs: seq<Component>, k: nat, figure: nat) {
    forall share :: CpuShare(cs, share) ==> IsCount(Headroom(h.nodes, []), share, k, false, figure)
  }

  ghost predicate IsByMemory(h: Headroom, cs: seq<Component>, k: nat, figure: nat) {
    forall share :: MemShare(cs, share) ==> IsCount(Headroom(h.nodes, []), share, k, false, figure)
  }

  // -1 where the disks are not known.
  ghost predicate IsByStorage(h: Headroom, cs: seq<Component>, k: nat, known: bool, figure: int) {
    if known then figure >= 0 && forall share :: StorageShare(cs, share) ==> IsCount(h, share, k, true, figure)
    else figure == -1
  }

  // What the four figures of an estimate mean.
  ghost predicate IsEstimate(h: Headroom, cs: seq<Component>, k: nat, known: bool, e: Estimate) {
    && IsCount(h, cs, k, known, e.count)
    && IsByCpu(h, cs, k, e.byCpu) && IsByMemory(h, cs, k, e.byMemory) && IsByStorage(h, cs, k, known, e.byStorage)
    && IsLimiting(e, e.limiting)
  }

  // The resource of the smallest figure; on a tie CPU before memory before storage.
  predicate IsLimiting(e: Estimate, name: string) {
    || (name == "cpu" && e.byCpu == LimitingFigure(e))
    || (name == "memory" && e.byMemory == LimitingFigure(e) < e.byCpu)
    || (name == "storage" && e.byStorage >= 0 && e.byStorage == LimitingFigure(e) < e.byCpu && e.byStorage < e.byMemory)
  }

  function LimitingFigure(e: Estimate): int {
    if e.byStorage >= 0 then Min(e.byStorage, Min(e.byCpu, e.byMemory)) else Min(e.byCpu, e.byMemory)
  }

  // The shares are determined by the components: one list of them is enough.
  lemma ByCpuIs(h: Headroom, cs: seq<Component>, share: seq<Component>, k: nat, figure: nat)
    requires CpuShare(cs, share) && IsCount(Headroom(h.nodes, []), share, k, false, figure)
    ensures IsByCpu(h, cs, k, figure)
  {
    forall other | CpuShare(cs, other)
      ensures IsCount(Headroom(h.nodes, []), other, k, false, figure)
    {
      assert other == share;
    }
  }

  lemma ByMemoryIs(h: Headroom, cs: seq<Component>, share: seq<Component>, k: nat, figure: nat)
    requires MemShare(cs, share) && IsCount(Headroom(h.nodes, []), share, k, false, figure)
    ensures IsByMemory(h, cs, k, figure)
  {
    forall other | MemShare(cs, other)
      ensures IsCount(Headroom(h.nodes, []), other, k, false, figure)
    {
      assert other == share;
    }
  }

  lemma ByStorageIs(h: Headroom, cs: seq<Component>, share: seq<Component>, k: nat, figure: nat)
    requires StorageShare(cs, share) && IsCount(h, share, k, true, figure)
    ensures IsByStorage(h, cs, k, true, figure)
  {
    forall other | StorageShare(cs, other)
      ensures IsCount(h, other, k, true, figure)
    {
      assert other == share;
    }
  }

  // There are such shares, one of each, so the figures are determined.
  lemma FiguresUnique(h: Headroom, cs: seq<Component>, k: nat, known: bool, e: Estimate, e': Estimate)
    requires IsEstimate(h, cs, k, known, e) && IsEstimate(h, cs, k, known, e')
    ensures e.count == e'.count && e.byCpu == e'.byCpu && e.byMemory == e'.byMemory && e.byStorage == e'.byStorage
    ensures e.limiting == e'.limiting
  {
    var free := Headroom(h.nodes, []);
    var cpu := seq(|cs|, i requires 0 <= i < |cs| => CpuOnly(cs[i]));
    var mem := seq(|cs|, i requires 0 <= i < |cs| => MemOnly(cs[i]));
    var storage := seq(|cs|, i requires 0 <= i < |cs| => StorageOnly(cs[i]));
    assert CpuShare(cs, cpu) && MemShare(cs, mem) && StorageShare(cs, storage);
    CountUnique(h, cs, e.count, e'.count, k, known);
    CountUnique(free, cpu, e.byCpu, e'.byCpu, k, false);
    CountUnique(free, mem, e.byMemory, e'.byMemory, k, false);
    if known {
      CountUnique(h, storage, e.byStorage, e'.byStorage, k, true);
    }
  }

  lemma FiguresOfOne(h: Headroom, c: Component, k: nat, known: bool, e: Estimate)
    requires IsEstimate(h, [c], k, known, e)
    ensures IsCount(Headroom(h.nodes, []), [CpuOnly(c)], k, false, e.byCpu)
    ensures IsCount(Headroom(h.nodes, []), [MemOnly(c)], k, false, e.byMemory)
    ensures known ==> e.byStorage >= 0 && IsCount(h, [StorageOnly(c)], k, true, e.byStorage)
  {
    assert CpuShare([c], [CpuOnly(c)]) && MemShare([c], [MemOnly(c)]) && StorageShare([c], [StorageOnly(c)]);
  }

  // One component: no single-resource figure is below the count.
  lemma CountIsLowerBound(h: Headroom, c: Component, k: nat, known: bool, e: Estimate)
    requires c.cpu >= 0 && c.mem >= 0 && IsEstimate(h, [c], k, known, e)
    ensures e.count <= LimitingFigure(e)
  {
    var n, free := e.count, Headroom(h.nodes, []);
    FiguresOfOne(h, c, k, known, e);
    CheaperPodRoom(h.nodes, c, n, |h.nodes|);
    OneComponentCount(h, c, k, known, n, n);
    OneComponentCount(free, CpuOnly(c), k, false, e.byCpu, n);
    OneComponentCount(free, MemOnly(c), k, false, e.byMemory, n);
    if known {
      OneComponentCount(h, StorageOnly(c), k, true, e.byStorage, n);
    }
  }

  predicate NonNegative(nodes: seq<NodeFree>) {
    forall i :: 0 <= i < |nodes| ==> nodes[i].cpu >= 0 && nodes[i].mem >= 0
  }

  function CpuSlots(nodes: seq<NodeFree>, c: Component, d: nat): nat
    requires c.cpu > 0 && d <= |nodes| && NonNegative(nodes)
  {
    if d == 0 then 0 else CpuSlots(nodes, c, d - 1) + nodes[d - 1].cpu / c.cpu
  }

  function MemSlots(nodes: seq<NodeFree>, c: Component, d: nat): nat
    requires c.mem > 0 && d <= |nodes| && NonNegative(nodes)
  {
    if d == 0 then 0 else MemSlots(nodes, c, d - 1) + nodes[d - 1].mem / c.mem
  }

  lemma {:induction false} SingleResourceRoom(nodes: seq<NodeFree>, c: Component, n: nat, d: nat)
    requires c.cpu > 0 && c.mem > 0 && d <= |nodes| && NonNegative(nodes)
    ensures PodRoom(nodes, CpuOnly(c), n, d) <= CpuSlots(nodes, c, d)
    ensures PodRoom(nodes, CpuOnly(c), n, d) >= n || PodRoom(nodes, CpuOnly(c), n, d) == CpuSlots(nodes, c, d)
    ensures PodRoom(nodes, MemOnly(c), n, d) <= MemSlots(nodes, c, d)
    ensures PodRoom(nodes, MemOnly(c), n, d) >= n || PodRoom(nodes, MemOnly(c), n, d) == MemSlots(nodes, c, d)
    ensures d > 0 ==> PodRoom(nodes, StorageOnly(c), n, d) >= n
  {
    if d != 0 {
      SingleResourceRoom(nodes, c, n, d - 1);
      assert NodeRoom(nodes[d - 1], CpuOnly(c), n) == Min(n, nodes[d - 1].cpu / c.cpu);
      assert NodeRoom(nodes[d - 1], MemOnly(c), n) == Min(n, nodes[d - 1].mem / c.mem);
      assert NodeRoom(nodes[d - 1], StorageOnly(c), n) == n;
    }
  }

  predicate CpuScarcer(nodes: seq<NodeFree>, c: Component, d: nat)
    requires c.cpu > 0 && c.mem > 0 && d <= |nodes| && NonNegative(nodes)
  {
    forall i :: 0 <= i < d ==> nodes[i].cpu / c.cpu <= nodes[i].mem / c.mem
  }

  predicate MemScarcer(nodes: seq<NodeFree>, c: Component, d: nat)
    requires c.cpu > 0 && c.mem > 0 && d <= |nodes| && NonNegative(nodes)
  {
    forall i :: 0 <= i < d ==> nodes[i].mem / c.mem <= nodes[i].cpu / c.cpu
  }

  lemma {:induction false} ScarcerEverywhere(nodes: seq<NodeFree>, c: Component, d: nat)
    requires c.cpu > 0 && c.mem > 0 && d <= |nodes| && NonNegative(nodes)
    ensures TotalSlots(nodes, c, d) <= CpuSlots(nodes, c, d)
    ensures TotalSlots(nodes, c, d) <= MemSlots(nodes, c, d)
    ensures TotalSlots(nodes, c, d) == CpuSlots(nodes, c, d) <==> CpuScarcer(nodes, c, d)
    ensures TotalSlots(nodes, c, d) == MemSlots(nodes, c, d) <==> MemScarcer(nodes, c, d)
  {
    if d != 0 {
      ScarcerEverywhere(nodes, c, d - 1);
      assert CpuScarcer(nodes, c, d) <==> CpuScarcer(nodes, c, d - 1) && nodes[d - 1].cpu / c.cpu <= nodes[d - 1].mem / c.mem;
      assert MemScarcer(nodes, c, d) <==> MemScarcer(nodes, c, d - 1) && nodes[d - 1].mem / c.mem <= nodes[d - 1].cpu / c.cpu;
    }
  }

  // Neither the bound nor the disks stop one session more than the nodes hold.
  predicate RoomBeyond(h: Headroom, c: Component, k: nat, known: bool)
    requires c.cpu > 0 && c.mem > 0
  {
    var n := TotalSlots(h.nodes, c, |h.nodes|) + 1;
    n <= MAX_SESSIONS && VolumesFit(h, c, k, known, n)
  }

  lemma FigureIs(h: Headroom, c: Component, k: nat, known: bool, e: Estimate, n: nat)
    requires c.cpu > 0 && c.mem > 0 && NonNegative(h.nodes) && IsEstimate(h, [c], k, known, e)
    ensures n <= LimitingFigure(e) <==>
      && n <= MAX_SESSIONS
      && n <= CpuSlots(h.nodes, c, |h.nodes|) && n <= MemSlots(h.nodes, c, |h.nodes|)
      && VolumesFit(h, c, k, known, n)
  {
    var free := Headroom(h.nodes, []);
    FiguresOfOne(h, c, k, known, e);
    SingleResourceRoom(h.nodes, c, n, |h.nodes|);
    OneComponentCount(free, CpuOnly(c), k, false, e.byCpu, n);
    OneComponentCount(free, MemOnly(c), k, false, e.byMemory, n);
    if known {
      OneComponentCount(h, StorageOnly(c), k, true, e.byStorage, n);
    }
  }

  // `top` is the largest number within the bound, `limit` and the disks.
  ghost predicate IsTop(h: Headroom, c: Component, k: nat, known: bool, limit: nat, top: nat) {
    forall n: nat :: n <= top <==> n <= MAX_SESSIONS && n <= limit && VolumesFit(h, c, k, known, n)
  }

  lemma TopsMeetIff(h: Headroom, c: Component, k: nat, known: bool, slots: nat, count: nat, single: nat, figure: nat)
    requires slots <= single
    requires IsTop(h, c, k, known, slots, count) && IsTop(h, c, k, known, single, figure)
    ensures figure == count <==>
      slots == single || !(slots + 1 <= MAX_SESSIONS && VolumesFit(h, c, k, known, slots + 1))
  {
    assert VolumesFit(h, c, k, known, figure) && VolumesFit(h, c, k, known, count);
    if slots < single {
      assert slots + 1 <= figure <==> slots + 1 <= MAX_SESSIONS && VolumesFit(h, c, k, known, slots + 1);
      assert count + 1 <= figure ==> VolumesFit(h, c, k, known, count + 1);
    }
  }

  // When the limiting figure equals the count, as its comment suggests it
  // always does: exactly when one resource is the scarcer one on every node, or
  // storage or the bound stops the count no later than the nodes do.
  lemma LimitingFigureAgreesIff(h: Headroom, c: Component, k: nat, known: bool, e: Estimate)
    requires c.cpu > 0 && c.mem > 0 && NonNegative(h.nodes) && IsEstimate(h, [c], k, known, e)
    ensures LimitingFigure(e) == e.count <==>
      CpuScarcer(h.nodes, c, |h.nodes|) || MemScarcer(h.nodes, c, |h.nodes|) || !RoomBeyond(h, c, k, known)
  {
    var d := |h.nodes|;
    var slots, single := TotalSlots(h.nodes, c, d), Min(CpuSlots(h.nodes, c, d), MemSlots(h.nodes, c, d));
    ScarcerEverywhere(h.nodes, c, d);
    TopFigures(h, c, k, known, e);
    TopsMeetIff(h, c, k, known, slots, e.count, single, LimitingFigure(e));
  }

  lemma TopFigures(h: Headroom, c: Component, k: nat, known: bool, e: Estimate)
    requires c.cpu > 0 && c.mem > 0 && NonNegative(h.nodes) && IsEstimate(h, [c], k, known, e)
    ensures IsTop(h, c, k, known, TotalSlots(h.nodes, c, |h.nodes|), e.count)
    ensures LimitingFigure(e) >= 0
    ensures IsTop(h, c, k, known, Min(CpuSlots(h.nodes, c, |h.nodes|), MemSlots(h.nodes, c, |h.nodes|)), LimitingFigure(e))
  {
    var slots := TotalSlots(h.nodes, c, |h.nodes|);
    var single := Min(CpuSlots(h.nodes, c, |h.nodes|), MemSlots(h.nodes, c, |h.nodes|));
    var figure := LimitingFigure(e);
    forall n: nat
      ensures n <= figure <==> n <= MAX_SESSIONS && n <= single && VolumesFit(h, c, k, known, n)
    {
      FigureIs(h, c, k, known, e, n);
    }
    forall n: nat
      ensures n <= e.count <==> n <= MAX_SESSIONS && n <= slots && VolumesFit(h, c, k, known, n)
    {
      OneComponentSlots(h, c, k, known, e.count, n);
    }
    assert IsTop(h, c, k, known, slots, e.count) && IsTop(h, c, k, known, single, figure);
  }

  lemma SlotsOfTwo()
    ensures var nodes, c := [NodeFree(1, 10), NodeFree(10, 1)], Component("vta", 1, 1, 0);
      TotalSlots(nodes, c, 2) == 2 && CpuSlots(nodes, c, 2) == 11 && MemSlots(nodes, c, 2) == 11
  {
    var nodes, c := [NodeFree(1, 10), NodeFree(10, 1)], Component("vta", 1, 1, 0);
    assert TotalSlots(nodes, c, 0) == 0 && CpuSlots(nodes, c, 0) == 0 && MemSlots(nodes, c, 0) == 0;
    assert TotalSlots(nodes, c, 1) == 1 && CpuSlots(nodes, c, 1) == 1 && MemSlots(nodes, c, 1) == 10;
  }

  // A node short of CPU beside a node short of memory: both figures say 11,
  // two sessions fit.
  lemma LimitingFigureOverstates(e: Estimate)
    requires IsEstimate(Headroom([NodeFree(1, 10), NodeFree(10, 1)], []), [Component("vta", 1, 1, 0)], 1, false, e)
    ensures e.count == 2 && LimitingFigure(e) == 11
  {
    var nodes, c := [NodeFree(1, 10), NodeFree(10, 1)], Component("vta", 1, 1, 0);
    var h := Headroom(nodes, []);
    SlotsOfTwo();
    OneComponentSlots(h, c, 1, false, e.count, 2);
    OneComponentSlots(h, c, 1, false, e.count, 3);
    FigureIs(h, c, 1, false, e, 11);
    FigureIs(h, c, 1, false, e, 12);
  }
}

// Every counted session really fits, and nothing is lost or invented.
module Assignment {
  import opened Placement
  import opened Optimality
  import opened SessionCount

  // Where one pod and the replicas of its volume went.
  datatype Placed = Placed(c: Component, node: nat, disks: seq<nat>)

  function Repeat(cs: seq<Component>, n: nat): seq<Component> {
    if n == 0 then [] else Repeat(cs, n - 1) + cs
  }

  predicate HasVolume(c: Component, known: bool) { known && c.storage > 0 }

  // A node for the pod, and `k` distinct disks for its volume if it has one.
  predicate PlacedRight(p: Placed, c: Component, nodes: nat, disks: nat, k: nat, known: bool) {
    && p.c == c && p.node < nodes && Distinct(p.disks)
    && |p.disks| == (if HasVolume(c, known) then k else 0)
    && forall d :: d in p.disks ==> d < disks
  }

  ghost predicate Assigns(log: seq<Placed>, cs: seq<Component>, nodes: nat, disks: nat, k: nat, known: bool) {
    && |log| == |cs|
    && forall p :: 0 <= p < |log| ==> PlacedRight(log[p], cs[p], nodes, disks, k, known)
  }

  function CpuOn(log: seq<Placed>, i: nat): int {
    if log == [] then 0
    else CpuOn(log[..|log| - 1], i) + if log[|log| - 1].node == i then log[|log| - 1].c.cpu else 0
  }

  function MemOn(log: seq<Placed>, i: nat): int {
    if log == [] then 0
    else MemOn(log[..|log| - 1], i) + if log[|log| - 1].node == i then log[|log| - 1].c.mem else 0
  }

  function BytesOn(log: seq<Placed>, d: nat): int {
    if log == [] then 0
    else BytesOn(log[..|log| - 1], d) + if d in log[|log| - 1].disks then log[|log| - 1].c.storage else 0
  }

  ghost predicate Hosts(log: seq<Placed>, i: nat) { exists p :: 0 <= p < |log| && log[p].node == i }

  ghost predicate Stores(log: seq<Placed>, d: nat) { exists p :: 0 <= p < |log| && d in log[p].disks }

  // What the log took is what the headroom lost, and nothing in use is overdrawn.
  ghost predicate Accounts(h: Headroom, left: Headroom, log: seq<Placed>) {
    && |left.nodes| == |h.nodes| && |left.disks| == |h.disks|
    && (forall i :: 0 <= i < |h.nodes| ==>
        && left.nodes[i] == NodeFree(h.nodes[i].cpu - CpuOn(log, i), h.nodes[i].mem - MemOn(log, i))
        && (Hosts(log, i) ==> left.nodes[i].cpu >= 0 && left.nodes[i].mem >= 0))
    && (forall d :: 0 <= d < |h.disks| ==>
        && left.disks[d] == h.disks[d] - BytesOn(log, d)
        && (Stores(log, d) ==> left.disks[d] >= 0))
  }

  lemma HostsAppend(log: seq<Placed>, p: Placed, i: nat)
    ensures Hosts(log + [p], i) <==> Hosts(log, i) || p.node == i
    ensures Stores(log + [p], i) <==> Stores(log, i) || i in p.disks
  {
    var more := log + [p];
    assert more[|log|] == p;
    if Hosts(log, i) {
      var q :| 0 <= q < |log| && log[q].node == i;
      assert more[q].node == i;
    }
    if Stores(log, i) {
      var q :| 0 <= q < |log| && i in log[q].disks;
      assert i in more[q].disks;
    }
  }

  lemma LoadAppend(log: seq<Placed>, p: Placed, i: nat)
    ensures CpuOn(log + [p], i) == CpuOn(log, i) + if p.node == i then p.c.cpu else 0
    ensures MemOn(log + [p], i) == MemOn(log, i) + if p.node == i then p.c.mem else 0
    ensures BytesOn(log + [p], i) == BytesOn(log, i) + if i in p.disks then p.c.storage else 0
  {
    assert (log + [p])[..|log|] == log;
  }

  // Where PlaceComponent puts the component.
  function Placing(h: Headroom, c: Component, k: nat, known: bool): Placed
    requires PlaceComponent(h, c, k, known).ok
  {
    Placed(c, BestNode(h.nodes, c, |h.nodes|), if HasVolume(c, known) then ChooseDisks(h.disks, c.storage, k) else [])
  }

  lemma AccountsStep(h: Headroom, left: Headroom, log: seq<Placed>, c: Component, k: nat, known: bool)
    requires Accounts(h, left, log) && PlaceComponent(left, c, k, known).ok
    ensures Accounts(h, PlaceComponent(left, c, k, known).left, log + [Placing(left, c, k, known)])
  {
    var p := Placing(left, c, k, known);
    var left' := PlaceComponent(left, c, k, known).left;
    forall i | 0 <= i < |h.nodes|
      ensures left'.nodes[i] == NodeFree(h.nodes[i].cpu - CpuOn(log + [p], i), h.nodes[i].mem - MemOn(log + [p], i))
      ensures Hosts(log + [p], i) ==> left'.nodes[i].cpu >= 0 && left'.nodes[i].mem >= 0
    {
      HostsAppend(log, p, i);
      LoadAppend(log, p, i);
    }
    forall d | 0 <= d < |h.disks|
      ensures left'.disks[d] == h.disks[d] - BytesOn(log + [p], d)
      ensures Stores(log + [p], d) ==> left'.disks[d] >= 0
    {
      HostsAppend(log, p, d);
      LoadAppend(log, p, d);
    }
  }

  lemma PlacingIsRight(h: Headroom, c: Component, k: nat, known: bool)
    requires PlaceComponent(h, c, k, known).ok
    ensures PlacedRight(Placing(h, c, k, known), c, |h.nodes|, |h.disks|, k, known)
  {
  }

  lemma AssignsAppend(log: seq<Placed>, cs: seq<Component>, p: Placed, c: Component, nodes: nat, disks: nat, k: nat,
      known: bool)
    requires Assigns(log, cs, nodes, disks, k, known) && PlacedRight(p, c, nodes, disks, k, known)
    ensures Assigns(log + [p], cs + [c], nodes, disks, k, known)
  {
  }

  lemma PlaceLast(h: Headroom, cs: seq<Component>, k: nat, known: bool)
    requires cs != [] && PlaceAll(h, cs, k, known).ok
    ensures var before := PlaceAll(h, cs[..|cs| - 1], k, known);
      before.ok && PlaceAll(h, cs, k, known) == PlaceComponent(before.left, cs[|cs| - 1], k, known)
  {
  }

  // One more component, placed after `before`, leaves `left`.
  lemma PlacementStep(h: Headroom, before: Headroom, left: Headroom, log: seq<Placed>, cs: seq<Component>, k: nat, known: bool)
    requires cs != [] && Assigns(log, cs[..|cs| - 1], |h.nodes|, |h.disks|, k, known) && Accounts(h, before, log)
    requires PlaceComponent(before, cs[|cs| - 1], k, known) == Attempt(true, left)
    ensures var longer := log + [Placing(before, cs[|cs| - 1], k, known)];
      Assigns(longer, cs, |h.nodes|, |h.disks|, k, known) && Accounts(h, left, longer)
  {
    var init, c := cs[..|cs| - 1], cs[|cs| - 1];
    AccountsStep(h, before, log, c, k, known);
    PlacingIsRight(before, c, k, known);
    AssignsAppend(log, init, Placing(before, c, k, known), c, |h.nodes|, |h.disks|, k, known);
    assert init + [c] == cs;
  }

  lemma NothingPlaced(h: Headroom, k: nat, known: bool)
    ensures Assigns([], [], |h.nodes|, |h.disks|, k, known) && Accounts(h, h, [])
  {
  }

  lemma {:induction false} PlacementLog(h: Headroom, cs: seq<Component>, k: nat, known: bool) returns (log: seq<Placed>)
    requires PlaceAll(h, cs, k, known).ok
    ensures Assigns(log, cs, |h.nodes|, |h.disks|, k, known)
    ensures Accounts(h, PlaceAll(h, cs, k, known).left, log)
  {
    if cs == [] {
      log := [];
      NothingPlaced(h, k, known);
    } else {
      var init := cs[..|cs| - 1];
      PlaceLast(h, cs, k, known);
      var before, left := PlaceAll(h, init, k, known).left, PlaceAll(h, cs, k, known).left;
      var shorter := PlacementLog(h, init, k, known);
      log := shorter + [Placing(before, cs[|cs| - 1], k, known)];
      PlacementStep(h, before, left, shorter, cs, k, known);
    }
  }

  lemma {:induction false} PlaceAllConcat(h: Headroom, a: seq<Component>, b: seq<Component>, k: nat, known: bool)
    ensures var first := PlaceAll(h, a, k, known);
      PlaceAll(h, a + b, k, known) == if first.ok then PlaceAll(first.left, b, k, known) else first
  {
    if b == [] {
      assert a + b == a;
    } else {
      PlaceAllConcat(h, a, b[..|b| - 1], k, known);
      assert (a + b)[..|a + b| - 1] == a + b[..|b| - 1];
    }
  }

  lemma {:induction false} SessionsAreRepeats(h: Headroom, cs: seq<Component>, n: nat, k: nat, known: bool)
    ensures PlaceSessions(h, cs, n, k, known) == PlaceAll(h, Repeat(cs, n), k, known)
  {
    if n != 0 {
      SessionsAreRepeats(h, cs, n - 1, k, known);
      PlaceAllConcat(h, Repeat(cs, n - 1), cs, k, known);
    }
  }

  // The count is feasible for any mode: there is an assignment of every pod and
  // every replica that overcommits no node and no disk.
  lemma CountFits(h: Headroom, cs: seq<Component>, k: nat, known: bool, count: nat) returns (log: seq<Placed>)
    requires IsCount(h, cs, k, known, count)
    ensures Assigns(log, Repeat(cs, count), |h.nodes|, |h.disks|, k, known)
    ensures forall i :: 0 <= i < |h.nodes| && Hosts(log, i) ==> CpuOn(log, i) <= h.nodes[i].cpu && MemOn(log, i) <= h.nodes[i].mem
    ensures forall d :: 0 <= d < |h.disks| && Stores(log, d) ==> BytesOn(log, d) <= h.disks[d]
  {
    SessionsAreRepeats(h, cs, count, k, known);
    log := PlacementLog(h, Repeat(cs, count), k, known);
  }

  function TotalCpu(nodes: seq<NodeFree>): int {
    if nodes == [] then 0 else TotalCpu(nodes[..|nodes| - 1]) + nodes[|nodes| - 1].cpu
  }

  function TotalMem(nodes: seq<NodeFree>): int {
    if nodes == [] then 0 else TotalMem(nodes[..|nodes| - 1]) + nodes[|nodes| - 1].mem
  }

  function TotalDisk(disks: seq<DiskFree>): int {
    if disks == [] then 0 else TotalDisk(disks[..|disks| - 1]) + disks[|disks| - 1]
  }

  function CostCpu(cs: seq<Component>): int {
    if cs == [] then 0 else CostCpu(cs[..|cs| - 1]) + cs[|cs| - 1].cpu
  }

  function CostMem(cs: seq<Component>): int {
    if cs == [] then 0 else CostMem(cs[..|cs| - 1]) + cs[|cs| - 1].mem
  }

  // Bytes of the volumes of one session, a replica counted once.
  function CostDisk(cs: seq<Component>, known: bool): int {
    if cs == [] then 0
    else CostDisk(cs[..|cs| - 1], known) + VolumeBytes(cs[|cs| - 1], known)
  }

  function VolumeBytes(c: Component, known: bool): int { if HasVolume(c, known) then c.storage else 0 }

  lemma {:induction false} TotalsAfterTake(nodes: seq<NodeFree>, b: nat, node: NodeFree)
    requires b < |nodes|
    ensures TotalCpu(nodes[b := node]) == TotalCpu(nodes) - nodes[b].cpu + node.cpu
    ensures TotalMem(nodes[b := node]) == TotalMem(nodes) - nodes[b].mem + node.mem
  {
    var last := |nodes| - 1;
    if b == last {
      assert nodes[b := node][..last] == nodes[..last];
    } else {
      TotalsAfterTake(nodes[..last], b, node);
      assert nodes[b := node][..last] == nodes[..last][b := node];
    }
  }

  lemma {:induction false} TotalAfterTakeDisks(disks: seq<DiskFree>, size: int, chosen: seq<nat>, d: nat)
    requires d <= |disks|
    ensures TotalDisk(TakeDisks(disks, size, chosen)[..d]) == TotalDisk(disks[..d]) - Members(chosen, d) * size
  {
    if d != 0 {
      TotalAfterTakeDisks(disks, size, chosen, d - 1);
      var left := TakeDisks(disks, size, chosen);
      assert left[..d][..d - 1] == left[..d - 1] && disks[..d][..d - 1] == disks[..d - 1];
      var m := Members(chosen, d - 1);
      assert (m + 1) * size == m * size + size;
    }
  }

  lemma ComponentConserves(h: Headroom, c: Component, k: nat, known: bool)
    requires PlaceComponent(h, c, k, known).ok
    ensures Spends(h, PlaceComponent(h, c, k, known).left, c.cpu, c.mem, k * VolumeBytes(c, known))
  {
    var b := BestNode(h.nodes, c, |h.nodes|);
    TotalsAfterTake(h.nodes, b, TakePod(h.nodes[b], c));
    if HasVolume(c, known) {
      var chosen := ChooseDisks(h.disks, c.storage, k);
      TotalAfterTakeDisks(h.disks, c.storage, chosen, |h.disks|);
      MembersAll(chosen, |h.disks|);
      var left := TakeDisks(h.disks, c.storage, chosen);
      assert left[..|h.disks|] == left && h.disks[..|h.disks|] == h.disks;
    }
  }

  lemma Distribute(k: int, a: int, b: int)
    ensures k * (a + b) == k * a + k * b
  {
  }

  // The last component, placed after the others left `mid`.
  lemma LastConserves(h: Headroom, mid: Headroom, cs: seq<Component>, k: nat, known: bool)
    requires cs != [] && PlaceComponent(mid, cs[|cs| - 1], k, known).ok
    requires var init := cs[..|cs| - 1]; Spends(h, mid, CostCpu(init), CostMem(init), k * CostDisk(init, known))
    ensures Spends(h, PlaceComponent(mid, cs[|cs| - 1], k, known).left, CostCpu(cs), CostMem(cs), k * CostDisk(cs, known))
  {
    var init, c := cs[..|cs| - 1], cs[|cs| - 1];
    ComponentConserves(mid, c, k, known);
    Distribute(k, CostDisk(init, known), VolumeBytes(c, known));
    SpendsAdd(h, mid, PlaceComponent(mid, c, k, known).left, CostCpu(init), CostMem(init), k * CostDisk(init, known),
              c.cpu, c.mem, k * VolumeBytes(c, known));
  }

  lemma {:induction false} AllConserve(h: Headroom, cs: seq<Component>, k: nat, known: bool)
    requires PlaceAll(h, cs, k, known).ok
    ensures Spends(h, PlaceAll(h, cs, k, known).left, CostCpu(cs), CostMem(cs), k * CostDisk(cs, known))
  {
    if cs != [] {
      var init := cs[..|cs| - 1];
      PlaceLast(h, cs, k, known);
      AllConserve(h, init, k, known);
      LastConserves(h, PlaceAll(h, init, k, known).left, cs, k, known);
    }
  }

  // The totals of `left` are those of `h` minus what is named.
  predicate Spends(h: Headroom, left: Headroom, cpu: int, mem: int, disk: int) {
    && TotalCpu(left.nodes) == TotalCpu(h.nodes) - cpu
    && TotalMem(left.nodes) == TotalMem(h.nodes) - mem
    && TotalDisk(left.disks) == TotalDisk(h.disks) - disk
  }

  lemma SpendsAdd(h: Headroom, mid: Headroom, left: Headroom, cpu: int, mem: int, disk: int, cpu': int, mem': int,
      disk': int)
    requires Spends(h, mid, cpu, mem, disk) && Spends(mid, left, cpu', mem', disk')
    ensures Spends(h, left, cpu + cpu', mem + mem', disk + disk')
  {
  }

  // n sessions cost exactly n times one session, storage once per replica.
  lemma {:induction false} SessionsConserve(h: Headroom, cs: seq<Component>, n: nat, k: nat, known: bool)
    requires PlaceSessions(h, cs, n, k, known).ok
    ensures Spends(h, PlaceSessions(h, cs, n, k, known).left,
                   n * CostCpu(cs), n * CostMem(cs), n * (k * CostDisk(cs, known)))
  {
    if n != 0 {
      SessionsConserve(h, cs, n - 1, k, known);
      AllConserve(PlaceSessions(h, cs, n - 1, k, known).left, cs, k, known);
      Successor(n, CostCpu(cs));
      Successor(n, CostMem(cs));
      Successor(n, k * CostDisk(cs, known));
    }
  }

  lemma Successor(n: nat, x: int)
    requires n > 0
    ensures n * x == (n - 1) * x + x
  {
  }
}

// The package itself: the slices are deducted in place.
module Capacity {
  import opened Placement
  import opened SessionCount

  // Free resources for planning: reservations and live use are both protected.
  function PlanningHeadroom(allocatable: int, requested: int, used: int): (r: int)
    ensures r >= 0
    ensures r > 0 <==> allocatable > 0 && requested < allocatable && used < allocatable
    ensures r > 0 ==> r + requested <= allocatable && r + used <= allocatable
    ensures r > 0 ==> r + requested == allocatable || r + used == allocatable
  {
    if allocatable <= 0 then 0
    else
      var occupied := if requested >= used then requested else used;
      if allocatable - occupied >= 0 then allocatable - occupied else 0
  }

  method PlacePodInPlace(nodes: array<NodeFree>, c: Component, ghost disks: seq<DiskFree>) returns (ok: bool)
    modifies nodes
    ensures var a := PlacePod(Headroom(old(nodes[..]), disks), c);
      ok == a.ok && nodes[..] == a.left.nodes && disks == a.left.disks
  {
    var best := -1;
    for i := 0 to nodes.Length
      invariant nodes[..] == old(nodes[..])
      invariant best == BestNode(nodes[..], c, i)
    {
      if nodes[i].cpu < c.cpu || nodes[i].mem < c.mem {
        continue;
      }
      if best == -1 || nodes[i].mem > nodes[best].mem {
        best := i;
      }
    }
    if best == -1 {
      return false;
    }
    nodes[best] := NodeFree(nodes[best].cpu - c.cpu, nodes[best].mem - c.mem);
    return true;
  }

  method PlaceVolumeInPlace(disks: array<DiskFree>, size: int, replicas: nat, ghost nodes: seq<NodeFree>) returns (ok: bool)
    modifies disks
    ensures var a := PlaceVolume(Headroom(nodes, old(disks[..])), size, replicas);
      ok == a.ok && disks[..] == a.left.disks && nodes == a.left.nodes
  {
    ghost var before := disks[..];
    var chosen: seq<nat> := [];
    for r := 0 to replicas
      invariant chosen == ChooseDisks(before, size, r) && |chosen| == r
      invariant disks[..] == before
    {
      var best := PickDisk(disks, size, chosen);
      ChooseNext(before, size, r);
      if best == -1 {
        ChooseStuck(before, size, r + 1, replicas);
        return false;
      }
      chosen := chosen + [best];
    }
    DeductChosen(disks, size, chosen);
    return true;
  }

  lemma ChooseNext(disks: seq<DiskFree>, size: int, r: nat)
    requires |ChooseDisks(disks, size, r)| == r
    ensures var chosen := ChooseDisks(disks, size, r);
      var best := BestDisk(disks, size, chosen, |disks|);
      ChooseDisks(disks, size, r + 1) == if best == -1 then chosen else chosen + [best]
  {
  }

  method PickDisk(disks: array<DiskFree>, size: int, chosen: seq<nat>) returns (best: int)
    ensures best == BestDisk(disks[..], size, chosen, disks.Length)
  {
    best := -1;
    for i := 0 to disks.Length
      invariant best == BestDisk(disks[..], size, chosen, i)
    {
      if disks[i] < size || i in chosen {
        continue;
      }
      if best == -1 || disks[i] > disks[best] {
        best := i;
      }
    }
  }

  method DeductChosen(disks: array<DiskFree>, size: int, chosen: seq<nat>)
    requires Distinct(chosen) && forall d :: d in chosen ==> d < disks.Length
    modifies disks
    ensures disks[..] == TakeDisks(old(disks[..]), size, chosen)
  {
    for r := 0 to |chosen|
      invariant forall d :: 0 <= d < disks.Length ==>
        disks[d] == if d in chosen[..r] then old(disks[d]) - size else old(disks[d])
    {
      assert chosen[r] in chosen && chosen[r] !in chosen[..r];
      assert chosen[..r + 1] == chosen[..r] + [chosen[r]];
      disks[chosen[r]] := disks[chosen[r]] - size;
    }
    assert chosen[..|chosen|] == chosen;
  }

  lemma {:induction false} ChooseStuck(disks: seq<DiskFree>, size: int, r: nat, replicas: nat)
    requires r <= replicas && |ChooseDisks(disks, size, r)| < r
    ensures |ChooseDisks(disks, size, replicas)| < replicas
  {
    if r < replicas {
      ChooseStuck(disks, size, r, replicas - 1);
    }
  }

  method PlaceSession(mode: Mode, nodes: array<NodeFree>, disks: array<DiskFree>, replicas: nat, storageKnown: bool)
    returns (ok: bool)
    modifies nodes, disks
    ensures Attempt(ok, Headroom(nodes[..], disks[..])) ==
      PlaceAll(Headroom(old(nodes[..]), old(disks[..])), mode.components, replicas, storageKnown)
  {
    ghost var h, cs := Headroom(nodes[..], disks[..]), mode.components;
    for j := 0 to |mode.components|
      invariant PlaceAll(h, cs[..j], replicas, storageKnown) == Attempt(true, Headroom(nodes[..], disks[..]))
    {
      var c := mode.components[j];
      assert cs[..j + 1][..j] == cs[..j];
      var placed := PlacePodInPlace(nodes, c, disks[..]);
      if !placed {
        StuckAt(h, cs, j + 1, replicas, storageKnown);
        return false;
      }
      if storageKnown && c.storage > 0 {
        placed := PlaceVolumeInPlace(disks, c.storage, replicas, nodes[..]);
        if !placed {
          StuckAt(h, cs, j + 1, replicas, storageKnown);
          return false;
        }
      }
    }
    assert cs[..|cs|] == cs;
    return true;
  }

  lemma {:induction false} StuckAt(h: Headroom, cs: seq<Component>, j: nat, replicas: nat, known: bool)
    requires j <= |cs| && !PlaceAll(h, cs[..j], replicas, known).ok
    ensures PlaceAll(h, cs, replicas, known) == PlaceAll(h, cs[..j], replicas, known)
  {
    if j == |cs| {
      assert cs[..j] == cs;
    } else {
      assert cs[..|cs| - 1][..j] == cs[..j];
      StuckAt(h, cs[..|cs| - 1], j, replicas, known);
    }
  }

  method Copy<T>(a: array<T>) returns (b: array<T>)
    ensures fresh(b) && b[..] == a[..]
  {
    if a.Length == 0 {
      b := new T[] [];
    } else {
      b := new T[a.Length](i requires 0 <= i < a.Length reads a => a[i]);
    }
  }

  // Counts the sessions that fit, on copies of the caller's slices.
  method Simulate(mode: Mode, nodes: array<NodeFree>, disks: array<DiskFree>, replicas: nat, storageKnown: bool)
    returns (count: nat)
    ensures IsCount(Headroom(nodes[..], disks[..]), mode.components, replicas, storageKnown, count)
  {
    ghost var h, cs := Headroom(nodes[..], disks[..]), mode.components;
    var nodesLeft := Copy(nodes);
    var disksLeft := Copy(disks);
    count := 0;
    while count < MAX_SESSIONS
      invariant count <= MAX_SESSIONS && fresh(nodesLeft) && fresh(disksLeft)
      invariant PlaceSessions(h, cs, count, replicas, storageKnown) == Attempt(true, Headroom(nodesLeft[..], disksLeft[..]))
    {
      var placed := PlaceSession(mode, nodesLeft, disksLeft, replicas, storageKnown);
      if !placed {
        break;
      }
      count := count + 1;
    }
  }

  // Takes `count` sessions out of copies of the headroom.
  method ReserveMode(mode: Mode, count: int, nodes: array<NodeFree>, disks: array<DiskFree>, replicas: int,
      storageKnown: bool)
    returns (nodesLeft: array<NodeFree>, disksLeft: array<DiskFree>, ok: bool)
    ensures fresh(nodesLeft) && fresh(disksLeft)
    ensures var h, k := Headroom(nodes[..], disks[..]), if replicas < 1 then 1 else replicas;
      Attempt(ok, Headroom(nodesLeft[..], disksLeft[..])) ==
        if count <= 0 then Attempt(true, h)
        else if count > MAX_SESSIONS then Attempt(false, h)
        else PlaceSessions(h, mode.components, count, k, storageKnown)
  {
    nodesLeft := Copy(nodes);
    disksLeft := Copy(disks);
    if count <= 0 {
      return nodesLeft, disksLeft, true;
    }
    if count > MAX_SESSIONS {
      return nodesLeft, disksLeft, false;
    }
    var k := if replicas < 1 then 1 else replicas;
    ghost var h, cs := Headroom(nodes[..], disks[..]), mode.components;
    for n := 0 to count
      invariant fresh(nodesLeft) && fresh(disksLeft)
      invariant PlaceSessions(h, cs, n, k, storageKnown) == Attempt(true, Headroom(nodesLeft[..], disksLeft[..]))
    {
      var placed := PlaceSession(mode, nodesLeft, disksLeft, k, storageKnown);
      if !placed {
        SessionsStuck(h, cs, n + 1, count, k, storageKnown);
        return nodesLeft, disksLeft, false;
      }
    }
    return nodesLeft, disksLeft, true;
  }

  lemma {:induction false} SessionsStuck(h: Headroom, cs: seq<Component>, n: nat, count: nat, k: nat, known: bool)
    requires n <= count && !PlaceSessions(h, cs, n, k, known).ok
    ensures PlaceSessions(h, cs, count, k, known) == PlaceSessions(h, cs, n, k, known)
  {
    if n < count {
      SessionsStuck(h, cs, n, count - 1, k, known);
    }
  }

  method ResourceOnly(mode: Mode, keep: Component -> Component) returns (r: Mode)
    ensures r.name == mode.name && |r.components| == |mode.components|
    ensures forall i :: 0 <= i < |mode.components| ==> r.components[i] == keep(mode.components[i])
  {
    var comps: seq<Component> := [];
    for i := 0 to |mode.components|
      invariant |comps| == i && forall j :: 0 <= j < i ==> comps[j] == keep(mode.components[j])
    {
      comps := comps + [keep(mode.components[i])];
    }
    r := Mode(mode.name, comps);
  }

  method PerResourceCounts(mode: Mode, nodes: array<NodeFree>, disks: array<DiskFree>, replicas: nat, storageKnown: bool)
    returns (byCpu: nat, byMem: nat, byStorage: int)
    ensures var h := Headroom(nodes[..], disks[..]);
      && IsByCpu(h, mode.components, replicas, byCpu) && IsByMemory(h, mode.components, replicas, byMem)
      && IsByStorage(h, mode.components, replicas, storageKnown, byStorage)
  {
    var none := new DiskFree[0];
    var cpu := ResourceOnly(mode, CpuOnly);
    byCpu := Simulate(cpu, nodes, none, replicas, false);
    ghost var h := Headroom(nodes[..], disks[..]);
    assert none[..] == [];
    ByCpuIs(h, mode.components, cpu.components, replicas, byCpu);
    var mem := ResourceOnly(mode, MemOnly);
    byMem := Simulate(mem, nodes, none, replicas, false);
    assert none[..] == [];
    ByMemoryIs(h, mode.components, mem.components, replicas, byMem);
    byStorage := -1;
    if storageKnown {
      var storage := ResourceOnly(mode, StorageOnly);
      byStorage := Simulate(storage, nodes, disks, replicas, true);
      ByStorageIs(h, mode.components, storage.components, replicas, byStorage);
    }
  }

  method LimitingResource(e: Estimate) returns (name: string)
    ensures IsLimiting(e, name)
  {
    var min: int := e.byCpu;
    name := "cpu";
    if e.byMemory < min {
      name, min := "memory", e.byMemory;
    }
    if e.byStorage >= 0 && e.byStorage < min {
      name := "storage";
    }
  }

  method EstimateMode(mode: Mode, nodes: array<NodeFree>, disks: array<DiskFree>, replicas: int, storageKnown: bool)
    returns (e: Estimate)
    ensures IsEstimate(Headroom(nodes[..], disks[..]), mode.components, if replicas < 1 then 1 else replicas, storageKnown, e)
  {
    var k := if replicas < 1 then 1 else replicas;
    var count := Simulate(mode, nodes, disks, k, storageKnown);
    var byCpu, byMem, byStorage := PerResourceCounts(mode, nodes, disks, k, storageKnown);
    e := Estimate(count, byCpu, byMem, byStorage, "");
    var name := LimitingResource(e);
    e := e.(limiting := name);
  }
}

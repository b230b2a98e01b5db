/** The queue bookkeeping at the end of `VulkanBackend::Initialize`
    (`src/VulkanBackend.cpp`): the queue create-infos built from the
    selected device's per-family counts, and the hand-out of queues per
    role with per-family counters, including the present-candidate table.
    `vkCreateDevice` and `vkGetDeviceQueue` are not modelled: a queue is
    the (family, index) pair it was retrieved with. */
module QueueSetup {

  import opened VulkanTypes
  import opened Configuration
  import opened QueueSupport

  // ---------------------------------------------------------------------
  // Create-infos

  /** A `VkDeviceQueueCreateInfo`, reduced to the two fields the code
      computes; a value-initialised entry is `QueueCreateInfo(0, 0)`. */
  datatype QueueCreateInfo = QueueCreateInfo(queueFamilyIndex: int, queueCount: int)

  const EmptyCreateInfo := QueueCreateInfo(0, 0)

  predicate NonNegative(counts: seq<int>)
  {
    forall i :: 0 <= i < |counts| ==> counts[i] >= 0
  }

  /** With present queues requested, a family with no requested queue is
      raised to one queue (a present candidate). */
  function Raise(count: int, present: bool): int
  {
    if count == 0 && present then 1 else count
  }

  function Raised(counts: seq<int>, present: bool): (r: seq<int>)
    ensures |r| == |counts|
  {
    seq(|counts|, i requires 0 <= i < |counts| => Raise(counts[i], present))
  }

  /** `maxCount`: the largest count, and at least 1. */
  function MaxCount(counts: seq<int>): (m: int)
    ensures m >= 1 && forall i :: 0 <= i < |counts| ==> counts[i] <= m
    ensures m == 1 || exists i :: 0 <= i < |counts| && counts[i] == m
  {
    if |counts| == 0 then 1
    else
      var prev := MaxCount(counts[..|counts| - 1]);
      assert forall i :: 0 <= i < |counts| - 1 ==> counts[..|counts| - 1][i] == counts[i];
      if counts[|counts| - 1] > prev then counts[|counts| - 1] else prev
  }

  /** `countFamilies`: the families with a positive count, or every family
      when present queues are requested. */
  function CountFamilies(counts: seq<int>, present: bool): (n: nat)
    ensures n <= |counts|
    ensures present ==> n == |counts|
  {
    if |counts| == 0 then 0
    else CountFamilies(counts[..|counts| - 1], present) + (if counts[|counts| - 1] > 0 || present then 1 else 0)
  }

  /** The positive counts in family order: the create-infos written, one
      per family with a positive (raised) count. */
  function Requested(raised: seq<int>): (r: seq<int>)
    ensures |r| <= |raised|
    ensures forall k :: 0 <= k < |r| ==> r[k] > 0
  {
    if |raised| == 0 then []
    else Requested(raised[..|raised| - 1]) + (if raised[|raised| - 1] > 0 then [raised[|raised| - 1]] else [])
  }

  /** The families with a positive (raised) count, in order: the families
      the create-infos are meant for. */
  function RequestedFamilies(raised: seq<int>): (r: seq<nat>)
    ensures |r| == |Requested(raised)|
    ensures forall k :: 0 <= k < |r| ==> r[k] < |raised| && raised[r[k]] == Requested(raised)[k]
  {
    if |raised| == 0 then []
    else
      var prev := RequestedFamilies(raised[..|raised| - 1]);
      prev + (if raised[|raised| - 1] > 0 then [|raised| - 1] else [])
  }

  /** The create-info array: the `k`-th written entry has the running
      counter `k` as family index and the `k`-th positive count as queue
      count; entries never written stay value-initialised. */
  function CreateInfos(counts: seq<int>, present: bool): (infos: seq<QueueCreateInfo>)
    ensures |infos| == CountFamilies(counts, present)
  {
    var requested := Requested(Raised(counts, present));
    seq(CountFamilies(counts, present), k requires 0 <= k =>
      if k < |requested| then QueueCreateInfo(k, requested[k]) else EmptyCreateInfo)
  }

  /** Every family the create-info loop writes for was counted. */
  lemma {:induction false} RequestedFitCounted(counts: seq<int>, present: bool)
    ensures |Requested(Raised(counts, present))| <= CountFamilies(counts, present)
    ensures NonNegative(counts) ==> |Requested(Raised(counts, present))| == CountFamilies(counts, present)
  {
    if |counts| > 0 {
      var init := counts[..|counts| - 1];
      assert Raised(counts, present)[..|counts| - 1] == Raised(init, present);
      RequestedFitCounted(init, present);
    }
  }

  /** The counting loop of `Initialize`: `maxCount` and `countFamilies`. */
  method CountQueueFamilies(counts: seq<int>, present: bool) returns (maxCount: int, countFamilies: nat)
    ensures maxCount == MaxCount(counts) && countFamilies == CountFamilies(counts, present)
  {
    maxCount := 1;
    countFamilies := 0;
    var oi := 0;
    while oi < |counts|
      invariant 0 <= oi <= |counts|
      invariant maxCount == MaxCount(counts[..oi]) && countFamilies == CountFamilies(counts[..oi], present)
    {
      assert counts[..oi + 1][..oi] == counts[..oi];
      if counts[oi] > maxCount {
        maxCount := counts[oi];
      }
      if counts[oi] > 0 || present {
        countFamilies := countFamilies + 1;
      }
      oi := oi + 1;
    }
    assert counts[..|counts|] == counts;
  }

  /** Writing one more family: the raised prefix grows by the raised
      count, the positive counts by it when it is positive, and then there
      is still an entry left for it. */
  lemma PrefixStep(counts: seq<int>, present: bool, n: nat)
    requires n < |counts|
    ensures Raised(counts[..n + 1], present) == Raised(counts[..n], present) + [Raise(counts[n], present)]
    ensures Requested(Raised(counts[..n + 1], present))
            == Requested(Raised(counts[..n], present))
               + (if Raise(counts[n], present) > 0 then [Raise(counts[n], present)] else [])
    ensures Raise(counts[n], present) > 0 ==> |Requested(Raised(counts[..n], present))| < CountFamilies(counts, present)
  {
    RequestedStep(counts, present, n);
    RequestedFitCounted(counts[..n + 1], present);
    CountFamiliesPrefix(counts, present, n + 1);
  }

  lemma RaisedStep(counts: seq<int>, present: bool, n: nat)
    requires n < |counts|
    ensures Raised(counts[..n + 1], present) == Raised(counts[..n], present) + [Raise(counts[n], present)]
  {
    assert counts[..n + 1][..n] == counts[..n];
  }

  lemma RequestedStep(counts: seq<int>, present: bool, n: nat)
    requires n < |counts|
    ensures Raised(counts[..n + 1], present) == Raised(counts[..n], present) + [Raise(counts[n], present)]
    ensures Requested(Raised(counts[..n + 1], present))
            == Requested(Raised(counts[..n], present))
               + (if Raise(counts[n], present) > 0 then [Raise(counts[n], present)] else [])
  {
    RaisedStep(counts, present, n);
    var longer := Raised(counts[..n + 1], present);
    assert longer[..|longer| - 1] == Raised(counts[..n], present);
  }

  lemma {:induction false} CountFamiliesPrefix(counts: seq<int>, present: bool, n: nat)
    requires n <= |counts|
    ensures CountFamilies(counts[..n], present) <= CountFamilies(counts, present)
    decreases |counts|
  {
    if n < |counts| {
      var init := counts[..|counts| - 1];
      assert counts[..n] == init[..n];
      CountFamiliesPrefix(init, present, n);
    } else {
      assert counts[..n] == counts;
    }
  }

  /** The first `|requested|` entries of `infos` are written, the `k`-th
      with family index `k`, and the rest are value-initialised. */
  predicate Written(infos: seq<QueueCreateInfo>, requested: seq<int>)
  {
    |requested| <= |infos|
    && forall k :: 0 <= k < |infos| ==>
         infos[k] == if k < |requested| then QueueCreateInfo(k, requested[k]) else EmptyCreateInfo
  }

  lemma WrittenStep(infos: seq<QueueCreateInfo>, requested: seq<int>, count: int)
    requires Written(infos, requested) && |requested| < |infos|
    ensures Written(infos[|requested| := QueueCreateInfo(|requested|, count)], requested + [count])
  {
  }

  lemma WrittenAll(infos: seq<QueueCreateInfo>, counts: seq<int>, present: bool)
    requires |infos| == CountFamilies(counts, present)
    requires Written(infos, Requested(Raised(counts, present)))
    ensures infos == CreateInfos(counts, present)
  {
  }

  /** The create-info loop of `Initialize`: a family with no queue is
      raised to one when present queues are requested, then every family
      with a positive count gets the next create-info, whose family index
      is the running counter `f`. */
  method WriteCreateInfos(counts: seq<int>, present: bool, countFamilies: nat)
    returns (raised: seq<int>, infos: seq<QueueCreateInfo>)
    requires countFamilies == CountFamilies(counts, present)
    ensures raised == Raised(counts, present)
    ensures infos == CreateInfos(counts, present)
  {
    infos := seq(countFamilies, _ => EmptyCreateInfo);
    raised := counts;
    var f := 0;
    var oi := 0;
    ghost var done: seq<int> := [];
    ghost var requested: seq<int> := [];
    while oi < |counts|
      invariant 0 <= oi <= |counts| && |infos| == countFamilies
      invariant done == Raised(counts[..oi], present) && requested == Requested(done)
      invariant raised == done + counts[oi..]
      invariant f == |requested|
      invariant Written(infos, requested)
    {
      PrefixStep(counts, present, oi);
      if raised[oi] == 0 && present {
        raised := raised[oi := 1];
      }
      ReplaceNext(done, counts[oi..], Raise(counts[oi], present));
      if raised[oi] > 0 {
        WrittenStep(infos, requested, raised[oi]);
        infos := infos[f := QueueCreateInfo(f, raised[oi])];
        f := f + 1;
      }
      done := done + [Raise(counts[oi], present)];
      requested := Requested(done);
      oi := oi + 1;
    }
    assert counts[..|counts|] == counts;
    WrittenAll(infos, counts, present);
  }

  lemma ReplaceNext(done: seq<int>, rest: seq<int>, x: int)
    requires |rest| > 0
    ensures (done + rest)[|done| := x] == done + [x] + rest[1..]
  {
  }

  /** The priority array is at least as long as every create-info's queue
      count. */
  lemma PrioritiesCover(counts: seq<int>, present: bool)
    ensures forall k :: 0 <= k < CountFamilies(counts, present) ==>
              CreateInfos(counts, present)[k].queueCount <= MaxCount(counts)
  {
    var raised := Raised(counts, present);
    var requested := Requested(raised);
    forall k | 0 <= k < |requested|
      ensures requested[k] <= MaxCount(counts)
    {
      var family := RequestedFamilies(raised)[k];
      assert raised[family] == requested[k];
    }
  }

  /** With present queues requested (and counts that are never negative),
      every family gets a create-info, so the counter is the family index. */
  lemma PresentCreatesEveryFamily(counts: seq<int>)
    requires NonNegative(counts)
    ensures var infos := CreateInfos(counts, true);
            |infos| == |counts|
            && forall k :: 0 <= k < |counts| ==> infos[k] == QueueCreateInfo(k, Raise(counts[k], true))
  {
    PresentRequestsAll(counts);
  }

  lemma {:induction false} PresentRequestsAll(counts: seq<int>)
    requires NonNegative(counts)
    ensures Requested(Raised(counts, true)) == Raised(counts, true)
  {
    if |counts| > 0 {
      var init := counts[..|counts| - 1];
      assert Raised(counts, true)[..|counts| - 1] == Raised(init, true);
      PresentRequestsAll(init);
    }
  }

  /** The counter quirk: with counts [0, 2] and no present queues, the one
      create-info names family 0, while the two queues were reserved in
      family 1. */
  lemma CounterIsNotFamily()
    ensures CreateInfos([0, 2], false) == [QueueCreateInfo(0, 2)]
    ensures RequestedFamilies(Raised([0, 2], false)) == [1]
  {
    var raised := Raised([0, 2], false);
    assert raised == [0, 2];
    assert raised[..1] == [0];
    assert [0][..0] == [];
    assert CountFamilies([0, 2], false) == 1 by {
      assert [0, 2][..1] == [0];
      assert [0][..0] == [];
    }
  }

  // ---------------------------------------------------------------------
  // Queue hand-out

  /** What `Initialize` reads past the end of a vector or from a missing
      configuration key on its way to hand out queues. */
  datatype SetupError =
    | MissingGeneralCount     // `queues.general.as<int>()` with no such key throws
    | ComputeLoopOutOfRange   // the compute loop writes past `computeQueues`
    | NoGeneralQueueForPresent // `generalQueues[0]` with no general queue

  datatype Result<T> = Success(value: T) | Failure(error: SetupError)

  /** The queue fields of the initialized backend. */
  datatype Handout = Handout(
    generalQueues: seq<Queue>,
    computeQueues: seq<Queue>,
    transferQueues: seq<Queue>,
    presentQueueCandidates: seq<Queue>,
    generalFamilyIndex: int,
    computeFamilyIndex: int,
    transferFamilyIndex: int)

  /** A resolved mapping for a device with `familyCount` families. */
  predicate ValidMapping(mapping: map<Role, int>, familyCount: nat)
  {
    General in mapping && Compute in mapping && Transfer in mapping && MappingFits(mapping, familyCount)
  }

  /** Queues taken from family `f` by the general loop. */
  function TakenByGeneral(requests: QueueRequests, mapping: map<Role, int>, f: int): nat
    requires General in mapping
  {
    if f == mapping[General] then Amount(requests.general) else 0
  }

  /** Queues taken from family `f` by the general and compute loops; the
      compute loop runs as many times as there are general queues. */
  function TakenByCompute(requests: QueueRequests, mapping: map<Role, int>, f: int): nat
    requires General in mapping && Compute in mapping
  {
    TakenByGeneral(requests, mapping, f)
    + (if requests.compute.Some? && f == mapping[Compute] then Amount(requests.general) else 0)
  }

  /** Queues taken from family `f` before the present loop. */
  function Taken(requests: QueueRequests, mapping: map<Role, int>, f: int): nat
    requires General in mapping && Compute in mapping && Transfer in mapping
  {
    TakenByCompute(requests, mapping, f)
    + (if requests.transfer.Some? && f == mapping[Transfer] then Amount(requests.transfer) else 0)
  }

  /** Whether the present loop takes a fresh queue from family `i`. */
  predicate FreshPresent(requests: QueueRequests, mapping: map<Role, int>, i: int)
    requires General in mapping && Compute in mapping && Transfer in mapping
  {
    i != mapping[General]
    && !(i == mapping[Transfer] && Amount(requests.transfer) > 0)
    && !(i == mapping[Compute] && Amount(requests.compute) > 0)
  }

  /** The present candidate for family `i`: the first general queue for
      the general family, else the first transfer queue for the transfer
      family, else the first compute queue for the compute family, else a
      fresh queue of family `i`. */
  function PresentCandidate(requests: QueueRequests, mapping: map<Role, int>, i: int): Queue
    requires General in mapping && Compute in mapping && Transfer in mapping
    requires i >= 0
  {
    if i == mapping[General] then Queue(mapping[General], 0)
    else if i == mapping[Transfer] && Amount(requests.transfer) > 0 then
      Queue(mapping[Transfer], TakenByCompute(requests, mapping, mapping[Transfer]))
    else if i == mapping[Compute] && Amount(requests.compute) > 0 then
      Queue(mapping[Compute], TakenByGeneral(requests, mapping, mapping[Compute]))
    else Queue(i, Taken(requests, mapping, i))
  }

  /** The hand-out in closed form. */
  function HandOut(requests: QueueRequests, mapping: map<Role, int>, familyCount: nat): Result<Handout>
    requires ValidMapping(mapping, familyCount)
  {
    if requests.general.None? then Failure(MissingGeneralCount)
    else
      var general := requests.general.value;
      var g, c, t := mapping[General], mapping[Compute], mapping[Transfer];
      if requests.compute.Some? && general > requests.compute.value then Failure(ComputeLoopOutOfRange)
      else if requests.present && general == 0 then Failure(NoGeneralQueueForPresent)
      else Success(Handout(
        seq(general, i requires 0 <= i => Queue(g, i)),
        if requests.compute.Some?
        then seq(requests.compute.value, i requires 0 <= i =>
               if i < general then Queue(c, TakenByGeneral(requests, mapping, c) + i) else NullQueue)
        else [],
        if requests.transfer.Some?
        then seq(requests.transfer.value, i requires 0 <= i => Queue(t, TakenByCompute(requests, mapping, t) + i))
        else [],
        if requests.present
        then seq(familyCount, i requires 0 <= i => PresentCandidate(requests, mapping, i))
        else [],
        g,
        if requests.compute.Some? then c else 0,
        if requests.transfer.Some? then t else 0))
  }

  /** The general and transfer loops: `count` queues from family `f`,
      each taking the family's counter and post-incrementing it. */
  method TakeQueues(f: nat, count: nat, currentQueues: seq<nat>) returns (queues: seq<Queue>, newCurrentQueues: seq<nat>)
    requires f < |currentQueues|
    ensures queues == seq(count, i requires 0 <= i => Queue(f, currentQueues[f] + i))
    ensures newCurrentQueues == currentQueues[f := currentQueues[f] + count]
  {
    queues := seq(count, _ => NullQueue);
    newCurrentQueues := currentQueues;
    var i := 0;
    while i < |queues|
      invariant 0 <= i <= count && |queues| == count
      invariant forall k :: 0 <= k < count ==> queues[k] == if k < i then Queue(f, currentQueues[f] + k) else NullQueue
      invariant newCurrentQueues == currentQueues[f := currentQueues[f] + i]
    {
      queues := queues[i := Queue(f, newCurrentQueues[f])];
      newCurrentQueues := newCurrentQueues[f := newCurrentQueues[f] + 1];
      i := i + 1;
    }
  }

  /** The compute loop: `computeCount` slots, but as many iterations as
      there are general queues; `None` when it writes past the end. */
  method TakeCompute(c: nat, computeCount: nat, generalCount: nat, currentQueues: seq<nat>)
    returns (computeQueues: Option<seq<Queue>>, newCurrentQueues: seq<nat>)
    requires c < |currentQueues|
    ensures computeQueues.None? <==> generalCount > computeCount
    ensures computeQueues.Some? ==>
              computeQueues.value == seq(computeCount, i requires 0 <= i =>
                if i < generalCount then Queue(c, currentQueues[c] + i) else NullQueue)
              && newCurrentQueues == currentQueues[c := currentQueues[c] + generalCount]
  {
    var queues := seq(computeCount, _ => NullQueue);
    newCurrentQueues := currentQueues;
    var i := 0;
    while i < generalCount
      invariant 0 <= i <= generalCount && i <= computeCount && |queues| == computeCount
      invariant forall k :: 0 <= k < computeCount ==>
                  queues[k] == if k < i then Queue(c, currentQueues[c] + k) else NullQueue
      invariant newCurrentQueues == currentQueues[c := currentQueues[c] + i]
    {
      if i >= |queues| {
        return None, newCurrentQueues;
      }
      queues := queues[i := Queue(c, newCurrentQueues[c])];
      newCurrentQueues := newCurrentQueues[c := newCurrentQueues[c] + 1];
      i := i + 1;
    }
    return Some(queues), newCurrentQueues;
  }

  /** The present loop: one candidate per family, reusing the first
      general, transfer or compute queue of that family and otherwise
      taking a fresh queue; `None` when it reads the first general queue
      and there is none. */
  method TakePresent(requests: QueueRequests, mapping: map<Role, int>, generalQueues: seq<Queue>,
                     computeQueues: seq<Queue>, transferQueues: seq<Queue>, currentQueues: seq<nat>)
    returns (candidates: Option<seq<Queue>>)
    requires ValidMapping(mapping, |currentQueues|)
    requires |generalQueues| == Amount(requests.general)
    requires |generalQueues| > 0 ==> generalQueues[0] == Queue(mapping[General], 0)
    requires |computeQueues| == Amount(requests.compute)
    requires |computeQueues| > 0 && |generalQueues| > 0 ==>
               computeQueues[0] == Queue(mapping[Compute], TakenByGeneral(requests, mapping, mapping[Compute]))
    requires |transferQueues| == Amount(requests.transfer)
    requires |transferQueues| > 0 ==>
               transferQueues[0] == Queue(mapping[Transfer], TakenByCompute(requests, mapping, mapping[Transfer]))
    requires forall f :: 0 <= f < |currentQueues| ==> currentQueues[f] == Taken(requests, mapping, f)
    ensures candidates.None? <==> |generalQueues| == 0
    ensures candidates.Some? ==>
              candidates.value == seq(|currentQueues|, i requires 0 <= i => PresentCandidate(requests, mapping, i))
  {
    var familyCount := |currentQueues|;
    var cands := seq(familyCount, _ => NullQueue);
    var counters := currentQueues;
    var i := 0;
    while i < familyCount
      invariant 0 <= i <= familyCount && |cands| == familyCount && |counters| == familyCount
      invariant forall f :: 0 <= f < familyCount ==>
                  counters[f] == Taken(requests, mapping, f) + (if f < i && FreshPresent(requests, mapping, f) then 1 else 0)
      invariant i <= mapping[General] || |generalQueues| > 0
      invariant |generalQueues| > 0 ==> forall k :: 0 <= k < i ==> cands[k] == PresentCandidate(requests, mapping, k)
    {
      if i == mapping[General] {
        if |generalQueues| == 0 {
          return None;
        }
        cands := cands[i := generalQueues[0]];
      } else if i == mapping[Transfer] && |transferQueues| > 0 {
        cands := cands[i := transferQueues[0]];
      } else if i == mapping[Compute] && |computeQueues| > 0 {
        cands := cands[i := computeQueues[0]];
      } else {
        cands := cands[i := Queue(i, counters[i])];
        counters := counters[i := counters[i] + 1];
      }
      i := i + 1;
    }
    return Some(cands);
  }

  /** The queue hand-out of `Initialize`, from the resolved mapping of the
      selected slot. */
  method HandOutQueues(requests: QueueRequests, mapping: map<Role, int>, familyCount: nat) returns (r: Result<Handout>)
    requires ValidMapping(mapping, familyCount)
    ensures r == HandOut(requests, mapping, familyCount)
  {
    if requests.general.None? {
      return Failure(MissingGeneralCount);
    }
    var g, c, t := mapping[General], mapping[Compute], mapping[Transfer];
    var generalQueues, currentQueues := TakeQueues(g, requests.general.value, seq(familyCount, _ => 0));
    var generalFamilyIndex := g;
    assert generalQueues == seq(requests.general.value, i requires 0 <= i => Queue(g, i));

    var computeFamilyIndex := 0;
    var computeQueues: seq<Queue> := [];
    if requests.compute.Some? {
      var taken;
      ghost var before := currentQueues;
      assert before[c] == TakenByGeneral(requests, mapping, c);
      taken, currentQueues := TakeCompute(c, requests.compute.value, |generalQueues|, currentQueues);
      if taken.None? {
        return Failure(ComputeLoopOutOfRange);
      }
      computeQueues := taken.value;
      computeFamilyIndex := c;
      assert computeQueues == seq(requests.compute.value, i requires 0 <= i =>
               if i < requests.general.value then Queue(c, TakenByGeneral(requests, mapping, c) + i) else NullQueue);
    }

    var transferFamilyIndex := 0;
    var transferQueues: seq<Queue> := [];
    if requests.transfer.Some? {
      ghost var before := currentQueues;
      assert before[t] == TakenByCompute(requests, mapping, t);
      transferQueues, currentQueues := TakeQueues(t, requests.transfer.value, currentQueues);
      transferFamilyIndex := t;
      assert transferQueues == seq(requests.transfer.value, i requires 0 <= i =>
               Queue(t, TakenByCompute(requests, mapping, t) + i));
    }

    assert forall f :: 0 <= f < familyCount ==> currentQueues[f] == Taken(requests, mapping, f);
    var presentQueueCandidates: seq<Queue> := [];
    if requests.present {
      var candidates := TakePresent(requests, mapping, generalQueues, computeQueues, transferQueues, currentQueues);
      if candidates.None? {
        return Failure(NoGeneralQueueForPresent);
      }
      presentQueueCandidates := candidates.value;
    }
    return Success(Handout(generalQueues, computeQueues, transferQueues, presentQueueCandidates,
                           generalFamilyIndex, computeFamilyIndex, transferFamilyIndex));
  }

  /** No queue is retrieved twice: the general, compute and transfer
      queues and the fresh present candidates are pairwise different
      (family, index) pairs, because every family's counter only grows. */
  lemma HandOutDistinct(requests: QueueRequests, mapping: map<Role, int>, familyCount: nat)
    requires ValidMapping(mapping, familyCount) && HandOut(requests, mapping, familyCount).Success?
    ensures var h := HandOut(requests, mapping, familyCount).value;
            (forall i, j :: 0 <= i < |h.generalQueues| && 0 <= j < |h.computeQueues| && h.computeQueues[j] != NullQueue
               ==> h.generalQueues[i] != h.computeQueues[j])
            && (forall i, j :: 0 <= i < |h.generalQueues| && 0 <= j < |h.transferQueues|
                  ==> h.generalQueues[i] != h.transferQueues[j])
            && (forall i, j :: 0 <= i < |h.computeQueues| && h.computeQueues[i] != NullQueue && 0 <= j < |h.transferQueues|
                  ==> h.computeQueues[i] != h.transferQueues[j])
            && (forall i :: 0 <= i < |h.presentQueueCandidates| && FreshPresent(requests, mapping, i) ==>
                  h.presentQueueCandidates[i] !in h.generalQueues
                  && h.presentQueueCandidates[i] !in h.computeQueues
                  && h.presentQueueCandidates[i] !in h.transferQueues)
  {
    var h := HandOut(requests, mapping, familyCount).value;
    var general := requests.general.value;
    var g, c, t := mapping[General], mapping[Compute], mapping[Transfer];
    forall i, j | 0 <= i < |h.generalQueues| && 0 <= j < |h.computeQueues| && h.computeQueues[j] != NullQueue
      ensures h.generalQueues[i] != h.computeQueues[j]
    {
      assert h.generalQueues[i] == Queue(g, i);
      assert j < general && h.computeQueues[j] == Queue(c, TakenByGeneral(requests, mapping, c) + j);
    }
    forall i, j | 0 <= i < |h.generalQueues| && 0 <= j < |h.transferQueues|
      ensures h.generalQueues[i] != h.transferQueues[j]
    {
      assert h.generalQueues[i] == Queue(g, i);
      assert h.transferQueues[j] == Queue(t, TakenByCompute(requests, mapping, t) + j);
    }
    forall i, j | 0 <= i < |h.computeQueues| && h.computeQueues[i] != NullQueue && 0 <= j < |h.transferQueues|
      ensures h.computeQueues[i] != h.transferQueues[j]
    {
      assert i < general && h.computeQueues[i] == Queue(c, TakenByGeneral(requests, mapping, c) + i);
      assert h.transferQueues[j] == Queue(t, TakenByCompute(requests, mapping, t) + j);
    }
  }

  /** The compute loop runs once per general queue: with fewer compute
      than general queues it writes past the end of `computeQueues`, and
      with more, the compute queues past the general count stay null. */
  lemma ComputeLoopBound(requests: QueueRequests, mapping: map<Role, int>, familyCount: nat)
    requires ValidMapping(mapping, familyCount)
    requires requests.general.Some? && requests.compute.Some?
    ensures requests.general.value > requests.compute.value ==>
              HandOut(requests, mapping, familyCount) == Failure(ComputeLoopOutOfRange)
    ensures requests.general.value <= requests.compute.value && HandOut(requests, mapping, familyCount).Success? ==>
              var h := HandOut(requests, mapping, familyCount).value;
              |h.computeQueues| == requests.compute.value
              && forall i :: requests.general.value <= i < requests.compute.value ==> h.computeQueues[i] == NullQueue
  {
  }

  /** The present table: the candidate of family `i` is the first general
      queue if `i` is the general family, else the first transfer queue if
      `i` is the transfer family and there is one, else the first compute
      queue likewise, else a fresh queue; in every case a queue of family
      `i`. */
  lemma PresentCandidateRule(requests: QueueRequests, mapping: map<Role, int>, familyCount: nat)
    requires ValidMapping(mapping, familyCount) && HandOut(requests, mapping, familyCount).Success?
    requires requests.present
    ensures var h := HandOut(requests, mapping, familyCount).value;
            |h.presentQueueCandidates| == familyCount
            && forall i :: 0 <= i < familyCount ==>
                 h.presentQueueCandidates[i].Queue? && h.presentQueueCandidates[i].family == i
                 && h.presentQueueCandidates[i] ==
                      if i == mapping[General] then h.generalQueues[0]
                      else if i == mapping[Transfer] && |h.transferQueues| > 0 then h.transferQueues[0]
                      else if i == mapping[Compute] && |h.computeQueues| > 0 then h.computeQueues[0]
                      else Queue(i, Taken(requests, mapping, i))
  {
  }

  /** A successful hand-out only names families of the device: the three
      family indices are in range, general queue `i` is queue `i` of the
      general family, and the present table has one candidate per family
      (each a queue of that family) when present queues are requested and
      none otherwise. */
  lemma HandOutFits(requests: QueueRequests, mapping: map<Role, int>, familyCount: nat)
    requires ValidMapping(mapping, familyCount) && HandOut(requests, mapping, familyCount).Success?
    ensures var h := HandOut(requests, mapping, familyCount).value;
            0 <= h.generalFamilyIndex < familyCount && 0 <= h.computeFamilyIndex < familyCount
            && 0 <= h.transferFamilyIndex < familyCount
            && (forall i :: 0 <= i < |h.generalQueues| ==> h.generalQueues[i] == Queue(h.generalFamilyIndex, i))
            && (requests.present ==>
                  |h.presentQueueCandidates| == familyCount
                  && forall i :: 0 <= i < familyCount ==>
                       h.presentQueueCandidates[i].Queue? && h.presentQueueCandidates[i].family == i)
            && (!requests.present ==> h.presentQueueCandidates == [])
  {
    if requests.present {
      PresentCandidateRule(requests, mapping, familyCount);
    }
  }
}

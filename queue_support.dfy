/** `Configurator::CheckQueueSupport` (src/YAMLConfiguration.cpp): the
    classification of a device's queue families into the roles general,
    compute and transfer, and the reservation of the requested queue counts
    on the families of those roles.  The caller's `outputIndices` vector and
    `queueTypeMapping` map, passed by reference in the original, are passed
    in and returned. */
module QueueSupport {

  import opened Configuration
  import opened VulkanTypes

  /** `INT32_MAX`, the "not found" value of the compute and transfer roles. */
  const Int32Max: int := 0x7FFF_FFFF

  /** The keys "general", "compute" and "transfer" of `queueTypeMapping`. */
  datatype Role = General | Compute | Transfer

  /** The `queues` node of the `Device` section: each role's requested count
      when its key is present, and whether `present` is given. */
  datatype QueueRequests = QueueRequests(
    general: Option<nat>,
    transfer: Option<nat>,
    compute: Option<nat>,
    present: bool)

  const AllQueueBits: bv32 := QueueGraphicsBit | QueueComputeBit | QueueTransferBit

  /** The role one family claims during classification (see
      `ClassifyRoles`). */
  function Classify(f: QueueFamily): Option<Role>
  {
    if f.queueFlags & AllQueueBits == AllQueueBits then Some(General)
    else if f.queueFlags & QueueComputeBit != 0 then Some(Compute)
    else if f.queueFlags & QueueTransferBit != 0 then Some(Transfer)
    else None
  }

  /** A family is general when it has all of graphics, compute and
      transfer; otherwise compute when it has compute (with or without
      transfer); otherwise transfer when it has transfer. */
  lemma ClassifyRoles(f: QueueFamily)
    ensures Classify(f) == Some(General) <==>
      f.queueFlags & QueueGraphicsBit != 0 && f.queueFlags & QueueComputeBit != 0 && f.queueFlags & QueueTransferBit != 0
    ensures Classify(f) == Some(Compute) <==> Classify(f) != Some(General) && f.queueFlags & QueueComputeBit != 0
    ensures Classify(f) == Some(Transfer) <==>
      Classify(f) != Some(General) && f.queueFlags & QueueComputeBit == 0 && f.queueFlags & QueueTransferBit != 0
  {
  }

  /** The mapping after the classification loop has seen the families
      `families[..n]`: compute and transfer start at the sentinel, and each
      family overwrites the entry of the role it claims. */
  function Classification(families: seq<QueueFamily>, n: nat, m: map<Role, int>): map<Role, int>
    requires n <= |families|
  {
    if n == 0 then m[Transfer := Int32Max][Compute := Int32Max]
    else
      var prev := Classification(families, n - 1, m);
      match Classify(families[n - 1])
      case None => prev
      case Some(r) => prev[r := n - 1]
  }

  /** The highest index among the first `n` families that claims role `r`,
      or -1 when none does. */
  function LastOf(families: seq<QueueFamily>, n: nat, r: Role): (q: int)
    requires n <= |families|
    ensures -1 <= q < n
    ensures q >= 0 ==> Classify(families[q]) == Some(r)
    ensures forall k :: q < k < n ==> Classify(families[k]) != Some(r)
  {
    if n == 0 then -1
    else if Classify(families[n - 1]) == Some(r) then n - 1
    else LastOf(families, n - 1, r)
  }

  /** Last family wins: after classification each role holds the highest
      index of a family that claims it; with no such family compute and
      transfer hold the sentinel and general keeps whatever the mapping
      held before (nothing, or the value of an earlier call). */
  lemma {:induction false} ClassificationLastWins(families: seq<QueueFamily>, n: nat, m: map<Role, int>, r: Role)
    requires n <= |families|
    ensures LastOf(families, n, r) >= 0 ==>
      r in Classification(families, n, m) && Classification(families, n, m)[r] == LastOf(families, n, r)
    ensures LastOf(families, n, r) < 0 && r != General ==>
      r in Classification(families, n, m) && Classification(families, n, m)[r] == Int32Max
    ensures LastOf(families, n, r) < 0 && r == General ==>
      (r in Classification(families, n, m) <==> r in m)
      && (r in m ==> Classification(families, n, m)[r] == m[r])
  {
    if n > 0 {
      ClassificationLastWins(families, n - 1, m, r);
    }
  }

  /** What the two reads after the loop do to the mapping: `["general"]`
      inserts 0 when the key is missing, and a role still at the sentinel
      takes the general index. */
  function Resolve(m: map<Role, int>): (r: map<Role, int>)
    requires Compute in m && Transfer in m
    ensures General in r && Compute in r && Transfer in r
  {
    var general := if General in m then m[General] else 0;
    var withGeneral := m[General := general];
    withGeneral[Compute := if m[Compute] == Int32Max then general else m[Compute]]
               [Transfer := if m[Transfer] == Int32Max then general else m[Transfer]]
  }

  /** An index map into a device's families. */
  predicate MappingFits(m: map<Role, int>, familyCount: nat)
  {
    forall r :: r in m ==> 0 <= m[r] < familyCount
  }

  /** Every resolved role names one of the families, provided a "general"
      handed in does (the backend only passes back a mapping that an
      earlier call on the same device's families produced). */
  lemma ResolvedInRange(families: seq<QueueFamily>, m: map<Role, int>)
    ensures 0 < |families| < Int32Max && (General in m ==> 0 <= m[General] < |families|) ==>
      Compute in Classification(families, |families|, m) && Transfer in Classification(families, |families|, m)
      && MappingFits(Resolve(Classification(families, |families|, m)), |families|)
  {
    ClassificationLastWins(families, |families|, m, General);
    ClassificationLastWins(families, |families|, m, Compute);
    ClassificationLastWins(families, |families|, m, Transfer);
    if 0 < |families| < Int32Max && (General in m ==> 0 <= m[General] < |families|) {
      var resolved := Resolve(Classification(families, |families|, m));
      forall r | r in resolved
        ensures 0 <= resolved[r] < |families|
      {
        match r
        case General =>
        case Compute =>
        case Transfer =>
      }
    }
  }

  /** The mapping `CheckQueueSupport` leaves behind. */
  function ResolvedMapping(families: seq<QueueFamily>, m: map<Role, int>): (r: map<Role, int>)
    ensures General in r && Compute in r && Transfer in r
    ensures 0 < |families| < Int32Max && (General in m ==> 0 <= m[General] < |families|) ==>
      MappingFits(r, |families|)
  {
    ClassificationLastWins(families, |families|, m, Compute);
    ClassificationLastWins(families, |families|, m, Transfer);
    ResolvedInRange(families, m);
    Resolve(Classification(families, |families|, m))
  }

  /** No dedicated family for a role: that role falls back to the general
      index, in the mapping handed back. */
  lemma SentinelFallback(families: seq<QueueFamily>, m: map<Role, int>)
    requires |families| < Int32Max
    ensures LastOf(families, |families|, Compute) < 0 ==>
      ResolvedMapping(families, m)[Compute] == ResolvedMapping(families, m)[General]
    ensures LastOf(families, |families|, Transfer) < 0 ==>
      ResolvedMapping(families, m)[Transfer] == ResolvedMapping(families, m)[General]
    ensures LastOf(families, |families|, General) < 0 && General !in m ==>
      ResolvedMapping(families, m)[General] == 0
  {
    ClassificationLastWins(families, |families|, m, General);
    ClassificationLastWins(families, |families|, m, Compute);
    ClassificationLastWins(families, |families|, m, Transfer);
  }

  function Amount(request: Option<nat>): nat
  {
    if request.Some? then request.value else 0
  }

  function Add(counts: seq<int>, family: nat, n: nat): (r: seq<int>)
    requires family < |counts|
    ensures |r| == |counts|
  {
    counts[family := counts[family] + n]
  }

  /** The transfer test: the transfer family's `queueCount` against what
      the general request already took from it (the transfer request itself
      is not counted). */
  predicate TransferFits(requests: QueueRequests, families: seq<QueueFamily>, m: map<Role, int>)
    requires MappingFits(m, |families|) && General in m && Transfer in m
  {
    requests.transfer.None?
    || families[m[Transfer]].queueCount >= (if m[Transfer] == m[General] then Amount(requests.general) else 0)
  }

  /** The compute test: the compute family's `queueCount` against what the
      general and transfer requests already took from it. */
  predicate ComputeFits(requests: QueueRequests, families: seq<QueueFamily>, m: map<Role, int>)
    requires MappingFits(m, |families|) && General in m && Transfer in m && Compute in m
  {
    requests.compute.None?
    || families[m[Compute]].queueCount >=
         (if m[Compute] == m[General] then Amount(requests.general) else 0)
         + (if m[Compute] == m[Transfer] then Amount(requests.transfer) else 0)
  }

  /** The outcome of one call. */
  datatype QueueCheck = QueueCheck(ok: bool, outputIndices: seq<int>, mapping: map<Role, int>)

  /** Closed form of `CheckQueueSupport`: general is reserved unconditionally
      (nothing is allocated before it), then transfer, then compute; a
      failing test returns false with the additions made so far left in
      place. */
  function QueueSupportResult(requests: QueueRequests, families: seq<QueueFamily>,
                              outputIndices: seq<int>, m: map<Role, int>): (r: QueueCheck)
    requires 0 < |families| < Int32Max && |outputIndices| == |families|
    requires General in m ==> 0 <= m[General] < |families|
    ensures |r.outputIndices| == |families| && MappingFits(r.mapping, |families|)
    ensures General in r.mapping && Compute in r.mapping && Transfer in r.mapping
  {
    var mapping := ResolvedMapping(families, m);
    var afterGeneral := Add(outputIndices, mapping[General], Amount(requests.general));
    var afterTransfer := Add(afterGeneral, mapping[Transfer], Amount(requests.transfer));
    var afterCompute := Add(afterTransfer, mapping[Compute], Amount(requests.compute));
    if !TransferFits(requests, families, mapping) then QueueCheck(false, afterGeneral, mapping)
    else if !ComputeFits(requests, families, mapping) then QueueCheck(false, afterTransfer, mapping)
    else QueueCheck(true, afterCompute, mapping)
  }

  /** `QueueSupportResult` unfolded into its three outcomes. */
  lemma QueueSupportSteps(requests: QueueRequests, families: seq<QueueFamily>,
                          outputIndices: seq<int>, m: map<Role, int>)
    requires 0 < |families| < Int32Max && |outputIndices| == |families|
    requires General in m ==> 0 <= m[General] < |families|
    ensures var mapping := ResolvedMapping(families, m);
      var afterGeneral := Add(outputIndices, mapping[General], Amount(requests.general));
      var afterTransfer := Add(afterGeneral, mapping[Transfer], Amount(requests.transfer));
      var afterCompute := Add(afterTransfer, mapping[Compute], Amount(requests.compute));
      var spec := QueueSupportResult(requests, families, outputIndices, m);
      spec.mapping == mapping
      && (!TransferFits(requests, families, mapping) ==> spec == QueueCheck(false, afterGeneral, mapping))
      && (TransferFits(requests, families, mapping) && !ComputeFits(requests, families, mapping) ==>
            spec == QueueCheck(false, afterTransfer, mapping))
      && (TransferFits(requests, families, mapping) && ComputeFits(requests, families, mapping) ==>
            spec == QueueCheck(true, afterCompute, mapping))
  {
  }

  /** The first half of `Configurator::CheckQueueSupport`: the family loop
      that classifies, then the reads that insert "general" and replace the
      sentinels. */
  method ClassifyQueueFamilies(queueProperties: seq<QueueFamily>, queueTypeMapping: map<Role, int>)
    returns (mapping: map<Role, int>)
    requires 0 < |queueProperties| < Int32Max
    requires General in queueTypeMapping ==> 0 <= queueTypeMapping[General] < |queueProperties|
    ensures mapping == ResolvedMapping(queueProperties, queueTypeMapping)
    ensures MappingFits(mapping, |queueProperties|)
  {
    mapping := queueTypeMapping[Transfer := Int32Max][Compute := Int32Max];
    var q := 0;
    while q < |queueProperties|
      invariant 0 <= q <= |queueProperties|
      invariant mapping == Classification(queueProperties, q, queueTypeMapping)
    {
      var flags := queueProperties[q].queueFlags;
      if flags & AllQueueBits == AllQueueBits {
        mapping := mapping[General := q];
      } else if flags & QueueComputeBit != 0 {
        mapping := mapping[Compute := q];
      } else if flags & QueueTransferBit != 0 {
        mapping := mapping[Transfer := q];
      }
      q := q + 1;
    }
    assert Compute in mapping && Transfer in mapping by {
      ClassificationLastWins(queueProperties, |queueProperties|, queueTypeMapping, Compute);
      ClassificationLastWins(queueProperties, |queueProperties|, queueTypeMapping, Transfer);
    }
    var general := if General in mapping then mapping[General] else 0;
    mapping := mapping[General := general];
    var compute := if mapping[Compute] == Int32Max then mapping[General] else mapping[Compute];
    var transfer := if mapping[Transfer] == Int32Max then mapping[General] else mapping[Transfer];
    mapping := mapping[Compute := compute];
    mapping := mapping[Transfer := transfer];
  }

  /** `Configurator::CheckQueueSupport`: classifies, then reserves general,
      transfer and compute in that order. */
  method CheckQueueSupport(queueRequirements: QueueRequests, queueProperties: seq<QueueFamily>,
                           outputIndices: seq<int>, queueTypeMapping: map<Role, int>)
    returns (ok: bool, newOutputIndices: seq<int>, newMapping: map<Role, int>)
    requires 0 < |queueProperties| < Int32Max && |outputIndices| == |queueProperties|
    requires General in queueTypeMapping ==> 0 <= queueTypeMapping[General] < |queueProperties|
    ensures QueueCheck(ok, newOutputIndices, newMapping)
            == QueueSupportResult(queueRequirements, queueProperties, outputIndices, queueTypeMapping)
  {
    var mapping := ClassifyQueueFamilies(queueProperties, queueTypeMapping);
    var general := mapping[General];
    var compute := mapping[Compute];
    var transfer := mapping[Transfer];

    ghost var afterGeneral := Add(outputIndices, general, Amount(queueRequirements.general));
    ghost var afterTransfer := Add(afterGeneral, transfer, Amount(queueRequirements.transfer));
    ghost var afterCompute := Add(afterTransfer, compute, Amount(queueRequirements.compute));
    ghost var transferFits := TransferFits(queueRequirements, queueProperties, mapping);
    ghost var computeFits := ComputeFits(queueRequirements, queueProperties, mapping);
    QueueSupportSteps(queueRequirements, queueProperties, outputIndices, queueTypeMapping);

    var allocatedQueues: seq<int> := seq(|queueProperties|, _ => 0);
    newOutputIndices := outputIndices;
    newMapping := mapping;

    // Nothing is allocated yet, so the general test `queueCount >= 0` holds.
    if queueRequirements.general.Some? {
      newOutputIndices := newOutputIndices[general := newOutputIndices[general] + queueRequirements.general.value];
      allocatedQueues := allocatedQueues[general := allocatedQueues[general] + queueRequirements.general.value];
    }
    assert newOutputIndices == afterGeneral;
    assert allocatedQueues[transfer] == if transfer == general then Amount(queueRequirements.general) else 0;
    assert allocatedQueues[compute] == if compute == general then Amount(queueRequirements.general) else 0;

    if queueRequirements.transfer.Some? {
      if queueProperties[transfer].queueCount >= allocatedQueues[transfer] {
        newOutputIndices := newOutputIndices[transfer := newOutputIndices[transfer] + queueRequirements.transfer.value];
        allocatedQueues := allocatedQueues[transfer := allocatedQueues[transfer] + queueRequirements.transfer.value];
      } else {
        assert !transferFits;
        return false, newOutputIndices, newMapping;
      }
    }
    assert transferFits;
    assert newOutputIndices == afterTransfer;
    assert allocatedQueues[compute] ==
      (if compute == general then Amount(queueRequirements.general) else 0)
      + (if compute == transfer then Amount(queueRequirements.transfer) else 0);

    if queueRequirements.compute.Some? {
      if queueProperties[compute].queueCount >= allocatedQueues[compute] {
        newOutputIndices := newOutputIndices[compute := newOutputIndices[compute] + queueRequirements.compute.value];
        allocatedQueues := allocatedQueues[compute := allocatedQueues[compute] + queueRequirements.compute.value];
      } else {
        assert !computeFits;
        return false, newOutputIndices, newMapping;
      }
    }
    assert computeFits;
    assert newOutputIndices == afterCompute;
    return true, newOutputIndices, newMapping;
  }

  /** The capacity test looks only at earlier roles: a single request, of
      any size, always succeeds and is added in full to its family. */
  lemma SingleRequestAlwaysFits(requests: QueueRequests, families: seq<QueueFamily>,
                                outputIndices: seq<int>, m: map<Role, int>, role: Role)
    requires 0 < |families| < Int32Max && |outputIndices| == |families|
    requires General in m ==> 0 <= m[General] < |families|
    requires role == General ==> requests.transfer.None? && requests.compute.None?
    requires role == Transfer ==> requests.general.None? && requests.compute.None?
    requires role == Compute ==> requests.general.None? && requests.transfer.None?
    ensures var r := QueueSupportResult(requests, families, outputIndices, m);
      r.ok
      && r.outputIndices[r.mapping[role]] == outputIndices[r.mapping[role]]
           + Amount(if role == General then requests.general
                    else if role == Transfer then requests.transfer
                    else requests.compute)
  {
  }

  /** A call fails only when an earlier role has already taken more queues
      from the very same family than it has: transfer after general on a
      shared family, or compute after general and/or transfer. */
  lemma FailureNeedsEarlierOverallocation(requests: QueueRequests, families: seq<QueueFamily>,
                                          outputIndices: seq<int>, m: map<Role, int>)
    requires 0 < |families| < Int32Max && |outputIndices| == |families|
    requires General in m ==> 0 <= m[General] < |families|
    ensures var r := QueueSupportResult(requests, families, outputIndices, m);
      var g, t, c := r.mapping[General], r.mapping[Transfer], r.mapping[Compute];
      !r.ok <==>
        (requests.transfer.Some? && t == g && families[t].queueCount < Amount(requests.general))
        || (requests.compute.Some? &&
            families[c].queueCount < (if c == g then Amount(requests.general) else 0)
                                     + (if c == t then Amount(requests.transfer) else 0))
  {
  }

  /** On failure nothing is rolled back: the general reservation (and the
      transfer one when compute failed) stays in `outputIndices`. */
  lemma FailureKeepsEarlierAdditions(requests: QueueRequests, families: seq<QueueFamily>,
                                     outputIndices: seq<int>, m: map<Role, int>)
    requires 0 < |families| < Int32Max && |outputIndices| == |families|
    requires General in m ==> 0 <= m[General] < |families|
    ensures var r := QueueSupportResult(requests, families, outputIndices, m);
      var g := r.mapping[General];
      !r.ok && r.mapping[Transfer] != g && r.mapping[Compute] != g ==>
        r.outputIndices[g] == outputIndices[g] + Amount(requests.general)
  {
  }

  /** Absent roles change no count: with no request at all the counts come
      back unchanged and the call succeeds. */
  lemma NoRequestsNoChange(families: seq<QueueFamily>, outputIndices: seq<int>, m: map<Role, int>, present: bool)
    requires 0 < |families| < Int32Max && |outputIndices| == |families|
    requires General in m ==> 0 <= m[General] < |families|
    ensures var r := QueueSupportResult(QueueRequests(None, None, None, present), families, outputIndices, m);
      r.ok && r.outputIndices == outputIndices
  {
    var r := QueueSupportResult(QueueRequests(None, None, None, present), families, outputIndices, m);
    assert Add(outputIndices, r.mapping[General], 0) == outputIndices;
  }

  /** A successful call adds exactly the requested amounts, role by role, to
      the families the roles resolved to, and nothing else. */
  lemma SuccessAddsRequests(requests: QueueRequests, families: seq<QueueFamily>,
                            outputIndices: seq<int>, m: map<Role, int>, f: nat)
    requires 0 < |families| < Int32Max && |outputIndices| == |families|
    requires General in m ==> 0 <= m[General] < |families|
    requires f < |families|
    ensures var r := QueueSupportResult(requests, families, outputIndices, m);
      r.ok ==>
        r.outputIndices[f] == outputIndices[f]
          + (if r.mapping[General] == f then Amount(requests.general) else 0)
          + (if r.mapping[Transfer] == f then Amount(requests.transfer) else 0)
          + (if r.mapping[Compute] == f then Amount(requests.compute) else 0)
  {
  }
}

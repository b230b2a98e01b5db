/** The choices `src/VulkanBackend.cpp` makes once a surface exists: the
    depth format, the surface format, the filtering of the present-queue
    candidates by surface support and the choice of a present queue.  The
    driver's answers (format features, surface formats, surface support per
    family) are parameters. */
module Presentation {

  import opened VulkanTypes
  import opened Configuration
  import opened QueueSupport
  import opened QueueSetup

  // ---------------------------------------------------------------------
  // Depth format

  /** The depth formats in the order they are tried, highest precision
      first. */
  const DepthFormats: seq<Format> :=
    [FormatD32SfloatS8Uint, FormatD32Sfloat, FormatD24UnormS8Uint, FormatD16UnormS8Uint, FormatD16Unorm]

  /** Whether a format's optimal-tiling features include the
      depth-stencil-attachment bit. */
  predicate DepthStencilCapable(optimalTilingFeatures: Format -> bv32, format: Format)
  {
    optimalTilingFeatures(format) & FormatFeatureDepthStencilAttachmentBit != 0
  }

  /** The first capable format of `candidates`, or `FormatUndefined`. */
  function FirstCapable(optimalTilingFeatures: Format -> bv32, candidates: seq<Format>): Format
  {
    if |candidates| == 0 then FormatUndefined
    else if DepthStencilCapable(optimalTilingFeatures, candidates[0]) then candidates[0]
    else FirstCapable(optimalTilingFeatures, candidates[1..])
  }

  /** `GetDepthFormat`: the loop over the depth formats that returns the
      first one supporting depth-stencil attachments. */
  method GetDepthFormat(optimalTilingFeatures: Format -> bv32) returns (format: Format)
    ensures format == FirstCapable(optimalTilingFeatures, DepthFormats)
  {
    var i := 0;
    while i < |DepthFormats|
      invariant 0 <= i <= |DepthFormats|
      invariant FirstCapable(optimalTilingFeatures, DepthFormats) == FirstCapable(optimalTilingFeatures, DepthFormats[i..])
    {
      if optimalTilingFeatures(DepthFormats[i]) & FormatFeatureDepthStencilAttachmentBit != 0 {
        return DepthFormats[i];
      }
      assert DepthFormats[i..][1..] == DepthFormats[i + 1..];
      i := i + 1;
    }
    return FormatUndefined;
  }

  /** The first-match search over a list that does not contain
      `FormatUndefined`: the result is undefined exactly when no candidate
      is capable, and otherwise it is a capable candidate with no capable
      candidate before it. */
  lemma {:induction false} FirstCapableSpec(optimalTilingFeatures: Format -> bv32, candidates: seq<Format>)
    requires FormatUndefined !in candidates
    ensures var f := FirstCapable(optimalTilingFeatures, candidates);
            (f == FormatUndefined <==>
               forall i :: 0 <= i < |candidates| ==> !DepthStencilCapable(optimalTilingFeatures, candidates[i]))
            && (f != FormatUndefined ==>
                  exists i :: 0 <= i < |candidates| && candidates[i] == f
                    && DepthStencilCapable(optimalTilingFeatures, f)
                    && forall j :: 0 <= j < i ==> !DepthStencilCapable(optimalTilingFeatures, candidates[j]))
  {
    if |candidates| > 0 && !DepthStencilCapable(optimalTilingFeatures, candidates[0]) {
      var rest := candidates[1..];
      FirstCapableSpec(optimalTilingFeatures, rest);
      var f := FirstCapable(optimalTilingFeatures, rest);
      if f != FormatUndefined {
        var i :| 0 <= i < |rest| && rest[i] == f && DepthStencilCapable(optimalTilingFeatures, f)
                 && forall j :: 0 <= j < i ==> !DepthStencilCapable(optimalTilingFeatures, rest[j]);
        assert candidates[i + 1] == f;
      }
    }
  }

  /** `GetDepthFormat` returns the first of D32_S8, D32, D24_S8, D16_S8 and
      D16 that supports depth-stencil attachments, and UNDEFINED when none
      does. */
  lemma DepthFormatChoice(optimalTilingFeatures: Format -> bv32)
    ensures var f := FirstCapable(optimalTilingFeatures, DepthFormats);
            (f == FormatUndefined <==>
               forall i :: 0 <= i < |DepthFormats| ==> !DepthStencilCapable(optimalTilingFeatures, DepthFormats[i]))
            && (f != FormatUndefined ==>
                  exists i :: 0 <= i < |DepthFormats| && DepthFormats[i] == f
                    && DepthStencilCapable(optimalTilingFeatures, f)
                    && forall j :: 0 <= j < i ==> !DepthStencilCapable(optimalTilingFeatures, DepthFormats[j]))
  {
    FirstCapableSpec(optimalTilingFeatures, DepthFormats);
  }

  // ---------------------------------------------------------------------
  // Surface format

  /** The position of the first B8G8R8A8_UNORM entry at or after `i`. */
  function FirstUnorm(formats: seq<SurfaceFormat>, i: nat): (r: Option<nat>)
    requires i <= |formats|
    ensures r.Some? ==> i <= r.value < |formats| && formats[r.value].format == FormatB8G8R8A8Unorm
                        && forall j :: i <= j < r.value ==> formats[j].format != FormatB8G8R8A8Unorm
    ensures r.None? ==> forall j :: i <= j < |formats| ==> formats[j].format != FormatB8G8R8A8Unorm
    decreases |formats| - i
  {
    if i == |formats| then None
    else if formats[i].format == FormatB8G8R8A8Unorm then Some(i)
    else FirstUnorm(formats, i + 1)
  }

  /** The surface format `GetSurfaceFormat` settles on. */
  function SurfaceFormatChoice(formats: seq<SurfaceFormat>): SurfaceFormat
    requires |formats| > 0
  {
    if |formats| == 1 && formats[0].format == FormatUndefined then
      SurfaceFormat(FormatB8G8R8A8Unorm, formats[0].colorSpace)
    else
      match FirstUnorm(formats, 0)
      case Some(i) => formats[i]
      case None => formats[0]
  }

  /** `GetSurfaceFormat`, given the driver's (non-empty) format list. */
  method GetSurfaceFormat(surfaceFormats: seq<SurfaceFormat>) returns (surfaceFormat: SurfaceFormat)
    requires |surfaceFormats| > 0
    ensures surfaceFormat == SurfaceFormatChoice(surfaceFormats)
  {
    if |surfaceFormats| == 1 && surfaceFormats[0].format == FormatUndefined {
      return SurfaceFormat(FormatB8G8R8A8Unorm, surfaceFormats[0].colorSpace);
    }
    var i := 0;
    while i < |surfaceFormats|
      invariant 0 <= i <= |surfaceFormats|
      invariant FirstUnorm(surfaceFormats, 0) == FirstUnorm(surfaceFormats, i)
    {
      if surfaceFormats[i].format == FormatB8G8R8A8Unorm {
        return surfaceFormats[i];
      }
      i := i + 1;
    }
    return SurfaceFormat(surfaceFormats[0].format, surfaceFormats[0].colorSpace);
  }

  /** A single UNDEFINED entry means no preference: B8G8R8A8_UNORM with
      that entry's colour space.  Otherwise the first B8G8R8A8_UNORM entry
      is taken when there is one, and the first entry when there is none. */
  lemma SurfaceFormatRule(formats: seq<SurfaceFormat>)
    requires |formats| > 0
    ensures var f := SurfaceFormatChoice(formats);
            if |formats| == 1 && formats[0].format == FormatUndefined then
              f == SurfaceFormat(FormatB8G8R8A8Unorm, formats[0].colorSpace)
            else if exists i :: 0 <= i < |formats| && formats[i].format == FormatB8G8R8A8Unorm then
              exists i :: 0 <= i < |formats| && f == formats[i] && f.format == FormatB8G8R8A8Unorm
                && forall j :: 0 <= j < i ==> formats[j].format != FormatB8G8R8A8Unorm
            else f == formats[0]
  {
  }

  // ---------------------------------------------------------------------
  // Present queues

  /** The candidates after filtering: the candidate of every family whose
      surface support is false becomes null. */
  function Filtered(candidates: seq<Queue>, supports: nat -> bool): (r: seq<Queue>)
    ensures |r| == |candidates|
  {
    seq(|candidates|, q requires 0 <= q < |candidates| => if supports(q) then candidates[q] else NullQueue)
  }

  /** One step of the filtering loop: at position `q` the candidate is
      kept or nulled, and the filtered prefix grows by one. */
  lemma FilterStep(candidates: seq<Queue>, supports: nat -> bool, q: nat)
    requires q < |candidates|
    ensures (Filtered(candidates[..q], supports) + candidates[q..])[q := if supports(q) then candidates[q] else NullQueue]
            == Filtered(candidates[..q + 1], supports) + candidates[q + 1..]
    ensures supports(q) ==>
              Filtered(candidates[..q], supports) + candidates[q..] == Filtered(candidates[..q + 1], supports) + candidates[q + 1..]
  {
    var lhs := (Filtered(candidates[..q], supports) + candidates[q..])[q := if supports(q) then candidates[q] else NullQueue];
    var rhs := Filtered(candidates[..q + 1], supports) + candidates[q + 1..];
    assert |lhs| == |rhs|;
    forall k | 0 <= k < |lhs|
      ensures lhs[k] == rhs[k]
    {
      if k < q {
        assert candidates[..q][k] == candidates[..q + 1][k];
      }
    }
    if supports(q) {
      assert (Filtered(candidates[..q], supports) + candidates[q..])[q] == candidates[q];
    }
  }

  /** The number of families among the first `n` whose surface support is
      false: what `FilterPresentQueues` subtracts from its counter. */
  function Unsupported(supports: nat -> bool, n: nat): (k: nat)
    ensures k <= n
  {
    if n == 0 then 0 else Unsupported(supports, n - 1) + (if supports(n - 1) then 0 else 1)
  }

  /** The counter reaches zero exactly when no family supports the
      surface. */
  lemma {:induction false} UnsupportedAll(supports: nat -> bool, n: nat)
    ensures Unsupported(supports, n) == n <==> forall q :: 0 <= q < n ==> !supports(q)
  {
    if n > 0 {
      UnsupportedAll(supports, n - 1);
    }
  }

  /** Filtering nulls exactly the candidates of families without surface
      support (and keeps null ones null), and filtering again with the same
      support answers changes nothing. */
  lemma FilterIdempotent(candidates: seq<Queue>, supports: nat -> bool)
    ensures forall q :: 0 <= q < |candidates| ==>
              (Filtered(candidates, supports)[q] == NullQueue <==> !supports(q) || candidates[q] == NullQueue)
    ensures Filtered(Filtered(candidates, supports), supports) == Filtered(candidates, supports)
  {
  }

  /** After `Initialize` no candidate is null, so the error is logged
      exactly when filtering leaves every candidate null. */
  lemma NoPresentQueueLogged(candidates: seq<Queue>, supports: nat -> bool)
    requires forall q :: 0 <= q < |candidates| ==> candidates[q] != NullQueue
    ensures Unsupported(supports, |candidates|) == |candidates| <==>
            forall q :: 0 <= q < |candidates| ==> Filtered(candidates, supports)[q] == NullQueue
  {
    UnsupportedAll(supports, |candidates|);
    var f := Filtered(candidates, supports);
    assert forall q :: 0 <= q < |candidates| ==> (f[q] == NullQueue <==> !supports(q));
  }

  /** The lowest-index non-null candidate at or after `q`, or null. */
  function FirstNonNull(candidates: seq<Queue>, q: nat): Queue
    requires q <= |candidates|
    decreases |candidates| - q
  {
    if q == |candidates| then NullQueue
    else if candidates[q] != NullQueue then candidates[q]
    else FirstNonNull(candidates, q + 1)
  }

  /** The queue `SelectPresentQueue` returns. */
  function PresentChoice(candidates: seq<Queue>, generalFamilyIndex: nat): Queue
    requires generalFamilyIndex < |candidates|
  {
    if candidates[generalFamilyIndex] != NullQueue then candidates[generalFamilyIndex]
    else FirstNonNull(candidates, 0)
  }

  /** `SelectPresentQueue`: the general family's candidate when it is not
      null, else the loop over the candidates for the first non-null one. */
  method SelectPresentQueue(presentQueueCandidates: seq<Queue>, generalFamilyIndex: nat) returns (queue: Queue)
    requires generalFamilyIndex < |presentQueueCandidates|
    ensures queue == PresentChoice(presentQueueCandidates, generalFamilyIndex)
  {
    var generalQueue := presentQueueCandidates[generalFamilyIndex];
    if generalQueue != NullQueue {
      return generalQueue;
    }
    var q := 0;
    while q < |presentQueueCandidates|
      invariant 0 <= q <= |presentQueueCandidates|
      invariant FirstNonNull(presentQueueCandidates, 0) == FirstNonNull(presentQueueCandidates, q)
    {
      if presentQueueCandidates[q] != NullQueue {
        return presentQueueCandidates[q];
      }
      q := q + 1;
    }
    return NullQueue;
  }

  lemma {:induction false} FirstNonNullSpec(candidates: seq<Queue>, q: nat)
    requires q <= |candidates|
    ensures var r := FirstNonNull(candidates, q);
            (r == NullQueue <==> forall p :: q <= p < |candidates| ==> candidates[p] == NullQueue)
            && (r != NullQueue ==>
                  exists p :: q <= p < |candidates| && candidates[p] == r
                    && forall o :: q <= o < p ==> candidates[o] == NullQueue)
    decreases |candidates| - q
  {
    if q < |candidates| && candidates[q] == NullQueue {
      FirstNonNullSpec(candidates, q + 1);
    }
  }

  /** The present queue is the general family's candidate if that is not
      null, else the lowest-index non-null candidate, and null exactly when
      every candidate is null. */
  lemma PresentChoiceRule(candidates: seq<Queue>, generalFamilyIndex: nat)
    requires generalFamilyIndex < |candidates|
    ensures var r := PresentChoice(candidates, generalFamilyIndex);
            (candidates[generalFamilyIndex] != NullQueue ==> r == candidates[generalFamilyIndex])
            && (r == NullQueue <==> forall p :: 0 <= p < |candidates| ==> candidates[p] == NullQueue)
            && (candidates[generalFamilyIndex] == NullQueue && r != NullQueue ==>
                  exists p :: 0 <= p < |candidates| && candidates[p] == r
                    && forall o :: 0 <= o < p ==> candidates[o] == NullQueue)
  {
    FirstNonNullSpec(candidates, 0);
  }

  /** `SelectPresentComputeQueue`: the candidate at the compute family
      index, with no fallback: it is one of the candidates, agrees with
      `PresentChoice` on that index whenever it is not null, and, on the
      candidates the hand-out builds (one queue per family), is a queue of
      the compute family. */
  function PresentComputeChoice(candidates: seq<Queue>, computeFamilyIndex: nat): (r: Queue)
    requires computeFamilyIndex < |candidates|
    ensures r in candidates
    ensures r != NullQueue ==> r == PresentChoice(candidates, computeFamilyIndex)
    ensures (forall i :: 0 <= i < |candidates| ==> candidates[i].Queue? && candidates[i].family == i)
            ==> r.Queue? && r.family == computeFamilyIndex
  {
    candidates[computeFamilyIndex]
  }

  /** Right after `Initialize` (with present queues), the present queue is
      the first general queue; the present compute queue is the first
      compute queue when compute queues were requested on a family of its
      own, and, when no compute queue was requested, the candidate of
      family 0, since the compute family index stays 0. */
  lemma PresentQueuesAfterSetup(requests: QueueRequests, mapping: map<Role, int>, familyCount: nat)
    requires ValidMapping(mapping, familyCount) && HandOut(requests, mapping, familyCount).Success?
    requires requests.present
    ensures var h := HandOut(requests, mapping, familyCount).value;
            0 <= h.generalFamilyIndex < familyCount && 0 <= h.computeFamilyIndex < familyCount
            && PresentChoice(h.presentQueueCandidates, h.generalFamilyIndex) == h.generalQueues[0]
            && (requests.compute.None? ==>
                  PresentComputeChoice(h.presentQueueCandidates, h.computeFamilyIndex) == h.presentQueueCandidates[0])
            && (Amount(requests.compute) > 0 && mapping[Compute] != mapping[General]
                && !(mapping[Compute] == mapping[Transfer] && Amount(requests.transfer) > 0) ==>
                  PresentComputeChoice(h.presentQueueCandidates, h.computeFamilyIndex) == h.computeQueues[0])
  {
    PresentCandidateRule(requests, mapping, familyCount);
  }
}

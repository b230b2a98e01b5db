/** The tiered physical-device selection of `VulkanBackend::Initialize`:
    first the device with the configured name, then devices of the
    configured vendor, then every other device, each tier taking the first
    device that passes.  `src/VulkanBackend.cpp` accepts a device on API
    version, features and queue support; `src/internal/VulkanBackend.cpp`
    runs the same tiers on API version and features only.  Both are one
    selector here, parameterised by a `Variant`. */
module DeviceSelection {

  import opened Text
  import opened Versions
  import opened VulkanTypes
  import opened Configuration
  import opened QueueSupport

  /** Which acceptance test the tiers apply. */
  datatype Variant = FeaturesOnly | FeaturesAndQueues

  /** The per-device `outputIndices` and `indexMappings` vectors, indexed
      like the enumerated devices. */
  datatype Slots = Slots(outputIndices: seq<seq<int>>, indexMappings: seq<map<Role, int>>)

  /** The selected device (its enumeration index) and `deviceIndex`, the
      slot whose queue data the queue setup reads afterwards. */
  datatype Pick = Pick(device: nat, deviceIndex: nat)

  datatype Selection = Selection(pick: Option<Pick>, slots: Slots)

  /** What the driver guarantees of every enumerated device: at least one
      queue family (and, here, fewer than `INT32_MAX`). */
  predicate ValidDevices(devices: seq<PhysicalDevice>)
  {
    forall d :: 0 <= d < |devices| ==> 0 < |devices[d].queueFamilies| < Int32Max
  }

  /** The slots are sized for the devices, every mapping names families of
      its own slot's device, and the count vectors of the first `zeroed`
      slots have been resized to their device's family count. */
  predicate SlotsFit(devices: seq<PhysicalDevice>, slots: Slots, zeroed: nat)
  {
    |slots.outputIndices| == |devices| && |slots.indexMappings| == |devices| && zeroed <= |devices|
    && (forall d :: 0 <= d < |devices| ==> MappingFits(slots.indexMappings[d], |devices[d].queueFamilies|))
    && (forall d :: 0 <= d < zeroed ==> |slots.outputIndices[d]| == |devices[d].queueFamilies|)
  }

  /** `outputIndices.resize(deviceCount)`, `indexMappings.resize(deviceCount)`. */
  function InitialSlots(n: nat): (s: Slots)
    ensures |s.outputIndices| == n && |s.indexMappings| == n
  {
    Slots(seq(n, _ => []), seq(n, _ => map[]))
  }

  datatype Check = Check(passed: bool, slots: Slots)

  /** The acceptance test after the API-version test: the features of
      device `dev`, then (with queues, and only when the features pass)
      `CheckQueueSupport` on the families and the slot numbered `slot`. */
  function CheckAt(variant: Variant, devices: seq<PhysicalDevice>, required: seq<string>,
                   requests: QueueRequests, dev: nat, slot: nat, slots: Slots): (c: Check)
    requires ValidDevices(devices) && dev < |devices| && slot < |devices|
    requires variant == FeaturesAndQueues ==> SlotsFit(devices, slots, slot + 1)
    ensures variant == FeaturesAndQueues ==> SlotsFit(devices, c.slots, slot + 1)
    ensures c.passed ==> CheckFeaturesPresent(devices[dev].features, devices[dev].deviceType, required)
    ensures variant == FeaturesOnly ==> c.slots == slots
  {
    if !CheckFeaturesPresent(devices[dev].features, devices[dev].deviceType, required) then Check(false, slots)
    else if variant == FeaturesOnly then Check(true, slots)
    else
      var r := QueueSupportResult(requests, devices[slot].queueFamilies,
                                  slots.outputIndices[slot], slots.indexMappings[slot]);
      Check(r.ok, Slots(slots.outputIndices[slot := r.outputIndices], slots.indexMappings[slot := r.mapping]))
  }

  /** A count vector of `n` zeros. */
  function Zeros(n: nat): (z: seq<int>)
    ensures |z| == n && forall k :: 0 <= k < n ==> z[k] == 0
  {
    seq(n, _ => 0)
  }

  /** `outputIndices[d].resize(queueFamilyCount)` on a fresh vector: with
      queues, slot `d` gets one zero count per family of device `d`. */
  function ResetSlot(variant: Variant, devices: seq<PhysicalDevice>, slots: Slots, d: nat): (r: Slots)
    requires ValidDevices(devices) && d < |devices|
    requires variant == FeaturesAndQueues ==> SlotsFit(devices, slots, d)
    ensures variant == FeaturesAndQueues ==> SlotsFit(devices, r, d + 1)
    ensures variant == FeaturesAndQueues ==> r.outputIndices[d] == Zeros(|devices[d].queueFamilies|)
    ensures r.indexMappings == slots.indexMappings
    ensures variant == FeaturesOnly ==> r == slots
  {
    if variant == FeaturesAndQueues
    then Slots(slots.outputIndices[d := Zeros(|devices[d].queueFamilies|)], slots.indexMappings)
    else slots
  }

  datatype NameOutcome = NameOutcome(picked: Option<nat>, found: bool, slots: Slots)

  /** The enumeration loop from device `d` on: each device's count vector
      is reset (with queues); while the preferred device is not found, a
      device with the preferred name is selected when its API version is
      high enough and it passes, and ends the preferred search when its API
      version is too low. */
  function NameScan(variant: Variant, devices: seq<PhysicalDevice>, requested: Word, preferredName: string,
                    required: seq<string>, requests: QueueRequests, d: nat, found: bool, slots: Slots): (r: NameOutcome)
    requires ValidDevices(devices) && d <= |devices|
    requires variant == FeaturesAndQueues ==> SlotsFit(devices, slots, d)
    ensures variant == FeaturesAndQueues ==> SlotsFit(devices, r.slots, if r.picked.Some? then r.picked.value + 1 else |devices|)
    ensures r.picked.Some? ==> d <= r.picked.value < |devices|
    decreases |devices| - d
  {
    if d == |devices| then NameOutcome(None, found, slots)
    else
      var reset := ResetSlot(variant, devices, slots, d);
      if !found && devices[d].deviceName == preferredName then
        if devices[d].apiVersion >= requested then
          var c := CheckAt(variant, devices, required, requests, d, d, reset);
          if c.passed then NameOutcome(Some(d), true, c.slots)
          else NameScan(variant, devices, requested, preferredName, required, requests, d + 1, found, c.slots)
        else NameScan(variant, devices, requested, preferredName, required, requests, d + 1, true, reset)
      else NameScan(variant, devices, requested, preferredName, required, requests, d + 1, found, reset)
  }

  /** The two partition lists, as enumeration indices. */
  datatype Split = Split(preferred: seq<nat>, other: seq<nat>)

  /** A list of enumeration indices in strictly increasing order, all below
      `n`. */
  predicate Ascending(list: seq<nat>, n: nat)
  {
    (forall i :: 0 <= i < |list| ==> list[i] < n)
    && (forall i, j :: 0 <= i < j < |list| ==> list[i] < list[j])
  }

  /** The partition of the first `n` devices: devices below the requested
      API version were nulled and are skipped; with a vendor id above 0 a
      device of that vendor goes to the preferred list, every other device
      to the other list. */
  function Partition(devices: seq<PhysicalDevice>, requested: Word, vendorId: Word, n: nat): (s: Split)
    requires n <= |devices|
    ensures Ascending(s.preferred, n) && Ascending(s.other, n)
    ensures |s.preferred| <= n && |s.other| <= n
  {
    if n == 0 then Split([], [])
    else
      var prev := Partition(devices, requested, vendorId, n - 1);
      if devices[n - 1].apiVersion < requested then prev
      else if vendorId > 0 && devices[n - 1].vendorId == vendorId then Split(prev.preferred + [n - 1], prev.other)
      else Split(prev.preferred, prev.other + [n - 1])
  }

  datatype TierOutcome = TierOutcome(picked: Option<nat>, slots: Slots)

  /** One tier loop from position `pos` of its list: the device at
      position `pos` is tested on its own API version and features, but its
      queue check uses the families and slot of enumeration index `pos`. */
  function TierScan(variant: Variant, devices: seq<PhysicalDevice>, requested: Word, required: seq<string>,
                    requests: QueueRequests, list: seq<nat>, pos: nat, slots: Slots): (r: TierOutcome)
    requires ValidDevices(devices) && pos <= |list| && Ascending(list, |devices|) && |list| <= |devices|
    requires variant == FeaturesAndQueues ==> SlotsFit(devices, slots, |devices|)
    ensures variant == FeaturesAndQueues ==> SlotsFit(devices, r.slots, |devices|)
    ensures r.picked.Some? ==> pos <= r.picked.value < |list|
    decreases |list| - pos
  {
    if pos == |list| then TierOutcome(None, slots)
    else if devices[list[pos]].apiVersion >= requested then
      var c := CheckAt(variant, devices, required, requests, list[pos], pos, slots);
      if c.passed then TierOutcome(Some(pos), c.slots)
      else TierScan(variant, devices, requested, required, requests, list, pos + 1, c.slots)
    else TierScan(variant, devices, requested, required, requests, list, pos + 1, slots)
  }

  /** The vendor id the configuration asks for (0 when none). */
  function PreferredVendorId(preferredVendor: Option<string>): Word
  {
    if preferredVendor.Some? then VendorId(ToLower(preferredVendor.value)) else 0
  }

  /** The two partition tiers, run after the name tier selected nothing:
      the preferred-vendor list first, then the other list, on the slots
      the name tier left behind. */
  function Tiers(variant: Variant, devices: seq<PhysicalDevice>, requested: Word, vendorId: Word,
                 required: seq<string>, requests: QueueRequests, slots: Slots): (s: Selection)
    requires ValidDevices(devices)
    requires variant == FeaturesAndQueues ==> SlotsFit(devices, slots, |devices|)
  {
    var split := Partition(devices, requested, vendorId, |devices|);
    var first := TierScan(variant, devices, requested, required, requests, split.preferred, 0, slots);
    if first.picked.Some? then Selection(Some(Pick(split.preferred[first.picked.value], first.picked.value)), first.slots)
    else
      var second := TierScan(variant, devices, requested, required, requests, split.other, 0, first.slots);
      if second.picked.Some? then Selection(Some(Pick(split.other[second.picked.value], second.picked.value)), second.slots)
      else Selection(None, second.slots)
  }

  /** The name tier of the selection: the enumeration loop from the
      first device on, with every slot still empty; without a preferred
      name the search counts as already ended. */
  function ByName(variant: Variant, devices: seq<PhysicalDevice>, requested: Word, preferred: Option<string>,
                  required: seq<string>, requests: QueueRequests): NameOutcome
    requires ValidDevices(devices)
  {
    NameScan(variant, devices, requested, if preferred.Some? then preferred.value else "",
             required, requests, 0, preferred.None?, InitialSlots(|devices|))
  }

  /** The whole selection: the name tier, then (if it selected nothing)
      the partition tiers. */
  function Select(variant: Variant, devices: seq<PhysicalDevice>, requested: Word, preferred: Option<string>,
                  preferredVendor: Option<string>, required: seq<string>, requests: QueueRequests): (s: Selection)
    requires ValidDevices(devices)
  {
    var named := ByName(variant, devices, requested, preferred, required, requests);
    if named.picked.Some? then Selection(Some(Pick(named.picked.value, named.picked.value)), named.slots)
    else Tiers(variant, devices, requested, PreferredVendorId(preferredVendor), required, requests, named.slots)
  }

  /** The feature lowercasing of `Initialize`: every required feature name
      is copied character by character through `tolower`. */
  method LowercaseFeatures(requiredFeaturesMessy: seq<string>) returns (requiredFeatures: seq<string>)
    ensures |requiredFeatures| == |requiredFeaturesMessy|
    ensures forall f :: 0 <= f < |requiredFeatures| ==> requiredFeatures[f] == ToLower(requiredFeaturesMessy[f])
  {
    requiredFeatures := seq(|requiredFeaturesMessy|, _ => "");
    var f := 0;
    while f < |requiredFeaturesMessy|
      invariant 0 <= f <= |requiredFeaturesMessy| && |requiredFeatures| == |requiredFeaturesMessy|
      invariant forall k :: 0 <= k < f ==> requiredFeatures[k] == ToLower(requiredFeaturesMessy[k])
    {
      var messy := requiredFeaturesMessy[f];
      var lower: string := seq(|messy|, _ => '\0');
      var c := 0;
      while c < |messy|
        invariant 0 <= c <= |messy| && |lower| == |messy|
        invariant forall k :: 0 <= k < c ==> lower[k] == LowerChar(messy[k])
      {
        lower := lower[c := LowerChar(messy[c])];
        c := c + 1;
      }
      requiredFeatures := requiredFeatures[f := lower];
      f := f + 1;
    }
  }

  /** The acceptance test of every tier after its API-version test:
      `CheckFeaturesPresent`, then (with queues, only when the features
      pass) `CheckQueueSupport` on the families, count vector and mapping
      of slot `slot`. */
  method CheckDevice(variant: Variant, devices: seq<PhysicalDevice>, requiredFeatures: seq<string>,
                     queues: QueueRequests, dev: nat, slot: nat,
                     outputIndices: seq<seq<int>>, indexMappings: seq<map<Role, int>>)
    returns (passed: bool, newOutputIndices: seq<seq<int>>, newIndexMappings: seq<map<Role, int>>)
    requires ValidDevices(devices) && dev < |devices| && slot < |devices|
    requires variant == FeaturesAndQueues ==> SlotsFit(devices, Slots(outputIndices, indexMappings), slot + 1)
    ensures Check(passed, Slots(newOutputIndices, newIndexMappings))
            == CheckAt(variant, devices, requiredFeatures, queues, dev, slot, Slots(outputIndices, indexMappings))
  {
    newOutputIndices, newIndexMappings := outputIndices, indexMappings;
    passed := CheckFeaturesPresent(devices[dev].features, devices[dev].deviceType, requiredFeatures);
    if passed && variant == FeaturesAndQueues {
      var counts, mapping;
      passed, counts, mapping := CheckQueueSupport(queues, devices[slot].queueFamilies,
                                                   outputIndices[slot], indexMappings[slot]);
      newOutputIndices := outputIndices[slot := counts];
      newIndexMappings := indexMappings[slot := mapping];
    }
  }

  /** The name-tier part of one pass of the enumeration loop: the reset
      of the device's count vector (with queues) and, while the preferred
      device is not found, the test of a device with the preferred name. */
  method ScanDevice(variant: Variant, devices: seq<PhysicalDevice>, requested: Word, preferredName: string,
                    requiredFeatures: seq<string>, queues: QueueRequests, d: nat, found: bool,
                    outputIndices: seq<seq<int>>, indexMappings: seq<map<Role, int>>)
    returns (passed: bool, newFound: bool, newOutputIndices: seq<seq<int>>, newIndexMappings: seq<map<Role, int>>)
    requires ValidDevices(devices) && d < |devices|
    requires variant == FeaturesAndQueues ==> SlotsFit(devices, Slots(outputIndices, indexMappings), d)
    ensures variant == FeaturesAndQueues ==> SlotsFit(devices, Slots(newOutputIndices, newIndexMappings), d + 1)
    ensures NameScan(variant, devices, requested, preferredName, requiredFeatures, queues,
                     d, found, Slots(outputIndices, indexMappings))
            == if passed then NameOutcome(Some(d), true, Slots(newOutputIndices, newIndexMappings))
               else NameScan(variant, devices, requested, preferredName, requiredFeatures, queues,
                             d + 1, newFound, Slots(newOutputIndices, newIndexMappings))
  {
    passed, newFound, newOutputIndices, newIndexMappings := false, found, outputIndices, indexMappings;
    if variant == FeaturesAndQueues {
      newOutputIndices := outputIndices[d := Zeros(|devices[d].queueFamilies|)];
    }
    if !found && devices[d].deviceName == preferredName {
      if devices[d].apiVersion >= requested {
        passed, newOutputIndices, newIndexMappings := CheckDevice(variant, devices, requiredFeatures, queues,
                                                                  d, d, newOutputIndices, newIndexMappings);
      } else {
        // The original logs the device's version, decoded with
        // VK_API_VERSION_MAJOR/MINOR/PATCH, here.
        newFound := true;
      }
    }
  }

  /** The enumeration loop of `Initialize`: the name tier, and the nulling
      of every device below the requested API version. */
  method NameTier(variant: Variant, devices: seq<PhysicalDevice>, requested: Word, preferred: Option<string>,
                  requiredFeatures: seq<string>, queues: QueueRequests)
    returns (picked: Option<nat>, slots: Slots, nulled: seq<bool>)
    requires ValidDevices(devices)
    ensures var named := NameScan(variant, devices, requested, if preferred.Some? then preferred.value else "",
                                  requiredFeatures, queues, 0, preferred.None?, InitialSlots(|devices|));
            picked == named.picked && slots == named.slots
    ensures picked.None? ==> |nulled| == |devices|
                             && forall k :: 0 <= k < |devices| ==> (nulled[k] <==> devices[k].apiVersion < requested)
  {
    var outputIndices: seq<seq<int>> := InitialSlots(|devices|).outputIndices;
    var indexMappings: seq<map<Role, int>> := InitialSlots(|devices|).indexMappings;
    nulled := seq(|devices|, _ => false);
    var preferredName := "";
    var foundPreferredDevice := true;
    if preferred.Some? {
      preferredName := preferred.value;
      foundPreferredDevice := false;
    }
    ghost var named := NameScan(variant, devices, requested, preferredName, requiredFeatures, queues,
                                0, preferred.None?, InitialSlots(|devices|));
    var d := 0;
    while d < |devices|
      invariant 0 <= d <= |devices| && |nulled| == |devices|
      invariant forall k :: 0 <= k < d ==> (nulled[k] <==> devices[k].apiVersion < requested)
      invariant forall k :: d <= k < |devices| ==> !nulled[k]
      invariant variant == FeaturesAndQueues ==> SlotsFit(devices, Slots(outputIndices, indexMappings), d)
      invariant named == NameScan(variant, devices, requested, preferredName, requiredFeatures, queues,
                                  d, foundPreferredDevice, Slots(outputIndices, indexMappings))
    {
      var passed;
      passed, foundPreferredDevice, outputIndices, indexMappings :=
        ScanDevice(variant, devices, requested, preferredName, requiredFeatures, queues,
                   d, foundPreferredDevice, outputIndices, indexMappings);
      if passed {
        return Some(d), Slots(outputIndices, indexMappings), nulled;
      }
      if devices[d].apiVersion < requested {
        nulled := nulled[d := true];
      }
      d := d + 1;
    }
    return None, Slots(outputIndices, indexMappings), nulled;
  }

  /** The partition loop: every non-null device goes to the preferred list
      when the vendor id is above 0 and matches, to the other list
      otherwise. */
  method PartitionDevices(devices: seq<PhysicalDevice>, requested: Word, nulled: seq<bool>, preferredVendorId: Word)
    returns (preferredDevices: seq<nat>, otherDevices: seq<nat>)
    requires |nulled| == |devices|
    requires forall k :: 0 <= k < |devices| ==> (nulled[k] <==> devices[k].apiVersion < requested)
    ensures Split(preferredDevices, otherDevices) == Partition(devices, requested, preferredVendorId, |devices|)
  {
    preferredDevices, otherDevices := [], [];
    var d := 0;
    while d < |devices|
      invariant 0 <= d <= |devices|
      invariant Split(preferredDevices, otherDevices) == Partition(devices, requested, preferredVendorId, d)
    {
      if !nulled[d] {
        if preferredVendorId > 0 && devices[d].vendorId == preferredVendorId {
          preferredDevices := preferredDevices + [d];
        } else {
          otherDevices := otherDevices + [d];
        }
      }
      d := d + 1;
    }
  }

  /** One tier loop (the preferred-vendor loop and the other-device loop
      are the same code over their own list). */
  method TierLoop(variant: Variant, devices: seq<PhysicalDevice>, requested: Word, requiredFeatures: seq<string>,
                  queues: QueueRequests, list: seq<nat>, slots0: Slots)
    returns (picked: Option<nat>, slots: Slots)
    requires ValidDevices(devices) && Ascending(list, |devices|) && |list| <= |devices|
    requires variant == FeaturesAndQueues ==> SlotsFit(devices, slots0, |devices|)
    ensures TierOutcome(picked, slots) == TierScan(variant, devices, requested, requiredFeatures, queues, list, 0, slots0)
  {
    var outputIndices, indexMappings := slots0.outputIndices, slots0.indexMappings;
    ghost var tier := TierScan(variant, devices, requested, requiredFeatures, queues, list, 0, slots0);
    var d := 0;
    while d < |list|
      invariant 0 <= d <= |list|
      invariant variant == FeaturesAndQueues ==> SlotsFit(devices, Slots(outputIndices, indexMappings), |devices|)
      invariant tier == TierScan(variant, devices, requested, requiredFeatures, queues,
                                 list, d, Slots(outputIndices, indexMappings))
    {
      var device := list[d];
      if devices[device].apiVersion >= requested {
        // The device comes from the list, the queue data from slot `d`.
        var passed;
        passed, outputIndices, indexMappings := CheckDevice(variant, devices, requiredFeatures, queues,
                                                            device, d, outputIndices, indexMappings);
        if passed {
          return Some(d), Slots(outputIndices, indexMappings);
        }
      }
      d := d + 1;
    }
    return None, Slots(outputIndices, indexMappings);
  }

  /** The device-selection part of `Initialize`, for either variant. */
  method SelectDevice(variant: Variant, devices: seq<PhysicalDevice>, requested: Word, preferred: Option<string>,
                      preferredVendor: Option<string>, requiredFeatures: seq<string>, queues: QueueRequests)
    returns (selection: Selection)
    requires ValidDevices(devices)
    ensures selection == Select(variant, devices, requested, preferred, preferredVendor, requiredFeatures, queues)
  {
    var picked, slots, nulled := NameTier(variant, devices, requested, preferred, requiredFeatures, queues);
    if picked.Some? {
      return Selection(Some(Pick(picked.value, picked.value)), slots);
    }
    var preferredVendorId: Word := 0;
    if preferredVendor.Some? {
      preferredVendorId := VendorIdFromString(preferredVendor.value);
    }
    var preferredDevices, otherDevices := PartitionDevices(devices, requested, nulled, preferredVendorId);
    picked, slots := TierLoop(variant, devices, requested, requiredFeatures, queues, preferredDevices, slots);
    if picked.Some? {
      return Selection(Some(Pick(preferredDevices[picked.value], picked.value)), slots);
    }
    picked, slots := TierLoop(variant, devices, requested, requiredFeatures, queues, otherDevices, slots);
    if picked.Some? {
      return Selection(Some(Pick(otherDevices[picked.value], picked.value)), slots);
    }
    return Selection(None, slots);
  }

  // ---------------------------------------------------------------------
  // Properties of the selection

  /** A device that passes the tests of the features-only variant. */
  predicate Passes(devices: seq<PhysicalDevice>, requested: Word, required: seq<string>, d: nat)
    requires d < |devices|
  {
    devices[d].apiVersion >= requested
    && CheckFeaturesPresent(devices[d].features, devices[d].deviceType, required)
  }

  /** The acceptance test of the name tier: API version and features and,
      with queues, `CheckQueueSupport` on the device's own families with
      its freshly zeroed count vector and its still empty mapping. */
  predicate Accepted(variant: Variant, devices: seq<PhysicalDevice>, requested: Word, required: seq<string>,
                     requests: QueueRequests, d: nat)
    requires ValidDevices(devices) && d < |devices|
  {
    Passes(devices, requested, required, d)
    && (variant == FeaturesAndQueues ==>
          QueueSupportResult(requests, devices[d].queueFamilies, Zeros(|devices[d].queueFamilies|), map[]).ok)
  }

  /** Reference definition of the name tier: device `d` is the first
      device with the preferred name that is accepted, and every earlier
      device with that name had a high enough API version (a lower one ends
      the search) and was not accepted. */
  predicate FirstNamedPass(variant: Variant, devices: seq<PhysicalDevice>, preferredName: string, requested: Word,
                           required: seq<string>, requests: QueueRequests, d: nat)
    requires ValidDevices(devices)
  {
    d < |devices| && devices[d].deviceName == preferredName
    && Accepted(variant, devices, requested, required, requests, d)
    && forall k :: 0 <= k < d && devices[k].deviceName == preferredName ==>
         devices[k].apiVersion >= requested && !Accepted(variant, devices, requested, required, requests, k)
  }

  /** The mappings of slot `i` and of every later slot are still empty. */
  predicate UntouchedFrom(slots: Slots, i: nat)
  {
    forall k :: i <= k < |slots.indexMappings| ==> slots.indexMappings[k] == map[]
  }

  /** The name tier selects exactly the device of the reference
      definition, in either variant; once the preferred search has ended
      (or when there is no preferred name) it selects nothing. */
  lemma {:induction false} NameScanFirst(variant: Variant, devices: seq<PhysicalDevice>, requested: Word,
                                         preferredName: string, required: seq<string>, requests: QueueRequests,
                                         i: nat, found: bool, slots: Slots)
    requires ValidDevices(devices) && i <= |devices|
    requires variant == FeaturesAndQueues ==> SlotsFit(devices, slots, i) && UntouchedFrom(slots, i)
    requires !found ==> forall k :: 0 <= k < i && devices[k].deviceName == preferredName ==>
               devices[k].apiVersion >= requested && !Accepted(variant, devices, requested, required, requests, k)
    ensures var r := NameScan(variant, devices, requested, preferredName, required, requests, i, found, slots);
            (found ==> r.picked.None?)
            && (!found ==> forall d: nat :: r.picked == Some(d) <==>
                             FirstNamedPass(variant, devices, preferredName, requested, required, requests, d))
    decreases |devices| - i
  {
    if i < |devices| {
      var reset := ResetSlot(variant, devices, slots, i);
      if !found && devices[i].deviceName == preferredName {
        if devices[i].apiVersion >= requested {
          var c := CheckAt(variant, devices, required, requests, i, i, reset);
          assert c.passed == Accepted(variant, devices, requested, required, requests, i);
          if !c.passed {
            NameScanFirst(variant, devices, requested, preferredName, required, requests, i + 1, found, c.slots);
          }
        } else {
          NameScanFirst(variant, devices, requested, preferredName, required, requests, i + 1, true, reset);
        }
      } else {
        NameScanFirst(variant, devices, requested, preferredName, required, requests, i + 1, found, reset);
      }
    }
  }

  /** The partition lists hold exactly the devices at or above the
      requested API version, split by vendor match; with vendor id 0 the
      preferred list is empty. */
  lemma {:induction false} PartitionMembers(devices: seq<PhysicalDevice>, requested: Word, vendorId: Word, n: nat)
    requires n <= |devices|
    ensures var s := Partition(devices, requested, vendorId, n);
            (forall d :: d in s.preferred <==>
               0 <= d < n && devices[d].apiVersion >= requested && vendorId > 0 && devices[d].vendorId == vendorId)
            && (forall d :: d in s.other <==>
                  0 <= d < n && devices[d].apiVersion >= requested && !(vendorId > 0 && devices[d].vendorId == vendorId))
            && (vendorId == 0 ==> s.preferred == [])
  {
    if n > 0 {
      PartitionMembers(devices, requested, vendorId, n - 1);
    }
  }

  /** The acceptance test of position `p` of a tier list: the API version
      and features of device `list[p]` and, with queues,
      `CheckQueueSupport` on the families, count vector and mapping of
      enumeration index `p` as the tier loop found them. */
  predicate TierAccepts(variant: Variant, devices: seq<PhysicalDevice>, requested: Word, required: seq<string>,
                        requests: QueueRequests, list: seq<nat>, p: nat, slots: Slots)
    requires ValidDevices(devices) && p < |list| && Ascending(list, |devices|) && |list| <= |devices|
    requires variant == FeaturesAndQueues ==> SlotsFit(devices, slots, |devices|)
  {
    Passes(devices, requested, required, list[p])
    && (variant == FeaturesAndQueues ==>
          QueueSupportResult(requests, devices[p].queueFamilies, slots.outputIndices[p], slots.indexMappings[p]).ok)
  }

  /** One step of a tier loop: the check at position `pos` is the
      acceptance test of that position, and it writes no later slot. */
  lemma TierStep(variant: Variant, devices: seq<PhysicalDevice>, requested: Word, required: seq<string>,
                 requests: QueueRequests, list: seq<nat>, pos: nat, slots: Slots)
    requires ValidDevices(devices) && pos < |list| && Ascending(list, |devices|) && |list| <= |devices|
    requires variant == FeaturesAndQueues ==> SlotsFit(devices, slots, |devices|)
    requires devices[list[pos]].apiVersion >= requested
    ensures var c := CheckAt(variant, devices, required, requests, list[pos], pos, slots);
            (variant == FeaturesAndQueues ==> SlotsFit(devices, c.slots, |devices|) && Agree(c.slots, slots, pos + 1, |list|))
            && c.passed == TierAccepts(variant, devices, requested, required, requests, list, pos, slots)
  {
  }

  /** Two slot tables agree on the slots `from` up to `to`. */
  predicate Agree(slots: Slots, other: Slots, from: nat, to: nat)
  {
    to <= |slots.outputIndices| && to <= |slots.indexMappings|
    && to <= |other.outputIndices| && to <= |other.indexMappings|
    && forall q :: from <= q < to ==>
         slots.outputIndices[q] == other.outputIndices[q] && slots.indexMappings[q] == other.indexMappings[q]
  }

  /** Reference definition of a tier loop's pick: the first position from
      `pos` on whose acceptance test passes on the given slots. */
  function FirstFrom(variant: Variant, devices: seq<PhysicalDevice>, requested: Word, required: seq<string>,
                     requests: QueueRequests, list: seq<nat>, pos: nat, slots: Slots): Option<nat>
    requires ValidDevices(devices) && pos <= |list| && Ascending(list, |devices|) && |list| <= |devices|
    requires variant == FeaturesAndQueues ==> SlotsFit(devices, slots, |devices|)
    decreases |list| - pos
  {
    if pos == |list| then None
    else if TierAccepts(variant, devices, requested, required, requests, list, pos, slots) then Some(pos)
    else FirstFrom(variant, devices, requested, required, requests, list, pos + 1, slots)
  }

  /** `FirstFrom` gives the first accepted position, or none when no
      position is accepted. */
  lemma {:induction false} FirstFromSpec(variant: Variant, devices: seq<PhysicalDevice>, requested: Word,
                                         required: seq<string>, requests: QueueRequests, list: seq<nat>,
                                         pos: nat, slots: Slots)
    requires ValidDevices(devices) && pos <= |list| && Ascending(list, |devices|) && |list| <= |devices|
    requires variant == FeaturesAndQueues ==> SlotsFit(devices, slots, |devices|)
    ensures var r := FirstFrom(variant, devices, requested, required, requests, list, pos, slots);
            (r.Some? ==> FirstAccepted(variant, devices, requested, required, requests, list, pos, r.value, slots))
            && (r.None? ==> NoneAccepted(variant, devices, requested, required, requests, list, pos, slots))
    decreases |list| - pos
  {
    if pos < |list| && !TierAccepts(variant, devices, requested, required, requests, list, pos, slots) {
      FirstFromSpec(variant, devices, requested, required, requests, list, pos + 1, slots);
    }
  }

  /** `FirstFrom` reads only the slots from `pos` on. */
  lemma {:induction false} FirstFromFrame(variant: Variant, devices: seq<PhysicalDevice>, requested: Word,
                                          required: seq<string>, requests: QueueRequests, list: seq<nat>,
                                          pos: nat, slots: Slots, other: Slots)
    requires ValidDevices(devices) && pos <= |list| && Ascending(list, |devices|) && |list| <= |devices|
    requires variant == FeaturesAndQueues ==>
               SlotsFit(devices, slots, |devices|) && SlotsFit(devices, other, |devices|)
               && Agree(slots, other, pos, |list|)
    ensures FirstFrom(variant, devices, requested, required, requests, list, pos, slots)
            == FirstFrom(variant, devices, requested, required, requests, list, pos, other)
    decreases |list| - pos
  {
    if pos < |list| {
      assert TierAccepts(variant, devices, requested, required, requests, list, pos, slots)
             == TierAccepts(variant, devices, requested, required, requests, list, pos, other);
      FirstFromFrame(variant, devices, requested, required, requests, list, pos + 1, slots, other);
    }
  }

  /** A tier loop's pick is `FirstFrom` on the slots it started with. */
  lemma {:induction false} TierScanIsFirst(variant: Variant, devices: seq<PhysicalDevice>, requested: Word,
                                           required: seq<string>, requests: QueueRequests, list: seq<nat>,
                                           pos: nat, slots: Slots)
    requires ValidDevices(devices) && pos <= |list| && Ascending(list, |devices|) && |list| <= |devices|
    requires variant == FeaturesAndQueues ==> SlotsFit(devices, slots, |devices|)
    ensures TierScan(variant, devices, requested, required, requests, list, pos, slots).picked
            == FirstFrom(variant, devices, requested, required, requests, list, pos, slots)
    decreases |list| - pos
  {
    if pos < |list| {
      if devices[list[pos]].apiVersion >= requested {
        var c := CheckAt(variant, devices, required, requests, list[pos], pos, slots);
        TierStep(variant, devices, requested, required, requests, list, pos, slots);
        if !c.passed {
          TierScanIsFirst(variant, devices, requested, required, requests, list, pos + 1, c.slots);
          FirstFromFrame(variant, devices, requested, required, requests, list, pos + 1, c.slots, slots);
        }
      } else {
        TierScanIsFirst(variant, devices, requested, required, requests, list, pos + 1, slots);
      }
    }
  }

  /** Position `p` is the first position from `pos` on whose test passes. */
  predicate FirstAccepted(variant: Variant, devices: seq<PhysicalDevice>, requested: Word, required: seq<string>,
                          requests: QueueRequests, list: seq<nat>, pos: nat, p: nat, slots: Slots)
    requires ValidDevices(devices) && Ascending(list, |devices|) && |list| <= |devices|
    requires variant == FeaturesAndQueues ==> SlotsFit(devices, slots, |devices|)
  {
    pos <= p < |list| && TierAccepts(variant, devices, requested, required, requests, list, p, slots)
    && forall q :: pos <= q < p ==> !TierAccepts(variant, devices, requested, required, requests, list, q, slots)
  }

  /** No position from `pos` on passes its test. */
  predicate NoneAccepted(variant: Variant, devices: seq<PhysicalDevice>, requested: Word, required: seq<string>,
                         requests: QueueRequests, list: seq<nat>, pos: nat, slots: Slots)
    requires ValidDevices(devices) && Ascending(list, |devices|) && |list| <= |devices|
    requires variant == FeaturesAndQueues ==> SlotsFit(devices, slots, |devices|)
  {
    forall q :: pos <= q < |list| ==> !TierAccepts(variant, devices, requested, required, requests, list, q, slots)
  }

  /** A tier loop takes the first position of its list that is accepted,
      in either variant, and takes none exactly when none is.  Position
      `q` only ever writes slot `q`, so every test reads the slots the loop
      started with. */
  lemma TierScanFirst(variant: Variant, devices: seq<PhysicalDevice>, requested: Word,
                      required: seq<string>, requests: QueueRequests, list: seq<nat>,
                      pos: nat, slots: Slots)
    requires ValidDevices(devices) && pos <= |list| && Ascending(list, |devices|) && |list| <= |devices|
    requires variant == FeaturesAndQueues ==> SlotsFit(devices, slots, |devices|)
    ensures var r := TierScan(variant, devices, requested, required, requests, list, pos, slots);
            (forall p: nat :: r.picked == Some(p) <==>
               pos <= p < |list| && TierAccepts(variant, devices, requested, required, requests, list, p, slots)
               && forall q :: pos <= q < p ==> !TierAccepts(variant, devices, requested, required, requests, list, q, slots))
            && (r.picked.None? <==>
                  forall q :: pos <= q < |list| ==> !TierAccepts(variant, devices, requested, required, requests, list, q, slots))
  {
    TierScanIsFirst(variant, devices, requested, required, requests, list, pos, slots);
    FirstFromSpec(variant, devices, requested, required, requests, list, pos, slots);
  }

  /** An ascending list of indices never holds an index below its own
      position. */
  lemma {:induction false} AscendingAtLeastPosition(list: seq<nat>, n: nat, p: nat)
    requires Ascending(list, n) && p < |list|
    ensures p <= list[p]
  {
    if p > 0 {
      AscendingAtLeastPosition(list, n, p - 1);
    }
  }

  /** All three roles have an entry in the mapping. */
  predicate Resolved(m: map<Role, int>)
  {
    General in m && Compute in m && Transfer in m
  }

  /** Slot `s` holds what a `CheckQueueSupport` call on the families of
      device `s` returned together with `true`: its count vector and its
      mapping. */
  ghost predicate KeptPassingCheck(devices: seq<PhysicalDevice>, requests: QueueRequests, slots: Slots, s: nat)
    requires ValidDevices(devices) && s < |devices|
  {
    s < |slots.outputIndices| && s < |slots.indexMappings|
    && exists counts: seq<int>, m: map<Role, int> ::
         |counts| == |devices[s].queueFamilies| && (General in m ==> 0 <= m[General] < |devices[s].queueFamilies|)
         && QueueSupportResult(requests, devices[s].queueFamilies, counts, m)
            == QueueCheck(true, slots.outputIndices[s], slots.indexMappings[s])
  }

  /** A slot holding what `QueueSupportResult` returned, with `true`, on
      some count vector and mapping of the right shape keeps a passing
      check. */
  lemma KeptFrom(devices: seq<PhysicalDevice>, requests: QueueRequests, slots: Slots, s: nat,
                 counts: seq<int>, m: map<Role, int>)
    requires ValidDevices(devices) && s < |devices|
    requires s < |slots.outputIndices| && s < |slots.indexMappings|
    requires |counts| == |devices[s].queueFamilies| && (General in m ==> 0 <= m[General] < |devices[s].queueFamilies|)
    requires QueueSupportResult(requests, devices[s].queueFamilies, counts, m)
             == QueueCheck(true, slots.outputIndices[s], slots.indexMappings[s])
    ensures KeptPassingCheck(devices, requests, slots, s)
  {
  }

  /** A slot holding the outcome of a passing queue check has one count
      per family of its device and a mapping of all three roles into those
      families. */
  lemma KeptResolved(devices: seq<PhysicalDevice>, requests: QueueRequests, slots: Slots, s: nat)
    requires ValidDevices(devices) && s < |devices| && KeptPassingCheck(devices, requests, slots, s)
    ensures |slots.outputIndices[s]| == |devices[s].queueFamilies|
    ensures Resolved(slots.indexMappings[s]) && MappingFits(slots.indexMappings[s], |devices[s].queueFamilies|)
  {
    var counts: seq<int>, m: map<Role, int> :|
      |counts| == |devices[s].queueFamilies| && (General in m ==> 0 <= m[General] < |devices[s].queueFamilies|)
      && QueueSupportResult(requests, devices[s].queueFamilies, counts, m)
         == QueueCheck(true, slots.outputIndices[s], slots.indexMappings[s]);
  }

  /** A queue check writes only its own slot, and when it passes that slot
      holds what `QueueSupportResult` returned on the slot as it was. */
  lemma CheckAtWrites(devices: seq<PhysicalDevice>, required: seq<string>, requests: QueueRequests,
                      dev: nat, slot: nat, slots: Slots)
    requires ValidDevices(devices) && dev < |devices| && slot < |devices| && SlotsFit(devices, slots, slot + 1)
    ensures var c := CheckAt(FeaturesAndQueues, devices, required, requests, dev, slot, slots);
            Agree(c.slots, slots, slot + 1, |devices|)
            && (c.passed ==>
                  QueueSupportResult(requests, devices[slot].queueFamilies, slots.outputIndices[slot], slots.indexMappings[slot])
                  == QueueCheck(true, c.slots.outputIndices[slot], c.slots.indexMappings[slot]))
  {
  }

  /** A queue-aware pick by name: slot `d` of the picked device holds what
      `CheckQueueSupport` returned, with `true`, on the families of `d`, a
      zeroed count vector and the mapping slot `d` had when the loop
      started. */
  lemma {:induction false} NameScanSlot(devices: seq<PhysicalDevice>, requested: Word, preferredName: string,
                                        required: seq<string>, requests: QueueRequests, i: nat, found: bool, slots: Slots)
    requires ValidDevices(devices) && i <= |devices| && SlotsFit(devices, slots, i)
    ensures var r := NameScan(FeaturesAndQueues, devices, requested, preferredName, required, requests, i, found, slots);
            r.picked.Some? ==>
              var d := r.picked.value;
              QueueSupportResult(requests, devices[d].queueFamilies, Zeros(|devices[d].queueFamilies|),
                                 slots.indexMappings[d])
              == QueueCheck(true, r.slots.outputIndices[d], r.slots.indexMappings[d])
    decreases |devices| - i, 1
  {
    if i < |devices| {
      if !found && devices[i].deviceName == preferredName && devices[i].apiVersion >= requested {
        NameSlotChecked(devices, requested, preferredName, required, requests, i, found, slots);
      } else {
        var reset := ResetSlot(FeaturesAndQueues, devices, slots, i);
        var nextFound := found || devices[i].deviceName == preferredName;
        assert NameScan(FeaturesAndQueues, devices, requested, preferredName, required, requests, i, found, slots)
               == NameScan(FeaturesAndQueues, devices, requested, preferredName, required, requests, i + 1, nextFound, reset);
        NameScanSlot(devices, requested, preferredName, required, requests, i + 1, nextFound, reset);
      }
    }
  }

  /** `NameScanSlot` at a device with the preferred name and a high enough
      API version, whose queue support is checked. */
  lemma {:induction false} NameSlotChecked(devices: seq<PhysicalDevice>, requested: Word, preferredName: string,
                                           required: seq<string>, requests: QueueRequests, i: nat, found: bool,
                                           slots: Slots)
    requires ValidDevices(devices) && i < |devices| && SlotsFit(devices, slots, i)
    requires !found && devices[i].deviceName == preferredName && devices[i].apiVersion >= requested
    ensures var r := NameScan(FeaturesAndQueues, devices, requested, preferredName, required, requests, i, found, slots);
            r.picked.Some? ==>
              var d := r.picked.value;
              QueueSupportResult(requests, devices[d].queueFamilies, Zeros(|devices[d].queueFamilies|),
                                 slots.indexMappings[d])
              == QueueCheck(true, r.slots.outputIndices[d], r.slots.indexMappings[d])
    decreases |devices| - i, 0
  {
    var reset := ResetSlot(FeaturesAndQueues, devices, slots, i);
    var c := CheckAt(FeaturesAndQueues, devices, required, requests, i, i, reset);
    CheckAtWrites(devices, required, requests, i, i, reset);
    if !c.passed {
      assert NameScan(FeaturesAndQueues, devices, requested, preferredName, required, requests, i, found, slots)
             == NameScan(FeaturesAndQueues, devices, requested, preferredName, required, requests, i + 1, found, c.slots);
      NameScanSlot(devices, requested, preferredName, required, requests, i + 1, found, c.slots);
    }
  }

  /** A queue-aware tier pick at position `p`: slot `p` holds what
      `CheckQueueSupport` returned, with `true`, on the families of
      enumeration index `p` and the count vector and mapping slot `p` had
      when the loop started. */
  lemma {:induction false} TierScanSlot(devices: seq<PhysicalDevice>, requested: Word, required: seq<string>,
                                        requests: QueueRequests, list: seq<nat>, pos: nat, slots: Slots)
    requires ValidDevices(devices) && pos <= |list| && Ascending(list, |devices|) && |list| <= |devices|
    requires SlotsFit(devices, slots, |devices|)
    ensures var r := TierScan(FeaturesAndQueues, devices, requested, required, requests, list, pos, slots);
            r.picked.Some? ==>
              var p := r.picked.value;
              QueueSupportResult(requests, devices[p].queueFamilies, slots.outputIndices[p], slots.indexMappings[p])
              == QueueCheck(true, r.slots.outputIndices[p], r.slots.indexMappings[p])
    decreases |list| - pos
  {
    if pos < |list| {
      var r := TierScan(FeaturesAndQueues, devices, requested, required, requests, list, pos, slots);
      if devices[list[pos]].apiVersion >= requested {
        var c := CheckAt(FeaturesAndQueues, devices, required, requests, list[pos], pos, slots);
        CheckAtWrites(devices, required, requests, list[pos], pos, slots);
        if !c.passed {
          assert r == TierScan(FeaturesAndQueues, devices, requested, required, requests, list, pos + 1, c.slots);
          TierScanSlot(devices, requested, required, requests, list, pos + 1, c.slots);
        }
      } else {
        TierScanSlot(devices, requested, required, requests, list, pos + 1, slots);
      }
    }
  }

  /** The partition tiers only select a device that passes and, with
      queues, whose recorded slot holds the outcome of a passing queue
      check; the recorded list position is never after the device. */
  lemma TiersSound(variant: Variant, devices: seq<PhysicalDevice>, requested: Word, vendorId: Word,
                   required: seq<string>, requests: QueueRequests, slots: Slots)
    requires ValidDevices(devices)
    requires variant == FeaturesAndQueues ==> SlotsFit(devices, slots, |devices|)
    ensures var s := Tiers(variant, devices, requested, vendorId, required, requests, slots);
            s.pick.Some? ==>
              s.pick.value.device < |devices|
              && s.pick.value.deviceIndex <= s.pick.value.device
              && Passes(devices, requested, required, s.pick.value.device)
              && (variant == FeaturesAndQueues ==>
                    KeptPassingCheck(devices, requests, s.slots, s.pick.value.deviceIndex))
  {
    var split := Partition(devices, requested, vendorId, |devices|);
    var first := TierScan(variant, devices, requested, required, requests, split.preferred, 0, slots);
    TierScanFirst(variant, devices, requested, required, requests, split.preferred, 0, slots);
    if first.picked.Some? {
      var p := first.picked.value;
      AscendingAtLeastPosition(split.preferred, |devices|, p);
      if variant == FeaturesAndQueues {
        TierScanSlot(devices, requested, required, requests, split.preferred, 0, slots);
        KeptFrom(devices, requests, first.slots, p, slots.outputIndices[p], slots.indexMappings[p]);
      }
    } else {
      var second := TierScan(variant, devices, requested, required, requests, split.other, 0, first.slots);
      TierScanFirst(variant, devices, requested, required, requests, split.other, 0, first.slots);
      if second.picked.Some? {
        var p := second.picked.value;
        AscendingAtLeastPosition(split.other, |devices|, p);
        if variant == FeaturesAndQueues {
          TierScanSlot(devices, requested, required, requests, split.other, 0, first.slots);
          KeptFrom(devices, requests, second.slots, p, first.slots.outputIndices[p], first.slots.indexMappings[p]);
        }
      }
    }
  }

  /** Whatever the variant, a selected device passes the API-version and
      feature tests and, with queues, the slot recorded as `deviceIndex`
      (whose queue data the setup later reads) holds the outcome of a
      `CheckQueueSupport` call that returned true; that slot is never
      after the device itself: equal for a selection by name, the
      partition position otherwise. */
  lemma SelectSound(variant: Variant, devices: seq<PhysicalDevice>, requested: Word, preferred: Option<string>,
                    preferredVendor: Option<string>, required: seq<string>, requests: QueueRequests)
    requires ValidDevices(devices)
    ensures var s := Select(variant, devices, requested, preferred, preferredVendor, required, requests);
            s.pick.Some? ==>
              s.pick.value.device < |devices|
              && s.pick.value.deviceIndex <= s.pick.value.device
              && Passes(devices, requested, required, s.pick.value.device)
              && (variant == FeaturesAndQueues ==>
                    KeptPassingCheck(devices, requests, s.slots, s.pick.value.deviceIndex))
  {
    var preferredName := if preferred.Some? then preferred.value else "";
    var initial := InitialSlots(|devices|);
    var named := NameScan(variant, devices, requested, preferredName, required, requests, 0, preferred.None?, initial);
    NameScanFirst(variant, devices, requested, preferredName, required, requests, 0, preferred.None?, initial);
    if named.picked.None? {
      TiersSound(variant, devices, requested, PreferredVendorId(preferredVendor), required, requests, named.slots);
    } else if variant == FeaturesAndQueues {
      var d := named.picked.value;
      NameScanSlot(devices, requested, preferredName, required, requests, 0, preferred.None?, initial);
      KeptFrom(devices, requests, named.slots, d, Zeros(|devices[d].queueFamilies|), initial.indexMappings[d]);
    }
  }

  /** With a preferred name, the device of the reference definition, when
      there is one, is the selection, in either variant, with its own slot. */
  lemma SelectByName(variant: Variant, devices: seq<PhysicalDevice>, requested: Word, preferred: Option<string>,
                     preferredVendor: Option<string>, required: seq<string>, requests: QueueRequests, d: nat)
    requires ValidDevices(devices) && preferred.Some?
    requires FirstNamedPass(variant, devices, preferred.value, requested, required, requests, d)
    ensures Select(variant, devices, requested, preferred, preferredVendor, required, requests).pick == Some(Pick(d, d))
  {
    NameScanFirst(variant, devices, requested, preferred.value, required, requests, 0, false, InitialSlots(|devices|));
  }

  /** After a queue-aware selection the slot `deviceIndex` holds a count per
      family of device `deviceIndex` and a mapping of all three roles into
      those families: what the queue setup of `Initialize` reads. */
  lemma SelectedSlot(devices: seq<PhysicalDevice>, requested: Word, preferred: Option<string>,
                     preferredVendor: Option<string>, required: seq<string>, requests: QueueRequests)
    requires ValidDevices(devices)
    ensures var s := Select(FeaturesAndQueues, devices, requested, preferred, preferredVendor, required, requests);
            s.pick.Some? ==>
              var di := s.pick.value.deviceIndex;
              di < |devices| && |s.slots.outputIndices| == |devices| && |s.slots.indexMappings| == |devices|
              && |s.slots.outputIndices[di]| == |devices[di].queueFamilies|
              && Resolved(s.slots.indexMappings[di])
              && MappingFits(s.slots.indexMappings[di], |devices[di].queueFamilies|)
  {
    var s := Select(FeaturesAndQueues, devices, requested, preferred, preferredVendor, required, requests);
    SelectSound(FeaturesAndQueues, devices, requested, preferred, preferredVendor, required, requests);
    if s.pick.Some? {
      KeptResolved(devices, requests, s.slots, s.pick.value.deviceIndex);
    }
  }

  /** A device that passes sits in one of the two partition lists. */
  lemma PassingDeviceListed(devices: seq<PhysicalDevice>, requested: Word, vendorId: Word,
                            required: seq<string>, d: nat)
    requires d < |devices| && Passes(devices, requested, required, d)
    ensures var split := Partition(devices, requested, vendorId, |devices|);
            d in split.preferred || d in split.other
  {
    PartitionMembers(devices, requested, vendorId, |devices|);
  }

  /** A features-only tier loop over a list holding a passing device
      selects something. */
  lemma TierScanFindsPassing(devices: seq<PhysicalDevice>, requested: Word, required: seq<string>,
                             requests: QueueRequests, list: seq<nat>, slots: Slots, d: nat)
    requires ValidDevices(devices) && Ascending(list, |devices|) && |list| <= |devices|
    requires d in list && d < |devices| && Passes(devices, requested, required, d)
    ensures TierScan(FeaturesOnly, devices, requested, required, requests, list, 0, slots).picked.Some?
  {
    TierScanFirst(FeaturesOnly, devices, requested, required, requests, list, 0, slots);
    var q :| 0 <= q < |list| && list[q] == d;
    assert TierAccepts(FeaturesOnly, devices, requested, required, requests, list, q, slots);
  }

  /** In the features-only variant the partition tiers select nothing
      exactly when no device passes. */
  lemma TiersFeaturesOnlyComplete(devices: seq<PhysicalDevice>, requested: Word, vendorId: Word,
                                  required: seq<string>, requests: QueueRequests, slots: Slots)
    requires ValidDevices(devices)
    ensures Tiers(FeaturesOnly, devices, requested, vendorId, required, requests, slots).pick.None?
            <==> forall d: nat :: d < |devices| ==> !Passes(devices, requested, required, d)
  {
    TiersSound(FeaturesOnly, devices, requested, vendorId, required, requests, slots);
    var split := Partition(devices, requested, vendorId, |devices|);
    forall d: nat | d < |devices| && Passes(devices, requested, required, d)
      ensures Tiers(FeaturesOnly, devices, requested, vendorId, required, requests, slots).pick.Some?
    {
      PassingDeviceListed(devices, requested, vendorId, required, d);
      var first := TierScan(FeaturesOnly, devices, requested, required, requests, split.preferred, 0, slots);
      if d in split.preferred {
        TierScanFindsPassing(devices, requested, required, requests, split.preferred, slots, d);
      } else {
        TierScanFindsPassing(devices, requested, required, requests, split.other, first.slots, d);
      }
    }
  }

  /** The features-only selection finds nothing exactly when no device
      passes the API-version and feature tests. */
  lemma SelectFeaturesOnlyComplete(devices: seq<PhysicalDevice>, requested: Word, preferred: Option<string>,
                                   preferredVendor: Option<string>, required: seq<string>, requests: QueueRequests)
    requires ValidDevices(devices)
    ensures Select(FeaturesOnly, devices, requested, preferred, preferredVendor, required, requests).pick.None?
            <==> forall d: nat :: d < |devices| ==> !Passes(devices, requested, required, d)
  {
    var preferredName := if preferred.Some? then preferred.value else "";
    var named := NameScan(FeaturesOnly, devices, requested, preferredName, required, requests,
                          0, preferred.None?, InitialSlots(|devices|));
    NameScanFirst(FeaturesOnly, devices, requested, preferredName, required, requests, 0, preferred.None?,
                  InitialSlots(|devices|));
    if named.picked.None? {
      TiersFeaturesOnlyComplete(devices, requested, PreferredVendorId(preferredVendor), required, requests, named.slots);
    }
  }

  /** The partition tiers prefer the configured vendor, in either variant:
      when some position `p` of the preferred-vendor list is accepted, the
      selection is a device of that vendor, at the first accepted position
      of that list.  Features only, this is the first passing device of
      that vendor in enumeration order. */
  lemma TiersPreferVendor(variant: Variant, devices: seq<PhysicalDevice>, requested: Word, vendorId: Word,
                          required: seq<string>, requests: QueueRequests, slots: Slots, p: nat)
    requires ValidDevices(devices) && vendorId > 0
    requires variant == FeaturesAndQueues ==> SlotsFit(devices, slots, |devices|)
    requires var list := Partition(devices, requested, vendorId, |devices|).preferred;
             p < |list| && TierAccepts(variant, devices, requested, required, requests, list, p, slots)
    ensures var list := Partition(devices, requested, vendorId, |devices|).preferred;
            var s := Tiers(variant, devices, requested, vendorId, required, requests, slots);
            s.pick.Some? && s.pick.value.deviceIndex <= p
            && s.pick.value.device == list[s.pick.value.deviceIndex]
            && devices[s.pick.value.device].vendorId == vendorId
            && (forall q :: 0 <= q < s.pick.value.deviceIndex ==>
                  !TierAccepts(variant, devices, requested, required, requests, list, q, slots))
            && (variant == FeaturesOnly ==>
                  forall k: nat :: k < s.pick.value.device && devices[k].vendorId == vendorId
                    ==> !Passes(devices, requested, required, k))
  {
    var list := Partition(devices, requested, vendorId, |devices|).preferred;
    PartitionMembers(devices, requested, vendorId, |devices|);
    TierScanFirst(variant, devices, requested, required, requests, list, 0, slots);
    var picked := TierScan(variant, devices, requested, required, requests, list, 0, slots).picked.value;
    assert list[picked] in list;
    if variant == FeaturesOnly {
      FirstOfVendor(devices, requested, vendorId, required, requests, slots, picked);
    }
  }

  /** Features only, the first passing position of the preferred-vendor
      list holds the first passing device of that vendor. */
  lemma FirstOfVendor(devices: seq<PhysicalDevice>, requested: Word, vendorId: Word, required: seq<string>,
                      requests: QueueRequests, slots: Slots, picked: nat)
    requires ValidDevices(devices) && vendorId > 0
    requires var list := Partition(devices, requested, vendorId, |devices|).preferred;
             FirstAccepted(FeaturesOnly, devices, requested, required, requests, list, 0, picked, slots)
    ensures var list := Partition(devices, requested, vendorId, |devices|).preferred;
            forall k: nat :: k < list[picked] && devices[k].vendorId == vendorId
              ==> !Passes(devices, requested, required, k)
  {
    var list := Partition(devices, requested, vendorId, |devices|).preferred;
    PartitionMembers(devices, requested, vendorId, |devices|);
    forall k: nat | k < list[picked] && devices[k].vendorId == vendorId
      ensures !Passes(devices, requested, required, k)
    {
      if k in list {
        var q :| 0 <= q < |list| && list[q] == k;
        assert q < picked;
        assert !TierAccepts(FeaturesOnly, devices, requested, required, requests, list, q, slots);
      }
    }
  }

  /** With no selection by name, the selection prefers the configured
      vendor, in either variant: when a position of the preferred-vendor
      list is accepted on the slots the name tier left, a device of that
      vendor is selected at the first such position. */
  lemma SelectPrefersVendor(variant: Variant, devices: seq<PhysicalDevice>, requested: Word, preferred: Option<string>,
                            preferredVendor: Option<string>, required: seq<string>, requests: QueueRequests, p: nat)
    requires ValidDevices(devices)
    requires preferred.None?
             || forall d: nat :: !FirstNamedPass(variant, devices, preferred.value, requested, required, requests, d)
    requires PreferredVendorId(preferredVendor) > 0
    ensures var named := ByName(variant, devices, requested, preferred, required, requests);
            var list := Partition(devices, requested, PreferredVendorId(preferredVendor), |devices|).preferred;
            var s := Select(variant, devices, requested, preferred, preferredVendor, required, requests);
            named.picked.None?
            && (p < |list| && TierAccepts(variant, devices, requested, required, requests, list, p, named.slots) ==>
                  s.pick.Some? && s.pick.value.deviceIndex <= p
                  && s.pick.value.device == list[s.pick.value.deviceIndex]
                  && devices[s.pick.value.device].vendorId == PreferredVendorId(preferredVendor)
                  && forall q :: 0 <= q < s.pick.value.deviceIndex ==>
                       !TierAccepts(variant, devices, requested, required, requests, list, q, named.slots))
  {
    var preferredName := if preferred.Some? then preferred.value else "";
    var slots := InitialSlots(|devices|);
    NameScanFirst(variant, devices, requested, preferredName, required, requests, 0, preferred.None?, slots);
    var named := NameScan(variant, devices, requested, preferredName, required, requests, 0, preferred.None?, slots);
    assert named.picked.None?;
    var list := Partition(devices, requested, PreferredVendorId(preferredVendor), |devices|).preferred;
    if p < |list| && TierAccepts(variant, devices, requested, required, requests, list, p, named.slots) {
      TiersPreferVendor(variant, devices, requested, PreferredVendorId(preferredVendor), required, requests,
                        named.slots, p);
    }
  }

  /** Two devices for the slot quirk: device 0 is below API version 1 and
      has one graphics family; device 1 is at API version 1 and has one
      transfer family. */
  const ExampleDevices := [
    PhysicalDevice("low", 0, 0, DiscreteGpu, NoFeatures, [QueueFamily(QueueGraphicsBit, 1)]),
    PhysicalDevice("high", 1, 0, DiscreteGpu, NoFeatures, [QueueFamily(QueueTransferBit, 1)])]

  /** One general queue, nothing else. */
  const ExampleRequests := QueueRequests(Some(1), None, None, false)

  /** With no preferred name, the name tier of the example only resets
      both count vectors. */
  lemma ExampleNameTier()
    ensures NameScan(FeaturesAndQueues, ExampleDevices, 1, "", [], ExampleRequests, 0, true, InitialSlots(2))
            == NameOutcome(None, true, Slots([[0], [0]], [map[], map[]]))
  {
    var devices := ExampleDevices;
    var initial := InitialSlots(2);
    assert initial == Slots([[], []], [map[], map[]]);
    var one: seq<int> := seq(1, _ => 0);
    assert one == [0] by {
      assert |one| == 1 && one[0] == 0;
    }
    assert |devices[0].queueFamilies| == |devices[1].queueFamilies| == 1;
    assert initial.outputIndices[0 := one] == [[0], []];
    assert [[0], []][1 := one] == [[0], [0]];
    var half := Slots([[0], []], [map[], map[]]);
    var zeroed := Slots([[0], [0]], [map[], map[]]);
    assert NameScan(FeaturesAndQueues, devices, 1, "", [], ExampleRequests, 0, true, initial)
           == NameScan(FeaturesAndQueues, devices, 1, "", [], ExampleRequests, 1, true, half);
    assert NameScan(FeaturesAndQueues, devices, 1, "", [], ExampleRequests, 1, true, half)
           == NameScan(FeaturesAndQueues, devices, 1, "", [], ExampleRequests, 2, true, zeroed);
  }

  /** The general request of the example fits device 0's graphics family,
      which the fallbacks make general, compute and transfer family. */
  lemma ExampleQueueCheck()
    ensures QueueSupportResult(ExampleRequests, ExampleDevices[0].queueFamilies, [0], map[])
            == QueueCheck(true, [1], map[General := 0, Compute := 0, Transfer := 0])
  {
    var low := ExampleDevices[0].queueFamilies;
    assert Classify(low[0]) == None by {
      ClassifyRoles(low[0]);
    }
    assert Classification(low, 0, map[]) == map[Transfer := Int32Max, Compute := Int32Max];
    var classified := Classification(low, 1, map[]);
    assert classified == map[Transfer := Int32Max, Compute := Int32Max];
    assert ResolvedMapping(low, map[]) == Resolve(classified) == map[General := 0, Compute := 0, Transfer := 0];
    QueueSupportSteps(ExampleRequests, low, [0], map[]);
  }

  /** The slot quirk made concrete: device 0 is below the requested API
      version, so the other-device list is [1]; device 1 is selected at
      partition position 0, and its queue check ran on the families and
      the count vector of device 0 (a graphics family), although device 1
      itself only has a transfer family. */
  lemma QueueCheckUsesPartitionPosition()
    ensures var s := Select(FeaturesAndQueues, ExampleDevices, 1, None, None, [], ExampleRequests);
            s.pick == Some(Pick(1, 0)) && s.slots.outputIndices == [[1], [0]]
  {
    var devices := ExampleDevices;
    var zeroed := Slots([[0], [0]], [map[], map[]]);
    ExampleNameTier();
    assert Partition(devices, 1, 0, 2) == Split([], [1]);
    assert TierScan(FeaturesAndQueues, devices, 1, [], ExampleRequests, [], 0, zeroed) == TierOutcome(None, zeroed);
    assert CheckFeaturesPresent(devices[1].features, devices[1].deviceType, []);
    var checked := Slots([[1], [0]], [map[General := 0, Compute := 0, Transfer := 0], map[]]);
    assert CheckAt(FeaturesAndQueues, devices, [], ExampleRequests, 1, 0, zeroed) == Check(true, checked) by {
      ExampleQueueCheck();
    }
    assert TierScan(FeaturesAndQueues, devices, 1, [], ExampleRequests, [1], 0, zeroed) == TierOutcome(Some(0), checked);
  }
}

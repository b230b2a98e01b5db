/** The `Initialized` structure of `src/VulkanBackend.cpp` and the
    operations that fill, filter and tear it down: `Initialize` (device
    selection with queue requirements, device-queue create infos, queue
    hand-out), the features-only `Initialize` of `src/internal`,
    `FilterPresentQueues`, `Shutdown` and `DestroyInstance`.  Everything
    the driver creates or reports (the instance, the debug messenger, the
    enumerated devices, the logical device, surface support) is a
    parameter; a handle is `NullHandle` or a numbered handle. */
module Backend {

  import opened Text
  import opened Versions
  import opened VulkanTypes
  import opened Configuration
  import opened QueueSupport
  import opened DeviceSelection
  import opened QueueSetup
  import opened Presentation
  import InternalConfiguration

  /** The `Device` section of the configuration file (the backend needs it
      to be present). */
  datatype DeviceSection = DeviceSection(
    features: seq<string>,
    preferred: Option<string>,
    preferredVendor: Option<string>,
    queues: QueueRequests)

  /** The sections `Initialize` reads, instance layers and extensions
      aside. */
  datatype Config = Config(application: Option<ApplicationData>, device: DeviceSection)

  /** How an initialization ended.  `SetupFailed` stands for the queue
      hand-out paths on which the original throws or indexes out of
      bounds, `ConfigurationFailed` for the `stoi` exception of the
      `src/internal` version parser. */
  datatype Status = Ready | InstanceFailed | NoSuitableDevice | SetupFailed(error: SetupError) | ConfigurationFailed

  /** The application info used when the `Application` section is
      missing, and `ConfigureApplication` otherwise. */
  function ApplicationFor(application: Option<ApplicationData>): (info: ApplicationInfo)
    ensures application.None? ==>
      info == ApplicationInfo(DefaultVulkanVersion, DefaultName, DefaultVersion, DefaultName, DefaultVersion)
    ensures application.Some? ==> info == ConfigureApplication(application.value)
  {
    ConfigureApplication(if application.Some? then application.value else ApplicationData(None, None, None, None, None))
  }

  /** The API version the devices are measured against. */
  function Requested(config: Config): Word
  {
    GetVulkanApplicationInfo(ApplicationFor(config.application)).apiVersion
  }

  /** The required feature names, lower-cased. */
  function Lowered(names: seq<string>): seq<string>
  {
    seq(|names|, i requires 0 <= i < |names| => ToLower(names[i]))
  }

  /** What the `Device` part of `Initialize` settles on: no device, or the
      selected device with the features to enable, the queue create infos
      and the queue hand-out on the recorded slot. */
  datatype DevicePlan =
    | Unsuitable
    | Plan(device: nat, deviceIndex: nat, enabledFeatures: DeviceFeatures,
           createInfos: seq<QueueCreateInfo>, handout: Result<Handout>)

  function PlanDevice(config: Config, devices: seq<PhysicalDevice>): DevicePlan
    requires ValidDevices(devices)
  {
    var section := config.device;
    var required := Lowered(section.features);
    var s := Select(FeaturesAndQueues, devices, Requested(config), section.preferred, section.preferredVendor,
                    required, section.queues);
    SelectedSlot(devices, Requested(config), section.preferred, section.preferredVendor, required, section.queues);
    if s.pick.None? then Unsuitable
    else
      var di := s.pick.value.deviceIndex;
      var counts := s.slots.outputIndices[di];
      Plan(s.pick.value.device, di, FeaturesFromString(required), CreateInfos(counts, section.queues.present),
           HandOut(section.queues, s.slots.indexMappings[di], |counts|))
  }

  /** The API version the `Initialize` of `src/internal` requests: the
      defaults without an `Application` section, and otherwise what its own
      decoder reads, if it reads. */
  function InternalRequested(config: Config): (r: Option<Word>)
    ensures config.application.None? ==> r == Some(Make(DefaultVulkanVersion))
    ensures config.application.Some? ==>
      (r.None? <==> InternalConfiguration.ConfigureApplication(config.application.value).None?)
  {
    if config.application.None? then Some(Make(DefaultVulkanVersion))
    else
      var info := InternalConfiguration.ConfigureApplication(config.application.value);
      if info.Some? then Some(GetVulkanApplicationInfo(info.value).apiVersion) else None
  }

  /** The device the features-only `Initialize` of `src/internal` selects. */
  function InternalPick(config: Config, requested: Word, devices: seq<PhysicalDevice>): Option<nat>
    requires ValidDevices(devices)
  {
    var section := config.device;
    var s := Select(FeaturesOnly, devices, requested, section.preferred, section.preferredVendor,
                    Lowered(section.features), section.queues);
    if s.pick.Some? then Some(s.pick.value.device) else None
  }

  /** The fields of `VulkanBackend::Initialized`, as one value. */
  datatype State = State(
    instance: Handle,
    debugMessenger: Handle,
    physicalDevice: Handle,
    logicalDevice: Handle,
    generalQueues: seq<Queue>,
    generalFamilyIndex: int,
    computeQueues: seq<Queue>,
    computeFamilyIndex: int,
    transferQueues: seq<Queue>,
    transferFamilyIndex: int,
    presentQueueCandidates: seq<Queue>)

  /** `Initialized initialized{}`: every handle null, every queue list
      empty, every family index 0. */
  const Initial := State(NullHandle, NullHandle, NullHandle, NullHandle, [], 0, [], 0, [], 0, [])

  /** The queue fields set from a hand-out. */
  function WithHandout(s: State, h: Handout): State
  {
    s.(generalQueues := h.generalQueues, generalFamilyIndex := h.generalFamilyIndex,
       computeQueues := h.computeQueues, computeFamilyIndex := h.computeFamilyIndex,
       transferQueues := h.transferQueues, transferFamilyIndex := h.transferFamilyIndex,
       presentQueueCandidates := h.presentQueueCandidates)
  }

  /** What an initialization produces: the structure, how it ended, and
      the features and queue create infos the logical device was created
      with. */
  datatype Initialized = Initialized(state: State, status: Status, enabledFeatures: DeviceFeatures,
                                     createInfos: seq<QueueCreateInfo>)

  /** The outcome of `Initialize` once the device plan is known: nothing
      when instance creation failed; the instance destroyed again when no
      device is suitable; otherwise the selected device, the logical device
      and (unless the hand-out fails) the queues. */
  function InitializeResult(instance: Handle, debugMessenger: Handle, plan: DevicePlan, logicalDevice: Handle): Initialized
  {
    if instance == NullHandle then Initialized(Initial, InstanceFailed, NoFeatures, [])
    else
      match plan
      case Unsuitable => Initialized(Initial, NoSuitableDevice, NoFeatures, [])
      case Plan(device, _, features, infos, handout) =>
        var created := Initial.(instance := instance, debugMessenger := debugMessenger,
                                physicalDevice := Handle(device), logicalDevice := logicalDevice);
        match handout
        case Success(h) => Initialized(WithHandout(created, h), Ready, features, infos)
        case Failure(e) => Initialized(created, SetupFailed(e), features, infos)
  }

  /** The outcome of the `Initialize` of `src/internal` once the selected
      device is known: the same, with no queues. */
  function InitializeInternalResult(instance: Handle, debugMessenger: Handle, pick: Option<nat>,
                                    enabledFeatures: DeviceFeatures, logicalDevice: Handle): Initialized
  {
    if instance == NullHandle then Initialized(Initial, InstanceFailed, NoFeatures, [])
    else
      match pick
      case None => Initialized(Initial, NoSuitableDevice, NoFeatures, [])
      case Some(device) =>
        Initialized(Initial.(instance := instance, debugMessenger := debugMessenger,
                             physicalDevice := Handle(device), logicalDevice := logicalDevice),
                    Ready, enabledFeatures, [])
  }

  /** The loop of `FilterPresentQueues` over the candidate list: every
      candidate whose family lacks surface support is nulled while a counter
      that starts at the number of candidates drops by one; the error
      outcome is the counter reaching zero. */
  method FilterCandidates(candidates: seq<Queue>, supports: nat -> bool)
    returns (filtered: seq<Queue>, noPresentQueues: bool)
    ensures filtered == Filtered(candidates, supports)
    ensures noPresentQueues <==> forall q :: 0 <= q < |candidates| ==> !supports(q)
  {
    filtered := candidates;
    var presentQueues := |filtered|;
    var q := 0;
    while q < |filtered|
      invariant 0 <= q <= |candidates| == |filtered|
      invariant filtered == Filtered(candidates[..q], supports) + candidates[q..]
      invariant presentQueues == |candidates| - Unsupported(supports, q)
    {
      FilterStep(candidates, supports, q);
      if !supports(q) {
        filtered := filtered[q := NullQueue];
        presentQueues := presentQueues - 1;
      }
      q := q + 1;
    }
    assert candidates[..q] == candidates;
    UnsupportedAll(supports, |candidates|);
    noPresentQueues := presentQueues == 0;
  }

  /** `VulkanBackend::Initialized`. */
  class Backend {
    var instance: Handle
    var debugMessenger: Handle
    var physicalDevice: Handle
    var logicalDevice: Handle
    var generalQueues: seq<Queue>
    var generalFamilyIndex: int
    var computeQueues: seq<Queue>
    var computeFamilyIndex: int
    var transferQueues: seq<Queue>
    var transferFamilyIndex: int
    var presentQueueCandidates: seq<Queue>

    function Snapshot(): State
      reads this
    {
      State(instance, debugMessenger, physicalDevice, logicalDevice, generalQueues, generalFamilyIndex,
            computeQueues, computeFamilyIndex, transferQueues, transferFamilyIndex, presentQueueCandidates)
    }

    /** `Initialized initialized{}`. */
    constructor ()
      ensures Snapshot() == Initial
    {
      instance := NullHandle;
      debugMessenger := NullHandle;
      physicalDevice := NullHandle;
      logicalDevice := NullHandle;
      generalQueues := [];
      generalFamilyIndex := 0;
      computeQueues := [];
      computeFamilyIndex := 0;
      transferQueues := [];
      transferFamilyIndex := 0;
      presentQueueCandidates := [];
    }

    /** `DestroyInstance`: the debug messenger (if any) and the instance
        are destroyed and their handles nulled; nothing else changes. */
    method DestroyInstance()
      modifies this
      ensures Snapshot() == old(Snapshot()).(instance := NullHandle, debugMessenger := NullHandle)
    {
      if debugMessenger != NullHandle {
        debugMessenger := NullHandle;
      }
      instance := NullHandle;
    }

    /** `Shutdown`: the family indices are reset, the queue lists cleared,
        the logical device destroyed, both device handles nulled and the
        instance destroyed: the structure is back to its initial state. */
    method Shutdown()
      modifies this
      ensures Snapshot() == Initial
    {
      generalFamilyIndex := 0;
      computeFamilyIndex := 0;
      transferFamilyIndex := 0;
      generalQueues := [];
      computeQueues := [];
      transferQueues := [];
      presentQueueCandidates := [];
      logicalDevice := NullHandle;
      physicalDevice := NullHandle;
      DestroyInstance();
    }

    /** `FilterPresentQueues`: the candidate of every family without
        surface support (as `supports` answers for each family index) is
        nulled, and the error is logged (`noPresentQueues`) exactly when
        no family supports the surface; nothing else changes. */
    method FilterPresentQueues(supports: nat -> bool) returns (noPresentQueues: bool)
      modifies this
      ensures Snapshot() == old(Snapshot()).(presentQueueCandidates := Filtered(old(presentQueueCandidates), supports))
      ensures noPresentQueues <==> forall q :: 0 <= q < |old(presentQueueCandidates)| ==> !supports(q)
    {
      var filtered;
      filtered, noPresentQueues := FilterCandidates(presentQueueCandidates, supports);
      presentQueueCandidates := filtered;
    }

    /** The part of `Initialize` that fills a fresh structure once the
        instance exists: with no suitable device the instance is destroyed
        again; otherwise the physical device is recorded, the logical
        device created and the queues stored. */
    method Establish(instance: Handle, debugMessenger: Handle, plan: DevicePlan, logicalDevice: Handle)
      returns (status: Status, enabledFeatures: DeviceFeatures, createInfos: seq<QueueCreateInfo>)
      requires Snapshot() == Initial && instance != NullHandle
      modifies this
      ensures Initialized(Snapshot(), status, enabledFeatures, createInfos)
              == InitializeResult(instance, debugMessenger, plan, logicalDevice)
    {
      enabledFeatures := NoFeatures;
      createInfos := [];
      this.instance := instance;
      this.debugMessenger := debugMessenger;
      if plan.Unsuitable? {
        DestroyInstance();
        return NoSuitableDevice, enabledFeatures, createInfos;
      }
      physicalDevice := Handle(plan.device);
      enabledFeatures, createInfos := plan.enabledFeatures, plan.createInfos;
      this.logicalDevice := logicalDevice;
      if plan.handout.Failure? {
        return SetupFailed(plan.handout.error), enabledFeatures, createInfos;
      }
      Store(plan.handout.value);
      status := Ready;
    }

    /** The same for the `Initialize` of `src/internal`. */
    method EstablishInternal(instance: Handle, debugMessenger: Handle, pick: Option<nat>,
                             features: DeviceFeatures, logicalDevice: Handle)
      returns (status: Status, enabledFeatures: DeviceFeatures)
      requires Snapshot() == Initial && instance != NullHandle
      modifies this
      ensures Initialized(Snapshot(), status, enabledFeatures, [])
              == InitializeInternalResult(instance, debugMessenger, pick, features, logicalDevice)
    {
      this.instance := instance;
      this.debugMessenger := debugMessenger;
      if pick.None? {
        DestroyInstance();
        return NoSuitableDevice, NoFeatures;
      }
      physicalDevice := Handle(pick.value);
      this.logicalDevice := logicalDevice;
      return Ready, features;
    }

    /** The queue fields take the values of a successful hand-out. */
    method Store(h: Handout)
      modifies this
      ensures Snapshot() == WithHandout(old(Snapshot()), h)
    {
      generalQueues := h.generalQueues;
      generalFamilyIndex := h.generalFamilyIndex;
      computeQueues := h.computeQueues;
      computeFamilyIndex := h.computeFamilyIndex;
      transferQueues := h.transferQueues;
      transferFamilyIndex := h.transferFamilyIndex;
      presentQueueCandidates := h.presentQueueCandidates;
    }
  }

  /** The `Device` part of `Initialize` without the driver calls: the
      feature names are lower-cased, the devices selected with queue
      requirements, and on the recorded slot the create infos are written
      and the queues handed out. */
  method SetUpDevice(config: Config, devices: seq<PhysicalDevice>) returns (plan: DevicePlan)
    requires ValidDevices(devices)
    ensures plan == PlanDevice(config, devices)
  {
    var section := config.device;
    var requiredFeatures := LowercaseFeatures(section.features);
    assert requiredFeatures == Lowered(section.features);
    var requested := GetVulkanApplicationInfo(ApplicationFor(config.application)).apiVersion;
    var selection := SelectDevice(FeaturesAndQueues, devices, requested, section.preferred, section.preferredVendor,
                                  requiredFeatures, section.queues);
    SelectedSlot(devices, requested, section.preferred, section.preferredVendor, requiredFeatures, section.queues);
    if selection.pick.None? {
      return Unsuitable;
    }
    var deviceIndex := selection.pick.value.deviceIndex;
    var counts := selection.slots.outputIndices[deviceIndex];
    var maxCount, countFamilies := CountQueueFamilies(counts, section.queues.present);
    var raised, createInfos := WriteCreateInfos(counts, section.queues.present, countFamilies);
    var handout := HandOutQueues(section.queues, selection.slots.indexMappings[deviceIndex], |raised|);
    plan := Plan(selection.pick.value.device, deviceIndex, FeaturesFromString(requiredFeatures), createInfos, handout);
  }

  /** The selection of the `Initialize` of `src/internal`. */
  method SelectInternal(config: Config, requested: Word, devices: seq<PhysicalDevice>) returns (device: Option<nat>)
    requires ValidDevices(devices)
    ensures device == InternalPick(config, requested, devices)
  {
    var section := config.device;
    var requiredFeatures := LowercaseFeatures(section.features);
    assert requiredFeatures == Lowered(section.features);
    var selection := SelectDevice(FeaturesOnly, devices, requested, section.preferred, section.preferredVendor,
                                  requiredFeatures, section.queues);
    device := if selection.pick.Some? then Some(selection.pick.value.device) else None;
  }

  /** `VulkanBackend::Initialize` from the instance on: `instance` and
      `debugMessenger` are what instance creation produced (null when it
      failed or no messenger was created), `devices` what enumeration
      reports and `logicalDevice` what `vkCreateDevice` returns. */
  method Initialize(config: Config, instance: Handle, debugMessenger: Handle, devices: seq<PhysicalDevice>,
                    logicalDevice: Handle)
    returns (b: Backend, status: Status, enabledFeatures: DeviceFeatures, createInfos: seq<QueueCreateInfo>)
    requires ValidDevices(devices)
    ensures fresh(b)
    ensures Initialized(b.Snapshot(), status, enabledFeatures, createInfos)
            == InitializeResult(instance, debugMessenger, PlanDevice(config, devices), logicalDevice)
  {
    b := new Backend();
    if instance == NullHandle {
      return b, InstanceFailed, NoFeatures, [];
    }
    var plan := SetUpDevice(config, devices);
    status, enabledFeatures, createInfos := b.Establish(instance, debugMessenger, plan, logicalDevice);
  }

  /** The `Initialize` of `src/internal`: its own reading of the
      application section (which stops everything when a version does not
      read), then the same selection without queue requirements, and a
      device created with no queues. */
  method InitializeInternal(config: Config, instance: Handle, debugMessenger: Handle, devices: seq<PhysicalDevice>,
                            logicalDevice: Handle)
    returns (b: Backend, status: Status, enabledFeatures: DeviceFeatures)
    requires ValidDevices(devices)
    ensures fresh(b)
    ensures InternalRequested(config).None? ==>
              b.Snapshot() == Initial && status == ConfigurationFailed && enabledFeatures == NoFeatures
    ensures InternalRequested(config).Some? ==>
              Initialized(b.Snapshot(), status, enabledFeatures, [])
              == InitializeInternalResult(instance, debugMessenger,
                                          InternalPick(config, InternalRequested(config).value, devices),
                                          FeaturesFromString(Lowered(config.device.features)), logicalDevice)
  {
    b := new Backend();
    var requested := InternalRequested(config);
    if requested.None? {
      return b, ConfigurationFailed, NoFeatures;
    }
    if instance == NullHandle {
      return b, InstanceFailed, NoFeatures;
    }
    var device := SelectInternal(config, requested.value, devices);
    var requiredFeatures := LowercaseFeatures(config.device.features);
    assert requiredFeatures == Lowered(config.device.features);
    status, enabledFeatures := b.EstablishInternal(instance, debugMessenger, device,
                                                   FeaturesFromString(requiredFeatures), logicalDevice);
  }

  // ---------------------------------------------------------------------
  // Properties of the initialization

  /** `Initialize` only selects a device that reaches the requested API
      version and has the required (lower-cased) features, and it enables
      exactly the features named; the slot whose queue data it uses is
      never after the device, and its create infos and hand-out are built
      from the counts and mapping of a `CheckQueueSupport` call on the
      families of that slot that returned true. */
  lemma InitializeSelectsPassingDevice(config: Config, devices: seq<PhysicalDevice>)
    requires ValidDevices(devices)
    ensures var p := PlanDevice(config, devices);
            p.Plan? ==>
              p.device < |devices| && p.deviceIndex <= p.device
              && Passes(devices, Requested(config), Lowered(config.device.features), p.device)
              && p.enabledFeatures == FeaturesFromString(Lowered(config.device.features))
              && var families := devices[p.deviceIndex].queueFamilies;
                 exists counts: seq<int>, m: map<Role, int> ::
                   |counts| == |families| && (General in m ==> 0 <= m[General] < |families|)
                   && QueueSupportResult(config.device.queues, families, counts, m).ok
                   && p.createInfos == CreateInfos(QueueSupportResult(config.device.queues, families, counts, m).outputIndices,
                                                   config.device.queues.present)
                   && p.handout == HandOut(config.device.queues, QueueSupportResult(config.device.queues, families, counts, m).mapping,
                                           |families|)
  {
    var section := config.device;
    SelectSound(FeaturesAndQueues, devices, Requested(config), section.preferred, section.preferredVendor,
                Lowered(section.features), section.queues);
  }

  /** The plan records the device and slot the queue-aware selection
      picked, and there is a plan exactly when there is a pick. */
  lemma PlanOfSelection(config: Config, devices: seq<PhysicalDevice>)
    requires ValidDevices(devices)
    ensures var s := Select(FeaturesAndQueues, devices, Requested(config), config.device.preferred,
                            config.device.preferredVendor, Lowered(config.device.features), config.device.queues);
            var p := PlanDevice(config, devices);
            (p.Plan? <==> s.pick.Some?)
            && (p.Plan? ==> p.device == s.pick.value.device && p.deviceIndex == s.pick.value.deviceIndex)
  {
  }

  /** With a preferred device name, `Initialize` selects the first device
      of that name that passes every test, queue support included, when the
      search reaches one. */
  lemma InitializeSelectsByName(config: Config, devices: seq<PhysicalDevice>, d: nat)
    requires ValidDevices(devices) && config.device.preferred.Some?
    requires FirstNamedPass(FeaturesAndQueues, devices, config.device.preferred.value, Requested(config),
                            Lowered(config.device.features), config.device.queues, d)
    ensures var p := PlanDevice(config, devices);
            p.Plan? && p.device == d && p.deviceIndex == d
  {
    var section := config.device;
    SelectByName(FeaturesAndQueues, devices, Requested(config), section.preferred, section.preferredVendor,
                 Lowered(section.features), section.queues, d);
    PlanOfSelection(config, devices);
  }

  /** Without a selection by name, `Initialize` prefers the configured
      vendor: when a position of the preferred-vendor list passes every
      test, queue support on the slots the name tier left included, it
      selects a device of that vendor, at the first such position. */
  lemma InitializePrefersVendor(config: Config, devices: seq<PhysicalDevice>, pos: nat)
    requires ValidDevices(devices)
    requires config.device.preferred.None?
             || forall d: nat :: !FirstNamedPass(FeaturesAndQueues, devices, config.device.preferred.value,
                                                 Requested(config), Lowered(config.device.features),
                                                 config.device.queues, d)
    requires PreferredVendorId(config.device.preferredVendor) > 0
    ensures var section := config.device;
            var named := ByName(FeaturesAndQueues, devices, Requested(config), section.preferred,
                                Lowered(section.features), section.queues);
            var vendorId := PreferredVendorId(section.preferredVendor);
            var list := Partition(devices, Requested(config), vendorId, |devices|).preferred;
            var p := PlanDevice(config, devices);
            named.picked.None?
            && (pos < |list|
                && TierAccepts(FeaturesAndQueues, devices, Requested(config), Lowered(section.features), section.queues,
                               list, pos, named.slots)
                ==> p.Plan? && p.deviceIndex <= pos && p.device == list[p.deviceIndex]
                    && devices[p.device].vendorId == vendorId)
  {
    var section := config.device;
    SelectPrefersVendor(FeaturesAndQueues, devices, Requested(config), section.preferred, section.preferredVendor,
                        Lowered(section.features), section.queues, pos);
    PlanOfSelection(config, devices);
  }

  /** After a successful hand-out every family index names a family of
      the device in slot `deviceIndex`, the general queues are queues 0, 1,
      ... of the general family, and with present queues requested there
      is one candidate per family, each a queue of its own family. */
  lemma InitializeQueuesFit(config: Config, devices: seq<PhysicalDevice>)
    requires ValidDevices(devices)
    ensures var p := PlanDevice(config, devices);
            p.Plan? && p.handout.Success? ==>
              p.deviceIndex < |devices|
              && var h := p.handout.value;
                 var n := |devices[p.deviceIndex].queueFamilies|;
                 0 <= h.generalFamilyIndex < n && 0 <= h.computeFamilyIndex < n && 0 <= h.transferFamilyIndex < n
                 && (forall i :: 0 <= i < |h.generalQueues| ==> h.generalQueues[i] == Queue(h.generalFamilyIndex, i))
                 && (config.device.queues.present ==>
                       |h.presentQueueCandidates| == n
                       && forall i :: 0 <= i < n ==>
                            h.presentQueueCandidates[i].Queue? && h.presentQueueCandidates[i].family == i)
                 && (!config.device.queues.present ==> h.presentQueueCandidates == [])
  {
    var section := config.device;
    var required := Lowered(section.features);
    var s := Select(FeaturesAndQueues, devices, Requested(config), section.preferred, section.preferredVendor,
                    required, section.queues);
    SelectedSlot(devices, Requested(config), section.preferred, section.preferredVendor, required, section.queues);
    var p := PlanDevice(config, devices);
    if s.pick.Some? && p.handout.Success? {
      var di := s.pick.value.deviceIndex;
      var mapping := s.slots.indexMappings[di];
      var n := |s.slots.outputIndices[di]|;
      assert p.handout == HandOut(section.queues, mapping, n);
      HandOutFits(section.queues, mapping, n);
    }
  }

  /** The features-only selection selects nothing exactly when no device
      reaches the requested API version and has the required features, and
      what it selects is such a device. */
  lemma InternalPickRule(config: Config, requested: Word, devices: seq<PhysicalDevice>)
    requires ValidDevices(devices)
    ensures var pick := InternalPick(config, requested, devices);
            (pick.None? <==>
               forall d: nat :: d < |devices| ==> !Passes(devices, requested, Lowered(config.device.features), d))
            && (pick.Some? ==>
                  pick.value < |devices| && Passes(devices, requested, Lowered(config.device.features), pick.value))
  {
    var section := config.device;
    SelectFeaturesOnlyComplete(devices, requested, section.preferred, section.preferredVendor,
                               Lowered(section.features), section.queues);
    SelectSound(FeaturesOnly, devices, requested, section.preferred, section.preferredVendor,
                Lowered(section.features), section.queues);
  }
}

# VulkanBackend device and queue resolution, in Dafny

VulkanBackend is a thin C++ wrapper over Vulkan. It reads a YAML file and creates an instance, picks a physical device, creates a logical device with queues, and then hands out presentation, format and descriptor choices. Nearly every file only fills a create-info structure and calls the driver. This project models the parts that make decisions, and proves what they do. Every driver query is replaced by input data:

- **Configuration decoders** (`Configuration`, `InternalConfiguration`, `Versions`, `QueueSupport`):
  - the two version-string parsers (the regex parser and the older find/substr parser);
  - the `VK_MAKE_API_VERSION` packing and its decoders;
  - the application section defaults;
  - the vendor-name lookup;
  - the feature-name checks;
  - the queue-family classification and reservation of `CheckQueueSupport`.
- **Device selection** (`DeviceSelection`): one selector runs the tiers of `Initialize` in order: preferred name, then preferred vendor, then any other device. It is parameterised by the acceptance test: features and queues for `src/VulkanBackend.cpp`, features only for `src/internal/VulkanBackend.cpp`.
- **Queue setup** (`QueueSetup`): the per-family counts, the device-queue create-infos, and the hand-out of queues per role. This includes the present-candidate table.
- **The `Initialized` structure** (`Backend`): a class whose fields are the structure's fields. Its methods are `Initialize` (both variants), `FilterPresentQueues`, `Shutdown` and `DestroyInstance`.
- **Post-surface choices** (`Presentation`): the depth format, the surface format, and the present queue.
- **Descriptor writes** (`Descriptors`): the records `WriteDescriptorSets` passes to `vkUpdateDescriptorSets`.

Representation choices:

- A Vulkan handle is `NullHandle` (`VK_NULL_HANDLE`) or a numbered handle.
- A queue is the (family, index) pair it was retrieved with.
- API versions are integers in [0, 2^32).
- Queue flags and format features are 32-bit bit-vectors with their Vulkan bit values.
- Operations that change state in place are methods with loops. Each is proved equal to a specification function, and the promised properties are proved as lemmas about those functions.

The code's quirks are modelled as written and stated as lemmas:

- the queue capacity is tested against earlier allocations only;
- the last matching family wins;
- the vendor and other tiers index per-device queue data by partition position;
- the compute-queue loop is bounded by the general count;
- the create-info family index is a running counter;
- the older parser turns "a.b" into (a, b, b).

### Where the code departs from the intended design

The model follows the code in each case.

- Queue resolution is not first-fit with a capacity check on allocated plus requested. A family's `queueCount` is compared with what earlier roles already took from it (`src/YAMLConfiguration.cpp:263,276,289`). So a single request of any size succeeds. A request of 1 general and 3 compute on a compute family of 2 queues is accepted, not refused.
- A role without a dedicated family resolves to the general index. Its queues are still added to the general family's count.
- Nothing is rolled back when a later role fails.
- Queue-family ownership transfer has no code in the repository, so it is not modelled.

## Model

| member | source | states |
|---|---|---|
| Versions.MakeFields | src/internal/YAMLConfiguration.hpp:10-13 | For in-range components, `Make()` (the shifts and ORs) equals major·2^22 + minor·2^12 + patch. |
| Versions.DecodeMake | src/internal/YAMLConfiguration.hpp:10-13 | `VK_API_VERSION_MAJOR/MINOR/PATCH` recover each in-range component of `Make()`. |
| Versions.MakeMonotone | src/internal/YAMLConfiguration.hpp:10-13 | For in-range versions, `Make(a) >= Make(b)` iff a ≥ b lexicographically. The selectors' `apiVersion >=` tests rely on this. |
| Versions.DefaultVersionsPacked | src/internal/YAMLConfiguration.hpp:18-20 | The default Vulkan version 1.2.0 packs to 0x402000, and the default version 0.0.0 packs to 0. |
| Configuration.VersionFromString | src/YAMLConfiguration.cpp:6-28 | The regex-and-search loop returns `ParseVersion`: (0,0,0) for a string not of the form N.N.N or N.N. |
| Configuration.DigitRunsOfPieces | src/YAMLConfiguration.cpp:16-25 | When every dot-separated piece is a digit run, repeated `regex_search` for `[0-9]+` collects exactly the pieces' values. |
| Configuration.ParseThreePieces | src/YAMLConfiguration.cpp:8-27 | "a.b.c" with digit pieces matches the format and parses to (a, b, c). |
| Configuration.ParseTwoPieces | src/YAMLConfiguration.cpp:9-27 | "a.b" with digit pieces matches the format and parses with patch 0. |
| Configuration.ParseFormatRoundTrip | src/YAMLConfiguration.cpp:6-28 | Printing naturals (a, b, c) as "a.b.c" and parsing the string gives back (a, b, c). |
| Configuration.ParseMajorMinor | src/YAMLConfiguration.cpp:9-27 | Printed "a.b" parses to (a, b, 0). |
| Configuration.ParseRejectsFourParts | src/YAMLConfiguration.cpp:8-14 | Four dot-separated pieces yield (0,0,0), whatever they hold. |
| Configuration.ParseRejectsNoDot | src/YAMLConfiguration.cpp:8-14 | A string without a dot yields (0,0,0). |
| Configuration.ConfigureApplication | src/YAMLConfiguration.cpp:30-80 | Each field takes its key's value when the key is present, with versions parsed. Otherwise it takes the default: 1.2.0, "unknown" or 0.0.0. |
| Configuration.GetVulkanApplicationInfo | src/YAMLConfiguration.cpp:82-92 | The three versions are packed so that each in-range component decodes back. The names pass through. |
| Configuration.RequestedApiVersion | src/YAMLConfiguration.cpp:59-61 | Without `vulkan-version` the requested API version is 0x402000. With "a.b.c" in range, comparing a device version against it is lexicographic comparison with (a, b, c). |
| Configuration.VendorId | src/YAMLConfiguration.cpp:104-134 | The id is non-zero exactly for the listed lower-case names, and is one of the six PCI ids or 0. |
| Configuration.VendorIdFromString | src/YAMLConfiguration.cpp:94-135 | The lower-casing loop followed by the lookup. Unknown names give 0. |
| Configuration.VendorAliases | src/YAMLConfiguration.cpp:94-135 | For every name in any letter case, the id is a vendor's id exactly when the lower-cased name is one of that vendor's aliases (0x1002, 0x1010, 0x10DE, 0x13B5, 0x5143, 0x8086), and 0 exactly for unknown names. Names equal up to letter case get the same id. |
| Configuration.VendorSpellings | src/YAMLConfiguration.cpp:104-132 | Mixed- and upper-case spellings such as "AMD", "ImgTec", "NVIDIA" and "Intel" give their vendor's id. |
| Configuration.CheckFeaturesPresent | src/YAMLConfiguration.cpp:137-185 | False iff "dedicated" or "discrete" is required of a non-discrete device, or a known feature is required and its bit is off. Unknown names are ignored. |
| Configuration.FeaturesFromString | src/YAMLConfiguration.cpp:187-222 | A known feature's bit is set iff its name is required. "dedicated" and "discrete" set nothing. |
| Configuration.DecodedFeaturesPass | src/YAMLConfiguration.cpp:137-222 | A discrete device with the decoded features passes the check of the same list. An empty list passes on any device. |
| Configuration.UnknownFeatureIgnored | src/YAMLConfiguration.cpp:137-185 | Appending an unknown name does not change the check. |
| InternalConfiguration.CutAtDot | src/internal/YAMLConfiguration.cpp:8-14 | With a dot: the text before it and the rest after it. Without one: the whole string twice, because `npos + 1` wraps. |
| InternalConfiguration.PieceValue | src/internal/YAMLConfiguration.cpp:16 | `stoi` gives a value iff the piece starts with a digit. For a digit run, that value is its decimal value. |
| InternalConfiguration.VersionFromString | src/internal/YAMLConfiguration.cpp:5-17 | A version reads exactly when the text before the first dot, the text between the first two dots and the text after the second each start with a digit. Without a dot every piece is the whole text (`npos + 1` wraps to 0), so a version reads iff the text starts with a digit, and it reads as (n, n, n). |
| InternalConfiguration.VersionOfThreePieces | src/internal/YAMLConfiguration.cpp:8-16 | "a.b.c" with digit pieces reads as (a, b, c). |
| InternalConfiguration.VersionOfTwoPieces | src/internal/YAMLConfiguration.cpp:12-16 | "a.b" reads as (a, b, b). |
| InternalConfiguration.VersionOfOnePiece | src/internal/YAMLConfiguration.cpp:8-16 | A plain number "a" reads as (a, a, a). |
| InternalConfiguration.VersionIgnoresFourthPiece | src/internal/YAMLConfiguration.cpp:12-16 | Text after a third dot is ignored. |
| InternalConfiguration.PatchIgnoresRest | src/internal/YAMLConfiguration.cpp:12-16 | `stoi` on a digit run followed by a dot and anything reads the digit run alone. |
| InternalConfiguration.VersionRejectsEmptyPiece | src/internal/YAMLConfiguration.cpp:16 | An empty string, a leading dot or a trailing dot makes `stoi` throw. |
| InternalConfiguration.FormatRoundTrip | src/internal/YAMLConfiguration.cpp:5-17 | Printing (a, b, c) as "a.b.c" and reading it back gives (a, b, c). |
| InternalConfiguration.ConfigureApplication | src/internal/YAMLConfiguration.cpp:19-69 | Same defaults as the other decoder. No result iff a present version key does not read. Otherwise each present key's field is what it reads as. |
| InternalConfiguration.RequestedApiVersion | src/internal/YAMLConfiguration.cpp:71-80 | The requested API version is 0x402000 without a key, `Make(a,b,c)` for "a.b.c", and `Make(a,b,b)` for "a.b". |
| QueueSupport.ClassifyRoles | src/YAMLConfiguration.cpp:233-245 | A family is general iff it has graphics, compute and transfer. Otherwise compute iff it has compute. Otherwise transfer iff it has transfer. |
| QueueSupport.LastOf | src/YAMLConfiguration.cpp:231-246 | The highest index below `n` of a family claiming the role, with every later family not claiming it, or -1 when none does. |
| QueueSupport.ClassificationLastWins | src/YAMLConfiguration.cpp:229-246 | After the loop each role holds the highest index of a family claiming it. With none, compute and transfer hold the INT32_MAX sentinel, and general keeps what was handed in. |
| QueueSupport.ResolvedInRange | src/YAMLConfiguration.cpp:249-254 | Every resolved role names one of the device's families. |
| QueueSupport.Resolve | src/YAMLConfiguration.cpp:249-254 | The two reads after the loop always leave all three roles in the mapping. |
| QueueSupport.ResolvedMapping | src/YAMLConfiguration.cpp:229-254 | The mapping handed back has all three roles. For a device's families, they are in range. |
| QueueSupport.SentinelFallback | src/YAMLConfiguration.cpp:250-254 | Without a dedicated compute or transfer family, that role takes the general index in the returned mapping. |
| QueueSupport.QueueSupportResult | src/YAMLConfiguration.cpp:256-300 | The check keeps one count per family. It hands back a mapping of all three roles inside the family range. |
| QueueSupport.QueueSupportSteps | src/YAMLConfiguration.cpp:261-300 | The three outcomes: success with all additions, failure at transfer, or failure at compute. Each is given with its exact counts. |
| QueueSupport.ClassifyQueueFamilies | src/YAMLConfiguration.cpp:229-254 | The classification loop and the sentinel replacement produce `ResolvedMapping`. |
| QueueSupport.CheckQueueSupport | src/YAMLConfiguration.cpp:224-301 | The method returns the result, counts and mapping of `QueueSupportResult`. |
| QueueSupport.SingleRequestAlwaysFits | src/YAMLConfiguration.cpp:263-297 | A single request of any size succeeds and is added in full, even above the family's `queueCount`. |
| QueueSupport.FailureNeedsEarlierOverallocation | src/YAMLConfiguration.cpp:276-297 | The call fails iff transfer shares the general family and that family has fewer queues than the general request, or compute's family has fewer queues than general and transfer already took from it. |
| QueueSupport.FailureKeepsEarlierAdditions | src/YAMLConfiguration.cpp:265-297 | On failure, when transfer and compute live elsewhere, the general request stays added to the general family. |
| QueueSupport.NoRequestsNoChange | src/YAMLConfiguration.cpp:261-300 | With no request the counts are unchanged and the call succeeds. |
| QueueSupport.SuccessAddsRequests | src/YAMLConfiguration.cpp:261-300 | Success adds exactly each requested amount to its role's family, and nothing else. |
| DeviceSelection.InitialSlots | src/VulkanBackend.cpp:229-230 | One count vector and one mapping per device. |
| DeviceSelection.CheckAt | src/VulkanBackend.cpp:260-261 | A device passes only with its features present. The features-only test leaves the slots alone. |
| DeviceSelection.ResetSlot | src/VulkanBackend.cpp:252-253 | The device's count vector becomes one zero per family. |
| DeviceSelection.NameScan | src/VulkanBackend.cpp:242-293 | The enumeration loop keeps every slot sized for its device. A pick is a device index at or after the start. |
| DeviceSelection.Partition | src/VulkanBackend.cpp:317-334 | Both lists are ascending enumeration indices. |
| DeviceSelection.TierScan | src/VulkanBackend.cpp:337-353 | A tier loop keeps the slots sized. A pick is a position of its list. |
| DeviceSelection.LowercaseFeatures | src/VulkanBackend.cpp:202-222 | Every required feature name is its `tolower` image, and the list length is kept. |
| DeviceSelection.CheckDevice | src/VulkanBackend.cpp:260-261 | The feature test, then the queue test on the given slot, equals `CheckAt`. |
| DeviceSelection.ScanDevice | src/VulkanBackend.cpp:245-292 | One pass of the enumeration loop equals one step of `NameScan`. |
| DeviceSelection.NameTier | src/VulkanBackend.cpp:234-293 | The loop's pick and slots equal `NameScan`. Without a pick, every device is marked nulled or not by its API version. |
| DeviceSelection.PartitionDevices | src/VulkanBackend.cpp:304-334 | The two lists equal `Partition`. |
| DeviceSelection.TierLoop | src/VulkanBackend.cpp:337-378 | A tier loop's pick and slots equal `TierScan`. |
| DeviceSelection.SelectDevice | src/VulkanBackend.cpp:227-387 | The whole selection equals `Select`. |
| DeviceSelection.NameScanFirst | src/VulkanBackend.cpp:242-293 | In either variant the name tier picks device d iff d is the first device with the preferred name that reaches the version, has the features and, with queues, passes `CheckQueueSupport` on its zeroed count vector and empty mapping; every earlier device with that name reached the version and failed. Once the search has ended, nothing is picked by name. |
| DeviceSelection.SelectByName | src/VulkanBackend.cpp:242-293 | With a preferred name, the first named device that passes every test is the selection, with its own slot. |
| DeviceSelection.PartitionMembers | src/VulkanBackend.cpp:317-334 | The lists hold exactly the devices at or above the requested version, split by vendor match. With vendor id 0 the preferred list is empty. |
| DeviceSelection.TierStep | src/VulkanBackend.cpp:343-353 | The check at a tier position (device `list[pos]`, slot `pos`) passes iff that position is accepted, and it writes no slot after `pos`. |
| DeviceSelection.FirstFromSpec | src/VulkanBackend.cpp:337-353 | The reference pick `FirstFrom` is the first accepted position from the start, and is none only when no position is accepted. |
| DeviceSelection.FirstFromFrame | src/VulkanBackend.cpp:343-353 | Which position is first accepted depends only on the slots from the start on. |
| DeviceSelection.TierScanIsFirst | src/VulkanBackend.cpp:337-353 | The tier loop picks exactly the reference pick `FirstFrom` on the slots it started with, although each failed check rewrites its own slot. |
| DeviceSelection.TierScanFirst | src/VulkanBackend.cpp:337-353 | In either variant a tier loop picks position p iff p is the first position whose device reaches the version, has the features and, with queues, passes `CheckQueueSupport` on the count vector and mapping of enumeration index p; it picks none iff no position passes. |
| DeviceSelection.TiersSound | src/VulkanBackend.cpp:336-379 | The partition tiers select only passing devices, at a position never after the device. With queues, that position's slot holds the counts and mapping of a `CheckQueueSupport` call that returned true. |
| DeviceSelection.SelectSound | src/VulkanBackend.cpp:242-379 | In either variant a selected device passes. `deviceIndex` is the device itself by name, or its partition position. With queues, slot `deviceIndex` holds the outcome of a `CheckQueueSupport` call that returned true. |
| DeviceSelection.CheckAtWrites | src/VulkanBackend.cpp:260-261 | A queue check writes no later slot. When it passes, its slot holds what `CheckQueueSupport` returned on that slot as it was. |
| DeviceSelection.KeptFrom | src/VulkanBackend.cpp:260-261 | A slot holding the outcome of a passing `CheckQueueSupport` call on a well-shaped count vector and mapping keeps a passing check. |
| DeviceSelection.KeptResolved | src/YAMLConfiguration.cpp:249-300 | A slot that keeps a passing check has one count per family of its device and all three roles mapped into those families. |
| DeviceSelection.NameScanSlot | src/VulkanBackend.cpp:252-271 | A queue-aware pick by name of device d leaves in slot d exactly what `CheckQueueSupport` returned, with `true`, on the families of d, a zeroed count vector and the mapping slot d had before the loop. |
| DeviceSelection.NameSlotChecked | src/VulkanBackend.cpp:252-271 | The same, from a device with the preferred name and a high enough version, whose queue support is checked. |
| DeviceSelection.TierScanSlot | src/VulkanBackend.cpp:337-353 | A queue-aware tier pick at position p leaves in slot p exactly what `CheckQueueSupport` returned, with `true`, on the families of enumeration index p and the counts and mapping slot p had before the loop. |
| DeviceSelection.SelectedSlot | src/VulkanBackend.cpp:242-396 | After a queue-aware pick, slot `deviceIndex` has one count per family of device `deviceIndex`, and a mapping of all roles into those families. |
| DeviceSelection.PassingDeviceListed | src/VulkanBackend.cpp:317-334 | A passing device is in one of the two lists. |
| DeviceSelection.TierScanFindsPassing | src/internal/VulkanBackend.cpp:325-338 | A features-only tier over a list holding a passing device selects something. |
| DeviceSelection.TiersFeaturesOnlyComplete | src/internal/VulkanBackend.cpp:267-347 | The features-only partition tiers select nothing iff no device passes. |
| DeviceSelection.SelectFeaturesOnlyComplete | src/internal/VulkanBackend.cpp:219-347 | The features-only selection finds nothing iff no device passes. |
| DeviceSelection.TiersPreferVendor | src/VulkanBackend.cpp:336-379 | In either variant, when a position of the preferred-vendor list passes every test (queue support included), the selection is that vendor's device at the first passing position of that list. Features only, it is the first passing device of that vendor. |
| DeviceSelection.FirstOfVendor | src/internal/VulkanBackend.cpp:303-316 | Features only, the first passing position of the preferred-vendor list holds the first passing device of that vendor. |
| DeviceSelection.SelectPrefersVendor | src/VulkanBackend.cpp:242-379 | In either variant, with no pick by name, when a position of the preferred-vendor list passes every test on the slots the name tier left, a device of that vendor is selected at the first such position. |
| DeviceSelection.QueueCheckUsesPartitionPosition | src/VulkanBackend.cpp:362-373 | Partition-position quirk: for two devices with only device 1 above the version, device 1 is selected at position 0. Its general queue is counted in device 0's count vector ([[1], [0]]). |
| DeviceSelection.ExampleNameTier | src/VulkanBackend.cpp:242-293 | For two one-family devices and no preferred name, the name tier picks nothing and resets both count vectors to [0]. |
| DeviceSelection.ExampleQueueCheck | src/YAMLConfiguration.cpp:229-300 | One general queue fits the single graphics-only family of device 0. The fallbacks make that family general, compute and transfer. |
| QueueSetup.MaxCount | src/VulkanBackend.cpp:393-403 | `maxCount` is at least 1 and every count, and is 1 or one of the counts. |
| QueueSetup.CountFamilies | src/VulkanBackend.cpp:394-403 | `countFamilies` is at most the family count, and equals it when present queues are requested. |
| QueueSetup.Raised | src/VulkanBackend.cpp:414-417 | Raising zero counts to 1 for present queues keeps one count per family. |
| QueueSetup.Requested | src/VulkanBackend.cpp:419-427 | The counts that get a create-info are all positive, and no more than there are families. |
| QueueSetup.RequestedFamilies | src/VulkanBackend.cpp:412-427 | The families meant by the create-infos: in range, one per written entry, each holding that entry's count. |
| QueueSetup.CreateInfos | src/VulkanBackend.cpp:410-429 | The create-info array has `countFamilies` entries. |
| QueueSetup.RequestedFitCounted | src/VulkanBackend.cpp:410-429 | The create-info loop writes no more entries than were counted, so `f` stays inside the array. With non-negative counts it fills it. |
| QueueSetup.CountQueueFamilies | src/VulkanBackend.cpp:393-403 | The counting loop computes `MaxCount` and `CountFamilies`. |
| QueueSetup.WriteCreateInfos | src/VulkanBackend.cpp:410-429 | The loop raises zero counts to 1 when present queues are requested. It writes `CreateInfos`: entry k has family index k and the k-th positive count. |
| QueueSetup.PrioritiesCover | src/VulkanBackend.cpp:392-408 | The priority array is as long as every create-info's queue count. |
| QueueSetup.PresentCreatesEveryFamily | src/VulkanBackend.cpp:399-427 | With present queues, every family gets a create-info and the counter equals the family index. |
| QueueSetup.PresentRequestsAll | src/VulkanBackend.cpp:414-421 | With present queues and non-negative counts, every family's raised count gets a create-info. |
| QueueSetup.CounterIsNotFamily | src/VulkanBackend.cpp:425 | Counter quirk: with counts [0, 2], the single create-info names family 0, while the queues were reserved in family 1. |
| QueueSetup.TakeQueues | src/VulkanBackend.cpp:443-448 | `count` queues of family `f` with consecutive indices from the family's counter. The counter advances by `count`. |
| QueueSetup.TakeCompute | src/VulkanBackend.cpp:452-461 | The compute loop fails iff there are more general than compute queues. Otherwise the first general-count compute queues are retrieved, the rest stay null, and the counter advances by the general count. |
| QueueSetup.TakePresent | src/VulkanBackend.cpp:475-498 | The present table fails iff there is no general queue. Otherwise it holds one candidate per family, as `PresentCandidate` defines it. |
| QueueSetup.HandOutQueues | src/VulkanBackend.cpp:441-498 | The hand-out equals `HandOut`: all queues per role and the present table, or the error path. |
| QueueSetup.HandOutDistinct | src/VulkanBackend.cpp:441-498 | No (family, index) pair is retrieved twice across general, compute, transfer and fresh present queues. |
| QueueSetup.ComputeLoopBound | src/VulkanBackend.cpp:454-459 | With fewer compute than general queues the loop writes out of range. With more, the extra compute queues stay null. |
| QueueSetup.PresentCandidateRule | src/VulkanBackend.cpp:475-498 | Family i's candidate is the first general queue, else the first transfer queue, else the first compute queue of that family, else a fresh queue of family i. |
| QueueSetup.HandOutFits | src/VulkanBackend.cpp:441-498 | On success the family indices are in range and general queue i is (general family, i). There is one present candidate per family when requested, and none otherwise. |
| Presentation.GetDepthFormat | src/VulkanBackend.cpp:523-548 | The loop returns `FirstCapable` over D32_S8, D32, D24_S8, D16_S8, D16. |
| Presentation.FirstCapableSpec | src/VulkanBackend.cpp:536-547 | UNDEFINED iff no candidate is capable. Otherwise a capable candidate with none capable before it. |
| Presentation.DepthFormatChoice | src/VulkanBackend.cpp:523-548 | The depth format is the first of the five with the depth-stencil-attachment bit, or UNDEFINED. |
| Presentation.FirstUnorm | src/VulkanBackend.cpp:573-581 | The position of the first B8G8R8A8_UNORM entry, or none when there is none. |
| Presentation.GetSurfaceFormat | src/VulkanBackend.cpp:550-589 | The method returns `SurfaceFormatChoice` of the driver's list. |
| Presentation.SurfaceFormatRule | src/VulkanBackend.cpp:562-588 | A single UNDEFINED entry gives B8G8R8A8_UNORM with its colour space. Otherwise the first UNORM entry, else the first entry. |
| Presentation.Filtered | src/VulkanBackend.cpp:601-611 | Filtering keeps the length. |
| Presentation.Unsupported | src/VulkanBackend.cpp:600-611 | What the loop subtracts from the counter is at most the number of families. |
| Presentation.UnsupportedAll | src/VulkanBackend.cpp:600-613 | The counter reaches 0 iff no family supports the surface. |
| Presentation.FilterIdempotent | src/VulkanBackend.cpp:598-611 | Exactly the candidates of unsupported families become null. Filtering again with the same answers changes nothing. |
| Presentation.NoPresentQueueLogged | src/VulkanBackend.cpp:613-616 | For non-null candidates the error is logged iff filtering leaves every candidate null. |
| Presentation.SelectPresentQueue | src/VulkanBackend.cpp:619-637 | The method returns `PresentChoice`. |
| Presentation.FirstNonNullSpec | src/VulkanBackend.cpp:628-636 | The search returns the lowest-index non-null candidate, or null iff there is none. |
| Presentation.PresentChoiceRule | src/VulkanBackend.cpp:619-637 | The general family's candidate when it is non-null, else the lowest-index non-null candidate. Null iff all are null. |
| Presentation.PresentComputeChoice | src/VulkanBackend.cpp:639-642 | The candidate at the compute family index, with no fallback: it is one of the candidates and agrees with `PresentChoice` whenever it is non-null. On candidates with one queue per family it is a queue of the compute family. |
| Presentation.PresentQueuesAfterSetup | src/VulkanBackend.cpp:639-642 | After setup: the present queue is the first general queue. The present compute queue is the first compute queue on a compute family of its own, or family 0's candidate when compute was not requested. |
| Backend.ApplicationFor | src/VulkanBackend.cpp:27-41 | Without an `Application` section the defaults apply. Otherwise `ConfigureApplication` applies. |
| Backend.InternalRequested | src/internal/VulkanBackend.cpp:32-50 | The older variant's requested version: the default packing without a section, and none when its decoder throws. |
| Backend.Backend.constructor | src/VulkanBackend.cpp:118 | A value-initialised `Initialized`. |
| Backend.Backend.DestroyInstance | src/VulkanBackend.cpp:644-659 | The messenger and instance are nulled. Nothing else changes. |
| Backend.Backend.Shutdown | src/VulkanBackend.cpp:504-521 | The queue lists are cleared, the family indices zeroed, and every handle nulled. |
| Backend.Backend.FilterPresentQueues | src/VulkanBackend.cpp:598-617 | Candidates become `Filtered` and nothing else changes. The "no present queue" outcome holds iff no family supports the surface. |
| Backend.FilterCandidates | src/VulkanBackend.cpp:598-616 | The filtering loop with its counter yields `Filtered`, and the counter reaches zero iff no family supports the surface. |
| Backend.Backend.Establish | src/VulkanBackend.cpp:381-498 | From a fresh structure, the fields and status equal `InitializeResult` for the device plan. |
| Backend.Backend.EstablishInternal | src/internal/VulkanBackend.cpp:341-386 | The same for the features-only variant, with no queues. |
| Backend.Backend.Store | src/VulkanBackend.cpp:443-498 | The queue fields take the hand-out's values. |
| Backend.SetUpDevice | src/VulkanBackend.cpp:202-498 | Lowercasing, selection, create-infos and hand-out equal `PlanDevice`. |
| Backend.PlanOfSelection | src/VulkanBackend.cpp:224-387 | A device plan exists iff the selection picks a device, and then it is for that device and slot. |
| Backend.SelectInternal | src/internal/VulkanBackend.cpp:185-349 | The features-only selection equals `InternalPick`. |
| Backend.Initialize | src/VulkanBackend.cpp:118-502 | A fresh structure whose fields, status, enabled features and create-infos equal `InitializeResult` of the device plan. |
| Backend.InitializeInternal | src/internal/VulkanBackend.cpp:22-387 | When a version of the application section does not read (where the source's `stoi` throws), the status is `ConfigurationFailed` and the structure is fresh. Otherwise the result is `InitializeInternalResult` of the features-only pick. |
| Backend.InitializeSelectsPassingDevice | src/VulkanBackend.cpp:224-502 | A selected device reaches the requested version and has the lower-cased features, and exactly those features are enabled. Its slot is not after it. The create infos and hand-out are built from the counts and mapping of a `CheckQueueSupport` call on that slot's families that returned true. |
| Backend.InitializeSelectsByName | src/VulkanBackend.cpp:242-293 | With a preferred name, `Initialize` plans the first device of that name that passes every test, queue support included, at its own slot. |
| Backend.InitializePrefersVendor | src/VulkanBackend.cpp:336-379 | With no pick by name, when a position of the preferred-vendor list passes every test, queue support included, `Initialize` plans a device of that vendor at the first such position. |
| Backend.InitializeQueuesFit | src/VulkanBackend.cpp:441-498 | After a successful setup the family indices are in range of the slot device's families. General queues are numbered 0, 1, … The present table has one candidate per family. |
| Backend.InternalPickRule | src/internal/VulkanBackend.cpp:219-347 | The older variant selects nothing iff no device passes, and selects only a passing device. |
| Descriptors.Emplace | src/Shaders.cpp:92-99 | `emplace_back` and filling the new record appends exactly the group's record. |
| Descriptors.WriteDescriptorSets | src/Shaders.cpp:78-125 | `setCount` is the number of non-empty groups. The records are `Writes` of the three groups. |
| Descriptors.WritesShape | src/Shaders.cpp:83-122 | One record per non-empty group, in the order images, storage, uniform. Each has its own type and group, and all target the same set. |
| Descriptors.WritesPresence | src/Shaders.cpp:83-122 | A group has a record iff it is non-empty. |
| Descriptors.BindingsPartition | src/Shaders.cpp:96-120 | Below 2^32 descriptors, the ranges start at 0, lie end to end, are pairwise disjoint, and cover exactly [0, total). |

## Left out

- Driver calls are replaced by inputs: enumeration, properties, features, queue families, surface support, formats, `vkCreateDevice` and `vkGetDeviceQueue`. Instance and debug-messenger creation are parameters, and a failed creation is a null handle.
- Logging (`CoreLog*`) is not modelled. The one log line that matters, "no present-capable queues", is the boolean `FilterPresentQueues` returns.
- YAML loading, instance layers and extensions, device extensions and `SwapchainRequired` carry no decision about devices or queues. The extension lists are passed to the driver unchanged.
- Queue priorities are floats (all 0.f). Only the priority array's length is modelled (`QueueSetup.PrioritiesCover`).
- `GetDeviceMemoryProperties` and the create/destroy wrappers in the other source files are pass-throughs with no decision.
- The rest of `src/Shaders.cpp` is also a pass-through. The `vkUpdateDescriptorSets` call is replaced by returning its arguments.
- Queue-family ownership transfer has no code in the repository.
- Backend.Initialize: requires the `Device` section, because without it the source reads the uninitialised `deviceIndex`.
- Backend.Initialize: the source's exception and out-of-bounds paths end as a `SetupFailed` status with the queue fields left empty. These paths are a missing general count, the compute loop past its end, and `generalQueues[0]` with no general queue.
- Backend.Initialize: requires every device to report at least one and fewer than INT32_MAX queue families (`DeviceSelection.ValidDevices`). With no families the source indexes an empty family list.
- Backend.InitializeInternal: the `stoi` exception ends as a `ConfigurationFailed` status with a fresh structure.
- Backend.InitializeInternal: requires the `Device` section. Without it the source skips selection (`src/internal/VulkanBackend.cpp:175`) and calls `vkCreateDevice` with a null physical device and the uninitialised `enabledFeatures` (lines 173, 377, 383), an outcome decided by the driver.
- Backend.InitializeInternal: requires the same of every device (`ValidDevices`), although the older variant never reads queue families.
- QueueSupport.ClassifyQueueFamilies: requires at least one family and a general index already in range when one is handed in. A repeated call on the same device only hands back what an earlier call produced.
- QueueSupport.CheckQueueSupport: the general capacity test is left out. Nothing has been allocated when it runs, so it always passes.
- QueueSupport.CheckQueueSupport: requested counts are natural numbers. A negative YAML count and `int` overflow of the sums are not modelled.
- QueueSetup.PresentCreatesEveryFamily: requires non-negative counts. The counts only ever grow from zero.
- Configuration.VersionFromString: the regular expressions are replaced by the equivalent digit-run grammar. `stoi` overflow on very long digit runs is not modelled.
- InternalConfiguration.PieceValue: `stoi` also accepts leading white space and a sign, which here count as a failed read. Its `out_of_range` exception is not modelled.
- Presentation.GetSurfaceFormat: requires a non-empty format list, as the source's `assert` at `src/VulkanBackend.cpp:555` does.
- Presentation.SelectPresentQueue: requires `generalFamilyIndex` to be inside the candidate list. The source indexes the list there unchecked.
- Descriptors.BindingsPartition: assumes fewer than 2^32 descriptors in total. Beyond that, the `uint32_t` casts (modelled with wrap-around) break the layout.

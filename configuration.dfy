/** The configuration decoders of `Configurator` (src/YAMLConfiguration.cpp):
    version strings, the application section, the application-info packing,
    vendor names and feature names.  A YAML node is replaced by the values
    its keys hold (`None` for a missing key). */
module Configuration {

  import opened Text
  import opened Versions
  import opened VulkanTypes

  datatype Option<T> = None | Some(value: T)

  // ---------------------------------------------------------------------
  // Version strings

  /** The two regular expressions `[0-9]+\.[0-9]+\.[0-9]+` and
      `[0-9]+\.[0-9]+`, matched against the whole string: two or three
      non-empty digit runs separated by single dots. */
  predicate IsVersionFormat(s: string)
  {
    var parts := SplitDots(s);
    (|parts| == 2 || |parts| == 3) && forall i :: 0 <= i < |parts| ==> IsDigits(parts[i])
  }

  /** What `VersionFromString` returns: (0,0,0) for a string of the wrong
      format, otherwise the numbers between the dots, with patch 0 when
      there are only two. */
  function ParseVersion(s: string): Version
  {
    if !IsVersionFormat(s) then Version(0, 0, 0)
    else
      var parts := SplitDots(s);
      Version(DecimalValue(parts[0]), DecimalValue(parts[1]),
              if |parts| == 3 then DecimalValue(parts[2]) else 0)
  }

  /** The values of the successive maximal digit runs of `s`, in order:
      what repeated `regex_search` for `[0-9]+` on the remaining suffix
      collects. */
  function DigitRuns(s: string): seq<int>
    decreases |s|
  {
    if s == [] then []
    else if !IsDigit(s[0]) then DigitRuns(s[1..])
    else
      var n := RunLength(s);
      [DecimalValue(s[..n])] + DigitRuns(s[n..])
  }

  /** Index of the first digit of `s`, or `|s|` when there is none: where
      `regex_search` for `[0-9]+` finds its match. */
  function FirstDigitIndex(s: string): (i: nat)
    ensures i <= |s|
    ensures i < |s| ==> IsDigit(s[i])
    ensures forall k :: 0 <= k < i ==> !IsDigit(s[k])
  {
    if s == [] then 0 else if IsDigit(s[0]) then 0 else 1 + FirstDigitIndex(s[1..])
  }

  function Values(parts: seq<string>): (r: seq<int>)
    ensures |r| == |parts|
    ensures forall i :: 0 <= i < |parts| ==> r[i] == DecimalValue(parts[i])
  {
    if parts == [] then [] else [DecimalValue(parts[0])] + Values(parts[1..])
  }

  /** Skipping non-digits does not change the runs that remain. */
  lemma {:induction false} DigitRunsSkip(s: string, k: nat)
    requires k <= |s|
    requires forall j :: 0 <= j < k ==> !IsDigit(s[j])
    ensures DigitRuns(s) == DigitRuns(s[k..])
    decreases k
  {
    if k > 0 {
      assert s[1..][k - 1..] == s[k..];
      DigitRunsSkip(s[1..], k - 1);
    }
  }

  /** A digit run followed by a dot contributes its value, and the dot is
      skipped. */
  lemma DigitRunsDigitsThenDot(p: string, rest: string)
    requires IsDigits(p)
    ensures DigitRuns(p + "." + rest) == [DecimalValue(p)] + DigitRuns(rest)
  {
    var s := p + "." + rest;
    assert s == p + ("." + rest);
    RunLengthOfDigits(p, "." + rest);
    assert s[..|p|] == p;
    assert s[|p|..] == "." + rest;
    assert ("." + rest)[1..] == rest;
  }

  /** A lone digit run contributes its value. */
  lemma DigitRunsOfDigits(p: string)
    requires IsDigits(p)
    ensures DigitRuns(p) == [DecimalValue(p)]
  {
    RunLengthOfDigits(p, []);
    assert p + [] == p;
    assert p[..|p|] == p;
    assert p[|p|..] == [];
  }

  /** When every piece between the dots is a digit run, the digit runs are
      exactly those pieces. */
  lemma {:induction false} DigitRunsOfPieces(s: string)
    requires forall i :: 0 <= i < |SplitDots(s)| ==> IsDigits(SplitDots(s)[i])
    ensures DigitRuns(s) == Values(SplitDots(s))
    decreases |s|
  {
    var i := FirstIndex(s, '.');
    if i == |s| {
      assert SplitDots(s) == [s];
      DigitRunsOfDigits(s);
    } else {
      var p, rest := s[..i], s[i + 1..];
      assert s == p + "." + rest;
      assert SplitDots(s) == [p] + SplitDots(rest);
      assert IsDigits(p) by {
        assert SplitDots(s)[0] == p;
      }
      assert forall j :: 0 <= j < |SplitDots(rest)| ==> IsDigits(SplitDots(rest)[j]) by {
        assert forall j :: 0 <= j < |SplitDots(rest)| ==> SplitDots(rest)[j] == SplitDots(s)[j + 1];
      }
      DigitRunsDigitsThenDot(p, rest);
      DigitRunsOfPieces(rest);
    }
  }

  /** `Configurator::VersionFromString`: rejects a string that is not of
      the form N.N.N or N.N with (0,0,0), otherwise collects the digit runs
      one `regex_search` at a time and uses the first two or three. */
  method VersionFromString(version: string) returns (v: Version)
    ensures v == ParseVersion(version)
    ensures !IsVersionFormat(version) ==> v == Version(0, 0, 0)
  {
    if !IsVersionFormat(version) {
      // The original logs "Wrong version format." here.
      return Version(0, 0, 0);
    }
    var versionParts: seq<int> := [];
    var versionMutable := version;
    while FirstDigitIndex(versionMutable) < |versionMutable|
      invariant versionParts + DigitRuns(versionMutable) == DigitRuns(version)
      decreases |versionMutable|
    {
      var start := FirstDigitIndex(versionMutable);
      var found := versionMutable[start..];
      var len := RunLength(found);
      DigitRunsSkip(versionMutable, start);
      versionParts := versionParts + [DecimalValue(found[..len])];
      versionMutable := found[len..];
    }
    DigitRunsSkip(versionMutable, |versionMutable|);
    assert versionMutable[|versionMutable|..] == [];
    DigitRunsOfPieces(version);
    v := Version(versionParts[0], versionParts[1], if |versionParts| > 2 then versionParts[2] else 0);
  }

  /** The string "a.b.c" that `"%d.%d.%d"` prints. */
  function FormatVersion(a: nat, b: nat, c: nat): string
  {
    Decimal(a) + "." + (Decimal(b) + "." + Decimal(c))
  }

  lemma DigitsHaveNoDot(p: string)
    requires IsDigits(p)
    ensures '.' !in p
  {
    assert forall k :: 0 <= k < |p| ==> p[k] != '.';
  }

  /** Parsing a string whose pieces are two or three digit runs. */
  lemma ParsePieces(s: string, pieces: seq<string>)
    requires SplitDots(s) == pieces
    requires |pieces| == 2 || |pieces| == 3
    requires forall i :: 0 <= i < |pieces| ==> IsDigits(pieces[i])
    ensures IsVersionFormat(s)
    ensures ParseVersion(s) == Version(DecimalValue(pieces[0]), DecimalValue(pieces[1]),
                                       if |pieces| == 3 then DecimalValue(pieces[2]) else 0)
  {
  }

  /** Three digit runs joined by dots parse to their values. */
  lemma ParseThreePieces(p1: string, p2: string, p3: string)
    requires IsDigits(p1) && IsDigits(p2) && IsDigits(p3)
    ensures IsVersionFormat(p1 + "." + (p2 + "." + p3))
    ensures ParseVersion(p1 + "." + (p2 + "." + p3)) == Version(DecimalValue(p1), DecimalValue(p2), DecimalValue(p3))
  {
    var s := p1 + "." + (p2 + "." + p3);
    assert SplitDots(s) == [p1, p2, p3] by {
      DigitsHaveNoDot(p1);
      DigitsHaveNoDot(p2);
      DigitsHaveNoDot(p3);
      SplitDotsCons(p2, p3);
      SplitDotsSingle(p3);
      SplitDotsCons(p1, p2 + "." + p3);
    }
    ParsePieces(s, [p1, p2, p3]);
  }

  /** Two digit runs joined by a dot parse with patch 0. */
  lemma ParseTwoPieces(p1: string, p2: string)
    requires IsDigits(p1) && IsDigits(p2)
    ensures IsVersionFormat(p1 + "." + p2)
    ensures ParseVersion(p1 + "." + p2) == Version(DecimalValue(p1), DecimalValue(p2), 0)
  {
    assert SplitDots(p1 + "." + p2) == [p1, p2] by {
      DigitsHaveNoDot(p1);
      DigitsHaveNoDot(p2);
      SplitDotsCons(p1, p2);
      SplitDotsSingle(p2);
    }
    ParsePieces(p1 + "." + p2, [p1, p2]);
  }

  /** Round trip: parsing the printed form of three naturals gives them
      back. */
  lemma ParseFormatRoundTrip(a: nat, b: nat, c: nat)
    ensures IsVersionFormat(FormatVersion(a, b, c))
    ensures ParseVersion(FormatVersion(a, b, c)) == Version(a, b, c)
  {
    DecimalRoundTrip(a);
    DecimalRoundTrip(b);
    DecimalRoundTrip(c);
    ParseThreePieces(Decimal(a), Decimal(b), Decimal(c));
  }

  /** The two-component form "a.b" parses with patch 0. */
  lemma ParseMajorMinor(a: nat, b: nat)
    ensures IsVersionFormat(Decimal(a) + "." + Decimal(b))
    ensures ParseVersion(Decimal(a) + "." + Decimal(b)) == Version(a, b, 0)
  {
    DecimalRoundTrip(a);
    DecimalRoundTrip(b);
    ParseTwoPieces(Decimal(a), Decimal(b));
  }

  /** Four dot-separated pieces are rejected, whatever they hold. */
  lemma ParseRejectsFourParts(p1: string, p2: string, p3: string, p4: string)
    requires '.' !in p1 && '.' !in p2 && '.' !in p3 && '.' !in p4
    ensures ParseVersion(p1 + "." + p2 + "." + p3 + "." + p4) == Version(0, 0, 0)
  {
    var s := p1 + "." + (p2 + "." + (p3 + "." + p4));
    assert |SplitDots(s)| == 4 by {
      SplitDotsCons(p3, p4);
      SplitDotsSingle(p4);
      SplitDotsCons(p2, p3 + "." + p4);
      SplitDotsCons(p1, p2 + "." + (p3 + "." + p4));
    }
    assert ParseVersion(s) == Version(0, 0, 0);
    assert p1 + "." + p2 + "." + p3 + "." + p4 == s;
  }

  /** A string without a dot is rejected. */
  lemma ParseRejectsNoDot(p: string)
    requires '.' !in p
    ensures ParseVersion(p) == Version(0, 0, 0)
  {
    SplitDotsSingle(p);
  }

  // ---------------------------------------------------------------------
  // The application section

  /** The keys of the `Application` section of the configuration file. */
  datatype ApplicationData = ApplicationData(
    vulkanVersion: Option<string>,
    name: Option<string>,
    version: Option<string>,
    engineName: Option<string>,
    engineVersion: Option<string>)

  datatype ApplicationInfo = ApplicationInfo(
    vulkanVersion: Version,
    applicationName: string,
    applicationVersion: Version,
    engineName: string,
    engineVersion: Version)

  /** The packed `VkApplicationInfo` fields. */
  datatype VulkanApplicationInfo = VulkanApplicationInfo(
    apiVersion: Word,
    applicationName: string,
    applicationVersion: Word,
    engineName: string,
    engineVersion: Word)

  /** `Configurator::ConfigureApplication`: each field takes the value of
      its key when the key is present (versions through `VersionFromString`),
      and otherwise the default of `Configurator::Constants`. */
  function ConfigureApplication(data: ApplicationData): (info: ApplicationInfo)
    ensures data.vulkanVersion.None? ==> info.vulkanVersion == DefaultVulkanVersion
    ensures data.vulkanVersion.Some? ==> info.vulkanVersion == ParseVersion(data.vulkanVersion.value)
    ensures info.applicationName == if data.name.Some? then data.name.value else DefaultName
    ensures data.version.None? ==> info.applicationVersion == DefaultVersion
    ensures data.version.Some? ==> info.applicationVersion == ParseVersion(data.version.value)
    ensures info.engineName == if data.engineName.Some? then data.engineName.value else DefaultName
    ensures data.engineVersion.None? ==> info.engineVersion == DefaultVersion
    ensures data.engineVersion.Some? ==> info.engineVersion == ParseVersion(data.engineVersion.value)
  {
    ApplicationInfo(
      if data.vulkanVersion.Some? then ParseVersion(data.vulkanVersion.value) else DefaultVulkanVersion,
      if data.name.Some? then data.name.value else DefaultName,
      if data.version.Some? then ParseVersion(data.version.value) else DefaultVersion,
      if data.engineName.Some? then data.engineName.value else DefaultName,
      if data.engineVersion.Some? then ParseVersion(data.engineVersion.value) else DefaultVersion)
  }

  /** `Configurator::GetVulkanApplicationInfo`: the three versions are
      packed with `Version::Make`, so each in-range component can be read
      back with the `VK_API_VERSION_*` decoders; the names pass through. */
  function GetVulkanApplicationInfo(info: ApplicationInfo): (r: VulkanApplicationInfo)
    ensures r.applicationName == info.applicationName && r.engineName == info.engineName
    ensures InRange(info.vulkanVersion) ==>
      ApiMajor(r.apiVersion) == info.vulkanVersion.major
      && ApiMinor(r.apiVersion) == info.vulkanVersion.minor
      && ApiPatch(r.apiVersion) == info.vulkanVersion.patch
    ensures InRange(info.applicationVersion) ==>
      ApiMajor(r.applicationVersion) == info.applicationVersion.major
      && ApiMinor(r.applicationVersion) == info.applicationVersion.minor
      && ApiPatch(r.applicationVersion) == info.applicationVersion.patch
    ensures InRange(info.engineVersion) ==>
      ApiMajor(r.engineVersion) == info.engineVersion.major
      && ApiMinor(r.engineVersion) == info.engineVersion.minor
      && ApiPatch(r.engineVersion) == info.engineVersion.patch
  {
    DecodeMake(info.vulkanVersion);
    DecodeMake(info.applicationVersion);
    DecodeMake(info.engineVersion);
    VulkanApplicationInfo(
      Make(info.vulkanVersion), info.applicationName,
      Make(info.applicationVersion), info.engineName,
      Make(info.engineVersion))
  }

  /** End to end: without a `vulkan-version` key the requested API version
      is 1.2.0 (0x402000); with the key "a.b.c" (in range) it is the packing
      of (a, b, c), and the selectors' `>=` on it is the lexicographic
      order of versions. */
  lemma RequestedApiVersion(data: ApplicationData, a: nat, b: nat, c: nat, device: Version)
    ensures data.vulkanVersion.None? ==>
      GetVulkanApplicationInfo(ConfigureApplication(data)).apiVersion == 0x402000
    ensures data.vulkanVersion == Some(FormatVersion(a, b, c)) && a < 128 && b < 1024 && c < 4096 && InRange(device) ==>
      ((Make(device) >= GetVulkanApplicationInfo(ConfigureApplication(data)).apiVersion)
       <==> LexGe(device, Version(a, b, c)))
  {
    DefaultVersionsPacked();
    if data.vulkanVersion == Some(FormatVersion(a, b, c)) && a < 128 && b < 1024 && c < 4096 && InRange(device) {
      ParseFormatRoundTrip(a, b, c);
      MakeMonotone(device, Version(a, b, c));
    }
  }

  // ---------------------------------------------------------------------
  // Vendor names

  /** The vendor names `VendorIdFromString` knows, in lower case. */
  const VendorNames: set<string> := {
    "amd", "advanced micro devices", "imgtec", "imagination technologies",
    "nvda", "nvidia", "arm", "arm holdings", "qualcomm", "intel" }

  /** The PCI vendor id of a lower-case vendor name, 0 when unknown. */
  function VendorId(nameLower: string): (id: Word)
    ensures id != 0 <==> nameLower in VendorNames
    ensures id in {0, 0x1002, 0x1010, 0x10DE, 0x13B5, 0x5143, 0x8086}
  {
    if nameLower == "amd" || nameLower == "advanced micro devices" then 0x1002
    else if nameLower == "imgtec" || nameLower == "imagination technologies" then 0x1010
    else if nameLower == "nvda" || nameLower == "nvidia" then 0x10DE
    else if nameLower == "arm" || nameLower == "arm holdings" then 0x13B5
    else if nameLower == "qualcomm" then 0x5143
    else if nameLower == "intel" then 0x8086
    else 0
  }

  /** `Configurator::VendorIdFromString`: lowercases the name character by
      character, then looks it up. */
  method VendorIdFromString(name: string) returns (id: Word)
    ensures id == VendorId(ToLower(name))
    ensures id != 0 <==> ToLower(name) in VendorNames
  {
    var nameLower: seq<char> := seq(|name|, _ => '\0');
    var c := 0;
    while c < |name|
      invariant 0 <= c <= |name| && |nameLower| == |name|
      invariant forall k :: 0 <= k < c ==> nameLower[k] == LowerChar(name[k])
    {
      nameLower := nameLower[c := LowerChar(name[c])];
      c := c + 1;
    }
    assert nameLower == ToLower(name);
    id := VendorId(nameLower);
  }

  /** Every alias of a vendor, in any letter case, maps to that vendor's
      id and nothing else does: for every name, the id after lowercasing is
      a vendor's id exactly when the lowercased name is one of that
      vendor's aliases.  Two spellings that differ only in letter case get
      the same id. */
  lemma VendorAliases(name: string, other: string)
    ensures var l := ToLower(name);
            var id := VendorId(l);
            (id == 0x1002 <==> l == "amd" || l == "advanced micro devices")
            && (id == 0x1010 <==> l == "imgtec" || l == "imagination technologies")
            && (id == 0x10DE <==> l == "nvda" || l == "nvidia")
            && (id == 0x13B5 <==> l == "arm" || l == "arm holdings")
            && (id == 0x5143 <==> l == "qualcomm")
            && (id == 0x8086 <==> l == "intel")
            && (id == 0 <==> l !in VendorNames)
    ensures ToLower(name) == ToLower(other) ==> VendorId(ToLower(name)) == VendorId(ToLower(other))
  {
  }

  /** Instances of `VendorAliases` in mixed and upper case. */
  lemma VendorSpellings()
    ensures VendorId(ToLower("AMD")) == VendorId("advanced micro devices") == 0x1002
    ensures VendorId(ToLower("ImgTec")) == VendorId("imagination technologies") == 0x1010
    ensures VendorId(ToLower("NVDA")) == VendorId(ToLower("NVIDIA")) == 0x10DE
    ensures VendorId(ToLower("ARM")) == VendorId("arm holdings") == 0x13B5
    ensures VendorId(ToLower("Qualcomm")) == 0x5143
    ensures VendorId(ToLower("Intel")) == 0x8086
  {
    assert ToLower("AMD") == "amd";
    assert ToLower("ImgTec") == "imgtec";
    assert ToLower("NVDA") == "nvda";
    assert ToLower("NVIDIA") == "nvidia";
    assert ToLower("ARM") == "arm";
    assert ToLower("Qualcomm") == "qualcomm";
    assert ToLower("Intel") == "intel";
  }

  // ---------------------------------------------------------------------
  // Feature names

  /** The feature names backed by a `VkPhysicalDeviceFeatures` member. */
  const KnownFeatures: set<string> := {
    "geometry shader", "sparse binding", "tessellation shader", "wide lines", "int64", "float64" }

  /** The device bit a known feature name stands for. */
  function FeatureBit(f: DeviceFeatures, name: string): bool
    requires name in KnownFeatures
  {
    if name == "geometry shader" then f.geometryShader
    else if name == "sparse binding" then f.sparseBinding
    else if name == "tessellation shader" then f.tessellationShader
    else if name == "wide lines" then f.wideLines
    else if name == "int64" then f.shaderInt64
    else f.shaderFloat64
  }

  predicate RequiresDiscrete(required: seq<string>)
  {
    "dedicated" in required || "discrete" in required
  }

  /** `Configurator::CheckFeaturesPresent`: fails exactly when "dedicated"
      or "discrete" is required of a device that is not a discrete GPU, or
      when a known feature is required and its device bit is not set.
      Unknown names are ignored. */
  function CheckFeaturesPresent(features: DeviceFeatures, deviceType: DeviceType, required: seq<string>): (ok: bool)
    ensures ok <==>
      (RequiresDiscrete(required) ==> deviceType == DiscreteGpu)
      && forall name :: name in required && name in KnownFeatures ==> FeatureBit(features, name)
  {
    if RequiresDiscrete(required) && deviceType != DiscreteGpu then false
    else if "geometry shader" in required && !features.geometryShader then false
    else if "sparse binding" in required && !features.sparseBinding then false
    else if "tessellation shader" in required && !features.tessellationShader then false
    else if "wide lines" in required && !features.wideLines then false
    else if "int64" in required && !features.shaderInt64 then false
    else if "float64" in required && !features.shaderFloat64 then false
    else true
  }

  /** `Configurator::FeaturesFromString`: sets exactly the bits of the known
      names that are required; "dedicated" and "discrete" set nothing. */
  function FeaturesFromString(required: seq<string>): (f: DeviceFeatures)
    ensures forall name :: name in KnownFeatures ==> (FeatureBit(f, name) <==> name in required)
  {
    DeviceFeatures(
      "geometry shader" in required,
      "sparse binding" in required,
      "tessellation shader" in required,
      "wide lines" in required,
      "int64" in required,
      "float64" in required)
  }

  /** A discrete device that has exactly the features decoded from a list
      passes the check of that list; an empty list passes on any device. */
  lemma DecodedFeaturesPass(required: seq<string>, features: DeviceFeatures, t: DeviceType)
    ensures CheckFeaturesPresent(FeaturesFromString(required), DiscreteGpu, required)
    ensures CheckFeaturesPresent(features, t, [])
  {
  }

  /** Appending an unknown name changes nothing. */
  lemma UnknownFeatureIgnored(features: DeviceFeatures, t: DeviceType, required: seq<string>, name: string)
    requires name !in KnownFeatures && name != "dedicated" && name != "discrete"
    ensures CheckFeaturesPresent(features, t, required + [name]) == CheckFeaturesPresent(features, t, required)
  {
    assert forall n :: n in required + [name] <==> n in required || n == name;
  }
}

/** The configuration decoder of `src/internal/YAMLConfiguration.cpp`, used
    by the `Initialize` of `src/internal`: a version string is cut at its
    first two dots with `find`/`substr` and each piece read with
    `std::stoi`, without any format check.  The application section is
    filled as in `src/YAMLConfiguration.cpp`, but through this parser. */
module InternalConfiguration {

  import opened Text
  import opened Versions
  import opened Configuration

  /** `find('.')` and the two `substr` calls around it: the piece before the
      first dot and the rest after it.  Without a dot `find` returns `npos`;
      `npos + 1` wraps to 0 and `length() - npos - 1` to `length()`, so the
      rest is the whole string once more. */
  function CutAtDot(s: string): (r: (string, string))
    ensures '.' in s ==> s == r.0 + "." + r.1 && '.' !in r.0
    ensures '.' !in s ==> r == (s, s)
  {
    var i := FirstIndex(s, '.');
    if i == |s| then (s, s)
    else
      assert s == s[..i] + "." + s[i + 1..];
      (s[..i], s[i + 1..])
  }

  /** `std::stoi` on one piece: the value of its leading digit run, and no
      value where `stoi` throws `std::invalid_argument` because the piece
      does not start with a digit. */
  function PieceValue(piece: string): (r: Option<int>)
    ensures r.Some? <==> |piece| > 0 && IsDigit(piece[0])
    ensures IsDigits(piece) ==> r == Some(DecimalValue(piece))
  {
    if |piece| > 0 && IsDigit(piece[0]) then
      if IsDigits(piece) then
        RunLengthOfDigits(piece, []);
        assert piece + [] == piece;
        Some(Stoi(piece))
      else Some(Stoi(piece))
    else None
  }

  /** `Configurator::VersionFromString` of `src/internal`: major is the
      text before the first dot, minor the text between the first two dots
      and patch the text after the second; no value when `stoi` throws on
      one of them.  A piece reads when it starts with a digit.  Without a
      dot, `find` gives `npos` and `npos + 1` wraps to 0, so all three
      pieces are the whole text and a version reads as (n, n, n). */
  function VersionFromString(version: string): (r: Option<Version>)
    ensures var (majorString, rest) := CutAtDot(version);
            var (minorString, patchString) := CutAtDot(rest);
            r.Some? <==> (|majorString| > 0 && IsDigit(majorString[0])
                          && |minorString| > 0 && IsDigit(minorString[0])
                          && |patchString| > 0 && IsDigit(patchString[0]))
    ensures '.' !in version ==>
              (r.Some? <==> |version| > 0 && IsDigit(version[0]))
              && (r.Some? ==> r.value.major == r.value.minor == r.value.patch)
  {
    var (majorString, rest) := CutAtDot(version);
    var (minorString, patchString) := CutAtDot(rest);
    var major := PieceValue(majorString);
    var minor := PieceValue(minorString);
    var patch := PieceValue(patchString);
    if major.Some? && minor.Some? && patch.Some? then Some(Version(major.value, minor.value, patch.value))
    else None
  }

  /** "a.b.c" with digit pieces reads as (a, b, c). */
  lemma VersionOfThreePieces(a: string, b: string, c: string)
    requires IsDigits(a) && IsDigits(b) && IsDigits(c)
    ensures VersionFromString(a + "." + (b + "." + c))
            == Some(Version(DecimalValue(a), DecimalValue(b), DecimalValue(c)))
  {
    DigitsHaveNoDot(a);
    DigitsHaveNoDot(b);
    DigitsHaveNoDot(c);
    CutPieces(a, b + "." + c);
    CutPieces(b, c);
  }

  /** "a.b" reads as (a, b, b): without a second dot the patch text is the
      minor text again. */
  lemma VersionOfTwoPieces(a: string, b: string)
    requires IsDigits(a) && IsDigits(b)
    ensures VersionFromString(a + "." + b) == Some(Version(DecimalValue(a), DecimalValue(b), DecimalValue(b)))
  {
    DigitsHaveNoDot(a);
    DigitsHaveNoDot(b);
    CutPieces(a, b);
  }

  /** A plain number "a" reads as (a, a, a). */
  lemma VersionOfOnePiece(a: string)
    requires IsDigits(a)
    ensures VersionFromString(a) == Some(Version(DecimalValue(a), DecimalValue(a), DecimalValue(a)))
  {
    DigitsHaveNoDot(a);
  }

  /** Text after a third dot is ignored: `stoi` stops at the dot that
      follows the patch digits. */
  lemma VersionIgnoresFourthPiece(a: string, b: string, c: string, d: string)
    requires IsDigits(a) && IsDigits(b) && IsDigits(c)
    ensures VersionFromString(a + "." + (b + "." + (c + "." + d)))
            == Some(Version(DecimalValue(a), DecimalValue(b), DecimalValue(c)))
  {
    DigitsHaveNoDot(a);
    DigitsHaveNoDot(b);
    var p := c + "." + d;
    CutPieces(a, b + "." + p);
    CutPieces(b, p);
    PatchIgnoresRest(c, d);
    assert PieceValue(a) == Some(DecimalValue(a)) && PieceValue(b) == Some(DecimalValue(b));
  }

  /** `stoi` on "c.d" reads the digits of `c` only. */
  lemma PatchIgnoresRest(c: string, d: string)
    requires IsDigits(c)
    ensures PieceValue(c + "." + d) == Some(DecimalValue(c))
  {
    var p := c + "." + d;
    assert p == c + ("." + d);
    RunLengthOfDigits(c, "." + d);
    assert p[..|c|] == c;
  }

  /** An empty string, a leading dot or a dot with nothing after it makes
      `stoi` throw. */
  lemma VersionRejectsEmptyPiece(a: string)
    ensures VersionFromString("") == None
    ensures VersionFromString("." + a) == None
    ensures IsDigits(a) ==> VersionFromString(a + ".") == None
  {
    var s := "." + a;
    assert FirstIndex(s, '.') == 0;
    if IsDigits(a) {
      DigitsHaveNoDot(a);
      CutPieces(a, "");
    }
  }

  /** Printing a version as "a.b.c" and reading it back is the identity. */
  lemma FormatRoundTrip(a: nat, b: nat, c: nat)
    ensures VersionFromString(FormatVersion(a, b, c)) == Some(Version(a, b, c))
  {
    DecimalRoundTrip(a);
    DecimalRoundTrip(b);
    DecimalRoundTrip(c);
    VersionOfThreePieces(Decimal(a), Decimal(b), Decimal(c));
  }

  lemma CutPieces(p: string, rest: string)
    requires '.' !in p
    ensures CutAtDot(p + "." + rest) == (p, rest)
  {
    var s := p + "." + rest;
    assert FirstIndex(s, '.') == |p| by {
      assert s[|p|] == '.';
      assert forall k :: 0 <= k < |p| ==> s[k] == p[k];
    }
    assert s[..|p|] == p;
    assert s[|p| + 1..] == rest;
  }

  // ---------------------------------------------------------------------
  // The application section

  /** A version key that is present but does not read. */
  predicate Unreadable(key: Option<string>)
  {
    key.Some? && VersionFromString(key.value).None?
  }

  function VersionOr(key: Option<string>, default: Version): Option<Version>
  {
    if key.Some? then VersionFromString(key.value) else Some(default)
  }

  /** `Configurator::ConfigureApplication` of `src/internal`: the same
      defaults as the other decoder, and no result when `stoi` throws on a
      present version key. */
  function ConfigureApplication(data: ApplicationData): (info: Option<ApplicationInfo>)
    ensures info.None? <==> Unreadable(data.vulkanVersion) || Unreadable(data.version) || Unreadable(data.engineVersion)
    ensures info.Some? ==>
      info.value.applicationName == (if data.name.Some? then data.name.value else DefaultName)
      && info.value.engineName == (if data.engineName.Some? then data.engineName.value else DefaultName)
    ensures info.Some? ==>
      (data.vulkanVersion.None? ==> info.value.vulkanVersion == DefaultVulkanVersion)
      && (data.vulkanVersion.Some? ==> VersionFromString(data.vulkanVersion.value) == Some(info.value.vulkanVersion))
      && (data.version.None? ==> info.value.applicationVersion == DefaultVersion)
      && (data.version.Some? ==> VersionFromString(data.version.value) == Some(info.value.applicationVersion))
      && (data.engineVersion.None? ==> info.value.engineVersion == DefaultVersion)
      && (data.engineVersion.Some? ==> VersionFromString(data.engineVersion.value) == Some(info.value.engineVersion))
  {
    var vulkanVersion := VersionOr(data.vulkanVersion, DefaultVulkanVersion);
    var applicationVersion := VersionOr(data.version, DefaultVersion);
    var engineVersion := VersionOr(data.engineVersion, DefaultVersion);
    if vulkanVersion.Some? && applicationVersion.Some? && engineVersion.Some? then
      Some(ApplicationInfo(
        vulkanVersion.value,
        if data.name.Some? then data.name.value else DefaultName,
        applicationVersion.value,
        if data.engineName.Some? then data.engineName.value else DefaultName,
        engineVersion.value))
    else None
  }

  /** The API version this decoder requests: 1.2.0 without a
      `vulkan-version` key, the packing of (a, b, c) for "a.b.c" and of
      (a, b, b) for "a.b" (the `GetVulkanApplicationInfo` of `src/internal`
      packs with `Version::Make` like the other one). */
  lemma RequestedApiVersion(data: ApplicationData, a: nat, b: nat, c: nat)
    requires !Unreadable(data.version) && !Unreadable(data.engineVersion)
    ensures var info := ConfigureApplication(data);
      data.vulkanVersion.None? ==> info.Some? && GetVulkanApplicationInfo(info.value).apiVersion == 0x402000
    ensures var info := ConfigureApplication(data);
      data.vulkanVersion == Some(FormatVersion(a, b, c)) ==>
        info.Some? && GetVulkanApplicationInfo(info.value).apiVersion == Make(Version(a, b, c))
    ensures var info := ConfigureApplication(data);
      data.vulkanVersion == Some(Decimal(a) + "." + Decimal(b)) ==>
        info.Some? && GetVulkanApplicationInfo(info.value).apiVersion == Make(Version(a, b, b))
  {
    DefaultVersionsPacked();
    FormatRoundTrip(a, b, c);
    DecimalRoundTrip(a);
    DecimalRoundTrip(b);
    VersionOfTwoPieces(Decimal(a), Decimal(b));
  }
}

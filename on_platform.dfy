/** Services/Tr1ppy.Services.Attributes/OnPlatformAttribute.cs: the
    `SupportedOSPlatform` flags (a 32-bit enum), their translation into
    operating-system platforms, and the platform check of `[OnPlatform]`. */
module OnPlatform {
  import HashSets

  const WindowsFlag: bv32 := 1
  const LinuxFlag: bv32 := 2
  const MacOSFlag: bv32 := 4
  /** `All = ~0`. */
  const AllFlags: bv32 := 0xFFFF_FFFF

  /** The platforms `RuntimeInformation.IsOSPlatform` is asked about, and any other. */
  datatype OSPlatform = Windows | Linux | OSX | OtherPlatform

  /** `Enum.HasFlag`. */
  predicate HasFlag(v: bv32, flag: bv32) {
    v & flag == flag
  }

  /** Only the all-ones value has every bit of `All`. */
  lemma HasAllIff(v: bv32)
    ensures HasFlag(v, AllFlags) <==> v == AllFlags
  {
  }

  /** `ToOSPlatforms` as written: the Windows bit yields OSX. */
  function ToOSPlatformsAsWritten(v: bv32): (r: seq<OSPlatform>)
    ensures |r| <= 3
    ensures Windows in r <==> v == AllFlags
  {
    HasAllIff(v);
    if HasFlag(v, AllFlags) then [Windows, Linux, OSX]
    else
      (if HasFlag(v, WindowsFlag) then [OSX] else [])
      + (if HasFlag(v, LinuxFlag) then [Linux] else [])
      + (if HasFlag(v, MacOSFlag) then [OSX] else [])
  }

  /** The flag a platform is enabled by. */
  function FlagOf(p: OSPlatform): bv32
    requires p != OtherPlatform
  {
    match p
    case Windows => WindowsFlag
    case Linux => LinuxFlag
    case OSX => MacOSFlag
  }

  /** `ToOSPlatforms` with the Windows bit yielding Windows, as the enum's
      documentation says: every platform whose bit is set, once each, in
      enum order, and all three for `All`. */
  function ToOSPlatforms(v: bv32): (r: seq<OSPlatform>)
    ensures v == AllFlags ==> r == [Windows, Linux, OSX]
    ensures forall p :: p in r <==> p != OtherPlatform && (v == AllFlags || HasFlag(v, FlagOf(p)))
    ensures HashSets.NoDuplicates(r)
  {
    HasAllIff(v);
    if HasFlag(v, AllFlags) then
      assert forall p :: p in [Windows, Linux, OSX] <==> p != OtherPlatform;
      [Windows, Linux, OSX]
    else
      (if HasFlag(v, WindowsFlag) then [Windows] else [])
      + (if HasFlag(v, LinuxFlag) then [Linux] else [])
      + (if HasFlag(v, MacOSFlag) then [OSX] else [])
  }

  /** The two translations differ only in what the Windows bit yields. */
  lemma AsWrittenDiffersOnlyOnWindows(v: bv32)
    ensures v != AllFlags ==>
      ToOSPlatformsAsWritten(v) == seq(|ToOSPlatforms(v)|, k requires 0 <= k < |ToOSPlatforms(v)| =>
        if ToOSPlatforms(v)[k] == Windows then OSX else ToOSPlatforms(v)[k])
  {
    HasAllIff(v);
  }

  /** `Windows | Linux | MacOS` is not `All`, and goes through the per-bit branch. */
  lemma ThreeFlagsAreNotAll()
    ensures WindowsFlag | LinuxFlag | MacOSFlag != AllFlags
    ensures ToOSPlatforms(WindowsFlag | LinuxFlag | MacOSFlag) == [Windows, Linux, OSX]
    ensures ToOSPlatformsAsWritten(WindowsFlag | LinuxFlag | MacOSFlag) == [OSX, Linux, OSX]
  {
    HasAllIff(7);
    assert HasFlag(7, WindowsFlag) && HasFlag(7, LinuxFlag) && HasFlag(7, MacOSFlag);
  }

  /** `[OnPlatform(platform)]`: the constructor stores the flags unchanged. */
  datatype OnPlatformAttribute = OnPlatformAttribute(platform: bv32)
  {
    /** `IsSupportByCurrentPlatform` on the running platform, with the
        translation as written: an unknown platform is never supported; with
        `All` every known one is; otherwise Linux needs its own bit, macOS
        either the macOS or the Windows bit, and Windows is never supported. */
    predicate IsSupportByCurrentPlatform(running: OSPlatform)
      ensures IsSupportByCurrentPlatform(running) <==>
        && running != OtherPlatform
        && (|| platform == AllFlags
            || (running == Linux && HasFlag(platform, LinuxFlag))
            || (running == OSX && (HasFlag(platform, WindowsFlag) || HasFlag(platform, MacOSFlag))))
    {
      HasAllIff(platform);
      running != OtherPlatform && running in ToOSPlatformsAsWritten(platform)
    }

    /** The platform check with the corrected translation: an unknown
        platform is never supported, and a known one exactly when its bit (or
        `All`) is set. */
    predicate IsSupportByCurrentPlatformCorrected(running: OSPlatform)
      ensures IsSupportByCurrentPlatformCorrected(running) <==>
        running != OtherPlatform && (platform == AllFlags || HasFlag(platform, FlagOf(running)))
    {
      running != OtherPlatform && running in ToOSPlatforms(platform)
    }
  }

  /** As written, a service marked `[OnPlatform(Windows)]` is reported as
      supported on macOS and not on Windows. */
  lemma WindowsOnlyServiceAsWritten()
    ensures !OnPlatformAttribute(WindowsFlag).IsSupportByCurrentPlatform(Windows)
    ensures OnPlatformAttribute(WindowsFlag).IsSupportByCurrentPlatform(OSX)
    ensures ToOSPlatformsAsWritten(WindowsFlag | MacOSFlag) == [OSX, OSX]
  {
    HasAllIff(WindowsFlag);
    HasAllIff(WindowsFlag | MacOSFlag);
    assert !HasFlag(WindowsFlag, LinuxFlag) && !HasFlag(WindowsFlag, MacOSFlag);
    assert HasFlag(5, WindowsFlag) && !HasFlag(5, LinuxFlag) && HasFlag(5, MacOSFlag);
  }

  /** With the correction, `[OnPlatform(Windows)]` holds on Windows only. */
  lemma WindowsOnlyServiceCorrected(running: OSPlatform)
    ensures OnPlatformAttribute(WindowsFlag).IsSupportByCurrentPlatformCorrected(running) <==> running == Windows
  {
    assert !HasFlag(WindowsFlag, LinuxFlag) && !HasFlag(WindowsFlag, MacOSFlag);
  }
}

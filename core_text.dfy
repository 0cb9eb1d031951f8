/**
  The text and buffer utilities of the engine core: the flag-to-text builders, the pixel-format name
  table, the wide-string ASCII test and the buffer swap.

  The flag and pixel-format constants are declared in headers that are not part of this model; their
  values here are the published Unreal Engine 3 ones.
*/
module CoreText {
  import opened Common

  // ---------------------------------------------------------------------------------------------
  // Flag names

  /** One `if (flags & MASK) s += "Name, ";` line of a flag-to-text builder. */
  datatype FlagName = FlagName(mask: bv64, name: string)

  /** The object-flag lines of `ObjectFlagsToString`, in source order, with their repeated lines. */
  const OBJECT_FLAGS: seq<FlagName> := [
    FlagName(0x2, "InSingularFunc"),
    FlagName(0x4, "StateChanged"),
    FlagName(0x8, "DebugPostLoad"),
    FlagName(0x10, "DebugSerialize"),
    FlagName(0x20, "DebugFinishDestroyed"),
    FlagName(0x40, "EdSelected"),
    FlagName(0x80, "ZombieComponent"),
    FlagName(0x100, "Protected"),
    FlagName(0x200, "ClassDefaultObject"),
    FlagName(0x400, "ArchetypeObject"),
    FlagName(0x800, "ForceTagExp"),
    FlagName(0x1000, "TokenStreamAssembled"),
    FlagName(0x2000, "MisalignedObject"),
    FlagName(0x4000, "RootSet"),
    FlagName(0x8000, "BeginDestroyed"),
    FlagName(0x1_0000, "FinishDestroyed"),
    FlagName(0x2_0000, "DebugBeginDestroyed"),
    FlagName(0x4_0000, "MarkedByCooker"),
    FlagName(0x8_0000, "LocalizedResource"),
    FlagName(0x10_0000, "InitializedProps"),
    FlagName(0x20_0000, "PendingFieldPatches"),
    FlagName(0x40_0000, "IsCrossLevelReferenced"),
    FlagName(0x2_0000, "DebugBeginDestroyed"),
    FlagName(0x8000_0000, "Saved"),
    FlagName(0x1_0000_0000, "Transactional"),
    FlagName(0x2_0000_0000, "Unreachable"),
    FlagName(0x4_0000_0000, "Public"),
    FlagName(0x8_0000_0000, "TagImp"),
    FlagName(0x10_0000_0000, "TagExp"),
    FlagName(0x20_0000_0000, "Obsolete"),
    FlagName(0x40_0000_0000, "TagGarbage"),
    FlagName(0x80_0000_0000, "DisregardForGC"),
    FlagName(0x100_0000_0000, "PerObjectLocalized"),
    FlagName(0x200_0000_0000, "NeedLoad"),
    FlagName(0x400_0000_0000, "AsyncLoading"),
    FlagName(0x800_0000_0000, "NeedPostLoadSubobjects"),
    FlagName(0x1000_0000_0000, "Suppress"),
    FlagName(0x2000_0000_0000, "InEndState"),
    FlagName(0x4000_0000_0000, "Transient"),
    FlagName(0x8000_0000_0000, "Cooked"),
    FlagName(0x1_0000_0000_0000, "LoadForClient"),
    FlagName(0x2_0000_0000_0000, "LoadForServer"),
    FlagName(0x4_0000_0000_0000, "LoadForEdit"),
    FlagName(0x8_0000_0000_0000, "Standalone"),
    FlagName(0x10_0000_0000_0000, "NotForClient"),
    FlagName(0x20_0000_0000_0000, "NotForServer"),
    FlagName(0x40_0000_0000_0000, "NotForEdit"),
    FlagName(0x100_0000_0000_0000, "NeedPostLoad"),
    FlagName(0x200_0000_0000_0000, "HasStack"),
    FlagName(0x400_0000_0000_0000, "Native"),
    FlagName(0x800_0000_0000_0000, "Marked"),
    FlagName(0x1000_0000_0000_0000, "ErrorShutdown"),
    FlagName(0x40_0000_0000_0000, "NotForEdit"),
    FlagName(0x2000_0000_0000_0000, "PendingKill")
  ]

  const EXPORT_FLAGS: seq<FlagName> := [
    FlagName(0x1, "ForcedExport"),
    FlagName(0x2, "ScriptPatcherExport"),
    FlagName(0x4, "MemberFieldPatchPending")
  ]

  const PKG_NoExportAllowed: bv64 := 0x2000_0000
  const PKG_StrippedSource: bv64 := 0x4000_0000

  /** The package-flag lines of `PackageFlagsToString` as written: the last line tests `PKG_NoExportAllowed` again. */
  const PACKAGE_FLAGS: seq<FlagName> := PACKAGE_FLAGS_COMMON + [
    FlagName(PKG_NoExportAllowed, "NoExportAllowed"),
    FlagName(PKG_NoExportAllowed, "StrippedSource")
  ]

  /** The package-flag lines with the last one testing the flag it names. */
  const PACKAGE_FLAGS_INTENDED: seq<FlagName> := PACKAGE_FLAGS_COMMON + [
    FlagName(PKG_NoExportAllowed, "NoExportAllowed"),
    FlagName(PKG_StrippedSource, "StrippedSource")
  ]

  const PACKAGE_FLAGS_COMMON: seq<FlagName> := [
    FlagName(0x1, "AllowDownload"),
    FlagName(0x2, "ClientOptional"),
    FlagName(0x4, "ServerSideOnly"),
    FlagName(0x8, "Cooked"),
    FlagName(0x10, "Unsecure"),
    FlagName(0x20, "SavedWithNewerVersion"),
    FlagName(0x8000, "Need"),
    FlagName(0x1_0000, "Compiling"),
    FlagName(0x2_0000, "ContainsMap"),
    FlagName(0x4_0000, "Trash"),
    FlagName(0x8_0000, "DisallowLazyLoading"),
    FlagName(0x10_0000, "PlayInEditor"),
    FlagName(0x20_0000, "ContainsScript"),
    FlagName(0x40_0000, "ContainsDebugInfo"),
    FlagName(0x80_0000, "RequireImportsAlreadyLoaded"),
    FlagName(0x100_0000, "SelfContainedLighting"),
    FlagName(0x200_0000, "StoreCompressed"),
    FlagName(0x400_0000, "StoreFullyCompressed"),
    FlagName(0x800_0000, "ContainsInlinedShaders"),
    FlagName(0x1000_0000, "ContainsFaceFXData")
  ]

  /** `flags & mask` is non-zero: the C++ `if` takes the line. */
  predicate Meets(flags: bv64, mask: bv64)
  {
    flags & mask != 0
  }

  /** The names of the lines whose mask meets `flags`, in table order. */
  function SetNames(flags: bv64, table: seq<FlagName>): (names: seq<string>)
    ensures |names| <= |table|
  {
    if table == [] then []
    else
      var last := table[|table| - 1];
      SetNames(flags, table[..|table| - 1]) + (if Meets(flags, last.mask) then [last.name] else [])
  }

  /** The names separated by ", ". */
  function Join(names: seq<string>): string
  {
    if names == [] then ""
    else if |names| == 1 then names[0]
    else Join(names[..|names| - 1]) + ", " + names[|names| - 1]
  }

  /** Each name followed by ", ": the string before the trailing separator is cut. */
  function Listed(names: seq<string>): string
  {
    if names == [] then "" else Listed(names[..|names| - 1]) + names[|names| - 1] + ", "
  }

  lemma {:induction false} ListedIsJoined(names: seq<string>)
    requires names != []
    ensures Listed(names) == Join(names) + ", "
  {
    if |names| > 1 {
      var init := names[..|names| - 1];
      ListedIsJoined(init);
    } else {
      assert names[..0] == [];
    }
  }

  /**
    A flag-to-text builder: append "Name, " for every line whose mask meets the flags, then cut the
    trailing separator when anything was appended.
  */
  method FlagsToString(flags: bv64, table: seq<FlagName>) returns (s: string)
    ensures s == Join(SetNames(flags, table))
  {
    s := "";
    for i := 0 to |table|
      invariant s == Listed(SetNames(flags, table[..i]))
    {
      assert table[..i + 1][..i] == table[..i];
      ghost var before := SetNames(flags, table[..i]);
      if Meets(flags, table[i].mask) {
        assert SetNames(flags, table[..i + 1]) == before + [table[i].name];
        assert (before + [table[i].name])[..|before|] == before;
        s := s + table[i].name + ", ";
      } else {
        assert SetNames(flags, table[..i + 1]) == before;
      }
    }
    assert table[..|table|] == table;
    var names := SetNames(flags, table);
    if |s| > 0 {
      ListedIsJoined(names);
      s := s[..|s| - 2];
    } else if names != [] {
      ListedIsJoined(names);
      assert false;
    }
  }

  method ObjectFlagsToString(expFlag: bv64) returns (s: string)
    ensures s == Join(SetNames(expFlag, OBJECT_FLAGS))
  {
    s := FlagsToString(expFlag, OBJECT_FLAGS);
  }

  method ExportFlagsToString(flags: bv32) returns (s: string)
    ensures s == Join(SetNames(flags as bv64, EXPORT_FLAGS))
  {
    s := FlagsToString(flags as bv64, EXPORT_FLAGS);
  }

  method PackageFlagsToString(flags: bv32) returns (s: string)
    ensures s == Join(SetNames(flags as bv64, PACKAGE_FLAGS))
  {
    s := FlagsToString(flags as bv64, PACKAGE_FLAGS);
  }

  /** `PackageFlagsToString` with its last line testing `PKG_StrippedSource`. */
  method PackageFlagsToStringIntended(flags: bv32) returns (s: string)
    ensures s == Join(SetNames(flags as bv64, PACKAGE_FLAGS_INTENDED))
  {
    s := FlagsToString(flags as bv64, PACKAGE_FLAGS_INTENDED);
  }

  /** A name is listed exactly when some line carrying it has its mask set. */
  lemma {:induction false} SetNamesMembership(flags: bv64, table: seq<FlagName>, name: string)
    ensures name in SetNames(flags, table) <==> HasSetLine(flags, table, name)
  {
    if table != [] {
      var n := |table| - 1;
      var init := table[..n];
      SetNamesMembership(flags, init, name);
      assert SetNames(flags, table) == SetNames(flags, init) + (if Meets(flags, table[n].mask) then [table[n].name] else []);
      if HasSetLine(flags, init, name) {
        var i :| 0 <= i < |init| && init[i].name == name && Meets(flags, init[i].mask);
        assert table[i] == init[i];
      }
      if HasSetLine(flags, table, name) {
        var i :| 0 <= i < |table| && table[i].name == name && Meets(flags, table[i].mask);
        if i < n {
          assert init[i] == table[i];
        }
      }
    }
  }

  /** Some line of the table names `name` and has its mask set in `flags`. */
  ghost predicate HasSetLine(flags: bv64, table: seq<FlagName>, name: string)
  {
    exists i :: 0 <= i < |table| && table[i].name == name && Meets(flags, table[i].mask)
  }

  /** Joining non-empty names gives the empty string only for no names. */
  lemma {:induction false} JoinEmptyIff(names: seq<string>)
    requires forall i :: 0 <= i < |names| ==> names[i] != ""
    ensures Join(names) == "" <==> names == []
  {
    if |names| > 1 {
      JoinEmptyIff(names[..|names| - 1]);
    }
  }

  /** The text is empty exactly when no line of the table has its mask set. */
  lemma FlagsTextEmptyIff(flags: bv64, table: seq<FlagName>)
    requires forall i :: 0 <= i < |table| ==> table[i].name != ""
    ensures Join(SetNames(flags, table)) == "" <==> forall i :: 0 <= i < |table| ==> !Meets(flags, table[i].mask)
  {
    var names := SetNames(flags, table);
    SetNamesNonEmpty(flags, table);
    JoinEmptyIff(names);
    if names != [] {
      SetNamesMembership(flags, table, names[0]);
    }
    if exists i :: 0 <= i < |table| && Meets(flags, table[i].mask) {
      var i :| 0 <= i < |table| && Meets(flags, table[i].mask);
      SetNamesMembership(flags, table, table[i].name);
    }
    if names != [] {
      var i :| 0 <= i < |table| && table[i].name == names[0] && Meets(flags, table[i].mask);
    }
  }

  lemma {:induction false} SetNamesNonEmpty(flags: bv64, table: seq<FlagName>)
    requires forall i :: 0 <= i < |table| ==> table[i].name != ""
    ensures forall i :: 0 <= i < |SetNames(flags, table)| ==> SetNames(flags, table)[i] != ""
  {
    if table != [] {
      SetNamesNonEmpty(flags, table[..|table| - 1]);
    }
  }

  /** Collecting names distributes over splitting the table. */
  lemma {:induction false} SetNamesAppend(flags: bv64, a: seq<FlagName>, b: seq<FlagName>)
    ensures SetNames(flags, a + b) == SetNames(flags, a) + SetNames(flags, b)
  {
    if b != [] {
      var n := |b| - 1;
      assert (a + b)[..|a + b| - 1] == a + b[..n];
      SetNamesAppend(flags, a, b[..n]);
    } else {
      assert a + b == a;
    }
  }

  /** Names come out in table order: when lines i < j are both set, line i's name is listed before line j's. */
  lemma SetNamesInOrder(flags: bv64, table: seq<FlagName>, i: nat, j: nat)
    requires i < j < |table|
    requires Meets(flags, table[i].mask) && Meets(flags, table[j].mask)
    ensures exists p, q :: 0 <= p < q < |SetNames(flags, table)|
              && SetNames(flags, table)[p] == table[i].name && SetNames(flags, table)[q] == table[j].name
  {
    var before := SetNames(flags, table[..i]);
    var between := SetNames(flags, table[i + 1..j]);
    var after := SetNames(flags, table[j + 1..]);
    assert SetNames(flags, [table[i]]) == [table[i].name] by {
      assert [table[i]][..0] == [];
    }
    assert SetNames(flags, [table[j]]) == [table[j].name] by {
      assert [table[j]][..0] == [];
    }
    var upToI := table[..i] + [table[i]];
    var belowJ := upToI + table[i + 1..j];
    var upToJ := belowJ + [table[j]];
    assert upToJ == table[..j + 1];
    assert table == upToJ + table[j + 1..];
    SetNamesAppend(flags, table[..i], [table[i]]);
    var namesI := before + [table[i].name];
    assert SetNames(flags, upToI) == namesI;
    SetNamesAppend(flags, upToI, table[i + 1..j]);
    var namesBelowJ := namesI + between;
    assert SetNames(flags, belowJ) == namesBelowJ;
    SetNamesAppend(flags, belowJ, [table[j]]);
    var namesJ := namesBelowJ + [table[j].name];
    assert SetNames(flags, upToJ) == namesJ;
    SetNamesAppend(flags, upToJ, table[j + 1..]);
    var names := namesJ + after;
    assert SetNames(flags, table) == names;
    var p, q := |before|, |namesBelowJ|;
    assert names[p] == namesI[p] == table[i].name;
    assert names[q] == namesJ[q] == table[j].name;
  }

  /** `ObjectFlagsToString` names RF_DebugBeginDestroyed and RF_NotForEdit twice each, since each is tested on two lines. */
  lemma ObjectFlagsRepeatNames(expFlag: bv64)
    ensures Meets(expFlag, 0x2_0000) ==>
              exists p, q :: 0 <= p < q < |SetNames(expFlag, OBJECT_FLAGS)|
                && SetNames(expFlag, OBJECT_FLAGS)[p] == "DebugBeginDestroyed" && SetNames(expFlag, OBJECT_FLAGS)[q] == "DebugBeginDestroyed"
    ensures Meets(expFlag, 0x40_0000_0000_0000) ==>
              exists p, q :: 0 <= p < q < |SetNames(expFlag, OBJECT_FLAGS)|
                && SetNames(expFlag, OBJECT_FLAGS)[p] == "NotForEdit" && SetNames(expFlag, OBJECT_FLAGS)[q] == "NotForEdit"
  {
    if Meets(expFlag, 0x2_0000) {
      SetNamesInOrder(expFlag, OBJECT_FLAGS, 16, 22);
    }
    if Meets(expFlag, 0x40_0000_0000_0000) {
      SetNamesInOrder(expFlag, OBJECT_FLAGS, 46, 52);
    }
  }

  /**
    As written, `PackageFlagsToString` reports "StrippedSource" exactly when PKG_NoExportAllowed is set,
    so PKG_StrippedSource alone gives the empty string.
  */
  lemma PackageStrippedSourceAsWritten(flags: bv32)
    ensures "StrippedSource" in SetNames(flags as bv64, PACKAGE_FLAGS) <==> Meets(flags as bv64, PKG_NoExportAllowed)
    ensures Join(SetNames(PKG_StrippedSource, PACKAGE_FLAGS)) == ""
  {
    SetNamesMembership(flags as bv64, PACKAGE_FLAGS, "StrippedSource");
    if Meets(flags as bv64, PKG_NoExportAllowed) {
      assert PACKAGE_FLAGS[21].name == "StrippedSource";
    }
    FlagsTextEmptyIff(PKG_StrippedSource, PACKAGE_FLAGS);
  }

  /** With the intended last line, "StrippedSource" is reported exactly when PKG_StrippedSource is set. */
  lemma PackageStrippedSourceIntended(flags: bv32)
    ensures "StrippedSource" in SetNames(flags as bv64, PACKAGE_FLAGS_INTENDED) <==> Meets(flags as bv64, PKG_StrippedSource)
    ensures "NoExportAllowed" in SetNames(flags as bv64, PACKAGE_FLAGS_INTENDED) <==> Meets(flags as bv64, PKG_NoExportAllowed)
  {
    SetNamesMembership(flags as bv64, PACKAGE_FLAGS_INTENDED, "StrippedSource");
    SetNamesMembership(flags as bv64, PACKAGE_FLAGS_INTENDED, "NoExportAllowed");
    assert PACKAGE_FLAGS_INTENDED[21].name == "StrippedSource";
    assert PACKAGE_FLAGS_INTENDED[20].name == "NoExportAllowed";
  }

  // ---------------------------------------------------------------------------------------------
  // Pixel formats

  /** `EPixelFormat`, in declaration order. */
  const PF_Unknown: u32 := 0
  const PF_A32B32G32R32F: u32 := 1
  const PF_A8R8G8B8: u32 := 2
  const PF_G8: u32 := 3
  const PF_G16: u32 := 4
  const PF_DXT1: u32 := 5
  const PF_DXT3: u32 := 6
  const PF_DXT5: u32 := 7
  const PF_UYVY: u32 := 8
  const PF_FloatRGB: u32 := 9
  const PF_FloatRGBA: u32 := 10
  const PF_DepthStencil: u32 := 11
  const PF_ShadowDepth: u32 := 12
  const PF_FilteredShadowDepth: u32 := 13
  const PF_R32F: u32 := 14
  const PF_G16R16: u32 := 15
  const PF_G16R16F: u32 := 16
  const PF_G16R16F_FILTER: u32 := 17
  const PF_G32R32F: u32 := 18
  const PF_A2B10G10R10: u32 := 19
  const PF_A16B16G16R16: u32 := 20
  const PF_D24: u32 := 21
  const PF_R16F: u32 := 22
  const PF_R16F_FILTER: u32 := 23
  const PF_BC5: u32 := 24
  const PF_V8U8: u32 := 25
  const PF_A1: u32 := 26
  const PF_FloatR11G11B10: u32 := 27

  /** The name of a pixel format; every value without a case of its own is "PF_Unknown". */
  function PixelFormatToString(pf: u32): (name: string)
    ensures |name| > 3 && name[..3] == "PF_"
    ensures name == "PF_Unknown" <==> !(PF_A32B32G32R32F <= pf <= PF_FloatR11G11B10)
  {
    if pf == PF_DXT1 then "PF_DXT1"
    else if pf == PF_DXT5 then "PF_DXT5"
    else if pf == PF_A8R8G8B8 then "PF_A8R8G8B8"
    else if pf == PF_A32B32G32R32F then "PF_A32B32G32R32F"
    else if pf == PF_G8 then "PF_G8"
    else if pf == PF_G16 then "PF_G16"
    else if pf == PF_DXT3 then "PF_DXT3"
    else if pf == PF_UYVY then "PF_UYVY"
    else if pf == PF_FloatRGB then "PF_FloatRGB"
    else if pf == PF_FloatRGBA then "PF_FloatRGBA"
    else if pf == PF_DepthStencil then "PF_DepthStencil"
    else if pf == PF_ShadowDepth then "PF_ShadowDepth"
    else if pf == PF_FilteredShadowDepth then "PF_FilteredShadowDepth"
    else if pf == PF_R32F then "PF_R32F"
    else if pf == PF_G16R16 then "PF_G16R16"
    else if pf == PF_G16R16F then "PF_G16R16F"
    else if pf == PF_G16R16F_FILTER then "PF_G16R16F_FILTER"
    else if pf == PF_G32R32F then "PF_G32R32F"
    else if pf == PF_A2B10G10R10 then "PF_A2B10G10R10"
    else if pf == PF_A16B16G16R16 then "PF_A16B16G16R16"
    else if pf == PF_D24 then "PF_D24"
    else if pf == PF_R16F then "PF_R16F"
    else if pf == PF_R16F_FILTER then "PF_R16F_FILTER"
    else if pf == PF_BC5 then "PF_BC5"
    else if pf == PF_V8U8 then "PF_V8U8"
    else if pf == PF_A1 then "PF_A1"
    else if pf == PF_FloatR11G11B10 then "PF_FloatR11G11B10"
    else "PF_Unknown"
  }

  /** The pixel format a name denotes, if it is the name of a known format. */
  function PixelFormatFromName(name: string): Option<u32>
  {
    if name == "PF_A32B32G32R32F" then Some(PF_A32B32G32R32F)
    else if name == "PF_A8R8G8B8" then Some(PF_A8R8G8B8)
    else if name == "PF_G8" then Some(PF_G8)
    else if name == "PF_G16" then Some(PF_G16)
    else if name == "PF_DXT1" then Some(PF_DXT1)
    else if name == "PF_DXT3" then Some(PF_DXT3)
    else if name == "PF_DXT5" then Some(PF_DXT5)
    else if name == "PF_UYVY" then Some(PF_UYVY)
    else if name == "PF_FloatRGB" then Some(PF_FloatRGB)
    else if name == "PF_FloatRGBA" then Some(PF_FloatRGBA)
    else if name == "PF_DepthStencil" then Some(PF_DepthStencil)
    else if name == "PF_ShadowDepth" then Some(PF_ShadowDepth)
    else if name == "PF_FilteredShadowDepth" then Some(PF_FilteredShadowDepth)
    else if name == "PF_R32F" then Some(PF_R32F)
    else if name == "PF_G16R16" then Some(PF_G16R16)
    else if name == "PF_G16R16F" then Some(PF_G16R16F)
    else if name == "PF_G16R16F_FILTER" then Some(PF_G16R16F_FILTER)
    else if name == "PF_G32R32F" then Some(PF_G32R32F)
    else if name == "PF_A2B10G10R10" then Some(PF_A2B10G10R10)
    else if name == "PF_A16B16G16R16" then Some(PF_A16B16G16R16)
    else if name == "PF_D24" then Some(PF_D24)
    else if name == "PF_R16F" then Some(PF_R16F)
    else if name == "PF_R16F_FILTER" then Some(PF_R16F_FILTER)
    else if name == "PF_BC5" then Some(PF_BC5)
    else if name == "PF_V8U8" then Some(PF_V8U8)
    else if name == "PF_A1" then Some(PF_A1)
    else if name == "PF_FloatR11G11B10" then Some(PF_FloatR11G11B10)
    else None
  }

  /** Every known format's name reads back as that format. */
  lemma PixelFormatNameRoundTrip(pf: u32)
    requires PF_A32B32G32R32F <= pf <= PF_FloatR11G11B10
    ensures PixelFormatFromName(PixelFormatToString(pf)) == Some(pf)
  {
    if pf <= PF_DXT5 {
      NamesReadBack1(pf);
    } else if pf <= PF_FilteredShadowDepth {
      NamesReadBack2(pf);
    } else if pf <= PF_G32R32F {
      NamesReadBack3(pf);
    } else if pf <= PF_D24 {
      NamesReadBack4(pf);
    } else if pf <= PF_BC5 {
      NamesReadBack5(pf);
    } else {
      NamesReadBack6(pf);
    }
  }

  /** The round trip, a few formats at a time. */
  lemma NamesReadBack1(pf: u32)
    requires PF_A32B32G32R32F <= pf <= PF_DXT5
    ensures PixelFormatFromName(PixelFormatToString(pf)) == Some(pf)
  {
  }

  lemma NamesReadBack2(pf: u32)
    requires PF_DXT5 < pf <= PF_FilteredShadowDepth
    ensures PixelFormatFromName(PixelFormatToString(pf)) == Some(pf)
  {
  }

  lemma NamesReadBack3(pf: u32)
    requires PF_FilteredShadowDepth < pf <= PF_G32R32F
    ensures PixelFormatFromName(PixelFormatToString(pf)) == Some(pf)
  {
  }

  lemma NamesReadBack4(pf: u32)
    requires PF_G32R32F < pf <= PF_D24
    ensures PixelFormatFromName(PixelFormatToString(pf)) == Some(pf)
  {
  }

  lemma NamesReadBack5(pf: u32)
    requires PF_D24 < pf <= PF_BC5
    ensures PixelFormatFromName(PixelFormatToString(pf)) == Some(pf)
  {
  }

  lemma NamesReadBack6(pf: u32)
    requires PF_BC5 < pf <= PF_FloatR11G11B10
    ensures PixelFormatFromName(PixelFormatToString(pf)) == Some(pf)
  {
  }

  /** "PF_Unknown" is the name of exactly the values outside the known range, PF_Unknown itself included. */
  lemma PixelFormatUnknownIff(pf: u32)
    ensures PixelFormatToString(pf) == "PF_Unknown" <==> !(PF_A32B32G32R32F <= pf <= PF_FloatR11G11B10)
    ensures PixelFormatFromName("PF_Unknown") == None
  {
  }

  // ---------------------------------------------------------------------------------------------
  // Wide strings and buffers

  /** A Windows `wchar_t`: an unsigned 16-bit code unit. */
  type wchar = x: int | 0 <= x < 0x1_0000

  ghost predicate AllAnsi(str: seq<wchar>)
  {
    forall i :: 0 <= i < |str| ==> str[i] <= 127
  }

  /** `IsAnsi(const std::wstring&)`: scan the code units and stop at the first one above 127. */
  method IsAnsi(str: seq<wchar>) returns (r: bool)
    ensures r <==> AllAnsi(str)
  {
    for i := 0 to |str|
      invariant forall j :: 0 <= j < i ==> str[j] <= 127
    {
      if str[i] > 127 {
        return false;
      }
    }
    return true;
  }

  /**
    `memswap`: exchange the first `size` bytes of two buffers through a temporary copy. The copies are
    `memcpy`, which demands that the two buffers do not overlap.
  */
  method MemSwap(a: array<byte>, b: array<byte>, size: nat)
    requires size <= a.Length && size <= b.Length
    requires size > 0 ==> a != b
    modifies a, b
    ensures a[..size] == old(b[..size]) && b[..size] == old(a[..size])
    ensures a[size..] == old(a[size..]) && b[size..] == old(b[size..])
  {
    if size == 0 {
      return;
    }
    var tmp := new byte[size];
    for i := 0 to size
      invariant forall j :: 0 <= j < i ==> tmp[j] == a[j]
      modifies tmp
    {
      tmp[i] := a[i];
    }
    for i := 0 to size
      invariant forall j :: 0 <= j < i ==> a[j] == b[j]
      invariant forall j :: i <= j < a.Length ==> a[j] == old(a[j])
      modifies a
    {
      a[i] := b[i];
    }
    for i := 0 to size
      invariant forall j :: 0 <= j < i ==> b[j] == tmp[j]
      invariant forall j :: i <= j < b.Length ==> b[j] == old(b[j])
      modifies b
    {
      b[i] := tmp[i];
    }
  }
}

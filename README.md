# RealEditor core, modelled in Dafny

This project models three parts of RealEditor, an editor for Unreal Engine 3 packages of the game Tera.

- **Package decompression** (`Unreal/Tera/Core.cpp`).
  - `LZO::Decompress` reads the 16-byte prologue of a compressed chunk. It fills a table of block descriptors with running `uint32` offsets, then decodes the blocks one after another and stops at the first block that fails.
  - The single-shot `Decompress` and `DecompressMemory` are modelled too.
  - The LZO codec itself is a parameter: a function that returns a status code and the bytes it produced.
- **Text and buffer utilities** (`Unreal/Tera/Core.cpp`). These are the object, export and package flag-to-text builders, `PixelFormatToString`, the wide-string `IsAnsi` and `memswap`.
- **Bulk import** (`App/Misc/BulkImportOperation.cpp`). `BulkImportOperation::Execute` runs in four phases:
  1. Acquire and load the package of every enabled entry, listing each package once.
  2. Stop with "Nothing to do!" when no package was loaded.
  3. Import a texture, sound or raw-data file into each entry's object, or redirect the object to another package.
  4. Save every listed package and release it.
  
  The package store, the objects, the texture processor, the file system and the save routine are foreign. Their answers are the fields of a `World` value. Package acquisitions are counted in a multiset, so that "every acquisition is released" can be stated.
- **The log** (`Unreal/Tera/ALog.cpp`). `ALog` is an append-only list of entries that log windows drain with a cursor. The model also covers:
  - the lazily created shared logger reached through a global pointer;
  - the remembered window position and size;
  - `FVectorToPoint`.

The files:

| file | module | contents |
|---|---|---|
| `common.dfy` | `Common` | bytes, `uint32` wrap-around, `Option`/`Result`/`Outcome`, prefix sums, ASCII lower-casing |
| `lzo.dfy` | `Lzo` | the chunk format, `LZO::Decompress` as methods over arrays, its specification function and the layout/contents lemmas |
| `core_text.dfy` | `CoreText` | the flag tables, the flag-to-text builder loop, pixel-format names, `IsAnsi`, `memswap` |
| `alog.dfy` | `ALogging` | the `ALog` class, the `LogGlobals` class holding the shared-logger pointer, `FVectorToPoint` |
| `bulk_spec.dfy` | `BulkImportSpec` | the run as functions over a `State` value: one function per entry step, a fold per phase, `Execute` |
| `bulk_props.dfy` | `BulkImportProperties` | what the run guarantees, proved about the specification functions |
| `bulk_import.dfy` | `BulkImport` | the `BulkImportOperation` class; each method is proved equal to its specification function |

## Model

| member | source | states |
|---|---|---|
| Lzo.BlockCountIsCeiling | Unreal/Tera/Core.cpp:211 | The block count is the ceiling of the decompressed size over the block size: enough blocks to cover it, and not one more. It is zero exactly when the decompressed size is zero. |
| Lzo.FirstFailureFrom | Unreal/Tera/Core.cpp:256-264 | Gives the index of the first block, from a start index on, that the decoder rejects; the table length means none is rejected. Every block before it decodes with `LZO_E_OK`. |
| Lzo.DescriptorStep | Unreal/Tera/Core.cpp:227-241 | One pass of the table loop in `uint32` arithmetic. It yields descriptor i (source offset past the header and size pairs, sizes read from pair i), and running offsets equal to the wrapped prefix sums of the sizes. |
| Lzo.BuildBlockTable | Unreal/Tera/Core.cpp:227-241 | Fills a fresh array with exactly the descriptor table that the prologue and the size pairs define. |
| Lzo.WriteBlock | Unreal/Tera/Core.cpp:259 | The decoder's output lands at the block's destination offset, and no other byte changes. |
| Lzo.DecodeOne | Unreal/Tera/Core.cpp:258-263 | Hands one block's compressed bytes to the decoder, with the block's decompressed size as capacity, and writes the output at the block's offset. |
| Lzo.DecodeBlocks | Unreal/Tera/Core.cpp:256-264 | Decodes the blocks in order, up to and including the first that fails. The result is `CorruptBlock` with that block's code, or `Pass` when every block decodes. |
| Lzo.Decompress | Unreal/Tera/Core.cpp:198-268 | A bad magic fails with `BadMagic` and writes nothing. Otherwise the result and the destination are the specification's: the init check, then the block-size check, then the table, then the ordered decode. |
| Lzo.DecompressWhole | Unreal/Tera/Core.cpp:270-280 | The single-shot decode succeeds exactly when the decoder returns `LZO_E_OK`. The destination keeps its size: the decoded bytes are written at its start, and the bytes past them are left as they were, on success and on failure. |
| Lzo.WholeDecodeFills | Unreal/Tera/Core.cpp:270-280 | When the decoder produces as many bytes as the destination holds, the destination afterwards is exactly the decoded output. |
| Lzo.DecompressMemory | Unreal/Tera/Core.cpp:282-303 | When the low nibble of the flags selects LZO, the result is the single-shot decode into the destination. zlib, LZX and unknown codecs fail and leave the destination unchanged. It succeeds exactly when the codec is LZO and the decoder returns `LZO_E_OK`. |
| Lzo.DecompressMemoryIgnoresHighBits | Unreal/Tera/Core.cpp:282-303 | Only the codec nibble of the flags matters: the flags and the flags masked to that nibble give the same result. |
| Lzo.TableOffsets | Unreal/Tera/Core.cpp:227-241 | Without wrap-around, block i's source offset is the end of the size pairs plus the compressed sizes before it. Its destination offset is the sum of the decompressed sizes before it. |
| Lzo.TableTiling | Unreal/Tera/Core.cpp:227-241 | Without wrap-around, the blocks tile both buffers. The first starts right after the size pairs (output offset 0), each starts where the previous one ends, and the last ends at the total. |
| Lzo.TableCovers | Unreal/Tera/Core.cpp:227-241 | Without wrap-around, every output position below the total decompressed size lies in the output range of some block. |
| Lzo.TableDisjoint | Unreal/Tera/Core.cpp:227-241 | Without wrap-around, the output ranges are ascending and do not overlap. |
| Lzo.DecodedOutside | Unreal/Tera/Core.cpp:256-264 | A destination byte that no decoded block's range covers keeps its old value. |
| Lzo.DecodedInside | Unreal/Tera/Core.cpp:256-264 | When output ranges are disjoint, each byte of a decoded block's output sits at that block's offset, and later blocks do not overwrite it. |
| Lzo.DecompressPassIff | Unreal/Tera/Core.cpp:198-268 | The decode succeeds exactly when the magic matches, LZO initialises, the block size is non-zero and every block of the table decodes. |
| Lzo.PassDecodesAll | Unreal/Tera/Core.cpp:256-264 | A successful decode has decoded every block of the table. |
| Lzo.DecodedContents | Unreal/Tera/Core.cpp:256-264 | Once every block is decoded, each block's output sits at its offset, and every byte outside all output ranges is unchanged. |
| Lzo.DecompressContents | Unreal/Tera/Core.cpp:198-268 | After a successful decode without wrap-around, every block's output is at its offset and every other byte is as it was. |
| Lzo.FailureStopsAtBlock | Unreal/Tera/Core.cpp:256-264 | When block k is the first to fail, the error carries its code, and nothing past the end of its output range is touched. |
| Common.PrefixSumMonotone | Unreal/Tera/Core.cpp:235-240 | The running offsets never decrease: a longer prefix of the sizes has a sum at least as large. |
| Common.PrefixSumsCover | Unreal/Tera/Core.cpp:235-240 | Every position below the total of the sizes lies in the range of some element: at or past the sum of the sizes before it, and below that sum plus its own size. |
| CoreText.ListedIsJoined | Unreal/Tera/Core.cpp:414-418 | Appending "name, " for each name and cutting the last two characters gives the names joined by ", ". |
| CoreText.FlagsToString | Unreal/Tera/Core.cpp:305-421 | A flag-to-text builder returns the names of the set lines, in table order, joined by ", ". |
| CoreText.ObjectFlagsToString | Unreal/Tera/Core.cpp:305-421 | The object-flag text is the joined names of the set `RF_` lines, repeated lines included. |
| CoreText.ExportFlagsToString | Unreal/Tera/Core.cpp:423-443 | The export-flag text is the joined names of the set `EF_` lines. |
| CoreText.PackageFlagsToString | Unreal/Tera/Core.cpp:558-610 | The package-flag text is the joined names of the set lines, with the last line testing `PKG_NoExportAllowed` as written. |
| CoreText.PackageFlagsToStringIntended | Unreal/Tera/Core.cpp:558-610 | The same builder with the last line testing `PKG_StrippedSource`. |
| CoreText.SetNamesMembership | Unreal/Tera/Core.cpp:305-421 | A name appears in the text exactly when some line carrying that name has its mask set. |
| CoreText.JoinEmptyIff | Unreal/Tera/Core.cpp:414-418 | Joining non-empty names gives "" exactly when there are no names. |
| CoreText.FlagsTextEmptyIff | Unreal/Tera/Core.cpp:558-610 | A flag text is empty exactly when no line's mask meets the flags. |
| CoreText.SetNamesNonEmpty | Unreal/Tera/Core.cpp:305-421 | Every collected name is non-empty when the table's names are. |
| CoreText.SetNamesAppend | Unreal/Tera/Core.cpp:305-421 | Collecting names from a table split in two gives the two collections concatenated. |
| CoreText.SetNamesInOrder | Unreal/Tera/Core.cpp:305-421 | When two set lines i < j are tested, line i's name comes before line j's. |
| CoreText.ObjectFlagsRepeatNames | Unreal/Tera/Core.cpp:340-353 | `RF_DebugBeginDestroyed` and `RF_NotForEdit` are each named twice when set, because each is tested on two lines. |
| CoreText.PackageStrippedSourceAsWritten | Unreal/Tera/Core.cpp:601-604 | As written, "StrippedSource" is reported exactly when `PKG_NoExportAllowed` is set, and `PKG_StrippedSource` alone gives "". |
| CoreText.PackageStrippedSourceIntended | Unreal/Tera/Core.cpp:601-604 | With the corrected line, "StrippedSource" is reported exactly when `PKG_StrippedSource` is set, and "NoExportAllowed" exactly when `PKG_NoExportAllowed` is. |
| CoreText.PixelFormatToString | Unreal/Tera/Core.cpp:445-556 | Every name starts with "PF_". The name is "PF_Unknown" exactly for values outside the 27 known formats. |
| CoreText.PixelFormatNameRoundTrip | Unreal/Tera/Core.cpp:445-556 | Every known pixel format has a distinct name: reading the name back gives the format. |
| CoreText.PixelFormatUnknownIff | Unreal/Tera/Core.cpp:445-556 | "PF_Unknown" is returned exactly for values outside the known range. It is never the name of a known format. |
| CoreText.IsAnsi | Unreal/Tera/Core.cpp:116-126 | True exactly when every wide character is at most 127. |
| CoreText.MemSwap | Unreal/Tera/Core.cpp:185-196 | The first `size` bytes of the two buffers are exchanged, and the rest is unchanged. Size 0 changes nothing. |
| ALogging.Truncate | Unreal/Tera/ALog.cpp:11-12 | Float-to-int conversion drops the fraction, rounding toward zero on both sides. |
| ALogging.FVectorToPoint | Unreal/Tera/ALog.cpp:9-18 | The point is the vector's coordinates truncated toward zero: the (-1, -1) case that yields the default position gives the same point. |
| ALogging.FVectorToPointCoordinates | Unreal/Tera/ALog.cpp:9-18 | The point is always the truncated coordinates. It is the default position exactly when both coordinates lie in (-2, -1], that is, both truncate to -1. |
| ALogging.ALog.constructor | Unreal/Tera/ALog.cpp:79-81 | A new logger has no entries. |
| ALogging.ALog.Push | Unreal/Tera/ALog.cpp:148-159 | Appends exactly one entry at the end, and earlier entries and the config are unchanged. |
| ALogging.ALog.GetEntries | Unreal/Tera/ALog.cpp:138-146 | Appends the entries from the cursor on to the output, in order, and moves the cursor to the end. A cursor at or past the end changes nothing. The entries are never modified. |
| ALogging.ALog.InstanceSetConfig | Unreal/Tera/ALog.cpp:66-77 | Makes sure the shared logger exists, then stores position and size in this logger. Entries and an existing shared logger's identity are kept. |
| ALogging.ALog.InstanceGetConfig | Unreal/Tera/ALog.cpp:59-64 | Returns the shared logger's position and size, whichever logger it is called on. |
| ALogging.LogGlobals.SharedLog | Unreal/Tera/ALog.cpp:20-27 | Creates a logger with no entries only when the global is null. Otherwise it returns the existing one, and the global then holds the result. |
| ALogging.LogGlobals.Log | Unreal/Tera/ALog.cpp:29-32 | Pushes one entry with the given time, message and channel onto the shared logger. The stored window position and size are unchanged. |
| ALogging.LogGlobals.ILog | Unreal/Tera/ALog.cpp:34-37 | Pushes the message on the INFO channel. The stored window position and size are unchanged. |
| ALogging.LogGlobals.ELog | Unreal/Tera/ALog.cpp:39-42 | Pushes the message on the ERR channel. The stored window position and size are unchanged. |
| ALogging.LogGlobals.WLog | Unreal/Tera/ALog.cpp:44-47 | Pushes the message on the WARN channel. The stored window position and size are unchanged. |
| ALogging.LogGlobals.SetConfig | Unreal/Tera/ALog.cpp:54-57 | The shared logger exists afterwards and holds the stored position and size. An existing logger keeps its entries. |
| ALogging.LogGlobals.GetConfig | Unreal/Tera/ALog.cpp:49-52 | Returns the shared logger's position and size, creating the logger if needed. |
| ALogging.ConfigRoundTrip | Unreal/Tera/ALog.cpp:49-77 | A config stored through `SetConfig` and read back through `GetConfig` is exactly the stored one. |
| ALogging.ConfigSurvivesLogging | Unreal/Tera/ALog.cpp:29-77 | A config stored, then a message logged, then the config fetched: the fetched config is the stored one, and the logged message is the last entry. |
| ALogging.SharedLogIsStable | Unreal/Tera/ALog.cpp:20-27 | Two calls to `SharedLog` return the same logger, the one the global holds. |
| ALogging.DrainAfterPush | Unreal/Tera/ALog.cpp:138-159 | A drain after two pushes returns exactly the two pushed entries, in order. |
| BulkImportSpec.InputFormatFor | App/Misc/BulkImportOperation.cpp:228-248 | An import file has an input format exactly when its lower-cased extension is tga, png or dds. |
| BulkImportSpec.OutputFormatFor | App/Misc/BulkImportOperation.cpp:259-279 | A texture has an output format exactly when its pixel format is DXT1, DXT3, DXT5, A8R8G8B8 or G8. |
| BulkImportSpec.OutputFormatRoundTrip | App/Misc/BulkImportOperation.cpp:259-295 | The output format maps back to the texture's own pixel format, which the travaller writes. |
| BulkImportSpec.NameStart | App/Misc/BulkImportOperation.cpp:228-230 | The file name starts just past the last path separator. |
| BulkImportSpec.FileExtension | App/Misc/BulkImportOperation.cpp:228-230 | The extension contains no '.' and no path separator. A non-empty extension is the end of the file name and follows a '.' that is not the name's first character. It is empty exactly when no '.' follows the first character of the name, or the name ends with '.'. |
| BulkImportSpec.RedirectPackageNameSplits | App/Misc/BulkImportOperation.cpp:142-152 | The target package name is the dot-free part of the redirect path before its first '.'. It is empty exactly when the path has no '.' or starts with one. |
| BulkImportSpec.SavePath | App/Misc/BulkImportOperation.cpp:185-190 | The path is the output directory, then a backslash only when the directory is non-empty, does not end in a separator and is not a bare drive such as "C:", then the package name, then ".gpk"; its length is the sum of these parts. |
| BulkImportSpec.AddErr | App/Misc/BulkImportOperation.cpp:215-218 | Appends one (source, error) pair, and nothing else changes. |
| BulkImportProperties.ResolveKeeps | App/Misc/BulkImportOperation.cpp:33-73 | Phase 1 on one entry adds at most one package, and only one the list did not already contain. It keeps the acquisitions accounted for. It abandons one acquisition of the entry's package exactly when the entry is enabled, the package is found and its own `Load` throws. |
| BulkImportProperties.ResolveReports | App/Misc/BulkImportOperation.cpp:33-73 | A disabled entry changes nothing. An entry whose package is missing or does not load records exactly one error against its package name and binds nothing. An entry that loads records no error. |
| BulkImportProperties.ResolveBinds | App/Misc/BulkImportOperation.cpp:44-63 | An entry that loads is bound to its package, which is then listed; no other slot changes; the list only grows. |
| BulkImportProperties.ProcessKeeps | App/Misc/BulkImportOperation.cpp:94-177 | Phase 3 on one entry changes only errors, object writes and abandoned acquisitions. The package list is kept, and nothing is abandoned unless a call throws. |
| BulkImportProperties.ProcessReports | App/Misc/BulkImportOperation.cpp:94-123 | A disabled entry, or one without a package, changes nothing. An entry whose object cannot be read or loaded records exactly one error against its package name and changes nothing else. |
| BulkImportProperties.ActOnKeeps | App/Misc/BulkImportOperation.cpp:125-177 | Importing or redirecting keeps the list and the accounting of acquisitions. |
| BulkImportProperties.RedirectKeeps | App/Misc/BulkImportOperation.cpp:140-177 | A redirect keeps the package list. It abandons one acquisition of the target package exactly when the target is found and then its `Load`, the `GetObject` or the target object's `Load` throws. On every other path, the missing target object included, what is held is unchanged. |
| BulkImportProperties.RedirectToKeeps | App/Misc/BulkImportOperation.cpp:154-176 | For an acquired target package: one acquisition is abandoned exactly when its `Load`, the `GetObject` or the target object's `Load` throws. It is released on the success and missing-object paths. |
| BulkImportProperties.RedirectWrites | App/Misc/BulkImportOperation.cpp:140-177 | An empty package prefix records exactly (package name, "Failed to get target package!") and nothing else. A target package that is not found changes nothing. The conversion is written exactly when the target package and object are found and load, and then nothing else changes. A missing target object records exactly "Failed to get redirected object!". |
| BulkImportProperties.ImportPrecedence | App/Misc/BulkImportOperation.cpp:125-139 | An operation with an import file never redirects. It writes or reports once each at most, and never silently. |
| BulkImportProperties.TexturePlanFacts | App/Misc/BulkImportOperation.cpp:220-292 | A texture import is planned exactly when the extension and pixel format are supported. The plan reads the named file, copies sRGB and both address modes, and is a normal map exactly for the four normal-map settings. It never generates mips and keeps the texture's format. A bad extension is refused with "Can't import <extension> files". A good extension with a bad format is refused with the text naming the format. |
| BulkImportProperties.TextureImportReports | App/Misc/BulkImportOperation.cpp:220-309 | A texture import writes the texture, records an error, or both (once each at most), and changes nothing else. |
| BulkImportProperties.SoundImportReports | App/Misc/BulkImportOperation.cpp:311-355 | The same for a sound import. |
| BulkImportProperties.UntypedImportReports | App/Misc/BulkImportOperation.cpp:357-394 | The same for a raw-data import. |
| BulkImportProperties.TextureImportWrites | App/Misc/BulkImportOperation.cpp:250-308 | The texture is written exactly when the object is a texture, the import is planned and the processor succeeds. The write carries the processor's mips in the texture's own format. |
| BulkImportProperties.DataImportsWrite | App/Misc/BulkImportOperation.cpp:311-394 | Sound data and raw data are written exactly when the object has the right kind and the file is not empty. The write carries the whole file. An empty file records exactly "File is empty: " and the source path, and nothing else. |
| BulkImportProperties.EvolvesTransitive | App/Misc/BulkImportOperation.cpp:24-179 | What one run of entries keeps (saves, a duplicate-free list, the accounting) composes over consecutive runs. |
| BulkImportProperties.StepEvolves | App/Misc/BulkImportOperation.cpp:33-177 | Each entry step of phase 1 or phase 3 keeps what `Evolves` names. |
| BulkImportProperties.AccountCarries | App/Misc/BulkImportOperation.cpp:24-179 | The acquisitions stay accounted for: held = base + listed packages + abandoned ones. |
| BulkImportProperties.NoDupAppend | App/Misc/BulkImportOperation.cpp:44-63 | Appending a package not yet listed keeps the list free of duplicates. |
| BulkImportProperties.FoldEvolves | App/Misc/BulkImportOperation.cpp:24-179 | A loop of steps that each keep `Evolves` keeps it as a whole. |
| BulkImportProperties.EntryFnEvolves | App/Misc/BulkImportOperation.cpp:24-179 | The per-entry step of one operation keeps `Evolves`. |
| BulkImportProperties.OperationFnEvolves | App/Misc/BulkImportOperation.cpp:24-179 | The per-operation step of a phase keeps `Evolves`. |
| BulkImportProperties.ResolveFoldStep | App/Misc/BulkImportOperation.cpp:28-74 | One more entry of phase 1 extends the loop's result by that entry's step. |
| BulkImportProperties.ActFoldStep | App/Misc/BulkImportOperation.cpp:89-178 | One more entry of phase 3 extends the loop's result by that entry's step. |
| BulkImportProperties.OperationsEvolve | App/Misc/BulkImportOperation.cpp:24-179 | Any prefix of a phase's operations keeps `Evolves`. |
| BulkImportProperties.FoldQuietIff | App/Misc/BulkImportOperation.cpp:24-75 | A loop leaves the list empty exactly when it started empty and every element is quiet. |
| BulkImportProperties.EntryFnQuiet | App/Misc/BulkImportOperation.cpp:33-73 | A phase-1 entry leaves the list empty exactly when it was empty and the entry's package does not load. |
| BulkImportProperties.OperationFnQuiet | App/Misc/BulkImportOperation.cpp:24-75 | The same for a whole operation: it is invalid, or none of its entries loads. |
| BulkImportProperties.OperationsListIff | App/Misc/BulkImportOperation.cpp:24-81 | Phase 1 lists no package exactly when no enabled entry of a valid operation has a package that loads. |
| BulkImportProperties.SaveFnSteps | App/Misc/BulkImportOperation.cpp:185-210 | Saving one package appends one save attempt to `<dir>\<name>.gpk` and releases that package once. |
| BulkImportProperties.FoldReleases | App/Misc/BulkImportOperation.cpp:181-211 | After k saves, exactly the acquisitions of the first k packages have been released. |
| BulkImportProperties.FoldSaves | App/Misc/BulkImportOperation.cpp:181-211 | After k saves, the save log has one attempt per package of the first k, in order. |
| BulkImportProperties.SaveAllReleases | App/Misc/BulkImportOperation.cpp:181-211 | Phase 4 releases one acquisition per listed package and changes nothing that phases 1 and 3 built. |
| BulkImportProperties.SaveAllSaves | App/Misc/BulkImportOperation.cpp:181-211 | Phase 4 makes one save attempt per listed package, in list order. |
| BulkImportProperties.TailRelease | App/Misc/BulkImportOperation.cpp:209-210 | Releasing the k-th package leaves the acquisitions of the packages after it. |
| BulkImportProperties.SavePlanStep | App/Misc/BulkImportOperation.cpp:185-190 | The save plan of k packages extends that of k-1 by the k-th package's path. |
| BulkImportProperties.ResolveFacts | App/Misc/BulkImportOperation.cpp:19-75 | After phase 1, the list has no duplicates. Held acquisitions are the earlier ones plus the list plus the abandoned ones, and none is abandoned unless something throws. |
| BulkImportProperties.ActFacts | App/Misc/BulkImportOperation.cpp:87-179 | Phase 3 keeps the list and that accounting. |
| BulkImportProperties.ExecuteReleases | App/Misc/BulkImportOperation.cpp:17-213 | Every acquisition the run makes is released, except those abandoned when a `Load` or `GetObject` throws; with no throw, the held acquisitions end as they began. |
| BulkImportProperties.ExecuteSavesEachOnce | App/Misc/BulkImportOperation.cpp:17-213 | A run past the guard saves each listed package exactly once, in list order, to `<dir>\<name>.gpk`. A run stopped by the guard saves nothing. |
| BulkImportProperties.ExecuteIgnoresOldErrors | App/Misc/BulkImportOperation.cpp:19 | The run clears the error list first, so errors recorded before the run have no effect on it. |
| BulkImportProperties.ExecuteGuard | App/Misc/BulkImportOperation.cpp:77-81 | The run stops exactly when no enabled entry of a valid operation has a package that loads. It then adds only "Nothing to do!" to phase 1's errors and writes no object. |
| BulkImportProperties.GrowsTransitive | App/Misc/BulkImportOperation.cpp:44-63 | A list that only grows keeps every package it ever held. |
| BulkImportProperties.FoldBinds | App/Misc/BulkImportOperation.cpp:28-74 | After phase 1 on an operation's entries, each entry that loads is bound to its package, which is listed, and every other slot keeps its binding. |
| BulkImportProperties.OperationFnBinds | App/Misc/BulkImportOperation.cpp:24-75 | The same for one whole operation. |
| BulkImportProperties.FoldOperationsBind | App/Misc/BulkImportOperation.cpp:24-75 | The same over the first n operations. |
| BulkImportProperties.ResolveBindsAll | App/Misc/BulkImportOperation.cpp:24-99 | After phase 1, each enabled entry of a valid operation whose package loads is bound to that package, which is listed. Every other slot keeps whatever binding it had before the run, including one from an earlier run (see Findings). |
| BulkImportProperties.StaleBindingAsWritten | App/Misc/BulkImportOperation.cpp:31-99 | An enabled entry whose package does not load keeps its earlier binding through phase 1, and phase 3 looks its object up in that package rather than skipping it. |
| BulkImportProperties.BindingsIntended | App/Misc/BulkImportOperation.cpp:31-99 | With the bindings cleared before the run, a slot is bound after phase 1 exactly when its entry loads, always to a listed package, and phase 3 skips every entry that does not load. |
| BulkImport.BulkImportOperation.AddError | App/Misc/BulkImportOperation.cpp:215-218 | Appends one (source, error) pair to `Errors`, and nothing else changes. |
| BulkImport.BulkImportOperation.ImportTexture | App/Misc/BulkImportOperation.cpp:220-309 | Its effect on the errors and object writes is the texture-import specification's. |
| BulkImport.BulkImportOperation.ImportSound | App/Misc/BulkImportOperation.cpp:311-355 | Its effect is the sound-import specification's. |
| BulkImport.BulkImportOperation.ImportUntyped | App/Misc/BulkImportOperation.cpp:357-394 | Its effect is the raw-data specification's. |
| BulkImport.BulkImportOperation.RedirectItem | App/Misc/BulkImportOperation.cpp:140-177 | Its effect is the redirect specification's, which RedirectWrites and RedirectKeeps characterise: the empty-prefix refusal, a write exactly when target and object resolve, and an abandoned acquisition exactly when a call on the target throws. |
| BulkImport.BulkImportOperation.RedirectTo | App/Misc/BulkImportOperation.cpp:154-176 | Acquires, loads and reads the target, converts the object and releases the target. The effect is the specification's, which RedirectToKeeps characterises: released on the success and missing-object paths, abandoned exactly when a call on the target throws. |
| BulkImport.BulkImportOperation.ProcessItem | App/Misc/BulkImportOperation.cpp:94-177 | Its effect on one phase-3 entry is the specification's step. |
| BulkImport.BulkImportOperation.Listed | App/Misc/BulkImportOperation.cpp:44-55 | The linear search finds the package exactly when it is in the list. |
| BulkImport.BulkImportOperation.ResolveItem | App/Misc/BulkImportOperation.cpp:33-73 | Its effect on one phase-1 entry is the specification's step. |
| BulkImport.BulkImportOperation.LoadOperation | App/Misc/BulkImportOperation.cpp:28-74 | The entry loop of phase 1 computes the specification's fold over the operation's entries. |
| BulkImport.BulkImportOperation.LoadPackages | App/Misc/BulkImportOperation.cpp:24-75 | Phase 1 computes the specification's fold over the operations. |
| BulkImport.BulkImportOperation.ProcessOperation | App/Misc/BulkImportOperation.cpp:89-178 | The entry loop of phase 3 computes the specification's fold over the operation's entries. |
| BulkImport.BulkImportOperation.ProcessEntries | App/Misc/BulkImportOperation.cpp:87-179 | Phase 3 computes the specification's fold over the operations. |
| BulkImport.BulkImportOperation.SaveOne | App/Misc/BulkImportOperation.cpp:185-210 | Saves one package with the shared context, records a failure (the context text, the exception text, or "Unknown error while saving") and releases it. |
| BulkImport.BulkImportOperation.SavePackages | App/Misc/BulkImportOperation.cpp:181-211 | Phase 4 computes the specification's fold over the listed packages. |
| BulkImport.BulkImportOperation.Execute | App/Misc/BulkImportOperation.cpp:17-213 | The new state is the specification's run. Acquisitions end as they began plus the abandoned ones, and exactly as they began when nothing throws. A successful run saves each listed package once, in order. The result is false exactly when no entry's package loads. |

## Left out

- `lzo1x_decompress_safe` and `lzo_init` are foreign. The decoder is a parameter, assumed "safe": it never produces more bytes than the capacity it is given. The `lzo_init` status is a parameter.
- The `concurrency::parallel_for` branch of `LZO::Decompress` (Core.cpp:243-253) is concurrency. Only the sequential branch is modelled.
- Lzo.BlockCount: uses integer ceiling division where the code uses `ceilf` on floats. The two differ once sizes exceed float precision (above 2^24). The `int32` cast of the block count is not modelled either.
- Lzo.Decompress: a block size of 0 divides by zero in float, and the cast of the result to `int32` leaves the table allocation undefined. It is modelled as the error `InvalidBlockSize`.
- Lzo.Decompress: requires the prologue, the size pairs and every block's ranges to lie inside the buffers (`WellFramed`). The code never compares a header field with `srcSize` or `dstSize`, so malformed input reads or writes out of bounds there, and the model claims no capacity check.
- Lzo.Decompress: `UThrow` and `LogE` are modelled as a returned error value. Their message formatting and logging are not modelled.
- Lzo.DecompressMemory: takes the decompressed size as a natural number, so a negative `int32` size passed as the capacity is not modelled. The debug breaks for zlib and LZX are not modelled either.
- Lzo.DecompressContents: assumes the running offsets do not wrap around 2^32 (`NoWrap`). With wrap-around, blocks can overlap, and only the decode order in `Decoded` describes the result.
- Lzo.FailureStopsAtBlock: assumes the same `NoWrap` condition.
- Header constants are declared in headers that are not part of this model. The model uses the published Unreal Engine 3 values: the compressed-block magic, the `RF_`/`EF_`/`PKG_` flag masks, the `PF_` pixel formats and the `COMPRESS_` codec flags.
- `IsAnsi(std::string)` (Core.cpp:103-114) converts through the Win32 `A2W`, which is foreign. Only the wide-string overload is modelled.
- `W2A`, `A2W`, `Sprintf`, `GetFileTime` and the other OS helpers of Core.cpp are foreign calls.
- CoreText.MemSwap: requires that the two buffers are distinct when `size > 0`. The code's `memcpy` calls have undefined behaviour for overlapping buffers.
- `ALog`'s window is not modelled: `_Show`, `_IsShown`, `OnLogClose`, `UpdateWindow`, `wxQueueEvent`, and the resizing and moving in `_SetConfig`. The recursive mutexes are concurrency, and `OnAppExit`'s delete is not modelled either.
- The log's `std::time` clock is a parameter `now`.
- ALogging.LogGlobals.Log: requires the shared logger to exist. The code dereferences the global without checking it, so a call before `SharedLog` is undefined behaviour.
- ALogging.Truncate: a float outside the `int` range makes the C++ conversion undefined. The model truncates any real.
- Bulk import: these operations are foreign, and each call's answer is a field of `World`, determined by its arguments:
  - `FPackage::GetPackageNamed`, `Load`, `GetObject`, `Save` and `UnloadPackage`;
  - `UObject::Load`, `TextureProcessor`, `TextureTravaller` and `SoundTravaller`.
- Bulk import: the package registry is reduced to a multiset of acquisitions. `UnloadPackage` is one release.
- C++ exceptions thrown by the foreign calls are modelled as values: `Lookup.Threw`, an error option, and `SaveKind`. The catch blocks are modelled as the branches that receive those values.
- `ConvertObjectToRedirector` is modelled as a write that does not throw, recorded in the list of object writes.
- Phase 3 has no try/catch around the import helpers. An exception escaping `ImportTexture`, `ImportSound` or `ImportUntyped` would end the whole run, and the model does not have that path.
- The catch blocks of `ImportSound` that nothing in its body can reach are not modelled.
- The progress events, the running index and total, and the `sleep_for` between entries are not modelled. They are UI.
- The `IsValid` flag of an operation is a field `Valid`, evaluated before the run.
- Reading an import file (`std::ifstream`, `tellg`) is a function from path to bytes; a file that cannot be opened is empty.
- `wxFileName::SplitPath` is modelled only for the extension and the name start. Volume prefixes and other platform rules of wxWidgets are not modelled.
- Common.ToLower: lower-cases ASCII letters only, where `wxString::MakeLower` (BulkImportOperation.cpp:231) uses the locale's `towlower`. The accepted extensions tga, png and dds are the same either way. The extension quoted in "Can't import <extension> files" can differ when it holds non-ASCII capitals.
- The error text for an unsupported pixel format prints "0x" followed by the value in decimal, as written. The model keeps that text.
- The mip data the texture travaller copies into the texture is the processor's output, passed through unchanged. The travaller's own copying is not modelled.
- BulkImportSpec.SavePath: follows `std::filesystem::path`'s `/` on Windows only for a plain directory, an empty one, one ending in a separator and a bare drive letter. A UNC root name, an absolute package name that would replace the directory, and the wide-to-narrow `W2A` conversion are not modelled.
- `App/Editors/StaticMeshEditor.h` is a rendering panel and is not part of this model.
- `Core/Tera/UObjectRedirector.cpp` is a serializer over stream types that are not part of this model, so it is not modelled.

## Findings

| source | as written | input that shows it | evidently intended | confidence | as-written member | corrected member |
|---|---|---|---|---|---|---|
| Unreal/Tera/Core.cpp:603-604 | The "StrippedSource" line of `PackageFlagsToString` tests `PKG_NoExportAllowed`, the same mask as the line before it. | Flags 0x40000000 (`PKG_StrippedSource` alone) give "" instead of "StrippedSource". Flags 0x20000000 give "NoExportAllowed, StrippedSource". | The line tests `PKG_StrippedSource`, so that each name reflects its own flag. | not executed | CoreText.PackageStrippedSourceAsWritten | CoreText.PackageStrippedSourceIntended |
| App/Misc/BulkImportOperation.cpp:31-99 | Phase 1 sets `item.Package` only for an entry whose package loads and never clears it. Phase 3 skips only entries whose `item.Package` is null. The save loop unloads every package at the end of the run. | Run `Execute` twice on the same operations. Entry A's package loads in the first run but not in the second, while entry B's loads in both. In the second run, A still points at the package unloaded by the first run, and phase 3 reads its object from there. | Each run starts with every `item.Package` null, so an entry whose package does not load is skipped. | not executed | BulkImportProperties.StaleBindingAsWritten | BulkImportProperties.BindingsIntended |

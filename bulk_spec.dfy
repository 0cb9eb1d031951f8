/**
  What a bulk import run does, as functions over a value `State`: the four phases of
  `BulkImportOperation::Execute`, the per-entry actions, and the three import helpers.

  The package store, the objects, the texture processor, the travallers, the file system and the save
  routine are foreign. Their answers are the fields of a `World`: each call is determined by its
  arguments. Acquisitions of packages are counted in `held`, a multiset of package identities.
*/
module BulkImportSpec {
  import opened Common

  type PackageId = nat
  type ObjectId = nat

  /** The answer of a lookup that may find nothing, find something or throw. */
  datatype Lookup<T> = NotFound | Threw(what: string) | Found(value: T)

  // ---------------------------------------------------------------------------------------------
  // Textures

  datatype TextureCompression =
    | TC_Default | TC_Normalmap | TC_Displacementmap | TC_NormalmapAlpha | TC_Grayscale
    | TC_HighDynamicRange | TC_OneBitAlpha | TC_NormalmapUncompressed | TC_NormalmapBC5
    | TC_OneBitMonochrome | TC_SimpleLightmapModification | TC_VectorDisplacementmap

  /** The properties of a `UTexture2D` that the importer reads. */
  datatype Texture = Texture(Format: u32, CompressionSettings: TextureCompression, SRGB: bool, AddressX: int, AddressY: int)

  /** `TextureProcessor::TCFormat`. */
  datatype TCFormat = TCNone | TGA | PNG | DDS | DXT1 | DXT3 | DXT5 | ARGB8 | G8

  /** Everything the importer sets on a `TextureProcessor` before `Process`. */
  datatype ProcessorConfig = ProcessorConfig(
    input: TCFormat, output: TCFormat, inputPath: string,
    srgb: bool, normal: bool, generateMips: bool, addressX: int, addressY: int)

  datatype Mip = Mip(SizeX: int, SizeY: int, Data: seq<byte>)

  datatype ProcessResult = ProcessResult(ok: bool, error: string, mips: seq<Mip>)

  const PF_A8R8G8B8: u32 := 2
  const PF_G8: u32 := 3
  const PF_DXT1: u32 := 5
  const PF_DXT3: u32 := 6
  const PF_DXT5: u32 := 7

  /** `UTexture2D::StaticClassName()` and `USoundNodeWave::StaticClassName()`. */
  const TEXTURE2D_CLASS: string := "Texture2D"
  const SOUND_NODE_WAVE_CLASS: string := "SoundNodeWave"

  /** The input format of an import file, by its lower-cased extension. */
  function InputFormatFor(extension: string): (f: Option<TCFormat>)
    ensures f.Some? <==> extension in {"tga", "png", "dds"}
  {
    if extension == "tga" then Some(TGA)
    else if extension == "png" then Some(PNG)
    else if extension == "dds" then Some(DDS)
    else None
  }

  /** The processor output format for a texture's existing pixel format. */
  function OutputFormatFor(pf: u32): (f: Option<TCFormat>)
    ensures f.Some? <==> pf in {PF_DXT1, PF_DXT3, PF_DXT5, PF_A8R8G8B8, PF_G8}
  {
    if pf == PF_DXT1 then Some(DXT1)
    else if pf == PF_DXT3 then Some(DXT3)
    else if pf == PF_DXT5 then Some(DXT5)
    else if pf == PF_A8R8G8B8 then Some(ARGB8)
    else if pf == PF_G8 then Some(G8)
    else None
  }

  /** A texture is imported as a normal map exactly for the four normal-map compression settings. */
  predicate IsNormalMap(c: TextureCompression)
  {
    c == TC_Normalmap || c == TC_NormalmapAlpha || c == TC_NormalmapUncompressed || c == TC_NormalmapBC5
  }

  /** The output format goes back to the pixel format it was chosen for. */
  function PixelFormatOf(f: TCFormat): Option<u32>
  {
    match f
    case DXT1 => Some(PF_DXT1)
    case DXT3 => Some(PF_DXT3)
    case DXT5 => Some(PF_DXT5)
    case ARGB8 => Some(PF_A8R8G8B8)
    case G8 => Some(PF_G8)
    case _ => None
  }

  lemma OutputFormatRoundTrip(pf: u32)
    ensures OutputFormatFor(pf).Some? ==> PixelFormatOf(OutputFormatFor(pf).value) == Some(pf)
  {
  }

  // ---------------------------------------------------------------------------------------------
  // Paths

  predicate IsSeparator(c: char)
  {
    c == '\\' || c == '/'
  }

  /** Index just past the last path separator: where the file name starts. */
  function NameStart(path: string): (k: nat)
    ensures k <= |path|
    ensures k > 0 ==> IsSeparator(path[k - 1])
    ensures forall q :: k <= q < |path| ==> !IsSeparator(path[q])
  {
    if path == [] then 0
    else if IsSeparator(path[|path| - 1]) then |path|
    else NameStart(path[..|path| - 1])
  }

  /** Index of the last '.' in `s`, if any. */
  function LastDot(s: string): (r: Option<nat>)
    ensures r.Some? ==> r.value < |s| && s[r.value] == '.' && forall q :: r.value < q < |s| ==> s[q] != '.'
    ensures r.None? ==> forall q :: 0 <= q < |s| ==> s[q] != '.'
  {
    if s == [] then None
    else if s[|s| - 1] == '.' then Some(|s| - 1)
    else LastDot(s[..|s| - 1])
  }

  /**
    `wxFileName::SplitPath`'s extension: what follows the last '.' of the file name, unless that dot opens
    the name. It is empty exactly when no '.' follows the first character of the name, or the name ends
    with '.'.
  */
  function FileExtension(path: string): (ext: string)
    ensures forall q :: 0 <= q < |ext| ==> ext[q] != '.' && !IsSeparator(ext[q])
    ensures var name := path[NameStart(path)..];
            && (ext != "" ==> |ext| + 1 < |name| && name[|name| - |ext| - 1] == '.' && name[|name| - |ext|..] == ext)
            && (ext == "" <==> (forall q :: 0 < q < |name| ==> name[q] != '.') || (|name| > 0 && name[|name| - 1] == '.'))
  {
    var name := path[NameStart(path)..];
    match LastDot(name)
    case None => ""
    case Some(d) => if d == 0 then "" else name[d + 1..]
  }

  /** Index of the first '.' in `s`, if any. */
  function FirstDot(s: string): (r: Option<nat>)
    ensures r.Some? ==> r.value < |s| && s[r.value] == '.' && forall q :: 0 <= q < r.value ==> s[q] != '.'
    ensures r.None? ==> forall q :: 0 <= q < |s| ==> s[q] != '.'
  {
    if s == [] then None
    else if s[0] == '.' then Some(0)
    else match FirstDot(s[1..])
      case None => None
      case Some(k) => Some(k + 1)
  }

  /** The package part of a redirect path: everything before its first '.', or empty when it has none. */
  function RedirectPackageName(redirectPath: string): string
  {
    match FirstDot(redirectPath)
    case None => ""
    case Some(k) => redirectPath[..k]
  }

  /** The name is a dot-free prefix that a '.' follows; it is empty exactly when there is no '.' or the path opens with one. */
  lemma RedirectPackageNameSplits(redirectPath: string)
    ensures var name := RedirectPackageName(redirectPath);
            && (name == "" <==> (forall q :: 0 <= q < |redirectPath| ==> redirectPath[q] != '.') || (|redirectPath| > 0 && redirectPath[0] == '.'))
            && (name != "" ==> |name| < |redirectPath| && redirectPath[..|name|] == name && redirectPath[|name|] == '.')
            && (forall q :: 0 <= q < |name| ==> name[q] != '.')
  {
  }

  /** A bare drive such as "C:": a root name with no directory and no file name. */
  predicate IsDriveOnly(dir: string)
  {
    |dir| == 2 && dir[1] == ':' && ('a' <= dir[0] <= 'z' || 'A' <= dir[0] <= 'Z')
  }

  /**
    `std::filesystem::path`'s `/` on Windows puts the preferred separator between the two parts only
    when the directory has a file name: not when it is empty, ends with a separator or is a bare drive.
  */
  predicate NeedsSeparator(dir: string)
  {
    !(dir == [] || IsSeparator(dir[|dir| - 1]) || IsDriveOnly(dir))
  }

  /** The save target: the output directory joined with the package name as a Windows path, plus ".gpk". */
  function SavePath(dir: string, name: string): (p: string)
    ensures |p| == |dir| + (if NeedsSeparator(dir) then 1 else 0) + |name| + 4
    ensures p[..|dir|] == dir
    ensures NeedsSeparator(dir) ==> p[|dir|] == '\\'
    ensures p[|p| - 4 - |name|..|p| - 4] == name
    ensures p[|p| - 4..] == ".gpk"
  {
    var joined := if NeedsSeparator(dir) then dir + "\\" + name else dir + name;
    joined + ".gpk"
  }

  // ---------------------------------------------------------------------------------------------
  // The run's inputs and the foreign answers

  /** One row of an operation: a package by name, an object by export index. */
  datatype Entry = Entry(Enabled: bool, PackageName: string, Index: int, ObjectPath: string)

  /** One operation: a class name, an import file or a redirect target, and the entries it applies to. */
  datatype Operation = Operation(
    Valid: bool, ClassName: string, ImportPath: string, RedirectPath: string, RedirectIndex: int,
    Entries: seq<Entry>)

  datatype SaveKind = Saved | NotSaved | SaveThrew(what: string) | SaveThrewUnknown

  /** What `FPackage::Save` did, and the save context's error text afterwards. */
  datatype SaveOutcome = SaveOutcome(kind: SaveKind, ctxError: string)

  datatype World = World(
    packageNamed: string -> Lookup<PackageId>,              // FPackage::GetPackageNamed (acquires on success)
    loadError: PackageId -> Option<string>,                 // FPackage::Load throws
    packageName: PackageId -> string,                       // FPackage::GetPackageName
    getObject: (PackageId, int) -> Lookup<ObjectId>,        // FPackage::GetObject (null: NotFound)
    objectLoadError: ObjectId -> Option<string>,            // UObject::Load throws
    isTexture: ObjectId -> bool,                            // Cast<UTexture2D> succeeds
    textureOf: ObjectId -> Texture,
    isSoundNodeWave: ObjectId -> bool,                      // Cast<USoundNodeWave> succeeds
    readFile: string -> seq<byte>,                          // whole file; empty when it cannot be opened
    process: ProcessorConfig -> ProcessResult,              // TextureProcessor::Process
    visitTexture: (ObjectId, u32, int, int, seq<Mip>) -> Option<string>, // TextureTravaller::Visit error
    visitSound: (ObjectId, seq<byte>) -> bool,              // SoundTravaller::Visit
    save: (PackageId, string, string) -> SaveOutcome)       // FPackage::Save(ctx)

  /** A write the run performs on an object. */
  datatype Edit =
    | TextureVisit(obj: ObjectId, format: u32, addressX: int, addressY: int, mips: seq<Mip>)
    | SoundVisit(obj: ObjectId, data: seq<byte>)
    | RawData(obj: ObjectId, data: seq<byte>)
    | Redirect(package: PackageId, obj: ObjectId, target: ObjectId)

  type Slot = (nat, nat)

  /**
    Everything a run reads and changes: the error list, each entry's package, the phase-1 package list,
    the acquisitions held, the acquisitions abandoned on an exception path, the object writes, the save
    attempts and the save context's error text.
  */
  datatype State = State(
    errors: seq<(string, string)>,
    itemPackage: map<Slot, PackageId>,
    packages: seq<PackageId>,
    held: multiset<PackageId>,
    leaked: multiset<PackageId>,
    edits: seq<Edit>,
    saves: seq<(PackageId, string)>,
    ctxError: string)

  function AddErr(st: State, source: string, error: string): (r: State)
    ensures r == st.(errors := st.errors + [(source, error)])
  {
    st.(errors := st.errors + [(source, error)])
  }

  function Acquire(st: State, p: PackageId): State
  {
    st.(held := st.held + multiset{p})
  }

  /** An acquisition that no path releases any more. */
  function Abandon(st: State, p: PackageId): State
  {
    st.(leaked := st.leaked + multiset{p})
  }

  // ---------------------------------------------------------------------------------------------
  // Import helpers

  /** The processor settings for a texture import, or the error that stops it first. */
  function TexturePlan(tex: Texture, source: string): Result<ProcessorConfig, string>
  {
    var extension := ToLower(FileExtension(source));
    match InputFormatFor(extension)
    case None => Failure("Can't import " + extension + " files")
    case Some(input) =>
      match OutputFormatFor(tex.Format)
      case None => Failure("Can't import to textures with 0x" + DecimalString(tex.Format) + " pixel format.")
      case Some(output) =>
        Success(ProcessorConfig(input, output, source, tex.SRGB, IsNormalMap(tex.CompressionSettings), false, tex.AddressX, tex.AddressY))
  }

  /** `ImportTexture`: a non-texture, a bad extension, a bad pixel format or a processor failure each record one error. */
  function TextureImport(w: World, package: PackageId, texture: Option<ObjectId>, source: string, st: State): State
  {
    var who := w.packageName(package);
    match texture
    case None => AddErr(st, who, "Object is not a texture!")
    case Some(o) =>
      var tex := w.textureOf(o);
      match TexturePlan(tex, source)
      case Failure(e) => AddErr(st, who, e)
      case Success(cfg) =>
        var res := w.process(cfg);
        if !res.ok then AddErr(st, who, res.error)
        else
          var st1 := st.(edits := st.edits + [TextureVisit(o, tex.Format, tex.AddressX, tex.AddressY, res.mips)]);
          match w.visitTexture(o, tex.Format, tex.AddressX, tex.AddressY, res.mips)
          case None => st1
          case Some(e) => AddErr(st1, who, e)
  }

  /** `ImportSound`: an empty file records one error; otherwise its bytes go to the sound travaller. */
  function SoundImport(w: World, package: PackageId, sound: Option<ObjectId>, source: string, st: State): State
  {
    var who := w.packageName(package);
    match sound
    case None => AddErr(st, who, "Object is not a sound node!")
    case Some(o) =>
      var data := w.readFile(source);
      if |data| == 0 then AddErr(st, who, "File is empty: " + source)
      else
        var st1 := st.(edits := st.edits + [SoundVisit(o, data)]);
        if w.visitSound(o, data) then st1 else AddErr(st1, who, "Failed to import data!")
  }

  /** `ImportUntyped`: an empty file records one error; otherwise the whole file becomes the raw data. */
  function UntypedImport(w: World, package: PackageId, tobject: Option<ObjectId>, source: string, st: State): State
  {
    var who := w.packageName(package);
    match tobject
    case None => AddErr(st, who, "Internal error! No object found!")
    case Some(o) =>
      var data := w.readFile(source);
      if |data| == 0 then AddErr(st, who, "File is empty: " + source)
      else st.(edits := st.edits + [RawData(o, data)])
  }

  // ---------------------------------------------------------------------------------------------
  // Phase 1: resolve and load packages

  /** One entry of phase 1 (BulkImportOperation.cpp:33-73): entry j of operation i. */
  function ResolveEntry(w: World, i: nat, j: nat, item: Entry, st: State): State
  {
    if !item.Enabled then st
    else match w.packageNamed(item.PackageName)
      case NotFound => AddErr(st, item.PackageName, "Failed to load\\get the package!")
      case Threw(e) => AddErr(st, item.PackageName, "Internal error: " + e)
      case Found(p) =>
        match w.loadError(p)
        case Some(e) => AddErr(Abandon(Acquire(st, p), p), item.PackageName, "Internal error: " + e)
        case None =>
          if p in st.packages then st.(itemPackage := st.itemPackage[(i, j) := p])
          else Acquire(st, p).(itemPackage := st.itemPackage[(i, j) := p], packages := st.packages + [p])
  }

  // ---------------------------------------------------------------------------------------------
  // Phase 3: act on every entry

  /** The redirect branch (BulkImportOperation.cpp:142-176). */
  function RedirectEntry(w: World, op: Operation, package: PackageId, o: ObjectId, st: State): State
  {
    var who := w.packageName(package);
    var name := RedirectPackageName(op.RedirectPath);
    if name == "" then AddErr(st, who, "Failed to get target package!")
    else match w.packageNamed(name)
      case NotFound => st
      case Threw(e) => AddErr(st, who, e)
      case Found(t) => RedirectToPackage(w, op, package, o, t, st)
  }

  /** The redirect once the target package `t` is acquired: load it and the target object, convert, release. */
  function RedirectToPackage(w: World, op: Operation, package: PackageId, o: ObjectId, t: PackageId, st: State): State
  {
    var who := w.packageName(package);
    match w.loadError(t)
    case Some(e) => AddErr(Abandon(Acquire(st, t), t), who, e)
    case None =>
      match w.getObject(t, op.RedirectIndex)
      case Threw(e) => AddErr(Abandon(Acquire(st, t), t), who, e)
      case NotFound => AddErr(st, who, "Failed to get redirected object!")
      case Found(target) =>
        match w.objectLoadError(target)
        case Some(e) => AddErr(Abandon(Acquire(st, t), t), who, e)
        case None => st.(edits := st.edits + [Redirect(package, o, target)])
  }

  /** What an entry with a loaded object does: import when an import file is set, else redirect when a target is set. */
  function ActOn(w: World, op: Operation, package: PackageId, o: ObjectId, st: State): State
  {
    if |op.ImportPath| > 0 then
      if op.ClassName == TEXTURE2D_CLASS then
        TextureImport(w, package, if w.isTexture(o) then Some(o) else None, op.ImportPath, st)
      else if op.ClassName == SOUND_NODE_WAVE_CLASS then
        SoundImport(w, package, if w.isSoundNodeWave(o) then Some(o) else None, op.ImportPath, st)
      else UntypedImport(w, package, Some(o), op.ImportPath, st)
    else if |op.RedirectPath| > 0 then RedirectEntry(w, op, package, o, st)
    else st
  }

  /** One entry of phase 3 (BulkImportOperation.cpp:96-177): entry j of operation i, `op`. */
  function ProcessEntry(w: World, op: Operation, i: nat, j: nat, item: Entry, st: State): State
  {
    if !item.Enabled || (i, j) !in st.itemPackage then st
    else
      var package := st.itemPackage[(i, j)];
      match w.getObject(package, item.Index)
      case Threw(e) => AddErr(st, item.PackageName, "Failed to read object: " + e)
      case NotFound => AddErr(st, item.PackageName, "Failed to read object!" + item.ObjectPath)
      case Found(o) =>
        match w.objectLoadError(o)
        case Some(e) => AddErr(st, item.PackageName, "Failed to read object: " + e)
        case None => ActOn(w, op, package, o, st)
  }

  // ---------------------------------------------------------------------------------------------
  // The loops

  /** The first m elements of `xs`, in order: `step` is applied to each with its index. */
  function Fold<X>(step: (nat, X, State) -> State, xs: seq<X>, m: nat, st: State): State
    requires m <= |xs|
  {
    if m == 0 then st else step(m - 1, xs[m - 1], Fold(step, xs, m - 1, st))
  }

  datatype Phase = Resolve | Act

  /** What one phase does to entry j of operation i, `op`. */
  function EntryStep(phase: Phase, w: World, op: Operation, i: nat, j: nat, item: Entry, st: State): State
  {
    match phase
    case Resolve => ResolveEntry(w, i, j, item, st)
    case Act => ProcessEntry(w, op, i, j, item, st)
  }

  function EntryFn(phase: Phase, w: World, op: Operation, i: nat): (nat, Entry, State) -> State
  {
    (j: nat, item: Entry, st: State) => EntryStep(phase, w, op, i, j, item, st)
  }

  /** What one phase does to operation i: every entry in order, or nothing when the operation is not valid. */
  function OperationStep(phase: Phase, w: World, i: nat, op: Operation, st: State): State
  {
    if !op.Valid then st else Fold(EntryFn(phase, w, op, i), op.Entries, |op.Entries|, st)
  }

  function OperationFn(phase: Phase, w: World): (nat, Operation, State) -> State
  {
    (i: nat, op: Operation, st: State) => OperationStep(phase, w, i, op, st)
  }

  /** The entries of the first n operations, skipping invalid operations. */
  function Operations(phase: Phase, w: World, ops: seq<Operation>, n: nat, st: State): State
    requires n <= |ops|
  {
    Fold(OperationFn(phase, w), ops, n, st)
  }

  // ---------------------------------------------------------------------------------------------
  // Phase 4: save and release

  /** One package of phase 4 (BulkImportOperation.cpp:185-211). */
  function SavePackage(w: World, dir: string, p: PackageId, st: State): State
  {
    var who := w.packageName(p);
    var path := SavePath(dir, who);
    var out := w.save(p, path, st.ctxError);
    var st1 := st.(saves := st.saves + [(p, path)], ctxError := out.ctxError);
    var st2 := match out.kind
      case Saved => st1
      case NotSaved => AddErr(st1, who, out.ctxError)
      case SaveThrew(e) => AddErr(st1, who, if |out.ctxError| > 0 then out.ctxError else e)
      case SaveThrewUnknown => AddErr(st1, who, "Unknown error while saving");
    st2.(held := st2.held - multiset{p})
  }

  function SaveFn(w: World, dir: string): (nat, PackageId, State) -> State
  {
    (k: nat, p: PackageId, st: State) => SavePackage(w, dir, p, st)
  }

  /** The first k packages of `pkgs`, in order. */
  function SaveAll(w: World, dir: string, pkgs: seq<PackageId>, k: nat, st: State): State
    requires k <= |pkgs|
  {
    Fold(SaveFn(w, dir), pkgs, k, st)
  }

  // ---------------------------------------------------------------------------------------------
  // The whole run

  /** The state `Execute` starts its phases from: errors cleared, no packages, a fresh save context. */
  function Start(st: State): State
  {
    st.(errors := [], packages := [], leaked := multiset{}, ctxError := "")
  }

  function AfterResolve(w: World, ops: seq<Operation>, st: State): State
  {
    Operations(Resolve, w, ops, |ops|, Start(st))
  }

  datatype Completion = Completion(state: State, ok: bool)

  /** `BulkImportOperation::Execute`. */
  function Execute(w: World, ops: seq<Operation>, dir: string, st: State): Completion
  {
    var s1 := AfterResolve(w, ops, st);
    if |s1.packages| == 0 then Completion(AddErr(s1, "General", "Nothing to do!"), false)
    else
      var s3 := Operations(Act, w, ops, |ops|, s1);
      Completion(SaveAll(w, dir, s3.packages, |s3.packages|, s3.(ctxError := "")), true)
  }

  /** `Execute` as evidently intended: each run starts with no entry bound to a package. */
  function ExecuteIntended(w: World, ops: seq<Operation>, dir: string, st: State): Completion
  {
    Execute(w, ops, dir, st.(itemPackage := map[]))
  }
}

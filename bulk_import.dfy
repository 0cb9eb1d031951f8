/**
  `BulkImportOperation` as a class: the error list and each entry's package are fields it updates, the
  four phases of `Execute` are loops over the operations and their entries, and each method is proved
  to do what the matching function of `BulkImportSpec` says.

  The package registry's acquisitions, the writes to objects and the save attempts are foreign state;
  they are fields here too (`Held`, `Edits`, `Saves`), so that each method states its whole effect.
  `Leaked` is ghost: it counts the acquisitions an exception path abandons.
*/
module BulkImport {
  import opened Common
  import opened BulkImportSpec
  import opened BulkImportProperties

  class BulkImportOperation {
    const Actions: seq<Operation>
    const Path: string
    const world: World

    var Errors: seq<(string, string)>
    /** `item.Package` of entry j of operation i, when set. */
    var ItemPackage: map<Slot, PackageId>
    var Held: multiset<PackageId>
    ghost var Leaked: multiset<PackageId>
    var Edits: seq<Edit>
    var Saves: seq<(PackageId, string)>

    /** The fields as a `State`, with the phase-local package list and save-context error text. */
    ghost function Snapshot(packages: seq<PackageId>, ctxError: string): State
      reads this
    {
      State(Errors, ItemPackage, packages, Held, Leaked, Edits, Saves, ctxError)
    }

    /** A new operation over `actions`, saving to `path`; no entry has a package yet. */
    constructor (actions: seq<Operation>, path: string, w: World, held: multiset<PackageId>)
      ensures Actions == actions && Path == path && world == w
      ensures Errors == [] && ItemPackage == map[] && Held == held && Leaked == multiset{}
      ensures Edits == [] && Saves == []
    {
      Actions := actions;
      Path := path;
      world := w;
      Errors := [];
      ItemPackage := map[];
      Held := held;
      Leaked := multiset{};
      Edits := [];
      Saves := [];
    }

    method AddError(source: string, error: string)
      modifies this
      ensures Errors == old(Errors) + [(source, error)]
      ensures ItemPackage == old(ItemPackage) && Held == old(Held) && Leaked == old(Leaked)
      ensures Edits == old(Edits) && Saves == old(Saves)
    {
      Errors := Errors + [(source, error)];
    }

    method ImportTexture(package: PackageId, texture: Option<ObjectId>, source: string, ghost packages: seq<PackageId>)
      modifies this
      ensures Snapshot(packages, "") == TextureImport(world, package, texture, source, old(Snapshot(packages, "")))
    {
      ghost var st := Snapshot(packages, "");
      var who := world.packageName(package);
      if texture.None? {
        AddError(who, "Object is not a texture!");
        return;
      }
      var o := texture.value;
      var tex := world.textureOf(o);
      var extension := ToLower(FileExtension(source));
      var input := InputFormatFor(extension);
      if input.None? {
        AddError(who, "Can't import " + extension + " files");
        assert Snapshot(packages, "") == AddErr(st, who, "Can't import " + extension + " files");
        return;
      }
      var output := OutputFormatFor(tex.Format);
      if output.None? {
        AddError(who, "Can't import to textures with 0x" + DecimalString(tex.Format) + " pixel format.");
        return;
      }
      var cfg := ProcessorConfig(input.value, output.value, source, tex.SRGB, IsNormalMap(tex.CompressionSettings), false, tex.AddressX, tex.AddressY);
      assert TexturePlan(tex, source) == Success(cfg);
      var res := world.process(cfg);
      if !res.ok {
        AddError(who, res.error);
        return;
      }
      Edits := Edits + [TextureVisit(o, tex.Format, tex.AddressX, tex.AddressY, res.mips)];
      var visitError := world.visitTexture(o, tex.Format, tex.AddressX, tex.AddressY, res.mips);
      if visitError.Some? {
        AddError(who, visitError.value);
      }
    }

    method ImportSound(package: PackageId, sound: Option<ObjectId>, source: string, ghost packages: seq<PackageId>)
      modifies this
      ensures Snapshot(packages, "") == SoundImport(world, package, sound, source, old(Snapshot(packages, "")))
    {
      var who := world.packageName(package);
      if sound.None? {
        AddError(who, "Object is not a sound node!");
        return;
      }
      var data := world.readFile(source);
      if |data| == 0 {
        AddError(who, "File is empty: " + source);
        return;
      }
      Edits := Edits + [SoundVisit(sound.value, data)];
      if !world.visitSound(sound.value, data) {
        AddError(who, "Failed to import data!");
      }
    }

    method ImportUntyped(package: PackageId, tobject: Option<ObjectId>, source: string, ghost packages: seq<PackageId>)
      modifies this
      ensures Snapshot(packages, "") == UntypedImport(world, package, tobject, source, old(Snapshot(packages, "")))
    {
      var who := world.packageName(package);
      if tobject.None? {
        AddError(who, "Internal error! No object found!");
        return;
      }
      var data := world.readFile(source);
      if |data| == 0 {
        AddError(who, "File is empty: " + source);
        return;
      }
      Edits := Edits + [RawData(tobject.value, data)];
    }

    /** The redirect branch of phase 3: find the target package, then redirect into it. */
    method RedirectItem(op: Operation, package: PackageId, o: ObjectId, ghost packages: seq<PackageId>)
      modifies this
      ensures Snapshot(packages, "") == RedirectEntry(world, op, package, o, old(Snapshot(packages, "")))
    {
      var who := world.packageName(package);
      var name := RedirectPackageName(op.RedirectPath);
      if name == "" {
        AddError(who, "Failed to get target package!");
        return;
      }
      var lookup := world.packageNamed(name);
      if lookup.Threw? {
        AddError(who, lookup.what);
        return;
      }
      if lookup.NotFound? {
        return;
      }
      RedirectTo(op, package, o, lookup.value, packages);
    }

    /** The acquired target package `t`: load it and the target object, convert, release. */
    method RedirectTo(op: Operation, package: PackageId, o: ObjectId, t: PackageId, ghost packages: seq<PackageId>)
      modifies this
      ensures Snapshot(packages, "") == RedirectToPackage(world, op, package, o, t, old(Snapshot(packages, "")))
    {
      ghost var st := Snapshot(packages, "");
      var who := world.packageName(package);
      Held := Held + multiset{t};
      var loadError := world.loadError(t);
      if loadError.Some? {
        Leaked := Leaked + multiset{t};
        AddError(who, loadError.value);
        assert Snapshot(packages, "") == AddErr(Abandon(Acquire(st, t), t), who, loadError.value);
        return;
      }
      var target := world.getObject(t, op.RedirectIndex);
      if target.Threw? {
        Leaked := Leaked + multiset{t};
        AddError(who, target.what);
        assert Snapshot(packages, "") == AddErr(Abandon(Acquire(st, t), t), who, target.what);
        return;
      }
      if target.NotFound? {
        AddError(who, "Failed to get redirected object!");
        Held := Held - multiset{t};
        assert Snapshot(packages, "") == AddErr(st, who, "Failed to get redirected object!");
        return;
      }
      var targetError := world.objectLoadError(target.value);
      if targetError.Some? {
        Leaked := Leaked + multiset{t};
        AddError(who, targetError.value);
        assert Snapshot(packages, "") == AddErr(Abandon(Acquire(st, t), t), who, targetError.value);
        return;
      }
      Edits := Edits + [Redirect(package, o, target.value)];
      Held := Held - multiset{t};
      assert Snapshot(packages, "") == st.(edits := st.edits + [Redirect(package, o, target.value)]);
    }

    /** One entry of phase 3: read and load its object, then import or redirect. */
    method ProcessItem(i: nat, j: nat, ghost packages: seq<PackageId>)
      requires i < |Actions| && j < |Actions[i].Entries|
      modifies this
      ensures Snapshot(packages, "") == ProcessEntry(world, Actions[i], i, j, Actions[i].Entries[j], old(Snapshot(packages, "")))
    {
      var item := Actions[i].Entries[j];
      if !item.Enabled || (i, j) !in ItemPackage {
        return;
      }
      var package := ItemPackage[(i, j)];
      var lookup := world.getObject(package, item.Index);
      if lookup.Threw? {
        AddError(item.PackageName, "Failed to read object: " + lookup.what);
        return;
      }
      if lookup.NotFound? {
        AddError(item.PackageName, "Failed to read object!" + item.ObjectPath);
        return;
      }
      var o := lookup.value;
      var loadError := world.objectLoadError(o);
      if loadError.Some? {
        AddError(item.PackageName, "Failed to read object: " + loadError.value);
        return;
      }
      var op := Actions[i];
      if |op.ImportPath| > 0 {
        if op.ClassName == TEXTURE2D_CLASS {
          ImportTexture(package, if world.isTexture(o) then Some(o) else None, op.ImportPath, packages);
        } else if op.ClassName == SOUND_NODE_WAVE_CLASS {
          ImportSound(package, if world.isSoundNodeWave(o) then Some(o) else None, op.ImportPath, packages);
        } else {
          ImportUntyped(package, Some(o), op.ImportPath, packages);
        }
      } else if |op.RedirectPath| > 0 {
        RedirectItem(op, package, o, packages);
      }
    }

    /** The linear search phase 1 makes for an already loaded package. */
    static method Listed(packages: seq<PackageId>, p: PackageId) returns (found: bool)
      ensures found <==> p in packages
    {
      found := false;
      var k := 0;
      while k < |packages|
        invariant 0 <= k <= |packages|
        invariant found <==> p in packages[..k]
      {
        if packages[k] == p {
          found := true;
          break;
        }
        k := k + 1;
      }
      if !found {
        assert packages[..k] == packages;
      }
    }

    /** One entry of phase 1: acquire and load its package, then keep it once in `packages` (releasing a repeat acquisition). */
    method ResolveItem(i: nat, j: nat, packages: seq<PackageId>) returns (packages': seq<PackageId>)
      requires i < |Actions| && j < |Actions[i].Entries|
      modifies this
      ensures Snapshot(packages', "") == ResolveEntry(world, i, j, Actions[i].Entries[j], old(Snapshot(packages, "")))
    {
      packages' := packages;
      var item := Actions[i].Entries[j];
      if !item.Enabled {
        return;
      }
      var lookup := world.packageNamed(item.PackageName);
      if lookup.NotFound? {
        AddError(item.PackageName, "Failed to load\\get the package!");
        return;
      }
      if lookup.Threw? {
        AddError(item.PackageName, "Internal error: " + lookup.what);
        return;
      }
      var p := lookup.value;
      Held := Held + multiset{p};
      var loadError := world.loadError(p);
      if loadError.Some? {
        Leaked := Leaked + multiset{p};
        AddError(item.PackageName, "Internal error: " + loadError.value);
        return;
      }
      var added := Listed(packages, p);
      ItemPackage := ItemPackage[(i, j) := p];
      if added {
        Held := Held - multiset{p};
      } else {
        packages' := packages + [p];
      }
    }

    /** Phase 1 on operation i: every enabled entry, in order. */
    method LoadOperation(i: nat, packages: seq<PackageId>) returns (packages': seq<PackageId>)
      requires i < |Actions| && Actions[i].Valid
      modifies this
      ensures Snapshot(packages', "") == Fold(EntryFn(Resolve, world, Actions[i], i), Actions[i].Entries, |Actions[i].Entries|, old(Snapshot(packages, "")))
    {
      packages' := packages;
      ghost var before := Snapshot(packages, "");
      for j := 0 to |Actions[i].Entries|
        invariant Snapshot(packages', "") == Fold(EntryFn(Resolve, world, Actions[i], i), Actions[i].Entries, j, before)
      {
        ghost var prev := Snapshot(packages', "");
        packages' := ResolveItem(i, j, packages');
        ResolveFoldStep(world, Actions[i], i, j, before, prev, Snapshot(packages', ""));
      }
    }

    /** Phase 1: every enabled entry of every valid operation, in order. */
    method LoadPackages() returns (packages: seq<PackageId>)
      modifies this
      ensures Snapshot(packages, "") == Operations(Resolve, world, Actions, |Actions|, old(Snapshot([], "")))
    {
      packages := [];
      ghost var s0 := Snapshot([], "");
      for i := 0 to |Actions|
        invariant Snapshot(packages, "") == Operations(Resolve, world, Actions, i, s0)
      {
        if Actions[i].Valid {
          packages := LoadOperation(i, packages);
        }
      }
    }

    /** Phase 3 on operation i: every enabled entry that has a package, in order. */
    method ProcessOperation(i: nat, ghost packages: seq<PackageId>)
      requires i < |Actions| && Actions[i].Valid
      modifies this
      ensures Snapshot(packages, "") == Fold(EntryFn(Act, world, Actions[i], i), Actions[i].Entries, |Actions[i].Entries|, old(Snapshot(packages, "")))
    {
      ghost var before := Snapshot(packages, "");
      for j := 0 to |Actions[i].Entries|
        invariant Snapshot(packages, "") == Fold(EntryFn(Act, world, Actions[i], i), Actions[i].Entries, j, before)
      {
        ghost var prev := Snapshot(packages, "");
        ProcessItem(i, j, packages);
        ActFoldStep(world, Actions[i], i, j, before, prev, Snapshot(packages, ""));
      }
    }

    /** Phase 3: every enabled entry of every valid operation that has a package, in order. */
    method ProcessEntries(packages: seq<PackageId>)
      modifies this
      ensures Snapshot(packages, "") == Operations(Act, world, Actions, |Actions|, old(Snapshot(packages, "")))
    {
      ghost var s0 := Snapshot(packages, "");
      for i := 0 to |Actions|
        invariant Snapshot(packages, "") == Operations(Act, world, Actions, i, s0)
      {
        if Actions[i].Valid {
          ProcessOperation(i, packages);
        }
      }
    }

    /** One package of phase 4: save it to `<Path>\<name>.gpk` with the shared context, record a failure, release it. */
    method SaveOne(p: PackageId, ctxError: string, ghost packages: seq<PackageId>) returns (ctxError': string)
      modifies this
      ensures Snapshot(packages, ctxError') == SavePackage(world, Path, p, old(Snapshot(packages, ctxError)))
    {
      var who := world.packageName(p);
      var path := SavePath(Path, who);
      var out := world.save(p, path, ctxError);
      Saves := Saves + [(p, path)];
      ctxError' := out.ctxError;
      match out.kind {
        case Saved =>
        case NotSaved => AddError(who, ctxError');
        case SaveThrew(e) => AddError(who, if |ctxError'| > 0 then ctxError' else e);
        case SaveThrewUnknown => AddError(who, "Unknown error while saving");
      }
      Held := Held - multiset{p};
    }

    /** Phase 4: save every listed package to `Path`, one save context for all, releasing each. */
    method SavePackages(packages: seq<PackageId>) returns (ctxError: string)
      modifies this
      ensures Snapshot(packages, ctxError) == SaveAll(world, Path, packages, |packages|, old(Snapshot(packages, "")))
    {
      ctxError := "";
      ghost var s0 := Snapshot(packages, "");
      for k := 0 to |packages|
        invariant Snapshot(packages, ctxError) == SaveAll(world, Path, packages, k, s0)
      {
        ctxError := SaveOne(packages[k], ctxError, packages);
      }
    }

    /**
      `Execute`: clear the errors, load the packages, stop with "Nothing to do!" when none loaded, act on
      every entry, save every package. Every acquisition is released except those an exception path
      abandons; each listed package is saved once, in order.
    */
    method Execute() returns (ok: bool)
      modifies this
      ensures var run := BulkImportSpec.Execute(world, Actions, Path, old(Snapshot([], "")));
              && ok == run.ok
              && Errors == run.state.errors && ItemPackage == run.state.itemPackage
              && Held == run.state.held && Leaked == run.state.leaked
              && Edits == run.state.edits && Saves == run.state.saves
      ensures Held == old(Held) + Leaked
      ensures NoThrow(world) ==> Held == old(Held) && Leaked == multiset{}
      ensures ok ==> Saves == old(Saves) + SavePlan(world, Path, AfterResolve(world, Actions, old(Snapshot([], ""))).packages)
      ensures !ok <==> forall i, j :: 0 <= i < |Actions| && Actions[i].Valid && 0 <= j < |Actions[i].Entries| ==>
                         !Loads(world, Actions[i].Entries[j])
    {
      ghost var s := old(Snapshot([], ""));
      Errors := [];
      Leaked := multiset{};
      assert Snapshot([], "") == Start(s);
      var packages := LoadPackages();
      ExecuteReleases(world, Actions, Path, s);
      ExecuteSavesEachOnce(world, Actions, Path, s);
      ExecuteGuard(world, Actions, Path, s);
      if |packages| == 0 {
        AddError("General", "Nothing to do!");
        return false;
      }
      ProcessEntries(packages);
      var ctxError := SavePackages(packages);
      return true;
    }
  }
}

/**
  Properties of a bulk import run: the package list has no duplicates, every acquisition is released
  except those abandoned on an exception path, every listed package is saved once, and the run stops
  with a single error exactly when no entry's package loads.
*/
module BulkImportProperties {
  import opened Common
  import opened BulkImportSpec

  predicate NoDup(s: seq<PackageId>)
  {
    forall a, b :: 0 <= a < b < |s| ==> s[a] != s[b]
  }

  /** The acquisitions held: a base, one per listed package and one per abandoned acquisition. */
  ghost predicate Accounted(st: State, base: multiset<PackageId>)
  {
    st.held == base + multiset(st.packages) + st.leaked
  }

  /** No `Load` of a package or object and no `GetObject` throws. */
  ghost predicate NoThrow(w: World)
  {
    && (forall p :: w.loadError(p).None?)
    && (forall p, k :: !w.getObject(p, k).Threw?)
    && (forall o :: w.objectLoadError(o).None?)
  }

  /** The entry's package is found and loads: the entry gets a package in phase 1. */
  predicate Loads(w: World, e: Entry)
  {
    && e.Enabled
    && w.packageNamed(e.PackageName).Found?
    && w.loadError(w.packageNamed(e.PackageName).value).None?
  }

  /** The save attempts phase 4 makes for `pkgs`, in order. */
  function SavePlan(w: World, dir: string, pkgs: seq<PackageId>): (plan: seq<(PackageId, string)>)
    ensures |plan| == |pkgs|
  {
    seq(|pkgs|, k requires 0 <= k < |pkgs| => (pkgs[k], SavePath(dir, w.packageName(pkgs[k]))))
  }

  function Firsts(saves: seq<(PackageId, string)>): (ids: seq<PackageId>)
    ensures |ids| == |saves|
  {
    seq(|saves|, k requires 0 <= k < |saves| => saves[k].0)
  }

  // ---------------------------------------------------------------------------------------------
  // One entry

  /** `r` holds, lists and abandons what `st` does, apart from packages it added to the list and acquired, and acquisitions it abandoned. */
  ghost predicate KeepsAccount(st: State, r: State)
  {
    r.held + multiset(st.packages) + st.leaked == st.held + multiset(r.packages) + r.leaked
  }

  /** Only the error list and the object writes differ. */
  ghost predicate OnlyErrorsAndEdits(st: State, r: State)
  {
    r == st.(errors := r.errors, edits := r.edits)
  }

  /** What one entry of phase 3 may change: errors, object writes, and acquisitions it abandons. */
  ghost predicate ActStep(w: World, st: State, r: State)
  {
    && r == st.(errors := r.errors, edits := r.edits, held := r.held, leaked := r.leaked)
    && KeepsAccount(st, r)
    && (NoThrow(w) ==> r.leaked == st.leaked)
  }

  /** With the target package `t` acquired, its `Load`, the target's `GetObject` or the target object's `Load` throws. */
  predicate TargetThrows(w: World, op: Operation, t: PackageId)
  {
    || w.loadError(t).Some?
    || w.getObject(t, op.RedirectIndex).Threw?
    || (w.getObject(t, op.RedirectIndex).Found? && w.objectLoadError(w.getObject(t, op.RedirectIndex).value).Some?)
  }

  /** The target package of `op`'s redirect path is found, and then one of its calls throws. */
  predicate RedirectThrows(w: World, op: Operation)
  {
    var name := RedirectPackageName(op.RedirectPath);
    name != "" && w.packageNamed(name).Found? && TargetThrows(w, op, w.packageNamed(name).value)
  }

  /**
    A redirect keeps the package list. It abandons one acquisition of the target package exactly when a
    call on the found target throws; on every other path, the missing target object included, it holds
    what it held before.
  */
  lemma RedirectKeeps(w: World, op: Operation, package: PackageId, o: ObjectId, st: State)
    ensures ActStep(w, st, RedirectEntry(w, op, package, o, st))
    ensures var r := RedirectEntry(w, op, package, o, st);
            && (r.leaked != st.leaked <==> RedirectThrows(w, op))
            && (RedirectThrows(w, op) ==>
                  var t := w.packageNamed(RedirectPackageName(op.RedirectPath)).value;
                  r.leaked == st.leaked + multiset{t} && r.held == st.held + multiset{t})
            && (!RedirectThrows(w, op) ==> r.held == st.held)
  {
    var name := RedirectPackageName(op.RedirectPath);
    if name != "" && w.packageNamed(name).Found? {
      RedirectToKeeps(w, op, package, o, w.packageNamed(name).value, st);
    }
  }

  /** Once the target package `t` is acquired: one acquisition of it is abandoned exactly when one of its calls throws, and released otherwise. */
  lemma RedirectToKeeps(w: World, op: Operation, package: PackageId, o: ObjectId, t: PackageId, st: State)
    ensures ActStep(w, st, RedirectToPackage(w, op, package, o, t, st))
    ensures var r := RedirectToPackage(w, op, package, o, t, st);
            && (r.leaked != st.leaked <==> TargetThrows(w, op, t))
            && (TargetThrows(w, op, t) ==> r.leaked == st.leaked + multiset{t} && r.held == st.held + multiset{t})
            && (!TargetThrows(w, op, t) ==> r.held == st.held)
  {
    var r := Abandon(Acquire(st, t), t);
    assert r.held + multiset(st.packages) + st.leaked == st.held + multiset(r.packages) + r.leaked;
  }

  /** The redirect converts the object: the target package is found and loads, and so does the object it names. */
  predicate RedirectResolves(w: World, op: Operation)
  {
    var name := RedirectPackageName(op.RedirectPath);
    && name != ""
    && w.packageNamed(name).Found?
    && w.loadError(w.packageNamed(name).value).None?
    && w.getObject(w.packageNamed(name).value, op.RedirectIndex).Found?
    && w.objectLoadError(w.getObject(w.packageNamed(name).value, op.RedirectIndex).value).None?
  }

  /**
    What the redirect branch records: an empty package prefix is refused with one error and nothing else;
    a target package that is not found changes nothing; the conversion is written exactly when the target
    and its object resolve, and then nothing else changes; a missing target object records one error.
  */
  lemma RedirectWrites(w: World, op: Operation, package: PackageId, o: ObjectId, st: State)
    ensures var r := RedirectEntry(w, op, package, o, st);
            var who := w.packageName(package);
            var name := RedirectPackageName(op.RedirectPath);
            && (name == "" ==> r == AddErr(st, who, "Failed to get target package!"))
            && (name != "" && w.packageNamed(name).NotFound? ==> r == st)
            && (RedirectResolves(w, op) ==>
                  var t := w.packageNamed(name).value;
                  r == st.(edits := st.edits + [Redirect(package, o, w.getObject(t, op.RedirectIndex).value)]))
            && (!RedirectResolves(w, op) ==> r.edits == st.edits)
            && (name != "" && w.packageNamed(name).Found? &&
                w.loadError(w.packageNamed(name).value).None? &&
                w.getObject(w.packageNamed(name).value, op.RedirectIndex).NotFound? ==>
                  r == AddErr(st, who, "Failed to get redirected object!"))
  {
  }

  lemma ActOnKeeps(w: World, op: Operation, package: PackageId, o: ObjectId, st: State)
    ensures ActStep(w, st, ActOn(w, op, package, o, st))
  {
    if |op.ImportPath| > 0 {
      ImportPrecedence(w, op, package, o, st);
    } else if |op.RedirectPath| > 0 {
      RedirectKeeps(w, op, package, o, st);
    }
  }

  lemma ProcessKeeps(w: World, op: Operation, i: nat, j: nat, item: Entry, st: State)
    ensures ActStep(w, st, ProcessEntry(w, op, i, j, item, st))
  {
    if item.Enabled && (i, j) in st.itemPackage {
      var package := st.itemPackage[(i, j)];
      var lookup := w.getObject(package, item.Index);
      if lookup.Found? && w.objectLoadError(lookup.value).None? {
        ActOnKeeps(w, op, package, lookup.value, st);
      }
    }
  }

  /** Phase 1 on one entry: the list grows by at most one package it did not contain, and only the entry's slot of the item map changes. */
  lemma ResolveKeeps(w: World, i: nat, j: nat, item: Entry, st: State)
    ensures var r := ResolveEntry(w, i, j, item, st);
            && r.edits == st.edits && r.saves == st.saves && r.ctxError == st.ctxError
            && (r.packages == st.packages || exists p :: p !in st.packages && r.packages == st.packages + [p])
            && KeepsAccount(st, r)
            && (NoThrow(w) ==> r.leaked == st.leaked)
            && (r.leaked != st.leaked <==>
                  item.Enabled && w.packageNamed(item.PackageName).Found? &&
                  w.loadError(w.packageNamed(item.PackageName).value).Some?)
            && (r.leaked != st.leaked ==>
                  var p := w.packageNamed(item.PackageName).value;
                  r.leaked == st.leaked + multiset{p} && r.held == st.held + multiset{p})
  {
    if item.Enabled && w.packageNamed(item.PackageName).Found? {
      var p := w.packageNamed(item.PackageName).value;
      if w.loadError(p).None? && p !in st.packages {
        assert multiset(st.packages + [p]) == multiset(st.packages) + multiset{p};
      }
    }
  }

  /**
    Phase 1 on one entry: a disabled entry changes nothing; an enabled one whose package is not found or
    does not load records exactly one error against the entry's package name and binds nothing; one
    that loads records no error.
  */
  lemma ResolveReports(w: World, i: nat, j: nat, item: Entry, st: State)
    ensures var r := ResolveEntry(w, i, j, item, st);
            && (!item.Enabled ==> r == st)
            && (item.Enabled && !Loads(w, item) ==>
                  && |r.errors| == |st.errors| + 1 && r.errors[..|st.errors|] == st.errors
                  && r.errors[|st.errors|].0 == item.PackageName
                  && r.itemPackage == st.itemPackage && r.packages == st.packages)
            && (Loads(w, item) ==> r.errors == st.errors)
  {
  }

  /** The entry's object is read and loads without an exception. */
  predicate ObjectLoads(w: World, package: PackageId, item: Entry)
  {
    w.getObject(package, item.Index).Found? && w.objectLoadError(w.getObject(package, item.Index).value).None?
  }

  /**
    Phase 3 on one entry: a disabled entry or one without a package changes nothing; one whose object
    cannot be read or loaded records exactly one error against the entry's package name and changes
    nothing else.
  */
  lemma ProcessReports(w: World, op: Operation, i: nat, j: nat, item: Entry, st: State)
    ensures var r := ProcessEntry(w, op, i, j, item, st);
            && (!item.Enabled || (i, j) !in st.itemPackage ==> r == st)
            && (item.Enabled && (i, j) in st.itemPackage && !ObjectLoads(w, st.itemPackage[(i, j)], item) ==>
                  && r == st.(errors := r.errors)
                  && |r.errors| == |st.errors| + 1 && r.errors[..|st.errors|] == st.errors
                  && r.errors[|st.errors|].0 == item.PackageName)
  {
  }

  /**
    What any run of entries of one phase keeps: the save attempts; the list stays free of duplicates and
    does not change in phase 3; phase 1 writes no object; acquisitions stay accounted for; and none is
    abandoned unless something throws.
  */
  ghost predicate Evolves(phase: Phase, w: World, a: State, b: State)
  {
    && b.saves == a.saves
    && (NoDup(a.packages) ==> NoDup(b.packages))
    && (phase == Act ==> b.packages == a.packages)
    && (phase == Resolve ==> b.edits == a.edits)
    && KeepsAccount(a, b)
    && (NoThrow(w) ==> b.leaked == a.leaked)
  }

  lemma EvolvesTransitive(phase: Phase, w: World, a: State, b: State, c: State)
    requires Evolves(phase, w, a, b) && Evolves(phase, w, b, c)
    ensures Evolves(phase, w, a, c)
  {
    forall x
      ensures (c.held + multiset(a.packages) + a.leaked)[x] == (a.held + multiset(c.packages) + c.leaked)[x]
    {
      assert (b.held + multiset(a.packages) + a.leaked)[x] == (a.held + multiset(b.packages) + b.leaked)[x];
      assert (c.held + multiset(b.packages) + b.leaked)[x] == (b.held + multiset(c.packages) + c.leaked)[x];
    }
  }

  lemma StepEvolves(phase: Phase, w: World, op: Operation, i: nat, j: nat, item: Entry, st: State)
    ensures Evolves(phase, w, st, EntryStep(phase, w, op, i, j, item, st))
  {
    match phase
    case Resolve =>
      var r := ResolveEntry(w, i, j, item, st);
      ResolveKeeps(w, i, j, item, st);
      if r.packages != st.packages {
        var p :| p !in st.packages && r.packages == st.packages + [p];
        if NoDup(st.packages) {
          NoDupAppend(st.packages, p);
        }
      }
    case Act =>
      ProcessKeeps(w, op, i, j, item, st);
  }

  lemma AccountCarries(st: State, r: State, base: multiset<PackageId>)
    requires Accounted(st, base) && KeepsAccount(st, r)
    ensures Accounted(r, base)
  {
    forall x
      ensures r.held[x] == (base + multiset(r.packages) + r.leaked)[x]
    {
      assert (r.held + multiset(st.packages) + st.leaked)[x] == (st.held + multiset(r.packages) + r.leaked)[x];
    }
  }

  lemma NoDupAppend(s: seq<PackageId>, p: PackageId)
    requires NoDup(s) && p !in s
    ensures NoDup(s + [p])
  {
  }

  // ---------------------------------------------------------------------------------------------
  // The loops: facts about `Fold` for any step with a property, then the steps that have it

  lemma {:induction false} FoldEvolves<X>(phase: Phase, w: World, step: (nat, X, State) -> State, xs: seq<X>, m: nat, st: State)
    requires m <= |xs|
    requires forall j, x, s :: Evolves(phase, w, s, step(j, x, s))
    ensures Evolves(phase, w, st, Fold(step, xs, m, st))
  {
    if m > 0 {
      var prev := Fold(step, xs, m - 1, st);
      FoldEvolves(phase, w, step, xs, m - 1, st);
      EvolvesTransitive(phase, w, st, prev, Fold(step, xs, m, st));
    }
  }

  lemma EntryFnEvolves(phase: Phase, w: World, op: Operation, i: nat)
    ensures forall j, x, s :: Evolves(phase, w, s, EntryFn(phase, w, op, i)(j, x, s))
  {
    forall j: nat, x: Entry, s: State
      ensures Evolves(phase, w, s, EntryFn(phase, w, op, i)(j, x, s))
    {
      StepEvolves(phase, w, op, i, j, x, s);
    }
  }

  lemma OperationFnEvolves(phase: Phase, w: World)
    ensures forall i, op, s :: Evolves(phase, w, s, OperationFn(phase, w)(i, op, s))
  {
    forall i: nat, op: Operation, s: State
      ensures Evolves(phase, w, s, OperationFn(phase, w)(i, op, s))
    {
      if op.Valid {
        EntryFnEvolves(phase, w, op, i);
        FoldEvolves(phase, w, EntryFn(phase, w, op, i), op.Entries, |op.Entries|, s);
      }
    }
  }

  /** One more entry of phase 1 extends the fold by that entry's step. */
  lemma ResolveFoldStep(w: World, op: Operation, i: nat, j: nat, before: State, prev: State, now: State)
    requires j < |op.Entries|
    requires prev == Fold(EntryFn(Resolve, w, op, i), op.Entries, j, before)
    requires now == ResolveEntry(w, i, j, op.Entries[j], prev)
    ensures now == Fold(EntryFn(Resolve, w, op, i), op.Entries, j + 1, before)
  {
  }

  /** One more entry of phase 3 extends the fold by that entry's step. */
  lemma ActFoldStep(w: World, op: Operation, i: nat, j: nat, before: State, prev: State, now: State)
    requires j < |op.Entries|
    requires prev == Fold(EntryFn(Act, w, op, i), op.Entries, j, before)
    requires now == ProcessEntry(w, op, i, j, op.Entries[j], prev)
    ensures now == Fold(EntryFn(Act, w, op, i), op.Entries, j + 1, before)
  {
  }

  /** Any prefix of the operations of one phase keeps what `Evolves` names. */
  lemma OperationsEvolve(phase: Phase, w: World, ops: seq<Operation>, n: nat, st: State)
    requires n <= |ops|
    ensures Evolves(phase, w, st, Operations(phase, w, ops, n, st))
  {
    OperationFnEvolves(phase, w);
    FoldEvolves(phase, w, OperationFn(phase, w), ops, n, st);
  }

  /** A step leaves the list empty exactly when it was empty and the element is quiet; then so does the fold, for quiet elements. */
  lemma {:induction false} FoldQuietIff<X>(step: (nat, X, State) -> State, xs: seq<X>, m: nat, st: State, quiet: X -> bool)
    requires m <= |xs|
    requires forall j, x, s :: |step(j, x, s).packages| == 0 <==> |s.packages| == 0 && quiet(x)
    ensures |Fold(step, xs, m, st).packages| == 0 <==> |st.packages| == 0 && forall j :: 0 <= j < m ==> quiet(xs[j])
  {
    if m > 0 {
      FoldQuietIff(step, xs, m - 1, st, quiet);
    }
  }

  /** An operation whose entries phase 1 leaves unlisted: an invalid one, or one where no enabled entry's package loads. */
  predicate QuietOp(w: World, op: Operation)
  {
    op.Valid ==> forall j :: 0 <= j < |op.Entries| ==> !Loads(w, op.Entries[j])
  }

  lemma EntryFnQuiet(w: World, op: Operation, i: nat)
    ensures forall j, x, s :: |EntryFn(Resolve, w, op, i)(j, x, s).packages| == 0 <==> |s.packages| == 0 && !Loads(w, x)
  {
    forall j: nat, x: Entry, s: State
      ensures |EntryFn(Resolve, w, op, i)(j, x, s).packages| == 0 <==> |s.packages| == 0 && !Loads(w, x)
    {
      ResolveKeeps(w, i, j, x, s);
    }
  }

  lemma OperationFnQuiet(w: World)
    ensures forall i, op, s :: |OperationFn(Resolve, w)(i, op, s).packages| == 0 <==> |s.packages| == 0 && QuietOp(w, op)
  {
    forall i: nat, op: Operation, s: State
      ensures |OperationFn(Resolve, w)(i, op, s).packages| == 0 <==> |s.packages| == 0 && QuietOp(w, op)
    {
      if op.Valid {
        EntryFnQuiet(w, op, i);
        FoldQuietIff(EntryFn(Resolve, w, op, i), op.Entries, |op.Entries|, s, e => !Loads(w, e));
      }
    }
  }

  /** Phase 1 lists some package exactly when some enabled entry of a valid operation loads (or one was listed before). */
  lemma OperationsListIff(w: World, ops: seq<Operation>, n: nat, st: State)
    requires n <= |ops|
    ensures |Operations(Resolve, w, ops, n, st).packages| == 0 <==>
              |st.packages| == 0 &&
              forall i, j :: 0 <= i < n && ops[i].Valid && 0 <= j < |ops[i].Entries| ==> !Loads(w, ops[i].Entries[j])
  {
    OperationFnQuiet(w);
    FoldQuietIff(OperationFn(Resolve, w), ops, n, st, op => QuietOp(w, op));
    assert (forall i :: 0 <= i < n ==> QuietOp(w, ops[i])) <==>
           (forall i, j :: 0 <= i < n && ops[i].Valid && 0 <= j < |ops[i].Entries| ==> !Loads(w, ops[i].Entries[j]));
  }

  // ---------------------------------------------------------------------------------------------
  // Phase 4

  /** One package of phase 4: one save attempt appended, one acquisition released, the rest kept apart from errors and the context's error text. */
  ghost predicate SaveStep(w: World, dir: string, p: PackageId, st: State, r: State)
  {
    r == st.(errors := r.errors, held := st.held - multiset{p}, saves := st.saves + [(p, SavePath(dir, w.packageName(p)))], ctxError := r.ctxError)
  }

  lemma SavePackageStep(w: World, dir: string, p: PackageId, s: State)
    ensures SaveStep(w, dir, p, s, SavePackage(w, dir, p, s))
  {
    var who := w.packageName(p);
    var path := SavePath(dir, who);
    var out := w.save(p, path, s.ctxError);
    var st1 := s.(saves := s.saves + [(p, path)], ctxError := out.ctxError);
    var st2 := match out.kind
      case Saved => st1
      case NotSaved => AddErr(st1, who, out.ctxError)
      case SaveThrew(e) => AddErr(st1, who, if |out.ctxError| > 0 then out.ctxError else e)
      case SaveThrewUnknown => AddErr(st1, who, "Unknown error while saving");
    assert SavePackage(w, dir, p, s) == st2.(held := st2.held - multiset{p});
  }

  lemma SaveFnSteps(w: World, dir: string)
    ensures forall k, p, s :: SaveStep(w, dir, p, s, SaveFn(w, dir)(k, p, s))
  {
    forall k: nat, p: PackageId, s: State
      ensures SaveStep(w, dir, p, s, SaveFn(w, dir)(k, p, s))
    {
      SavePackageStep(w, dir, p, s);
    }
  }

  lemma {:induction false} FoldReleases(w: World, dir: string, step: (nat, PackageId, State) -> State, pkgs: seq<PackageId>, k: nat, st: State, base: multiset<PackageId>)
    requires k <= |pkgs|
    requires forall j, p, s :: SaveStep(w, dir, p, s, step(j, p, s))
    requires st.held == base + multiset(pkgs) + st.leaked
    ensures var r := Fold(step, pkgs, k, st);
            && r.held == base + multiset(pkgs[k..]) + st.leaked
            && r.leaked == st.leaked
            && r.packages == st.packages && r.edits == st.edits && r.itemPackage == st.itemPackage
  {
    if k == 0 {
      assert pkgs[0..] == pkgs;
    } else {
      FoldReleases(w, dir, step, pkgs, k - 1, st, base);
      TailRelease(pkgs, k, base, st.leaked);
    }
  }

  lemma {:induction false} FoldSaves(w: World, dir: string, step: (nat, PackageId, State) -> State, pkgs: seq<PackageId>, k: nat, st: State)
    requires k <= |pkgs|
    requires forall j, p, s :: SaveStep(w, dir, p, s, step(j, p, s))
    ensures Fold(step, pkgs, k, st).saves == st.saves + SavePlan(w, dir, pkgs[..k])
  {
    if k == 0 {
      assert SavePlan(w, dir, pkgs[..0]) == [];
    } else {
      FoldSaves(w, dir, step, pkgs, k - 1, st);
      SavePlanStep(w, dir, pkgs, k);
    }
  }

  /** Phase 4 releases one acquisition per listed package and changes nothing phases 1 and 3 built. */
  lemma SaveAllReleases(w: World, dir: string, pkgs: seq<PackageId>, st: State, base: multiset<PackageId>)
    requires st.held == base + multiset(pkgs) + st.leaked
    ensures var r := SaveAll(w, dir, pkgs, |pkgs|, st);
            && r.held == base + st.leaked
            && r.leaked == st.leaked
            && r.packages == st.packages && r.edits == st.edits && r.itemPackage == st.itemPackage
  {
    SaveFnSteps(w, dir);
    FoldReleases(w, dir, SaveFn(w, dir), pkgs, |pkgs|, st, base);
    assert pkgs[|pkgs|..] == [];
  }

  /** Phase 4 makes one save attempt per listed package, in list order. */
  lemma SaveAllSaves(w: World, dir: string, pkgs: seq<PackageId>, st: State)
    ensures SaveAll(w, dir, pkgs, |pkgs|, st).saves == st.saves + SavePlan(w, dir, pkgs)
  {
    SaveFnSteps(w, dir);
    FoldSaves(w, dir, SaveFn(w, dir), pkgs, |pkgs|, st);
    assert pkgs[..|pkgs|] == pkgs;
  }

  lemma TailRelease(pkgs: seq<PackageId>, k: nat, base: multiset<PackageId>, leaked: multiset<PackageId>)
    requires 0 < k <= |pkgs|
    ensures (base + multiset(pkgs[k - 1..]) + leaked) - multiset{pkgs[k - 1]} == base + multiset(pkgs[k..]) + leaked
  {
    assert pkgs[k - 1..] == [pkgs[k - 1]] + pkgs[k..];
    assert multiset(pkgs[k - 1..]) == multiset{pkgs[k - 1]} + multiset(pkgs[k..]);
  }

  lemma SavePlanStep(w: World, dir: string, pkgs: seq<PackageId>, k: nat)
    requires 0 < k <= |pkgs|
    ensures SavePlan(w, dir, pkgs[..k]) == SavePlan(w, dir, pkgs[..k - 1]) + [(pkgs[k - 1], SavePath(dir, w.packageName(pkgs[k - 1])))]
  {
  }

  // ---------------------------------------------------------------------------------------------
  // The whole run

  /** The package list phase 1 builds has no duplicates, and the acquisitions held are the base plus the list plus the abandoned ones. */
  lemma ResolveFacts(w: World, ops: seq<Operation>, st: State)
    ensures var s1 := AfterResolve(w, ops, st);
            && NoDup(s1.packages)
            && s1.held == st.held + multiset(s1.packages) + s1.leaked
            && s1.saves == st.saves
            && (NoThrow(w) ==> s1.leaked == multiset{})
  {
    var s1 := AfterResolve(w, ops, st);
    OperationsEvolve(Resolve, w, ops, |ops|, Start(st));
    AccountCarries(Start(st), s1, st.held);
  }

  /** Phase 3 keeps the list and the accounting phase 1 left. */
  lemma ActFacts(w: World, ops: seq<Operation>, st: State)
    ensures var s1 := AfterResolve(w, ops, st);
            var s3 := Operations(Act, w, ops, |ops|, s1);
            && s3.packages == s1.packages
            && s3.held == st.held + multiset(s3.packages) + s3.leaked
            && s3.saves == st.saves
            && (NoThrow(w) ==> s3.leaked == multiset{})
  {
    var s1 := AfterResolve(w, ops, st);
    ResolveFacts(w, ops, st);
    OperationsEvolve(Act, w, ops, |ops|, s1);
    AccountCarries(s1, Operations(Act, w, ops, |ops|, s1), st.held);
  }

  /** Every acquisition the run makes is released, except the ones abandoned when a `Load` or `GetObject` throws. */
  lemma ExecuteReleases(w: World, ops: seq<Operation>, dir: string, st: State)
    ensures var r := Execute(w, ops, dir, st).state;
            && r.held == st.held + r.leaked
            && (NoThrow(w) ==> r.held == st.held && r.leaked == multiset{})
  {
    var s1 := AfterResolve(w, ops, st);
    ResolveFacts(w, ops, st);
    if |s1.packages| > 0 {
      var s3 := Operations(Act, w, ops, |ops|, s1);
      ActFacts(w, ops, st);
      SaveAllReleases(w, dir, s3.packages, s3.(ctxError := ""), st.held);
    }
  }

  /**
    A run that gets past the guard makes one save attempt per listed package, in list order, to
    `<dir>\<name>.gpk`; since the list has no duplicates, each package is saved exactly once. A run
    stopped by the guard saves nothing.
  */
  lemma ExecuteSavesEachOnce(w: World, ops: seq<Operation>, dir: string, st: State)
    ensures var run := Execute(w, ops, dir, st);
            var s1 := AfterResolve(w, ops, st);
            && (run.ok ==> run.state.saves == st.saves + SavePlan(w, dir, s1.packages)
                           && Firsts(SavePlan(w, dir, s1.packages)) == s1.packages
                           && NoDup(s1.packages))
            && (!run.ok ==> run.state.saves == st.saves)
  {
    var s1 := AfterResolve(w, ops, st);
    ResolveFacts(w, ops, st);
    if |s1.packages| > 0 {
      var s3 := Operations(Act, w, ops, |ops|, s1);
      ActFacts(w, ops, st);
      SaveAllSaves(w, dir, s3.packages, s3.(ctxError := ""));
    }
  }

  /** The run starts from a cleared error list: what was recorded before has no effect on it. */
  lemma ExecuteIgnoresOldErrors(w: World, ops: seq<Operation>, dir: string, st: State, earlier: seq<(string, string)>)
    ensures Execute(w, ops, dir, st.(errors := earlier)) == Execute(w, ops, dir, st)
  {
    assert Start(st.(errors := earlier)) == Start(st);
  }

  /**
    The run stops after phase 1, with exactly one error more than phase 1 recorded and no object touched,
    exactly when no enabled entry of a valid operation has a package that loads.
  */
  lemma ExecuteGuard(w: World, ops: seq<Operation>, dir: string, st: State)
    ensures var run := Execute(w, ops, dir, st);
            && (!run.ok <==> forall i, j :: 0 <= i < |ops| && ops[i].Valid && 0 <= j < |ops[i].Entries| ==> !Loads(w, ops[i].Entries[j]))
            && (!run.ok ==> run.state.errors == AfterResolve(w, ops, st).errors + [("General", "Nothing to do!")]
                            && run.state.edits == st.edits)
  {
    OperationsListIff(w, ops, |ops|, Start(st));
    OperationsEvolve(Resolve, w, ops, |ops|, Start(st));
  }

  // ---------------------------------------------------------------------------------------------
  // Import decisions

  /**
    A texture import is planned exactly when the lower-cased extension is tga, png or dds and the texture's
    pixel format is one the processor writes; the plan then reads the file named, copies sRGB and both
    address modes, is a normal map exactly for the four normal-map settings, never generates mips, and
    writes back the texture's own pixel format. A refusal carries the bad-extension text, or the
    bad-format text when the extension is good.
  */
  lemma TexturePlanFacts(tex: Texture, source: string)
    ensures var plan := TexturePlan(tex, source);
            && (plan.Success? <==>
                  ToLower(FileExtension(source)) in {"tga", "png", "dds"} &&
                  tex.Format in {PF_DXT1, PF_DXT3, PF_DXT5, PF_A8R8G8B8, PF_G8})
            && (plan.Success? ==>
                  var cfg := plan.value;
                  && cfg.input in {TGA, PNG, DDS}
                  && cfg.inputPath == source
                  && PixelFormatOf(cfg.output) == Some(tex.Format)
                  && cfg.srgb == tex.SRGB
                  && (cfg.normal <==> IsNormalMap(tex.CompressionSettings))
                  && !cfg.generateMips
                  && cfg.addressX == tex.AddressX && cfg.addressY == tex.AddressY)
            && (ToLower(FileExtension(source)) !in {"tga", "png", "dds"} ==>
                  plan == Failure("Can't import " + ToLower(FileExtension(source)) + " files"))
            && (ToLower(FileExtension(source)) in {"tga", "png", "dds"} && tex.Format !in {PF_DXT1, PF_DXT3, PF_DXT5, PF_A8R8G8B8, PF_G8} ==>
                  plan == Failure("Can't import to textures with 0x" + DecimalString(tex.Format) + " pixel format."))
  {
    OutputFormatRoundTrip(tex.Format);
  }

  /** `r` extends `st`'s errors by at most one and its writes by at most one, and records at least one of the two. */
  ghost predicate Reports(st: State, r: State)
  {
    && |st.errors| <= |r.errors| <= |st.errors| + 1 && r.errors[..|st.errors|] == st.errors
    && |st.edits| <= |r.edits| <= |st.edits| + 1 && r.edits[..|st.edits|] == st.edits
    && |st.errors| + |st.edits| < |r.errors| + |r.edits|
  }

  /** An import never passes silently: it writes the object, records an error, or both, once each at most, and changes nothing else. */
  lemma TextureImportReports(w: World, package: PackageId, o: Option<ObjectId>, source: string, st: State)
    ensures var r := TextureImport(w, package, o, source, st);
            OnlyErrorsAndEdits(st, r) && Reports(st, r)
  {
    if o.Some? {
      var plan := TexturePlan(w.textureOf(o.value), source);
      if plan.Success? {
        var res := w.process(plan.value);
      }
    }
  }

  lemma SoundImportReports(w: World, package: PackageId, o: Option<ObjectId>, source: string, st: State)
    ensures var r := SoundImport(w, package, o, source, st);
            OnlyErrorsAndEdits(st, r) && Reports(st, r)
  {
    if o.Some? && |w.readFile(source)| > 0 {
      var r := SoundImport(w, package, o, source, st);
      assert r.edits == st.edits + [SoundVisit(o.value, w.readFile(source))];
    }
  }

  lemma UntypedImportReports(w: World, package: PackageId, o: Option<ObjectId>, source: string, st: State)
    ensures var r := UntypedImport(w, package, o, source, st);
            OnlyErrorsAndEdits(st, r) && Reports(st, r)
  {
  }

  /** A texture is written exactly when it is a texture, its import is planned and the processor succeeds; the write carries the processor's mips in the texture's own format. */
  lemma TextureImportWrites(w: World, package: PackageId, o: Option<ObjectId>, source: string, st: State)
    ensures var r := TextureImport(w, package, o, source, st);
            && (r.edits != st.edits <==>
                  o.Some? && TexturePlan(w.textureOf(o.value), source).Success? &&
                  w.process(TexturePlan(w.textureOf(o.value), source).value).ok)
            && (r.edits != st.edits ==>
                  var tex := w.textureOf(o.value);
                  r.edits == st.edits + [TextureVisit(o.value, tex.Format, tex.AddressX, tex.AddressY,
                                                      w.process(TexturePlan(tex, source).value).mips)])
  {
  }

  /** Sound data and raw data are written exactly when the object has the right kind and the file is not empty, and the write carries the whole file. */
  lemma DataImportsWrite(w: World, package: PackageId, o: Option<ObjectId>, source: string, st: State)
    ensures var r := SoundImport(w, package, o, source, st);
            && (r.edits != st.edits <==> o.Some? && |w.readFile(source)| > 0)
            && (r.edits != st.edits ==> r.edits == st.edits + [SoundVisit(o.value, w.readFile(source))])
            && (o.Some? && |w.readFile(source)| == 0 ==> r == AddErr(st, w.packageName(package), "File is empty: " + source))
    ensures var r := UntypedImport(w, package, o, source, st);
            && (r.edits != st.edits <==> o.Some? && |w.readFile(source)| > 0)
            && (r.edits != st.edits ==> r.edits == st.edits + [RawData(o.value, w.readFile(source))] && r.errors == st.errors)
            && (o.Some? && |w.readFile(source)| == 0 ==> r == AddErr(st, w.packageName(package), "File is empty: " + source))
  {
  }

  /** An operation with an import file never redirects: which helper runs depends on the class name alone. */
  lemma ImportPrecedence(w: World, op: Operation, package: PackageId, o: ObjectId, st: State)
    requires |op.ImportPath| > 0
    ensures var r := ActOn(w, op, package, o, st);
            && OnlyErrorsAndEdits(st, r)
            && Reports(st, r)
            && (forall k :: |st.edits| <= k < |r.edits| ==> !r.edits[k].Redirect?)
  {
    var r := ActOn(w, op, package, o, st);
    if op.ClassName == TEXTURE2D_CLASS {
      var t := if w.isTexture(o) then Some(o) else None;
      assert r == TextureImport(w, package, t, op.ImportPath, st);
      TextureImportReports(w, package, t, op.ImportPath, st);
      TextureImportWrites(w, package, t, op.ImportPath, st);
    } else if op.ClassName == SOUND_NODE_WAVE_CLASS {
      var t := if w.isSoundNodeWave(o) then Some(o) else None;
      assert r == SoundImport(w, package, t, op.ImportPath, st);
      SoundImportReports(w, package, t, op.ImportPath, st);
      DataImportsWrite(w, package, t, op.ImportPath, st);
    } else {
      assert r == UntypedImport(w, package, Some(o), op.ImportPath, st);
      UntypedImportReports(w, package, Some(o), op.ImportPath, st);
      DataImportsWrite(w, package, Some(o), op.ImportPath, st);
    }
  }

  // ---------------------------------------------------------------------------------------------
  // Which package each entry acts on

  /** The package an entry's name resolves to, when it loads. */
  function PackageOf(w: World, e: Entry): PackageId
    requires Loads(w, e)
  {
    w.packageNamed(e.PackageName).value
  }

  /** Slot `s` has the same binding, or the same absence of one, in both maps. */
  predicate SameBinding(a: map<Slot, PackageId>, b: map<Slot, PackageId>, s: Slot)
  {
    (s in a <==> s in b) && (s in a ==> a[s] == b[s])
  }

  /** The list of `r` extends that of `st`. */
  ghost predicate Grows(st: State, r: State)
  {
    |st.packages| <= |r.packages| && r.packages[..|st.packages|] == st.packages
  }

  /** Phase 1 on entry j of operation i, `x`: an entry that loads is bound to its package, now listed; no other slot changes; the list only grows. */
  ghost predicate BindStep(w: World, i: nat, j: nat, x: Entry, st: State, r: State)
  {
    && Grows(st, r)
    && (Loads(w, x) ==> r.itemPackage == st.itemPackage[(i, j) := PackageOf(w, x)] && PackageOf(w, x) in r.packages)
    && (!Loads(w, x) ==> r.itemPackage == st.itemPackage)
  }

  lemma ResolveBinds(w: World, i: nat, j: nat, x: Entry, st: State)
    ensures BindStep(w, i, j, x, st, ResolveEntry(w, i, j, x, st))
  {
  }

  lemma GrowsTransitive(a: State, b: State, c: State)
    requires Grows(a, b) && Grows(b, c)
    ensures Grows(a, c)
    ensures forall p :: p in b.packages ==> p in c.packages
  {
    assert c.packages[..|a.packages|] == c.packages[..|b.packages|][..|a.packages|];
    forall p | p in b.packages
      ensures p in c.packages
    {
      var k :| 0 <= k < |b.packages| && b.packages[k] == p;
      assert c.packages[k] == c.packages[..|b.packages|][k];
    }
  }

  /**
    A fold of phase-1 steps over the first m entries of operation i: each entry that loads is bound to its
    package, which is listed; every other slot, including those of entries that do not load, keeps its
    binding; and the list only grows.
  */
  lemma {:induction false} FoldBinds(w: World, i: nat, step: (nat, Entry, State) -> State, xs: seq<Entry>, m: nat, st: State)
    requires m <= |xs|
    requires forall j, x, s :: BindStep(w, i, j, x, s, step(j, x, s))
    ensures var r := Fold(step, xs, m, st);
            && Grows(st, r)
            && (forall j :: 0 <= j < m && Loads(w, xs[j]) ==>
                  (i, j) in r.itemPackage && r.itemPackage[(i, j)] == PackageOf(w, xs[j]) && PackageOf(w, xs[j]) in r.packages)
            && (forall s: Slot :: !(s.0 == i && s.1 < m && Loads(w, xs[s.1])) ==> SameBinding(st.itemPackage, r.itemPackage, s))
  {
    if m > 0 {
      FoldBinds(w, i, step, xs, m - 1, st);
      var prev := Fold(step, xs, m - 1, st);
      var r := step(m - 1, xs[m - 1], prev);
      GrowsTransitive(st, prev, r);
    } else {
      assert st.packages[..|st.packages|] == st.packages;
    }
  }

  /** Phase 1 on operation i, `op`: every enabled entry whose package loads is bound to it and it is listed; no other slot changes. */
  ghost predicate OpBind(w: World, i: nat, op: Operation, st: State, r: State)
  {
    && Grows(st, r)
    && (forall j :: op.Valid && 0 <= j < |op.Entries| && Loads(w, op.Entries[j]) ==>
          (i, j) in r.itemPackage && r.itemPackage[(i, j)] == PackageOf(w, op.Entries[j]) && PackageOf(w, op.Entries[j]) in r.packages)
    && (forall s: Slot :: !(s.0 == i && op.Valid && s.1 < |op.Entries| && Loads(w, op.Entries[s.1])) ==>
          SameBinding(st.itemPackage, r.itemPackage, s))
  }

  lemma OperationFnBinds(w: World)
    ensures forall i, op, s :: OpBind(w, i, op, s, OperationFn(Resolve, w)(i, op, s))
  {
    forall i: nat, op: Operation, s: State
      ensures OpBind(w, i, op, s, OperationFn(Resolve, w)(i, op, s))
    {
      if op.Valid {
        forall j: nat, x: Entry, t: State
          ensures BindStep(w, i, j, x, t, EntryFn(Resolve, w, op, i)(j, x, t))
        {
          ResolveBinds(w, i, j, x, t);
        }
        FoldBinds(w, i, EntryFn(Resolve, w, op, i), op.Entries, |op.Entries|, s);
      } else {
        assert s.packages[..|s.packages|] == s.packages;
      }
    }
  }

  /** Slot s belongs to an enabled entry, of one of the first n operations that is valid, whose package loads. */
  predicate Bound(w: World, ops: seq<Operation>, n: nat, s: Slot)
    requires n <= |ops|
  {
    s.0 < n && ops[s.0].Valid && s.1 < |ops[s.0].Entries| && Loads(w, ops[s.0].Entries[s.1])
  }

  /**
    A fold of phase-1 steps over the first n operations: every enabled entry of a valid operation whose
    package loads is bound to that package, which is listed; every other slot keeps its binding.
  */
  lemma {:induction false} FoldOperationsBind(w: World, step: (nat, Operation, State) -> State, ops: seq<Operation>, n: nat, st: State)
    requires n <= |ops|
    requires forall i, op, s :: OpBind(w, i, op, s, step(i, op, s))
    ensures var r := Fold(step, ops, n, st);
            && Grows(st, r)
            && (forall i, j :: 0 <= i < n && ops[i].Valid && 0 <= j < |ops[i].Entries| && Loads(w, ops[i].Entries[j]) ==>
                  (i, j) in r.itemPackage && r.itemPackage[(i, j)] == PackageOf(w, ops[i].Entries[j]) &&
                  PackageOf(w, ops[i].Entries[j]) in r.packages)
            && (forall s: Slot :: !Bound(w, ops, n, s) ==> SameBinding(st.itemPackage, r.itemPackage, s))
  {
    if n > 0 {
      FoldOperationsBind(w, step, ops, n - 1, st);
      var prev := Fold(step, ops, n - 1, st);
      var r := step(n - 1, ops[n - 1], prev);
      assert OpBind(w, n - 1, ops[n - 1], prev, r);
      GrowsTransitive(st, prev, r);
      forall i, j | 0 <= i < n - 1 && ops[i].Valid && 0 <= j < |ops[i].Entries| && Loads(w, ops[i].Entries[j])
        ensures (i, j) in r.itemPackage && r.itemPackage[(i, j)] == PackageOf(w, ops[i].Entries[j])
      {
        assert SameBinding(prev.itemPackage, r.itemPackage, (i, j));
      }
      forall s: Slot | !Bound(w, ops, n, s)
        ensures SameBinding(st.itemPackage, r.itemPackage, s)
      {
        assert !Bound(w, ops, n - 1, s);
      }
    } else {
      assert st.packages[..|st.packages|] == st.packages;
    }
  }

  /**
    After phase 1, phase 3 acts on an entry's slot exactly when it is bound: every entry whose package loads
    is bound to it and it is listed (so it is saved); every other slot keeps the binding it had before
    the run, including a package from an earlier run.
  */
  lemma ResolveBindsAll(w: World, ops: seq<Operation>, st: State)
    ensures var s1 := AfterResolve(w, ops, st);
            && (forall i, j :: 0 <= i < |ops| && ops[i].Valid && 0 <= j < |ops[i].Entries| && Loads(w, ops[i].Entries[j]) ==>
                  (i, j) in s1.itemPackage && s1.itemPackage[(i, j)] == PackageOf(w, ops[i].Entries[j]) &&
                  PackageOf(w, ops[i].Entries[j]) in s1.packages)
            && (forall s: Slot :: !Bound(w, ops, |ops|, s) ==> SameBinding(st.itemPackage, s1.itemPackage, s))
  {
    OperationFnBinds(w);
    FoldOperationsBind(w, OperationFn(Resolve, w), ops, |ops|, Start(st));
  }

  /**
    As written, phase 1 never clears a binding: an enabled entry whose package does not load this run keeps
    the package it was bound to in an earlier run, which that run has already saved and unloaded, and
    phase 3 looks its object up in that package instead of skipping the entry.
  */
  lemma StaleBindingAsWritten(w: World, ops: seq<Operation>, st: State, i: nat, j: nat)
    requires i < |ops| && ops[i].Valid && j < |ops[i].Entries|
    requires ops[i].Entries[j].Enabled && !Loads(w, ops[i].Entries[j])
    requires (i, j) in st.itemPackage
    ensures var s1 := AfterResolve(w, ops, st);
            var item := ops[i].Entries[j];
            && (i, j) in s1.itemPackage && s1.itemPackage[(i, j)] == st.itemPackage[(i, j)]
            && (w.getObject(st.itemPackage[(i, j)], item.Index) == NotFound ==>
                  ProcessEntry(w, ops[i], i, j, item, s1).errors ==
                  s1.errors + [(item.PackageName, "Failed to read object!" + item.ObjectPath)])
  {
    ResolveBindsAll(w, ops, st);
    assert !Bound(w, ops, |ops|, (i, j));
    assert SameBinding(st.itemPackage, AfterResolve(w, ops, st).itemPackage, (i, j));
  }

  /**
    With the bindings cleared at the start, as `ExecuteIntended` does, a slot is bound after phase 1 exactly when its entry's package
    loads in this run, always to a listed package, and phase 3 skips every other entry.
  */
  lemma BindingsIntended(w: World, ops: seq<Operation>, st: State)
    ensures var s1 := AfterResolve(w, ops, st.(itemPackage := map[]));
            && (forall s: Slot :: s in s1.itemPackage <==> Bound(w, ops, |ops|, s))
            && (forall s: Slot :: s in s1.itemPackage ==> s1.itemPackage[s] in s1.packages)
            && (forall i: nat, j: nat :: i < |ops| && j < |ops[i].Entries| && !Loads(w, ops[i].Entries[j]) ==>
                  ProcessEntry(w, ops[i], i, j, ops[i].Entries[j], s1) == s1)
  {
    var s1 := AfterResolve(w, ops, st.(itemPackage := map[]));
    ResolveBindsAll(w, ops, st.(itemPackage := map[]));
    forall s: Slot | !Bound(w, ops, |ops|, s)
      ensures s !in s1.itemPackage
    {
      assert SameBinding(map[], s1.itemPackage, s);
    }
    forall s: Slot | s in s1.itemPackage
      ensures s1.itemPackage[s] in s1.packages
    {
      assert Bound(w, ops, |ops|, s);
    }
    forall i: nat, j: nat | i < |ops| && j < |ops[i].Entries| && !Loads(w, ops[i].Entries[j])
      ensures ProcessEntry(w, ops[i], i, j, ops[i].Entries[j], s1) == s1
    {
      assert !Bound(w, ops, |ops|, (i, j));
    }
  }
}

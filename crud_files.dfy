/** The files the code generators write, and the `createcrud` command over
    them: the package directories, one module per model and layer, the
    layer's `__init__.py`, the app's `urls.py` and `apps.py`, and the edits
    of the project's settings and URL modules. */
module CrudFiles {
  import opened Common
  import opened CreateCrud

  /** File contents by path, relative to the project root. */
  type Files = map<Path, string>

  /** The body of a generated module, from its layer, app and model. */
  type Render = (Layer, string, string) -> string

  const SettingsPath: Path := ["base", "core", "base.py"]
  const MainUrlsPath: Path := ["base", "urls.py"]

  const Layers: seq<Layer> := [Serializers, Views, Services]

  function PackageDir(dir: Path, l: Layer): Path {
    dir + [Package(l)]
  }

  function InitPath(dir: Path, l: Layer): Path {
    dir + [Package(l), "__init__.py"]
  }

  function ModulePath(dir: Path, l: Layer, model: string): Path {
    dir + [Package(l), FileName(l, model)]
  }

  function UrlsPath(dir: Path): Path {
    dir + ["urls.py"]
  }

  function AppsPath(dir: Path): Path {
    dir + ["apps.py"]
  }

  /** A path as the messages print it. */
  function JoinPath(p: Path): string {
    if p == [] then "" else if |p| == 1 then p[0] else p[0] + "/" + JoinPath(p[1..])
  }

  /** Two models of a layer share a module path exactly when their names
      agree up to case. */
  lemma ModulePathsCollideIff(dir: Path, l: Layer, a: string, b: string)
    ensures ModulePath(dir, l, a) == ModulePath(dir, l, b) <==> Lower(a) == Lower(b)
  {
    FileNamesCollideIff(l, a, b);
    if ModulePath(dir, l, a) == ModulePath(dir, l, b) {
      assert ModulePath(dir, l, a)[|dir| + 1] == FileName(l, a);
    }
  }

  // ---------------------------------------------------------------------------
  // Single-file steps

  /** `path.touch()`: an absent file becomes empty, a present one is kept. */
  function Touch(files: Files, p: Path): (r: Files)
    ensures r.Keys == files.Keys + {p}
    ensures p !in files ==> r[p] == ""
    ensures forall q :: q in files ==> r[q] == files[q]
  {
    if p in files then files else files[p := ""]
  }

  /** A generated file: written unless it exists and overwriting is off. */
  function WriteUnlessKept(files: Files, p: Path, text: string, overwrite: bool): (r: Files)
    ensures r.Keys == files.Keys + {p}
    ensures r[p] == (if p in files && !overwrite then files[p] else text)
    ensures forall q :: q in files && q != p ==> r[q] == files[q]
  {
    if p in files && !overwrite then files else files[p := text]
  }

  /** `add_to_installed_apps` on the files: without a settings module
      nothing changes. */
  function WithApp(files: Files, app: string): (r: Files)
    ensures r.Keys == files.Keys
    ensures SettingsPath in files ==> r[SettingsPath] == AddToInstalledApps(files[SettingsPath], app)
    ensures forall q :: q in files && q != SettingsPath ==> r[q] == files[q]
  {
    if SettingsPath in files then files[SettingsPath := AddToInstalledApps(files[SettingsPath], app)] else files
  }

  /** `add_to_main_urls` on the files: without a URL module nothing
      changes. */
  function WithRoutes(files: Files, app: string): (r: Files)
    ensures r.Keys == files.Keys
    ensures MainUrlsPath in files ==> r[MainUrlsPath] == AddToMainUrls(files[MainUrlsPath], app)
    ensures forall q :: q in files && q != MainUrlsPath ==> r[q] == files[q]
  {
    if MainUrlsPath in files then files[MainUrlsPath := AddToMainUrls(files[MainUrlsPath], app)] else files
  }

  // ---------------------------------------------------------------------------
  // Whole steps, as functions of the files before them

  /** `create_directories`' files: each layer's `__init__.py` touched, in
      the order of the layers. */
  function Packages(files: Files, dir: Path, ls: seq<Layer>): Files
    decreases |ls|
  {
    if ls == [] then files
    else Touch(Packages(files, dir, ls[..|ls| - 1]), InitPath(dir, ls[|ls| - 1]))
  }

  /** The package directories `create_directories` makes for `ls`. */
  function PackageDirs(dir: Path, ls: seq<Layer>): set<Path>
    decreases |ls|
  {
    if ls == [] then {}
    else PackageDirs(dir, ls[..|ls| - 1]) + {PackageDir(dir, ls[|ls| - 1])}
  }

  /** One more layer: its directory and its `__init__.py`. */
  lemma PackagesSnoc(files: Files, dir: Path, ls: seq<Layer>, l: Layer)
    ensures PackageDirs(dir, ls + [l]) == PackageDirs(dir, ls) + {PackageDir(dir, l)}
    ensures Packages(files, dir, ls + [l]) == Touch(Packages(files, dir, ls), InitPath(dir, l))
  {
    assert (ls + [l])[..|ls|] == ls;
  }

  lemma LayerPackageDirs(dir: Path)
    ensures PackageDirs(dir, Layers) == {PackageDir(dir, Serializers), PackageDir(dir, Views), PackageDir(dir, Services)}
  {
    assert Layers[..2] == [Serializers, Views];
    assert Layers[..2][..1] == [Serializers];
    assert [Serializers][..0] == [];
  }

  /** The module loop of a `generate_*` method: one module per model, each
      skipped when it exists and overwriting is off. */
  function Modules(files: Files, dir: Path, l: Layer, app: string, models: seq<string>, overwrite: bool,
                   render: Render): Files
    decreases |models|
  {
    if models == [] then files
    else
      var m := models[|models| - 1];
      WriteUnlessKept(Modules(files, dir, l, app, models[..|models| - 1], overwrite, render),
                      ModulePath(dir, l, m), render(l, app, m), overwrite)
  }

  /** A whole `generate_*` method: the modules, then the layer's
      `__init__.py`, which is always written. */
  function WithLayer(files: Files, dir: Path, l: Layer, app: string, models: seq<string>, overwrite: bool,
                     render: Render): Files
  {
    Modules(files, dir, l, app, models, overwrite, render)[InitPath(dir, l) := Unlines(InitLines(l, models))]
  }

  /** Everything a successful `createcrud` run leaves behind, step by step
      in the command's order. */
  function CrudFiles(files: Files, dir: Path, app: string, models: seq<string>, overwrite: bool,
                     render: Render): Files
  {
    WithRoutes(WithApp(ConfigStep(files, dir, app, models, overwrite, render), app), app)
  }

  /** The checks of `handle`, in order, and the models found. */
  function Outcome(exists_: bool, modelsFile: Path, parsed: Result<Node, string>): (r: Result<seq<string>, string>)
    ensures !exists_ ==> r == Err("Models file '" + JoinPath(modelsFile) + "' does not exist")
    ensures exists_ && parsed.Err? ==> r == Err("Error parsing models file: " + parsed.error)
    ensures r.Ok? <==> exists_ && parsed.Ok? && Collect(Walk(parsed.value)).0 != []
    ensures r.Ok? ==> r.value == Collect(Walk(parsed.value)).0
    ensures exists_ && parsed.Ok? && !r.Ok? ==> r == Err("No Django models found in '" + JoinPath(modelsFile) + "'")
  {
    if !exists_ then Err("Models file '" + JoinPath(modelsFile) + "' does not exist")
    else match parsed
      case Err(e) => Err("Error parsing models file: " + e)
      case Ok(tree) =>
        var names := Collect(Walk(tree)).0;
        if names == [] then Err("No Django models found in '" + JoinPath(modelsFile) + "'") else Ok(names)
  }

  // ---------------------------------------------------------------------------
  // Properties of the steps

  /** The module loop adds exactly the models' module paths. */
  lemma {:induction false} ModulesKeys(files: Files, dir: Path, l: Layer, app: string, models: seq<string>,
                                       overwrite: bool, render: Render, p: Path)
    ensures p in Modules(files, dir, l, app, models, overwrite, render) <==>
      p in files || exists i :: 0 <= i < |models| && p == ModulePath(dir, l, models[i])
    decreases |models|
  {
    if models != [] {
      var init := models[..|models| - 1];
      ModulesKeys(files, dir, l, app, init, overwrite, render, p);
      if exists i :: 0 <= i < |init| && p == ModulePath(dir, l, init[i]) {
        var i :| 0 <= i < |init| && p == ModulePath(dir, l, init[i]);
        assert p == ModulePath(dir, l, models[i]);
      }
      if exists i :: 0 <= i < |models| && p == ModulePath(dir, l, models[i]) {
        var i :| 0 <= i < |models| && p == ModulePath(dir, l, models[i]);
        if i < |init| {
          assert p == ModulePath(dir, l, init[i]);
        }
      }
    }
  }

  /** Without overwriting, an existing file is never touched. */
  lemma {:induction false} ModulesKeepExisting(files: Files, dir: Path, l: Layer, app: string, models: seq<string>,
                                               render: Render, p: Path)
    requires p in files
    ensures p in Modules(files, dir, l, app, models, false, render)
    ensures Modules(files, dir, l, app, models, false, render)[p] == files[p]
    decreases |models|
  {
    if models != [] {
      ModulesKeepExisting(files, dir, l, app, models[..|models| - 1], render, p);
    }
  }

  /** A file that is no model's module keeps its contents. */
  lemma {:induction false} ModulesLeaveOthers(files: Files, dir: Path, l: Layer, app: string, models: seq<string>,
                                              overwrite: bool, render: Render, p: Path)
    requires p in files
    requires forall i :: 0 <= i < |models| ==> ModulePath(dir, l, models[i]) != p
    ensures p in Modules(files, dir, l, app, models, overwrite, render)
    ensures Modules(files, dir, l, app, models, overwrite, render)[p] == files[p]
    decreases |models|
  {
    if models != [] {
      ModulesLeaveOthers(files, dir, l, app, models[..|models| - 1], overwrite, render, p);
    }
  }

  /** Without overwriting, a new module holds what was rendered for the
      first model that maps to it: a later model whose name differs only
      in case is skipped. */
  lemma {:induction false} FirstModuleWins(files: Files, dir: Path, l: Layer, app: string, models: seq<string>,
                                           render: Render, j: nat)
    requires j < |models| && ModulePath(dir, l, models[j]) !in files
    requires forall k :: 0 <= k < j ==> Lower(models[k]) != Lower(models[j])
    ensures ModulePath(dir, l, models[j]) in Modules(files, dir, l, app, models, false, render)
    ensures Modules(files, dir, l, app, models, false, render)[ModulePath(dir, l, models[j])]
      == render(l, app, models[j])
    decreases |models|
  {
    var p := ModulePath(dir, l, models[j]);
    var init := models[..|models| - 1];
    if j == |models| - 1 {
      if p in Modules(files, dir, l, app, init, false, render) {
        ModulesKeys(files, dir, l, app, init, false, render, p);
        var k :| 0 <= k < |init| && p == ModulePath(dir, l, init[k]);
        ModulePathsCollideIff(dir, l, init[k], models[j]);
      }
    } else {
      assert init[j] == models[j];
      forall k | 0 <= k < j
        ensures Lower(init[k]) != Lower(init[j])
      {
        assert init[k] == models[k];
      }
      FirstModuleWins(files, dir, l, app, init, render, j);
      ModulesKeys(files, dir, l, app, init, false, render, p);
      assert p in Modules(files, dir, l, app, init, false, render);
    }
  }

  /** With overwriting, a module holds what was rendered for the last model
      that maps to it. */
  lemma {:induction false} LastModuleWins(files: Files, dir: Path, l: Layer, app: string, models: seq<string>,
                                          render: Render, j: nat)
    requires j < |models|
    requires forall k :: j < k < |models| ==> Lower(models[k]) != Lower(models[j])
    ensures ModulePath(dir, l, models[j]) in Modules(files, dir, l, app, models, true, render)
    ensures Modules(files, dir, l, app, models, true, render)[ModulePath(dir, l, models[j])]
      == render(l, app, models[j])
    decreases |models|
  {
    var init := models[..|models| - 1];
    if j < |models| - 1 {
      assert init[j] == models[j];
      forall k | j < k < |init|
        ensures Lower(init[k]) != Lower(init[j])
      {
        assert init[k] == models[k];
      }
      LastModuleWins(files, dir, l, app, init, render, j);
      ModulePathsCollideIff(dir, l, models[|models| - 1], models[j]);
    }
  }

  lemma ModulesSnoc(files: Files, dir: Path, l: Layer, app: string, models: seq<string>, overwrite: bool,
                    render: Render, i: nat)
    requires i < |models|
    ensures Modules(files, dir, l, app, models[..i + 1], overwrite, render)
      == WriteUnlessKept(Modules(files, dir, l, app, models[..i], overwrite, render),
                         ModulePath(dir, l, models[i]), render(l, app, models[i]), overwrite)
  {
    assert models[..i + 1][..i] == models[..i];
  }

  /** `create_directories` keeps every file and makes each layer's
      `__init__.py` exist, empty when it was missing. */
  lemma {:induction false} PackagesTouchInits(files: Files, dir: Path, ls: seq<Layer>)
    ensures forall q :: q in files ==> q in Packages(files, dir, ls) && Packages(files, dir, ls)[q] == files[q]
    ensures forall i :: 0 <= i < |ls| ==> InitPath(dir, ls[i]) in Packages(files, dir, ls)
    ensures forall i :: 0 <= i < |ls| && InitPath(dir, ls[i]) !in files ==>
      Packages(files, dir, ls)[InitPath(dir, ls[i])] == ""
    ensures forall q :: q in Packages(files, dir, ls) ==> q in files || exists i :: 0 <= i < |ls| && q == InitPath(dir, ls[i])
    decreases |ls|
  {
    if ls != [] {
      var init := ls[..|ls| - 1];
      PackagesTouchInits(files, dir, init);
      forall i | 0 <= i < |ls| - 1
        ensures ls[i] == init[i]
      {
      }
    }
  }

  // ---------------------------------------------------------------------------
  // Paths the generators write never hit the project's own modules

  lemma GeneratedPathsAvoidSettings(dir: Path, l: Layer, m: string)
    ensures ModulePath(dir, l, m) != SettingsPath && InitPath(dir, l) != SettingsPath
    ensures UrlsPath(dir) != SettingsPath && AppsPath(dir) != SettingsPath
    ensures ModulePath(dir, l, m) != MainUrlsPath && InitPath(dir, l) != MainUrlsPath
    ensures AppsPath(dir) != MainUrlsPath
  {
    if |dir| == 1 {
      assert ModulePath(dir, l, m)[1] == Package(l);
      assert InitPath(dir, l)[1] == Package(l);
    }
    if |dir| == 0 {
      assert ModulePath(dir, l, m)[0] == Package(l);
      assert InitPath(dir, l)[0] == Package(l);
    }
    if |dir| == 2 {
      assert UrlsPath(dir)[2] == "urls.py";
      assert AppsPath(dir)[2] == "apps.py";
    }
    if |dir| == 1 {
      assert AppsPath(dir)[1] == "apps.py";
    }
  }

  /** After a run, the settings module is the old one with the app added. */
  lemma CrudAddsApp(files: Files, dir: Path, app: string, models: seq<string>, overwrite: bool, render: Render)
    requires SettingsPath in files
    ensures SettingsPath in CrudFiles(files, dir, app, models, overwrite, render)
    ensures CrudFiles(files, dir, app, models, overwrite, render)[SettingsPath]
      == AddToInstalledApps(files[SettingsPath], app)
  {
    ProjectModuleSurvives(files, dir, app, models, overwrite, render, SettingsPath);
    var added := WithApp(ConfigStep(files, dir, app, models, overwrite, render), app);
    assert SettingsPath[1] != MainUrlsPath[1];
    assert added[SettingsPath] == AddToInstalledApps(files[SettingsPath], app);
  }

  /** After a run, the URL module, when it is not the app's own `urls.py`,
      is the old one with the app's routes added. */
  lemma CrudAddsRoutes(files: Files, dir: Path, app: string, models: seq<string>, overwrite: bool, render: Render)
    requires MainUrlsPath in files && UrlsPath(dir) != MainUrlsPath
    ensures MainUrlsPath in CrudFiles(files, dir, app, models, overwrite, render)
    ensures CrudFiles(files, dir, app, models, overwrite, render)[MainUrlsPath]
      == AddToMainUrls(files[MainUrlsPath], app)
  {
    ProjectModuleSurvives(files, dir, app, models, overwrite, render, MainUrlsPath);
    var added := WithApp(ConfigStep(files, dir, app, models, overwrite, render), app);
    assert SettingsPath[1] != MainUrlsPath[1];
    assert added[MainUrlsPath] == files[MainUrlsPath];
  }

  /** The generation steps before the edits leave a project module as it
      was. */
  lemma ProjectModuleSurvives(files: Files, dir: Path, app: string, models: seq<string>, overwrite: bool,
                              render: Render, p: Path)
    requires p == SettingsPath || p == MainUrlsPath
    requires p in files && (p == MainUrlsPath ==> UrlsPath(dir) != MainUrlsPath)
    ensures var config := ConfigStep(files, dir, app, models, overwrite, render);
      p in config && config[p] == files[p]
  {
    GeneratedKeeps(files, dir, app, models, overwrite, render, p);
    GeneratedPathsAvoidSettings(dir, Serializers, "");
  }

  /** The shared generation steps leave a project module as it was, unless
      the app's `urls.py` is that module. */
  lemma GeneratedKeeps(files: Files, dir: Path, app: string, models: seq<string>, overwrite: bool,
                       render: Render, p: Path)
    requires p == SettingsPath || p == MainUrlsPath
    requires p in files && (p == MainUrlsPath ==> UrlsPath(dir) != MainUrlsPath)
    ensures var g := Generated(files, dir, app, models, overwrite, render);
      p in g && g[p] == files[p]
  {
    PackagesTouchInits(files, dir, Layers);
    var f0 := Packages(files, dir, Layers);
    LayerLeaves(f0, dir, Serializers, app, models, overwrite, render, p);
    var f1 := WithLayer(f0, dir, Serializers, app, models, overwrite, render);
    LayerLeaves(f1, dir, Views, app, models, overwrite, render, p);
    var f2 := WithLayer(f1, dir, Views, app, models, overwrite, render);
    LayerLeaves(f2, dir, Services, app, models, overwrite, render, p);
    GeneratedPathsAvoidSettings(dir, Serializers, "");
  }

  /** The files just before the two edits. */
  function ConfigStep(files: Files, dir: Path, app: string, models: seq<string>, overwrite: bool,
                      render: Render): Files
  {
    WriteUnlessKept(Generated(files, dir, app, models, overwrite, render),
                    AppsPath(dir), Unlines(AppsConfigLines(app)), overwrite)
  }

  /** The steps every generator shares: the packages, the three layers and
      the app's `urls.py`. */
  function Generated(files: Files, dir: Path, app: string, models: seq<string>, overwrite: bool,
                     render: Render): Files
  {
    var packaged := Packages(files, dir, Layers);
    var serializers := WithLayer(packaged, dir, Serializers, app, models, overwrite, render);
    var views := WithLayer(serializers, dir, Views, app, models, overwrite, render);
    var services := WithLayer(views, dir, Services, app, models, overwrite, render);
    WriteUnlessKept(services, UrlsPath(dir), Unlines(UrlsLines(app, models)), overwrite)
  }

  /** A generation step leaves a project module as it was. */
  lemma LayerLeaves(f: Files, dir: Path, l: Layer, app: string, models: seq<string>, overwrite: bool,
                    render: Render, p: Path)
    requires p == SettingsPath || p == MainUrlsPath
    requires p in f
    ensures p in WithLayer(f, dir, l, app, models, overwrite, render)
    ensures WithLayer(f, dir, l, app, models, overwrite, render)[p] == f[p]
  {
    forall k | 0 <= k < |models|
      ensures ModulePath(dir, l, models[k]) != p
    {
      GeneratedPathsAvoidSettings(dir, l, models[k]);
    }
    ModulesLeaveOthers(f, dir, l, app, models, overwrite, render, p);
    GeneratedPathsAvoidSettings(dir, l, "");
  }

  /** The generation steps leave every file alone that is neither a layer
      module, a layer `__init__.py` (both one package deeper than the app)
      nor the app's `urls.py`. */
  lemma GeneratedKeepsOther(files: Files, dir: Path, app: string, models: seq<string>, overwrite: bool,
                            render: Render, p: Path)
    requires p in files && |p| != |dir| + 2 && p != UrlsPath(dir)
    ensures var g := Generated(files, dir, app, models, overwrite, render);
      p in g && g[p] == files[p]
  {
    PackagesTouchInits(files, dir, Layers);
    var f0 := Packages(files, dir, Layers);
    LayerLeavesOther(f0, dir, Serializers, app, models, overwrite, render, p);
    var f1 := WithLayer(f0, dir, Serializers, app, models, overwrite, render);
    LayerLeavesOther(f1, dir, Views, app, models, overwrite, render, p);
    var f2 := WithLayer(f1, dir, Views, app, models, overwrite, render);
    LayerLeavesOther(f2, dir, Services, app, models, overwrite, render, p);
  }

  lemma LayerLeavesOther(f: Files, dir: Path, l: Layer, app: string, models: seq<string>, overwrite: bool,
                         render: Render, p: Path)
    requires p in f && |p| != |dir| + 2
    ensures p in WithLayer(f, dir, l, app, models, overwrite, render)
    ensures WithLayer(f, dir, l, app, models, overwrite, render)[p] == f[p]
  {
    ModulesLeaveOthers(f, dir, l, app, models, overwrite, render, p);
  }

  // ---------------------------------------------------------------------------
  // The file system and the command

  /** The project on disk: file contents and the directories that exist. */
  class Disk {
    var files: Files
    var dirs: set<Path>

    constructor (files: Files, dirs: set<Path>)
      ensures this.files == files && this.dirs == dirs
    {
      this.files := files;
      this.dirs := dirs;
    }
  }

  /** The `createcrud` command, writing to one disk. */
  class CrudCommand {
    const disk: Disk

    constructor (disk: Disk)
      ensures this.disk == disk
    {
      this.disk := disk;
    }

    /** `create_directories`. */
    method CreateDirectories(dir: Path)
      modifies disk
      ensures disk.dirs == old(disk.dirs) + {PackageDir(dir, Serializers), PackageDir(dir, Views), PackageDir(dir, Services)}
      ensures disk.files == Packages(old(disk.files), dir, Layers)
    {
      ghost var dirs0, files0 := disk.dirs, disk.files;
      for i := 0 to |Layers|
        invariant disk.dirs == dirs0 + PackageDirs(dir, Layers[..i])
        invariant disk.files == Packages(files0, dir, Layers[..i])
      {
        AddPackage(dir, Layers[i]);
        PackagesSnoc(files0, dir, Layers[..i], Layers[i]);
        assert Layers[..i] + [Layers[i]] == Layers[..i + 1];
      }
      assert Layers[..|Layers|] == Layers;
      LayerPackageDirs(dir);
    }

    /** One pass of the loop above: the package directory, then an empty
        `__init__.py` unless there is one. */
    method AddPackage(dir: Path, l: Layer)
      modifies disk
      ensures disk.dirs == old(disk.dirs) + {PackageDir(dir, l)}
      ensures disk.files == Touch(old(disk.files), InitPath(dir, l))
    {
      disk.dirs := disk.dirs + {PackageDir(dir, l)};
      var init := InitPath(dir, l);
      if init !in disk.files {
        disk.files := disk.files[init := ""];
      }
    }

    /** `generate_serializers`, `generate_viewsets` and `generate_services`:
        one module per model, then the `__init__.py`. */
    method GenerateLayer(dir: Path, app: string, l: Layer, models: seq<string>, overwrite: bool, render: Render)
      modifies disk
      ensures disk.files == WithLayer(old(disk.files), dir, l, app, models, overwrite, render)
      ensures disk.dirs == old(disk.dirs)
    {
      WriteModules(dir, app, l, models, overwrite, render);
      var init := BuildInit(l, models);
      disk.files := disk.files[dir + [Package(l), "__init__.py"] := init];
    }

    /** The module loop of `GenerateLayer`. */
    method WriteModules(dir: Path, app: string, l: Layer, models: seq<string>, overwrite: bool, render: Render)
      modifies disk
      ensures disk.files == Modules(old(disk.files), dir, l, app, models, overwrite, render)
      ensures disk.dirs == old(disk.dirs)
    {
      ghost var start := disk.files;
      for i := 0 to |models|
        invariant disk.files == Modules(start, dir, l, app, models[..i], overwrite, render)
        invariant disk.dirs == old(disk.dirs)
      {
        var m := models[i];
        var file := dir + [Package(l), Lower(m) + ModuleSuffix(l) + ".py"];
        ghost var before := disk.files;
        ModulesSnoc(start, dir, l, app, models, overwrite, render, i);
        assert file == ModulePath(dir, l, m);
        if file !in disk.files || overwrite {
          disk.files := disk.files[file := render(l, app, m)];
        }
        assert disk.files == WriteUnlessKept(before, file, render(l, app, m), overwrite);
      }
      assert models[..|models|] == models;
    }

    /** `generate_urls`. */
    method GenerateUrls(dir: Path, app: string, models: seq<string>, overwrite: bool)
      modifies disk
      ensures disk.files == WriteUnlessKept(old(disk.files), UrlsPath(dir), Unlines(UrlsLines(app, models)), overwrite)
      ensures disk.dirs == old(disk.dirs)
    {
      var file := dir + ["urls.py"];
      if file in disk.files && !overwrite {
        return;
      }
      var content := BuildUrls(app, models);
      disk.files := disk.files[file := content];
    }

    /** `create_apps_config`. */
    method CreateAppsConfig(dir: Path, app: string, overwrite: bool)
      modifies disk
      ensures disk.files == WriteUnlessKept(old(disk.files), AppsPath(dir), Unlines(AppsConfigLines(app)), overwrite)
      ensures disk.dirs == old(disk.dirs)
    {
      var file := dir + ["apps.py"];
      if file in disk.files && !overwrite {
        return;
      }
      disk.files := disk.files[file := Unlines(AppsConfigLines(app))];
    }

    /** `add_to_installed_apps`. */
    method AddToInstalledApps(app: string)
      modifies disk
      ensures disk.files == WithApp(old(disk.files), app)
      ensures disk.dirs == old(disk.dirs)
    {
      if SettingsPath !in disk.files {
        return;
      }
      var content := disk.files[SettingsPath];
      if Contains(content, AppEntry(app)) {
        return;
      }
      disk.files := disk.files[SettingsPath := SubLists(content, "LOCAL_APPS", AppendApp(AppEntry(app)))];
    }

    /** `add_to_main_urls`. */
    method AddToMainUrls(app: string)
      modifies disk
      ensures disk.files == WithRoutes(old(disk.files), app)
      ensures disk.dirs == old(disk.dirs)
    {
      if MainUrlsPath !in disk.files {
        return;
      }
      var content := disk.files[MainUrlsPath];
      if Contains(content, ApiPrefix(app)) {
        return;
      }
      content := WithInclude(content);
      disk.files := disk.files[MainUrlsPath := SubLists(content, "urlpatterns", AppendUrl(UrlPattern(app)))];
    }

    /** `handle`: the checks, then every generation step in order. `parsed`
        is what reading and parsing the models file gave. */
    method Handle(app: string, modelsFile: Path, overwrite: bool, parsed: Result<Node, string>, render: Render)
      returns (r: Result<seq<string>, string>)
      modifies disk
      ensures r == Outcome(modelsFile in old(disk.files) || modelsFile in old(disk.dirs), modelsFile, parsed)
      ensures r.Err? ==> disk.files == old(disk.files) && disk.dirs == old(disk.dirs)
      ensures r.Ok? ==>
        var dir := AppDir(modelsFile);
        && disk.files == CrudFiles(old(disk.files), dir, app, r.value, overwrite, render)
        && disk.dirs == old(disk.dirs) + {PackageDir(dir, Serializers), PackageDir(dir, Views), PackageDir(dir, Services)}
    {
      if modelsFile !in disk.files && modelsFile !in disk.dirs {
        return Err("Models file '" + JoinPath(modelsFile) + "' does not exist");
      }
      if parsed.Err? {
        return Err("Error parsing models file: " + parsed.error);
      }
      var names, classes := ExtractModels(parsed.value);
      if |names| == 0 {
        return Err("No Django models found in '" + JoinPath(modelsFile) + "'");
      }
      var dir := if BaseName(Parent(modelsFile)) == "models" then Parent(Parent(modelsFile)) else Parent(modelsFile);
      CreateDirectories(dir);
      GenerateLayer(dir, app, Serializers, names, overwrite, render);
      GenerateLayer(dir, app, Views, names, overwrite, render);
      GenerateLayer(dir, app, Services, names, overwrite, render);
      GenerateUrls(dir, app, names, overwrite);
      CreateAppsConfig(dir, app, overwrite);
      AddToInstalledApps(app);
      AddToMainUrls(app);
      r := Ok(names);
    }
  }
}

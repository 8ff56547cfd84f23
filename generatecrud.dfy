/** The `generatecrud` command: generate the CRUD layers for an app that
    already exists under `apps/`, from the models its `models.py` declares. */
module GenerateCrud {
  import opened Common
  import opened CreateCrud
  import opened CrudFiles

  /** `apps/<app>`. */
  function AppPath(app: string): (p: Path)
    ensures |p| == 2 && p[1] == app
  {
    ["apps", app]
  }

  /** `apps/<app>/models.py`. */
  function ModelsPath(app: string): (p: Path)
    ensures p == AppPath(app) + ["models.py"]
  {
    ["apps", app, "models.py"]
  }

  /** Whether a path exists on disk, as a file or as a directory. */
  predicate Exists(files: Files, dirs: set<Path>, p: Path) {
    p in files || p in dirs
  }

  /** The checks of `handle`, in their order: the app directory, its
      `models.py`, the parse, and at least one model. On success, the model
      names in the order `extract_models` found them. */
  function GenerateOutcome(appExists: bool, modelsExists: bool, app: string, parsed: Result<Node, string>)
    : (r: Result<seq<string>, string>)
    ensures !appExists ==> r == Err("App \"apps/" + app + "\" does not exist")
    ensures appExists && !modelsExists ==> r == Err("models.py not found in apps/" + app + "/")
    ensures appExists && modelsExists && parsed.Err? ==> r == Err("Error parsing models file: " + parsed.error)
    ensures r.Ok? <==> appExists && modelsExists && parsed.Ok? && Collect(Walk(parsed.value)).0 != []
    ensures r.Ok? ==> r.value == Collect(Walk(parsed.value)).0
    ensures appExists && modelsExists && parsed.Ok? && !r.Ok? ==>
      r == Err("No Django models found in apps/" + app + "/models.py")
  {
    if !appExists then Err("App \"apps/" + app + "\" does not exist")
    else if !modelsExists then Err("models.py not found in apps/" + app + "/")
    else if parsed.Err? then Err("Error parsing models file: " + parsed.error)
    else
      var names := Collect(Walk(parsed.value)).0;
      if names == [] then Err("No Django models found in apps/" + app + "/models.py")
      else Ok(names)
  }

  /** How a run of `handle` ends. A check that fails raises `CommandError`
      with its message. Every run that passes the checks ends in an
      `AttributeError` at `generate_admin`, which the `createcrud` command
      does not define, with the model names it had found; there is no run
      that completes. */
  datatype Ending = CommandError(message: string) | AdminMissing(models: seq<string>)

  /** The ending of a run whose checks gave `o`. */
  function EndingOf(o: Result<seq<string>, string>): (e: Ending)
    ensures e.CommandError? <==> o.Err?
    ensures o.Err? ==> e.message == o.error
    ensures o.Ok? ==> e.models == o.value
  {
    match o
    case Err(message) => CommandError(message)
    case Ok(names) => AdminMissing(names)
  }

  /** A run that gets past the checks always stops at `generate_admin`,
      having found at least one model. */
  lemma NoRunCompletes(appExists: bool, modelsExists: bool, app: string, parsed: Result<Node, string>)
    ensures var e := EndingOf(GenerateOutcome(appExists, modelsExists, app, parsed));
      e.AdminMissing? <==> appExists && modelsExists && parsed.Ok? && Collect(Walk(parsed.value)).0 != []
    ensures var e := EndingOf(GenerateOutcome(appExists, modelsExists, app, parsed));
      e.AdminMissing? ==> e.models != []
  {
  }

  /** The app's `urls.py` is never one of the project's own modules. */
  lemma AppUrlsAvoidProject(app: string)
    ensures UrlsPath(AppPath(app)) != MainUrlsPath && UrlsPath(AppPath(app)) != SettingsPath
  {
    assert |UrlsPath(AppPath(app))| == 3;
    assert UrlsPath(AppPath(app))[2] == "urls.py";
  }

  /** A successful run leaves the settings module and the main URL
      configuration as they were: the app is neither registered in
      `INSTALLED_APPS` nor routed, because the run ends at the call of
      `generate_admin`, before those two steps. */
  lemma GenerationLeavesProject(files: Files, app: string, models: seq<string>, overwrite: bool, render: Render,
                                p: Path)
    requires p == SettingsPath || p == MainUrlsPath
    requires p in files
    ensures var g := Generated(files, AppPath(app), app, models, overwrite, render);
      p in g && g[p] == files[p]
  {
    AppUrlsAvoidProject(app);
    GeneratedKeeps(files, AppPath(app), app, models, overwrite, render, p);
  }

  /** With `--overwrite`, a successful run writes the app's `urls.py`
      afresh, routing every model found. */
  lemma GenerationWritesUrls(files: Files, app: string, models: seq<string>, render: Render)
    ensures var g := Generated(files, AppPath(app), app, models, true, render);
      UrlsPath(AppPath(app)) in g && g[UrlsPath(AppPath(app))] == Unlines(UrlsLines(app, models))
  {
    var dir := AppPath(app);
    var packaged := Packages(files, dir, Layers);
    var serializers := WithLayer(packaged, dir, Serializers, app, models, true, render);
    var views := WithLayer(serializers, dir, Views, app, models, true, render);
    var services := WithLayer(views, dir, Services, app, models, true, render);
    assert Generated(files, dir, app, models, true, render)
        == WriteUnlessKept(services, UrlsPath(dir), Unlines(UrlsLines(app, models)), true);
  }

  /** The `generatecrud` command, writing to one disk. */
  class GenerateCrudCommand {
    const disk: Disk

    constructor (disk: Disk)
      ensures this.disk == disk
    {
      this.disk := disk;
    }

    /** `handle`, up to the call of `generate_admin`, where every run that
        passes the checks stops. `parsed` is what reading and parsing
        `models.py` gave. */
    method Handle(app: string, overwrite: bool, parsed: Result<Node, string>, render: Render)
      returns (r: Ending)
      modifies disk
      ensures r == EndingOf(GenerateOutcome(Exists(old(disk.files), old(disk.dirs), AppPath(app)),
                                            Exists(old(disk.files), old(disk.dirs), ModelsPath(app)), app, parsed))
      ensures r.CommandError? ==> disk.files == old(disk.files) && disk.dirs == old(disk.dirs)
      ensures r.AdminMissing? ==>
        var dir := AppPath(app);
        && disk.files == Generated(old(disk.files), dir, app, r.models, overwrite, render)
        && disk.dirs == old(disk.dirs) + {PackageDir(dir, Serializers), PackageDir(dir, Views), PackageDir(dir, Services)}
    {
      var dir := ["apps", app];
      if dir !in disk.files && dir !in disk.dirs {
        return CommandError("App \"apps/" + app + "\" does not exist");
      }
      var modelsFile := dir + ["models.py"];
      if modelsFile !in disk.files && modelsFile !in disk.dirs {
        return CommandError("models.py not found in apps/" + app + "/");
      }
      if parsed.Err? {
        return CommandError("Error parsing models file: " + parsed.error);
      }
      var names, classes := ExtractModels(parsed.value);
      if |names| == 0 {
        return CommandError("No Django models found in apps/" + app + "/models.py");
      }
      var crud := new CrudCommand(disk);
      crud.CreateDirectories(dir);
      crud.GenerateLayer(dir, app, Serializers, names, overwrite, render);
      crud.GenerateLayer(dir, app, Views, names, overwrite, render);
      crud.GenerateLayer(dir, app, Services, names, overwrite, render);
      crud.GenerateUrls(dir, app, names, overwrite);
      // `crud_cmd.generate_admin(...)`: no such method, so the run ends here
      r := AdminMissing(names);
    }
  }
}
